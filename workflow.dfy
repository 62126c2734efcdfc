/** The classification-and-correction workflow of flaskr/app.py as a state
    machine over three pieces of state: the pending-booking store (the
    `bookings` collection), the session slot `session['value']` and the
    training corpus written by `write_csv`.  Each handler is a function from
    the state before to the state after and the reply; the class in
    service.dfy runs the same handlers imperatively. */
module Workflow {

  import opened Options
  import opened Records
  import opened Categories
  import opened Confidence

  /** A store identifier (the `_id` of a stored booking). */
  type Id = nat

  /** What a schema's `load` does with a payload: raise ValidationError, or
      return the deserialised booking with a dictionary of field errors. */
  datatype SchemaLoad =
    | Raises(messages: seq<string>)
    | Loaded(booking: Record, errors: map<string, seq<string>>)

  /** The classifier's probabilities: the string '0' that stands for "known
      creditor, no classification", or rows of numbers. */
  datatype Probabilities = Sentinel | Rows(rows: seq<Row>)

  datatype Classification = Classification(category: string, probs: Probabilities)

  /** The collaborators whose code is not part of this model: the two
      schemas and the classifier. */
  datatype Collaborators = Collaborators(
    loadBooking: Record -> SchemaLoad,
    loadCategorised: Record -> SchemaLoad,
    classify: Record -> Classification)

  /** The confidence shown on a page: the string 'n/a', or the probability
      it is computed from (before rounding and scaling to per cent). */
  datatype Shown = NotApplicable | Score(p: real)

  /** The handler's response. */
  datatype Reply =
    | ResultPage(category: string, prob: Shown)     // result.html
    | FeedbackPage(category: string, prob: Shown)   // feedback.html
    | BadRequestPage                                // 400.html with status 400
    | NotFoundPage                                  // 404.html with status 404
    | Text(body: string)                            // a plain body
    | Unhandled                                     // an exception escapes the handler

  /** The HTTP status: 200 by default, 500 when an exception escapes. */
  function Status(r: Reply): (code: int)
    ensures code in {200, 400, 404, 500}
  {
    match r
    case BadRequestPage => 400
    case NotFoundPage => 404
    case Unhandled => 500
    case _ => 200
  }

  /** The three pieces of state; `nextId` is where fresh identifiers come from. */
  datatype World = World(store: map<Id, Record>, nextId: Id, session: Option<Id>, corpus: seq<Record>)

  /** Every stored identifier was handed out, and the session refers to a
      stored booking. */
  ghost predicate WellFormed(w: World)
  {
    && (forall id :: id in w.store ==> id < w.nextId)
    && (w.session.Some? ==> w.session.value in w.store)
  }

  datatype Outcome = Outcome(after: World, reply: Reply)

  /** Store a pending booking under a fresh identifier and remember it in the
      session. */
  function Park(w: World, data: Record): World
  {
    World(w.store[w.nextId := data], w.nextId + 1, Some(w.nextId), w.corpus)
  }

  /** What `categorize` makes of a payload before it touches any state:
      a missing optional field (KeyError), a ValidationError, rows from which
      `max` cannot pick a confidence (ValueError), or the classification to
      show, with the normalised payload. */
  datatype Verdict =
    | MissingField
    | Invalid
    | NoConfidence
    | Show(data: Record, category: string, prob: Shown)

  /** Lines 46-76 and 85 of `categorize`: normalise, then assess. */
  function Judge(env: Collaborators, req: Record): Verdict
  {
    match Normalised(req)
    case None => MissingField
    case Some(data) => Assess(env, data)
  }

  /** Lines 60-76 and 85: validate the normalised payload (field errors are
      ignored), classify it, and pick the confidence to show. */
  function Assess(env: Collaborators, data: Record): Verdict
  {
    match env.loadBooking(data)
    case Raises(_) => Invalid
    case Loaded(booking, _) =>
      var c := env.classify(booking);
      var fallback := c.category == FallbackName;
      match c.probs
      case Sentinel =>
        // on the feedback page max(max('0')) is the string '0', read as 0
        Show(data, c.category, if fallback then Score(0.0) else NotApplicable)
      case Rows(rows) =>
        match TopConfidence(rows)
        case None => NoConfidence
        case Some(p) => Show(data, c.category, Score(p))
  }

  /** `categorize`: render the verdict; on the fallback category park the
      normalised payload and show the feedback page. */
  function CategorizeStep(env: Collaborators, w: World, req: Record): Outcome
  {
    match Judge(env, req)
    case MissingField => Outcome(w, Unhandled)
    case Invalid => Outcome(w, BadRequestPage)
    case NoConfidence => Outcome(w, Unhandled)
    case Show(data, category, prob) =>
      if category == FallbackName then Outcome(Park(w, data), FeedbackPage(WellFormedCategory(category), prob))
      else Outcome(w, ResultPage(WellFormedCategory(category), prob))
  }

  /** The payload is parked: it is complete, it loads, the classifier gives
      exactly the fallback name and a confidence can be shown. */
  predicate Parks(env: Collaborators, req: Record)
  {
    Judge(env, req).Show? && Judge(env, req).category == FallbackName
  }

  /** `add_booking`: validate; write the booking only when there are no field
      errors.  A ValidationError raised by `load` is not caught here. */
  function AddBookingStep(env: Collaborators, w: World, payload: Record): Outcome
  {
    match env.loadBooking(payload)
    case Raises(_) => Outcome(w, Unhandled)
    case Loaded(booking, errors) =>
      if errors != map[] then Outcome(w, NotFoundPage)
      else Outcome(w.(corpus := w.corpus + [booking]), Text("booking added"))
  }

  /** `feedback`: with a `category` field in the form, look the session's
      booking up and hand it, as stored, to `add_booking`, whose reply is
      dropped.  Reading `session['value']` raises when the slot is empty. */
  function FeedbackStep(env: Collaborators, w: World, form: map<string, string>): Outcome
  {
    match w.session
    case None => Outcome(w, Unhandled)
    case Some(id) =>
      if "category" in form && id in w.store then
        var added := AddBookingStep(env, w, w.store[id]);
        if added.reply == Unhandled then added else Outcome(added.after, Text("Feedback sent"))
      else Outcome(w, Text("Feedback sent"))
  }

  /** `correct_booking`: validate against the categorised schema (a
      ValidationError gives 400), decode the session cookie and read its
      `value` (with no booking in the session this raises and is not
      caught), look the pending booking up without using it, and write the
      validated payload. */
  function CorrectBookingStep(env: Collaborators, w: World, payload: Record): Outcome
  {
    match env.loadCategorised(payload)
    case Raises(_) => Outcome(w, BadRequestPage)
    case Loaded(booking, _) =>
      if w.session.None? then Outcome(w, Unhandled)
      else Outcome(w.(corpus := w.corpus + [booking]), Text("ok"))
  }

  // ---------------------------------------------------------------------
  // categorize

  /** Where `categorize` stops early: KeyError exactly when an optional field
      is missing, ValidationError exactly when the complete payload does not
      load, ValueError exactly when no confidence can be taken from the rows. */
  lemma JudgeErrors(env: Collaborators, req: Record)
    ensures Judge(env, req) == MissingField <==> Normalised(req).None?
    ensures Judge(env, req) == Invalid <==> Normalised(req).Some? && env.loadBooking(Normalised(req).value).Raises?
    ensures Judge(env, req) == NoConfidence <==>
              && Normalised(req).Some?
              && env.loadBooking(Normalised(req).value).Loaded?
              && var c := env.classify(env.loadBooking(Normalised(req).value).booking);
              && c.probs.Rows? && TopConfidence(c.probs.rows).None?
  {
  }

  /** What `categorize` shows: the normalised payload, the classifier's
      category, the fallback test on its exact spelling, and the confidence:
      'n/a' for the sentinel unless it is the fallback (then 0), and
      `max(max(rows))` otherwise. */
  lemma JudgeShows(env: Collaborators, req: Record)
    requires Judge(env, req).Show?
    ensures var j := Judge(env, req);
      && Normalised(req) == Some(j.data)
      && env.loadBooking(j.data).Loaded?
      && var c := env.classify(env.loadBooking(j.data).booking);
      && j.category == c.category
      && (c.probs.Sentinel? ==> j.prob == if c.category == FallbackName then Score(0.0) else NotApplicable)
      && (c.probs.Rows? ==> TopConfidence(c.probs.rows).Some? && j.prob == Score(TopConfidence(c.probs.rows).value))
  {
  }

  /** `categorize` never writes the corpus. */
  lemma CategorizeKeepsCorpus(env: Collaborators, w: World, req: Record)
    ensures CategorizeStep(env, w, req).after.corpus == w.corpus
  {
  }

  /** When `categorize` parks the payload it adds exactly one record, the
      normalised payload, under an identifier that was free, and puts that
      identifier in the session, so the booking can be found from it. */
  lemma CategorizeParks(env: Collaborators, w: World, req: Record)
    requires WellFormed(w) && Parks(env, req)
    ensures var after := CategorizeStep(env, w, req).after;
      && w.nextId !in w.store
      && after.store == w.store[w.nextId := Normalised(req).value]
      && after.session == Some(w.nextId)
      && after.store[after.session.value] == Normalised(req).value
  {
    var j := Judge(env, req);
    assert j.data == Normalised(req).value;
    assert CategorizeStep(env, w, req).after == Park(w, j.data);
  }

  /** Otherwise the store, the session and the corpus are unchanged. */
  lemma CategorizeOtherwiseUnchanged(env: Collaborators, w: World, req: Record)
    requires !Parks(env, req)
    ensures CategorizeStep(env, w, req).after == w
  {
  }

  /** The feedback page comes exactly with a parked payload. */
  lemma CategorizeFeedbackPage(env: Collaborators, w: World, req: Record)
    ensures Parks(env, req) <==> CategorizeStep(env, w, req).reply.FeedbackPage?
  {
  }

  /** A page shows the mapped category and the verdict's confidence. */
  lemma CategorizeShows(env: Collaborators, w: World, req: Record)
    requires Judge(env, req).Show?
    ensures var r := CategorizeStep(env, w, req).reply;
      && (r.ResultPage? || r.FeedbackPage?)
      && r.category == WellFormedCategory(Judge(env, req).category)
      && r.prob == Judge(env, req).prob
  {
  }

  /** The feedback page always shows the fallback label. */
  lemma CategorizeFeedbackLabel(env: Collaborators, w: World, req: Record)
    ensures CategorizeStep(env, w, req).reply.FeedbackPage? ==>
            CategorizeStep(env, w, req).reply.category == "Sonstiges"
  {
    var j := Judge(env, req);
    if j.Show? && j.category == FallbackName {
      WellFormedCategoryOfFallback(j.category);
    }
  }

  /** 400 comes exactly from a ValidationError, and an exception escapes
      exactly on a missing field or an undefined confidence (see JudgeErrors
      for when each happens). */
  lemma CategorizeErrors(env: Collaborators, w: World, req: Record)
    ensures var r := CategorizeStep(env, w, req).reply;
      && (r == BadRequestPage <==> Judge(env, req) == Invalid)
      && (r == Unhandled <==> Judge(env, req) in {MissingField, NoConfidence})
      && (Judge(env, req).Show? <==> Status(r) == 200)
      && Status(r) in {200, 400, 500}
  {
  }

  /** The fallback test is case-sensitive although the label mapping is not:
      a classifier answer "sonstiges" is shown as "Sonstiges" but nothing is
      parked. */
  lemma CategorizeFallbackCaseSensitive(env: Collaborators, w: World, req: Record)
    requires Normalised(req).Some? && env.loadBooking(Normalised(req).value).Loaded?
    requires env.classify(env.loadBooking(Normalised(req).value).booking).category == "sonstiges"
    ensures CategorizeStep(env, w, req).after == w
    ensures CategorizeStep(env, w, req).reply.ResultPage? ==>
            CategorizeStep(env, w, req).reply.category == "Sonstiges"
  {
    var j := Judge(env, req);
    WellFormedCategoryLowerFallback(env.classify(env.loadBooking(Normalised(req).value).booking).category);
    if j.Show? {
      assert j.category == "sonstiges";
      assert CategorizeStep(env, w, req) == Outcome(w, ResultPage(WellFormedCategory(j.category), j.prob));
    }
  }

  // ---------------------------------------------------------------------
  // add_booking

  /** `add_booking` leaves the store and session alone and appends exactly
      one row, the loaded booking, when and only when the load reports no
      errors; field errors give 404 and a raised ValidationError escapes. */
  lemma AddBookingEffects(env: Collaborators, w: World, payload: Record)
    ensures var o := AddBookingStep(env, w, payload);
      && o.after.store == w.store && o.after.session == w.session && o.after.nextId == w.nextId
      && w.corpus <= o.after.corpus
      && (o.after.corpus != w.corpus <==> env.loadBooking(payload).Loaded? && env.loadBooking(payload).errors == map[])
      && (o.after.corpus != w.corpus ==> o.after.corpus == w.corpus + [env.loadBooking(payload).booking])
      && (o.reply == NotFoundPage <==> env.loadBooking(payload).Loaded? && env.loadBooking(payload).errors != map[])
      && (o.reply == Unhandled <==> env.loadBooking(payload).Raises?)
      && (o.reply == Text("booking added") <==> env.loadBooking(payload).Loaded? && env.loadBooking(payload).errors == map[])
      && Status(o.reply) == (if env.loadBooking(payload).Raises? then 500
                             else if env.loadBooking(payload).errors != map[] then 404 else 200)
  {
  }

  /** There is no de-duplication: submitting the same valid payload twice
      appends the same row twice. */
  lemma AddBookingTwice(env: Collaborators, w: World, payload: Record)
    requires env.loadBooking(payload).Loaded? && env.loadBooking(payload).errors == map[]
    ensures var b := env.loadBooking(payload).booking;
      AddBookingStep(env, AddBookingStep(env, w, payload).after, payload).after.corpus == w.corpus + [b, b]
  {
    var b := env.loadBooking(payload).booking;
    assert w.corpus + [b] + [b] == w.corpus + [b, b];
  }

  // ---------------------------------------------------------------------
  // feedback

  /** `feedback` never touches the store or the session.  Without a session
      it raises.  With one it hands the stored booking to `add_booking` when
      the form has `category` and the booking is found, and then writes what
      `add_booking` writes; otherwise it writes nothing.  It acknowledges
      unless `add_booking` raises. */
  lemma FeedbackEffects(env: Collaborators, w: World, form: map<string, string>)
    ensures var o := FeedbackStep(env, w, form);
      && o.after.store == w.store && o.after.session == w.session && o.after.nextId == w.nextId
      && (w.session.None? ==> o == Outcome(w, Unhandled))
      && (w.session.Some? ==> o.reply in {Text("Feedback sent"), Unhandled})
      && (w.session.Some? ==>
            (o.reply == Unhandled <==>
               "category" in form && w.session.value in w.store && env.loadBooking(w.store[w.session.value]).Raises?))
      && (w.session.Some? && "category" in form && w.session.value in w.store ==>
            o.after.corpus == AddBookingStep(env, w, w.store[w.session.value]).after.corpus)
      && (o.after.corpus != w.corpus ==>
            && "category" in form && w.session.Some? && w.session.value in w.store
            && o.after.corpus == w.corpus + [env.loadBooking(w.store[w.session.value]).booking])
      && ("category" !in form ==> o.after == w)
  {
    if w.session.Some? && "category" in form && w.session.value in w.store {
      AddBookingEffects(env, w, w.store[w.session.value]);
    }
  }

  /** The submitted category is read but never used: two forms that agree on
      whether they carry `category` have the same effect. */
  lemma FeedbackIgnoresCategory(env: Collaborators, w: World, form1: map<string, string>, form2: map<string, string>)
    requires "category" in form1 <==> "category" in form2
    ensures FeedbackStep(env, w, form1) == FeedbackStep(env, w, form2)
  {
  }

  // ---------------------------------------------------------------------
  // correct_booking

  /** `correct_booking` treats the store and the session as read-only.  A
      ValidationError gives 400; with no booking in the session the cookie
      lookup raises (500); both leave the corpus alone.  Otherwise it appends
      exactly the validated booking and answers 'ok'. */
  lemma CorrectBookingEffects(env: Collaborators, w: World, payload: Record)
    ensures var o := CorrectBookingStep(env, w, payload);
      && o.after.store == w.store && o.after.session == w.session && o.after.nextId == w.nextId
      && (o.reply == BadRequestPage <==> env.loadCategorised(payload).Raises?)
      && (o.reply == Unhandled <==> env.loadCategorised(payload).Loaded? && w.session.None?)
      && (o.reply == Text("ok") <==> env.loadCategorised(payload).Loaded? && w.session.Some?)
      && (o.reply == Text("ok") ==> o.after.corpus == w.corpus + [env.loadCategorised(payload).booking])
      && (o.reply != Text("ok") ==> o.after.corpus == w.corpus)
  {
  }

  /** Whether the pending booking is found does not matter: the outcome is
      the same whatever the store holds. */
  lemma CorrectBookingIgnoresLookup(env: Collaborators, w: World, store: map<Id, Record>, payload: Record)
    ensures CorrectBookingStep(env, w.(store := store), payload).reply == CorrectBookingStep(env, w, payload).reply
    ensures CorrectBookingStep(env, w.(store := store), payload).after.corpus == CorrectBookingStep(env, w, payload).after.corpus
  {
  }

  // ---------------------------------------------------------------------
  // the invariant

  /** Every handler keeps the store's identifiers below `nextId` and the
      session pointing at a stored booking. */
  lemma StepsPreserveWellFormed(env: Collaborators, w: World, req: Record, form: map<string, string>)
    requires WellFormed(w)
    ensures WellFormed(CategorizeStep(env, w, req).after)
    ensures WellFormed(AddBookingStep(env, w, req).after)
    ensures WellFormed(FeedbackStep(env, w, form).after)
    ensures WellFormed(CorrectBookingStep(env, w, req).after)
  {
    if Parks(env, req) {
      CategorizeParks(env, w, req);
    } else {
      CategorizeOtherwiseUnchanged(env, w, req);
    }
    FeedbackEffects(env, w, form);
  }

  // ---------------------------------------------------------------------
  // a whole round

  /** A parked booking followed by feedback with a category writes that
      booking, as loaded, to the corpus; the feedback's category is dropped. */
  lemma ParkThenFeedback(env: Collaborators, w: World, req: Record, form: map<string, string>)
    requires WellFormed(w) && Parks(env, req) && "category" in form
    requires var data := Normalised(req).value;
      env.loadBooking(data).Loaded? && env.loadBooking(data).errors == map[]
    ensures var parked := CategorizeStep(env, w, req).after;
      var o := FeedbackStep(env, parked, form);
      && o.reply == Text("Feedback sent")
      && o.after.corpus == w.corpus + [env.loadBooking(Normalised(req).value).booking]
  {
    CategorizeParks(env, w, req);
    CategorizeKeepsCorpus(env, w, req);
  }

  /** A parked booking followed by a valid correction writes the correction,
      not the parked booking: parking put the booking in the session, so the
      cookie lookup succeeds. */
  lemma ParkThenCorrect(env: Collaborators, w: World, req: Record, payload: Record)
    requires WellFormed(w) && Parks(env, req)
    requires env.loadCategorised(payload).Loaded?
    ensures var parked := CategorizeStep(env, w, req).after;
      var o := CorrectBookingStep(env, parked, payload);
      && o.reply == Text("ok")
      && o.after.corpus == w.corpus + [env.loadCategorised(payload).booking]
      && o.after.store == parked.store
  {
    CategorizeParks(env, w, req);
    CategorizeKeepsCorpus(env, w, req);
  }

  /** Without a parked booking in the session a correction raises and writes
      nothing, however valid it is. */
  lemma CorrectWithoutSession(env: Collaborators, w: World, payload: Record)
    requires w.session.None? && env.loadCategorised(payload).Loaded?
    ensures CorrectBookingStep(env, w, payload) == Outcome(w, Unhandled)
  {
  }
}
