/** The request handlers of flaskr/app.py as methods on one object that holds
    the pending-booking store, the session slot and the training corpus.
    Each method does what the handler does, step by step, and is proved to
    end in the state and reply that the matching function of Workflow
    gives. */
module Service {

  import opened Options
  import opened Records
  import opened Categories
  import opened Confidence
  import opened Workflow

  class BookingService {
    /** The schemas and the classifier. */
    const env: Collaborators
    /** The `bookings` collection. */
    var store: map<Id, Record>
    /** The next identifier to hand out; every stored one is below it. */
    var nextId: Id
    /** `session['value']`. */
    var session: Option<Id>
    /** The rows written by `write_csv`, oldest first. */
    var corpus: seq<Record>

    ghost function State(): World
      reads this
    {
      World(store, nextId, session, corpus)
    }

    ghost predicate Valid()
      reads this
    {
      WellFormed(State())
    }

    /** A fresh client of the service: the `bookings` collection and the
        corpus may already hold records, `nextId` is above every stored
        identifier, and the client's session is empty. */
    constructor (env: Collaborators, store: map<Id, Record>, nextId: Id, corpus: seq<Record>)
      requires forall id :: id in store ==> id < nextId
      ensures Valid() && this.env == env
      ensures this.store == store && this.nextId == nextId && session == None && this.corpus == corpus
    {
      this.env := env;
      this.store, this.nextId, this.session, this.corpus := store, nextId, None, corpus;
    }

    /** `categorize`, lines 45-91. */
    method Categorize(req: Record) returns (reply: Reply)
      requires Valid()
      modifies this
      ensures Valid()
      ensures Outcome(State(), reply) == CategorizeStep(env, old(State()), req)
    {
      // Lines 48-57; indexing a missing field raises KeyError.
      var normalised := NormaliseOptionalFields(req);
      if normalised.None? {
        assert Judge(env, req) == MissingField;
        return Unhandled;
      }
      var data := normalised.value;
      assert Judge(env, req) == Assess(env, data);

      // Lines 60-89; field errors returned by load are ignored.
      var loaded := env.loadBooking(data);
      if loaded.Raises? {
        assert Assess(env, data) == Invalid;
        return BadRequestPage;
      }
      var c := env.classify(loaded.booking);
      var shownName := WellFormedCategory(c.category);
      var prob: Shown;
      if c.probs.Sentinel? {
        prob := NotApplicable;
      } else {
        var top := TopConfidence(c.probs.rows);
        if top.None? {
          // max() of an empty sequence raises ValueError
          assert Assess(env, data) == NoConfidence;
          return Unhandled;
        }
        prob := Score(top.value);
      }
      if c.category == FallbackName {
        SavePending(data);
        // for the sentinel, max(max('0')) is the string '0', read back as 0
        var fallbackProb := if c.probs.Sentinel? then Score(0.0) else prob;
        assert Assess(env, data) == Show(data, c.category, fallbackProb);
        reply := FeedbackPage(shownName, fallbackProb);
      } else {
        assert Assess(env, data) == Show(data, c.category, prob);
        reply := ResultPage(shownName, prob);
      }
    }

    /** Lines 81-84: insert the booking under a fresh identifier and keep that
        identifier in the session. */
    method SavePending(data: Record)
      requires Valid()
      modifies this
      ensures Valid()
      ensures State() == Park(old(State()), data)
    {
      var id := nextId;
      store := store[id := data];
      nextId := nextId + 1;
      session := Some(id);
    }

    /** `add_booking`, lines 139-153, given the payload it loads: the
        record passed in by `feedback`, or the request's JSON. */
    method AddBooking(payload: Record) returns (reply: Reply)
      requires Valid()
      modifies this`corpus
      ensures Valid()
      ensures corpus == AddBookingStep(env, old(State()), payload).after.corpus
      ensures reply == AddBookingStep(env, old(State()), payload).reply
    {
      var loaded := env.loadBooking(payload);
      if loaded.Raises? {
        // a ValidationError is not caught here
        return Unhandled;
      }
      if loaded.errors != map[] {
        return NotFoundPage;
      }
      corpus := corpus + [loaded.booking];
      reply := Text("booking added");
    }

    /** `feedback`, lines 157-172.  The submitted category is only tested
        for presence. */
    method Feedback(form: map<string, string>) returns (reply: Reply)
      requires Valid()
      modifies this`corpus
      ensures Valid()
      ensures corpus == FeedbackStep(env, old(State()), form).after.corpus
      ensures reply == FeedbackStep(env, old(State()), form).reply
    {
      if session.None? {
        // session['value'] raises KeyError
        return Unhandled;
      }
      var bookingId := session.value;
      if "category" in form && bookingId in store {
        var added := AddBooking(store[bookingId]);
        if added == Unhandled {
          return Unhandled;
        }
      }
      reply := Text("Feedback sent");
    }

    /** `correct_booking`, lines 110-135.  The session cookie is decoded
        with the key, salt and serializer of Flask's own session, so, within
        the session's lifetime, what it yields is the session slot.  The
        pending booking is looked up but
        the lookup's result is not used. */
    method CorrectBooking(payload: Record) returns (reply: Reply)
      requires Valid()
      modifies this`corpus
      ensures Valid()
      ensures corpus == CorrectBookingStep(env, old(State()), payload).after.corpus
      ensures reply == CorrectBookingStep(env, old(State()), payload).reply
    {
      var loaded := env.loadCategorised(payload);
      if loaded.Raises? {
        return BadRequestPage;
      }
      if session.None? {
        // s.loads of a missing cookie, or session_data['value'], raises
        return Unhandled;
      }
      corpus := corpus + [loaded.booking];
      reply := Text("ok");
    }
  }
}
