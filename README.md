# Booking classification and correction workflow

A Dafny model of the request handlers in `flaskr/app.py`. The service takes
a bank booking as a JSON payload, blanks its empty optional fields, and
validates it against a schema. It then asks a classifier for a spending
category and a table of probabilities, and renders the category label and
a confidence. A booking the classifier cannot place (category `SONSTIGES`)
is parked in the `bookings` collection. Its identifier is kept in the
session so that the user's feedback can later put it into the training
corpus, a CSV file. A separate handler writes a corrected, categorised
booking to the corpus directly.

The model covers three pieces of state:

- the pending-booking store: a map from identifier to record, with fresh
  identifiers drawn from a counter;
- the session slot `session['value']`: an optional identifier;
- the training corpus: a sequence that is only ever appended to.

The model is split into modules:

- `Categories` (categories.dfy) covers `well_formed_category`, Python's
  `str.upper`, and the names and labels of the categories.
- `Records` (records.dfy) covers JSON values, Python truthiness, and the
  normalisation of the optional fields.
- `Confidence` (confidence.dfy) covers `max(max(probabilities))`: Python's
  `max`, which keeps the first greatest element, over rows ordered
  lexicographically.
- `Workflow` (workflow.dfy) gives each handler as a function from the state
  before to the state after plus the reply. It also holds the lemmas about
  the handlers.
- `Service` (service.dfy) has the class `BookingService`. Its fields are
  the three pieces of state, and its methods run the handlers step by step.
  Each method is proved to end in exactly the state and reply that its
  `Workflow` function gives.

The schemas and the classifier are parameters (`Workflow.Collaborators`).
An exception that escapes a handler is the reply `Unhandled`, which means
status 500. Examples are a `KeyError` on a missing field, a `ValueError`
from `max` of an empty list, and a correction sent without a parked
booking in the session.

## Model

| member | source | states |
|---|---|---|
| Categories.UpperChar | flaskr/app.py:176 | Python's `str.upper` on one character (no contract of its own; see UpperCharIsFixed) |
| Categories.Upper | flaskr/app.py:176 | `category.upper()` character by character (no contract of its own; see UpperIdempotent and UpperOfAscii) |
| Categories.WellFormedCategory | flaskr/app.py:175-191 | the label is always one of the eight display labels, and any label other than 'Sonstiges' comes from an upper-cased input other than `SONSTIGES` |
| Categories.Recognise | flaskr/app.py:175-191 | reference reading of the mapping: a named category whose name is the upper-cased input, otherwise the fallback, and then no name matches |
| Categories.NamesAndLabelsDistinct | flaskr/app.py:175-191 | the seven names and the eight labels are each one-to-one |
| Categories.WellFormedCategoryIsTable | flaskr/app.py:175-191 | the if-chain equals the table lookup: the label of the category the upper-cased input names, else 'Sonstiges' |
| Categories.WellFormedCategoryKnown | flaskr/app.py:176-189 | for each of the seven categories, its label is returned exactly when the upper-cased input is its name |
| Categories.WellFormedCategoryFallback | flaskr/app.py:190-191 | 'Sonstiges' is returned exactly when the upper-cased input is none of the seven names |
| Categories.WellFormedCategoryCaseInsensitive | flaskr/app.py:176 | the label depends only on the upper-cased input |
| Categories.UpperIdempotent | flaskr/app.py:176 | upper-casing twice is upper-casing once |
| Categories.UpperCharIsFixed | flaskr/app.py:176 | the upper case of a character is non-empty and made of characters that upper-casing keeps |
| Categories.UpperOfFixed | flaskr/app.py:176 | a string of such characters is its own upper case |
| Categories.UpperOfAppend | flaskr/app.py:176 | upper-casing distributes over concatenation |
| Categories.UpperOfAscii | flaskr/app.py:176 | on ASCII text, upper-casing keeps the length and maps character by character |
| Categories.NameIsUpperCase | flaskr/app.py:176-189 | every enum name is in characters that upper-casing keeps |
| Categories.FirstNamesBelowLowerCase | flaskr/app.py:176-183 | the first four names contain no character from 'a' upwards |
| Categories.LastNamesBelowLowerCase | flaskr/app.py:184-191 | the other names contain no character from 'a' upwards |
| Categories.WellFormedCategoryOfName | flaskr/app.py:175-191 | each category's own name maps to its label, and `SONSTIGES` maps to 'Sonstiges' |
| Categories.WellFormedCategoryLowerCase | flaskr/app.py:176-177 | 'barentnahme' is shown as 'Barentnahme' |
| Categories.WellFormedCategoryMixedCase | flaskr/app.py:188-189 | 'WohnenHaushalt' is shown as 'Wohnen & Haushalt' |
| Categories.WellFormedCategoryOfFallback | flaskr/app.py:190-191 | `SONSTIGES` is shown as 'Sonstiges' |
| Categories.WellFormedCategoryLowerFallback | flaskr/app.py:77 | 'sonstiges' differs from the fallback name, yet is shown as 'Sonstiges' |
| Categories.WellFormedCategoryEmpty | flaskr/app.py:190-191 | the empty string is shown as 'Sonstiges' |
| Records.Falsy | flaskr/app.py:48-57 | Python's `not v` on a JSON value (no contract of its own) |
| Records.BlankFalsy | flaskr/app.py:48-57 | the chain `if not d[k]: d[k] = None` over a list of fields (no contract of its own; see BlankFalsyMeaning) |
| Records.Normalised | flaskr/app.py:48-57 | that chain over the five optional fields (no contract of its own; see NormalisedChangesOnlyFalsyOptionals) |
| Records.BlankFalsyMeaning | flaskr/app.py:48-57 | the chain of `if not d[k]: d[k] = None` fails exactly when a listed field is missing; otherwise it keeps the keys, sets each falsy listed field to None, and keeps every other value |
| Records.NormalisedChangesOnlyFalsyOptionals | flaskr/app.py:48-57 | normalisation fails exactly when one of `booking_date`, `valuta_date`, `creditor_id`, `iban`, `bic` is missing; otherwise only falsy values among those five become None and every other key and value is kept |
| Records.NormaliseOptionalFields | flaskr/app.py:48-57 | the five in-place statements compute the normalised payload, or report the KeyError |
| Records.BlankFalsyIdempotent | flaskr/app.py:48-57 | blanking falsy fields twice is blanking them once |
| Records.NormalisedIdempotent | flaskr/app.py:48-57 | normalising a normalised payload changes nothing |
| Confidence.LexLessIrreflexive | flaskr/app.py:76 | no row is smaller than itself in Python's list order |
| Confidence.LexLessTransitive | flaskr/app.py:76 | Python's list order is transitive |
| Confidence.LexLessTotal | flaskr/app.py:76 | any two different rows are ordered one way or the other |
| Confidence.RowMax | flaskr/app.py:76 | the inner `max` is an entry of the row and at least every entry |
| Confidence.LexMax | flaskr/app.py:76 | the outer `max` is one of the rows and at least every row in list order |
| Confidence.TopConfidence | flaskr/app.py:75-76 | `max(max(rows))`, None where it raises ValueError (no contract of its own; see TopConfidenceDefined and TopConfidenceBounds) |
| Confidence.TopConfidenceDefined | flaskr/app.py:75-76 | `max(max(rows))` is undefined (ValueError) exactly when every row is empty, including when there are no rows |
| Confidence.TopConfidenceBounds | flaskr/app.py:75-76 | the confidence is the largest entry of a row that is greatest in list order, and at least the first entry of every non-empty row |
| Confidence.TopConfidenceSingleRow | flaskr/app.py:75-76 | for one row, the confidence is that row's maximum |
| Confidence.TopConfidenceExample | flaskr/app.py:75-76 | [[0.1, 0.82, 0.08]] gives 0.82 |
| Confidence.TopConfidenceNotGlobalMaximum | flaskr/app.py:75-76 | [[0.5, 0.1], [0.4, 0.9]] gives 0.5, not the overall maximum 0.9 |
| Workflow.Status | flaskr/app.py:89 | every reply has status 200, 400, 404 or 500 |
| Workflow.Park | flaskr/app.py:80-83 | insert under the next identifier and keep it in the session (no contract of its own; see CategorizeParks) |
| Workflow.Judge | flaskr/app.py:48-85 | what `categorize` decides before touching state (no contract of its own; see JudgeErrors and JudgeShows) |
| Workflow.Assess | flaskr/app.py:60-85 | validation, classification and confidence of a normalised payload (no contract of its own; see JudgeErrors and JudgeShows) |
| Workflow.CategorizeStep | flaskr/app.py:45-91 | `categorize` as a state transition (no contract of its own; see the Categorize lemmas) |
| Workflow.AddBookingStep | flaskr/app.py:139-153 | `add_booking` as a state transition (no contract of its own; see AddBookingEffects) |
| Workflow.FeedbackStep | flaskr/app.py:157-172 | `feedback` as a state transition (no contract of its own; see FeedbackEffects) |
| Workflow.CorrectBookingStep | flaskr/app.py:110-135 | `correct_booking` as a state transition (no contract of its own; see CorrectBookingEffects) |
| Workflow.JudgeErrors | flaskr/app.py:48-89 | `categorize` stops with a KeyError exactly on a missing optional field, with a ValidationError exactly when the normalised payload does not load, and with a ValueError exactly when `max` has no entry to pick |
| Workflow.JudgeShows | flaskr/app.py:60-85 | a shown result carries the normalised payload and the classifier's category; for the sentinel '0' its confidence is 'n/a', or 0 on the feedback page; otherwise it is `max(max(rows))` |
| Workflow.CategorizeKeepsCorpus | flaskr/app.py:45-91 | `categorize` never writes the corpus |
| Workflow.CategorizeParks | flaskr/app.py:77-83 | on the fallback category, exactly one record is inserted: the normalised payload, under an identifier not yet in the store. The session then holds that identifier |
| Workflow.CategorizeOtherwiseUnchanged | flaskr/app.py:77 | in every other case the store, the session and the corpus are unchanged |
| Workflow.CategorizeFeedbackPage | flaskr/app.py:77-85 | the feedback page is rendered exactly when the payload is parked |
| Workflow.CategorizeShows | flaskr/app.py:65-85 | a rendered page shows the mapped label of the classifier's category and the chosen confidence |
| Workflow.CategorizeFeedbackLabel | flaskr/app.py:84 | the feedback page always shows 'Sonstiges' |
| Workflow.CategorizeErrors | flaskr/app.py:60-91 | status 400 comes exactly from a ValidationError, and status 500 exactly from a missing field or an undefined confidence. A page is rendered (200) exactly when there is a verdict to show, and no other status occurs |
| Workflow.CategorizeFallbackCaseSensitive | flaskr/app.py:77 | a classifier answer 'sonstiges' is shown as 'Sonstiges' but nothing is parked |
| Workflow.AddBookingEffects | flaskr/app.py:139-153 | store and session are untouched; exactly one row, the loaded booking, is appended exactly when the load reports no errors, and then the reply is 'booking added' with 200; field errors give 404; a raised ValidationError escapes (500) |
| Workflow.AddBookingTwice | flaskr/app.py:146-151 | the same valid payload added twice gives two identical rows |
| Workflow.FeedbackEffects | flaskr/app.py:157-172 | store and session are untouched. Without a session the handler raises. Otherwise it raises exactly when the form has `category`, the booking is found and loading it raises, and answers 'Feedback sent' in every other case. When the form has `category` and the booking is found, the corpus becomes what `add_booking` of the stored booking makes it; a write happens only then, and it is the stored booking as loaded |
| Workflow.FeedbackIgnoresCategory | flaskr/app.py:162-163 | forms that agree on whether they carry `category` have the same effect, so the submitted category is never used |
| Workflow.CorrectBookingEffects | flaskr/app.py:110-135 | store and session are read-only. A ValidationError gives 400. An empty session raises (500) exactly when the payload loads. 'ok' comes exactly when the payload loads and the session holds a booking, and then the validated booking is appended; otherwise the corpus is unchanged |
| Workflow.CorrectBookingIgnoresLookup | flaskr/app.py:123-128 | the outcome is the same whatever the store holds: the `find_one` result is not used |
| Workflow.StepsPreserveWellFormed | flaskr/app.py:45-172 | every handler keeps stored identifiers below the counter and the session pointing at a stored booking |
| Workflow.ParkThenFeedback | flaskr/app.py:77-83 | a parked booking followed by feedback with a category writes that booking, as loaded, to the corpus and answers 'Feedback sent' |
| Workflow.ParkThenCorrect | flaskr/app.py:118-130 | a parked booking followed by a valid correction answers 'ok', writes the correction, not the parked booking, and leaves the store as it is |
| Workflow.CorrectWithoutSession | flaskr/app.py:118-120 | without a booking in the session a valid correction raises and changes nothing |
| Service.BookingService.constructor | flaskr/app.py:17-25 | a client starts with the given collection and corpus, a counter above every stored identifier, and an empty session, and satisfies the invariant |
| Service.BookingService.Categorize | flaskr/app.py:45-91 | keeps the invariant and ends in exactly the state and reply of `CategorizeStep` |
| Service.BookingService.SavePending | flaskr/app.py:80-83 | inserts the record under the next identifier and puts that identifier in the session, keeping the invariant |
| Service.BookingService.AddBooking | flaskr/app.py:139-153 | keeps the invariant, changes only the corpus, and ends with the corpus and reply of `AddBookingStep` |
| Service.BookingService.Feedback | flaskr/app.py:157-172 | keeps the invariant, changes only the corpus, and ends with the corpus and reply of `FeedbackStep` |
| Service.BookingService.CorrectBooking | flaskr/app.py:110-135 | keeps the invariant, changes only the corpus, and ends with the corpus and reply of `CorrectBookingStep` |

Where the code does something a reader might not expect, the model follows
the code:

- `feedback` does not always answer 200. `session['value']` raises a
  KeyError when the session is empty (line 158). A ValidationError raised
  inside `add_booking` is not caught either (lines 142, 171).
- On the fallback path with the sentinel probabilities '0', the feedback
  page does not show 'n/a'. Line 85 evaluates `max(max('0'))`, which is
  the string '0', reads it back as 0, and shows a confidence of 0.
- The fallback test on line 77 compares the classifier's category exactly,
  but the label mapping ignores case. So 'sonstiges' is shown as
  'Sonstiges' yet is not parked.

## Left out

- Flask routing, request parsing, `render_template` and the HTML pages are
  not modelled. A reply records only the page, the shown label and
  confidence, the text body, and the status.
- The `data=probabilities` table passed to result.html is not modelled.
- `round(..., 4) * 100` and the `ast.literal_eval(str(...))` round trips
  involve floating point and Python literal parsing. The confidence is the
  exact entry that `max(max(...))` picks, and the re-parse of the request
  dictionary is taken as the identity.
- MongoDB and `ObjectId` are replaced by a map and a counter for fresh
  identifiers.
- The `_id` field that `insert_one` adds to the stored document is not
  modelled, so `feedback` hands `add_booking` the stored payload without
  it.
- The cookie that `correct_booking` decodes (line 118) is Flask's own
  session cookie: `s` uses Flask's key, salt 'cookie-session', serializer
  and HMAC-SHA1 signer (lines 26-30). So, within the session's lifetime,
  the model reads the session slot there. An empty slot stands for a
  missing or rejected cookie and for a session without `value`, which all
  raise. The signing, the cookie
  encoding and the `ObjectId` conversion of a well-formed identifier are
  not modelled.
- Session expiry is not modelled. Flask drops a session cookie older than
  `PERMANENT_SESSION_LIFETIME`, but `s.loads` at line 118 checks no age.
  So for an old cookie the source's `correct_booking` still writes and
  answers 'ok', while `feedback` raises; the model's session never lapses,
  and within the lifetime the two readings agree.
- Service.BookingService.constructor: the model starts a client with an
  empty session. The collection and the corpus are parameters, since
  lines 17-25 open a persistent database and CSV file. The collection's
  next `ObjectId` is a counter above every stored identifier.
- `BookingSchema`, `BookingCatSchema`, `BookingClassifier`, `FileHandler`
  and the `categories` module are not part of this model. They are
  parameters of `Collaborators`, and `write_csv` is an append to the
  corpus. The category names are taken to be the enum member names used on
  lines 176-190.
- Categories.Upper: `str.upper` is exact on ASCII, the dotless i, the long
  s, the sharp s and the ligatures U+FB00 to U+FB06. It keeps every other
  character, which gives the same answer whenever the result is compared
  with the all-ASCII category names.
- The routes `/classifyterm`, `/`, `/howto` and `/inputform`, the two thin
  routes `/categorize` and `/classifyform` that call `categorize`, and the
  `print` diagnostics are not modelled. Neither is the `json.dumps` of
  `request.form` in `/classifyform` and `feedback`: a form is a map from
  field names to strings.
- Service.BookingService.AddBooking takes its payload as an argument. The
  choice between `booking_req` and the request's JSON (lines 141-145) is
  left to the caller, and a falsy `booking_req` is not modelled.
- A payload that is not a dictionary (for example JSON `null`) is not
  modelled.
- Concurrent requests are not modelled. Neither is the fact that each client
  has its own session: the model is one client's sequence of requests.
