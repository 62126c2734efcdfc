/** Booking payloads as the handlers see them: a dictionary decoded from
    JSON, and the clean-up `categorize` does on its optional fields before
    validation (flaskr/app.py, lines 48-57). */
module Records {

  import opened Options

  /** A JSON value. */
  datatype Value =
    | Null
    | Bool(b: bool)
    | Num(n: real)
    | Str(s: string)
    | Arr(items: seq<Value>)
    | Obj(fields: map<string, Value>)

  /** A request payload or a stored booking: field name to value. */
  type Record = map<string, Value>

  /** Python's truth test: `not v` holds of None, False, zero and the empty
      string, list and dictionary. */
  predicate Falsy(v: Value)
  {
    match v
    case Null => true
    case Bool(b) => !b
    case Num(n) => n == 0.0
    case Str(s) => s == ""
    case Arr(items) => items == []
    case Obj(fields) => fields == map[]
  }

  /** The optional fields, in the order `categorize` tests them. */
  const OptionalFields: seq<string> := ["booking_date", "valuta_date", "creditor_id", "iban", "bic"]

  /** The chain `if not d[k]: d[k] = None` over `fields`, in order.  Reading a
      field the payload lacks raises KeyError; that is None here. */
  function BlankFalsy(data: Record, fields: seq<string>): Option<Record>
    decreases |fields|
  {
    if fields == [] then Some(data)
    else if fields[0] !in data then None
    else
      var k := fields[0];
      BlankFalsy(if Falsy(data[k]) then data[k := Null] else data, fields[1..])
  }

  /** The chain fails exactly when a field is missing; otherwise it keeps the
      keys, turns each falsy listed field into None and keeps every other
      value. */
  lemma {:induction false} BlankFalsyMeaning(data: Record, fields: seq<string>)
    ensures var r := BlankFalsy(data, fields);
      && (r.Some? <==> forall i :: 0 <= i < |fields| ==> fields[i] in data)
      && (r.Some? ==> r.value.Keys == data.Keys)
      && (r.Some? ==> forall k :: k in data ==>
            r.value[k] == if k in fields && Falsy(data[k]) then Null else data[k])
    decreases |fields|
  {
    if fields != [] && fields[0] in data {
      var k := fields[0];
      var next := if Falsy(data[k]) then data[k := Null] else data;
      BlankFalsyMeaning(next, fields[1..]);
      assert forall j :: j in fields <==> j == k || j in fields[1..];
      assert forall i :: 1 <= i < |fields| ==> fields[i] == fields[1..][i - 1];
    }
  }

  /** The payload `categorize` validates: every falsy optional field set to
      None; None when an optional field is missing. */
  function Normalised(req: Record): Option<Record>
  {
    BlankFalsy(req, OptionalFields)
  }

  /** Normalisation touches only falsy optional fields: it fails exactly when
      one of the five fields is missing; otherwise it keeps the keys, turns a
      falsy optional field into None, and keeps every other value. */
  lemma NormalisedChangesOnlyFalsyOptionals(req: Record)
    ensures Normalised(req).Some? <==> forall k :: k in OptionalFields ==> k in req
    ensures Normalised(req).Some? ==>
      && Normalised(req).value.Keys == req.Keys
      && (forall k :: k in OptionalFields ==> Normalised(req).value[k] == if Falsy(req[k]) then Null else req[k])
      && (forall k :: k in req && k !in OptionalFields ==> Normalised(req).value[k] == req[k])
  {
    BlankFalsyMeaning(req, OptionalFields);
    assert forall k :: k in OptionalFields <==> exists i :: 0 <= i < |OptionalFields| && OptionalFields[i] == k;
  }

  /** Lines 48-57 of `categorize`, statement by statement, on a local copy
      of the payload; None stands for the KeyError on a missing field. */
  method NormaliseOptionalFields(req: Record) returns (data: Option<Record>)
    ensures data == Normalised(req)
  {
    var d := req;
    if "booking_date" !in d { return None; }
    if Falsy(d["booking_date"]) { d := d["booking_date" := Null]; }
    assert Normalised(req) == BlankFalsy(d, OptionalFields[1..]);
    if "valuta_date" !in d { return None; }
    if Falsy(d["valuta_date"]) { d := d["valuta_date" := Null]; }
    assert Normalised(req) == BlankFalsy(d, OptionalFields[2..]);
    if "creditor_id" !in d { return None; }
    if Falsy(d["creditor_id"]) { d := d["creditor_id" := Null]; }
    assert Normalised(req) == BlankFalsy(d, OptionalFields[3..]);
    if "iban" !in d { return None; }
    if Falsy(d["iban"]) { d := d["iban" := Null]; }
    assert Normalised(req) == BlankFalsy(d, OptionalFields[4..]);
    if "bic" !in d { return None; }
    if Falsy(d["bic"]) { d := d["bic" := Null]; }
    assert Normalised(req) == BlankFalsy(d, OptionalFields[5..]);
    data := Some(d);
  }

  lemma BlankFalsyIdempotent(data: Record, fields: seq<string>)
    requires BlankFalsy(data, fields).Some?
    ensures BlankFalsy(BlankFalsy(data, fields).value, fields) == BlankFalsy(data, fields)
  {
    var once := BlankFalsy(data, fields).value;
    BlankFalsyMeaning(data, fields);
    BlankFalsyMeaning(once, fields);
    var twice := BlankFalsy(once, fields).value;
    forall k | k in once ensures twice[k] == once[k] {
    }
    assert twice == once;
  }

  /** Normalising twice is normalising once. */
  lemma NormalisedIdempotent(req: Record)
    requires Normalised(req).Some?
    ensures Normalised(Normalised(req).value) == Normalised(req)
  {
    BlankFalsyIdempotent(req, OptionalFields);
  }
}
