/** The confidence shown with a classification: `max(max(probabilities))`
    in flaskr/app.py.  Python's `max` keeps the first element and replaces
    it by each later element that compares greater; the outer `max` compares
    the rows of probabilities as lists, that is lexicographically. */
module Confidence {

  import opened Options

  type Row = seq<real>

  /** Python's `<` on two lists of numbers: the first position where they
      differ decides, and a proper prefix is smaller. */
  predicate LexLess(a: Row, b: Row)
    decreases |a|
  {
    if a == [] then b != []
    else if b == [] then false
    else if a[0] != b[0] then a[0] < b[0]
    else LexLess(a[1..], b[1..])
  }

  predicate LexAtMost(a: Row, b: Row)
  {
    a == b || LexLess(a, b)
  }

  lemma {:induction false} LexLessIrreflexive(a: Row)
    ensures !LexLess(a, a)
  {
    if a != [] {
      LexLessIrreflexive(a[1..]);
    }
  }

  lemma {:induction false} LexLessTransitive(a: Row, b: Row, c: Row)
    requires LexLess(a, b) && LexLess(b, c)
    ensures LexLess(a, c)
    decreases |a|
  {
    if a != [] && a[0] == b[0] && b[0] == c[0] {
      LexLessTransitive(a[1..], b[1..], c[1..]);
    }
  }

  /** Any two different rows are ordered one way or the other. */
  lemma {:induction false} LexLessTotal(a: Row, b: Row)
    ensures a == b || LexLess(a, b) || LexLess(b, a)
    decreases |a|
  {
    if a != [] && b != [] && a[0] == b[0] {
      LexLessTotal(a[1..], b[1..]);
      if a[1..] == b[1..] {
        assert a == [a[0]] + a[1..] && b == [b[0]] + b[1..];
      }
    }
  }

  /** The inner `max`: the largest entry of a row. */
  function RowMax(row: Row): (m: real)
    requires row != []
    ensures m in row
    ensures forall i :: 0 <= i < |row| ==> row[i] <= m
  {
    if |row| == 1 then row[0]
    else
      var m := RowMax(row[..|row| - 1]);
      if row[|row| - 1] > m then row[|row| - 1] else m
  }

  /** The outer `max`: the lexicographically greatest row. */
  function LexMax(rows: seq<Row>): (best: Row)
    requires rows != []
    ensures best in rows
    ensures forall i :: 0 <= i < |rows| ==> LexAtMost(rows[i], best)
  {
    if |rows| == 1 then rows[0]
    else
      var front := rows[..|rows| - 1];
      var last := rows[|rows| - 1];
      var m := LexMax(front);
      assert forall i :: 0 <= i < |rows| - 1 ==> rows[i] == front[i];
      if LexLess(m, last) then
        assert forall i :: 0 <= i < |rows| - 1 ==> LexAtMost(rows[i], last) by {
          forall i | 0 <= i < |rows| - 1 ensures LexAtMost(rows[i], last) {
            if rows[i] != m {
              LexLessTransitive(rows[i], m, last);
            }
          }
        }
        last
      else
        LexLessTotal(m, last);
        m
  }

  /** The displayed confidence before rounding and scaling, or None where
      Python's `max` raises ValueError: no rows at all, or a greatest row
      that is empty. */
  function TopConfidence(rows: seq<Row>): (p: Option<real>)
  {
    if rows == [] then None
    else
      var best := LexMax(rows);
      if best == [] then None else Some(RowMax(best))
  }

  /** `max` of `max` is undefined exactly when every row is empty (in
      particular when there are no rows). */
  lemma TopConfidenceDefined(rows: seq<Row>)
    ensures TopConfidence(rows).None? <==> forall i :: 0 <= i < |rows| ==> rows[i] == []
  {
    if rows != [] && LexMax(rows) == [] {
      forall i | 0 <= i < |rows| ensures rows[i] == [] {
        assert LexAtMost(rows[i], []);
      }
    }
  }

  /** The confidence is the largest entry of a row that is greatest in list
      order, and so at least the first entry of every non-empty row. */
  lemma TopConfidenceBounds(rows: seq<Row>)
    requires TopConfidence(rows).Some?
    ensures var p := TopConfidence(rows).value;
      && (exists i :: && 0 <= i < |rows| && p in rows[i]
                      && (forall j :: 0 <= j < |rows| ==> LexAtMost(rows[j], rows[i]))
                      && (forall x :: x in rows[i] ==> x <= p))
      && (forall i :: 0 <= i < |rows| && rows[i] != [] ==> rows[i][0] <= p)
  {
    var best := LexMax(rows);
    var p := RowMax(best);
    var k :| 0 <= k < |rows| && rows[k] == best;
    forall i | 0 <= i < |rows| && rows[i] != [] ensures rows[i][0] <= p {
      assert LexAtMost(rows[i], best);
      assert best[0] <= p;
    }
  }

  /** For a single row the confidence is that row's maximum. */
  lemma TopConfidenceSingleRow(row: Row)
    requires row != []
    ensures TopConfidence([row]) == Some(RowMax(row))
    ensures forall x :: x in row ==> x <= TopConfidence([row]).value
  {
  }

  /** [[0.1, 0.82, 0.08]] gives 0.82. */
  lemma TopConfidenceExample()
    ensures TopConfidence([[0.1, 0.82, 0.08]]) == Some(0.82)
  {
    var row: Row := [0.1, 0.82, 0.08];
    assert RowMax(row) in row;
    assert row[1] <= RowMax(row);
  }

  /** `max(max(...))` is not the largest entry overall: with rows
      [0.5, 0.1] and [0.4, 0.9] the first row is the greater list, so the
      confidence is 0.5 although 0.9 occurs. */
  lemma TopConfidenceNotGlobalMaximum()
    ensures TopConfidence([[0.5, 0.1], [0.4, 0.9]]) == Some(0.5)
  {
    var rows: seq<Row> := [[0.5, 0.1], [0.4, 0.9]];
    assert LexLess(rows[1], rows[0]);
    LexLessIrreflexive(rows[0]);
    assert LexMax(rows) == rows[0];
    assert RowMax(rows[0]) in rows[0];
  }
}
