/** The guess table: a header row pinned first, then the guesses, newest first. */
module History {
  import opened Stands

  /** A well-formed table: the header first, and only guess rows after it. */
  predicate WellFormed(h: seq<Row>)
  {
    |h| >= 1 && h[0] == Header && forall i :: 1 <= i < |h| ==> h[i].GuessRow?
  }

  /** The guesses of a table, without its header. */
  function Guesses(h: seq<Row>): seq<Row>
    requires |h| >= 1
  {
    h[1..]
  }

  /** The table after a new row: the old first row, the new row, then every other old row in
      its old order, each one place further down. */
  function InsertAfterHeader(h: seq<Row>, row: Row): (r: seq<Row>)
    requires |h| >= 1
    ensures |r| == |h| + 1
    ensures r[0] == h[0] && r[1] == row
    ensures forall i :: 1 <= i < |h| ==> r[i + 1] == h[i]
  {
    [h[0], row] + h[1..]
  }

  /** The new row becomes the first guess, ahead of all earlier ones. */
  lemma InsertIsNewestFirst(h: seq<Row>, row: Row)
    requires |h| >= 1
    ensures Guesses(InsertAfterHeader(h, row)) == [row] + Guesses(h)
  {
  }

  /** Inserting a guess row keeps a table well-formed. */
  lemma InsertKeepsWellFormed(h: seq<Row>, row: Row)
    requires WellFormed(h) && row.GuessRow?
    ensures WellFormed(InsertAfterHeader(h, row))
  {
  }

  /** Takes the newest guess back out of a table that has one. */
  function RemoveNewest(h: seq<Row>): (r: seq<Row>)
    requires |h| >= 2
    ensures |r| == |h| - 1 && r[0] == h[0]
    ensures forall i :: 1 <= i < |r| ==> r[i] == h[i + 1]
  {
    [h[0]] + h[2..]
  }

  /** Removing the newest guess undoes inserting it. */
  lemma RemoveUndoesInsert(h: seq<Row>, row: Row)
    requires |h| >= 1
    ensures RemoveNewest(InsertAfterHeader(h, row)) == h
  {
  }

  /** The table after inserting `rows` one after the other, `rows[0]` first. */
  function InsertAll(h: seq<Row>, rows: seq<Row>): (r: seq<Row>)
    requires |h| >= 1
    ensures |r| == |h| + |rows|
    decreases |rows|
  {
    if rows == [] then h else InsertAll(InsertAfterHeader(h, rows[0]), rows[1..])
  }

  /** A sequence backwards. */
  function Reverse<T>(s: seq<T>): (r: seq<T>)
    ensures |r| == |s|
  {
    if s == [] then [] else Reverse(s[1..]) + [s[0]]
  }

  /** However many guesses are made, the header stays first and the guesses read newest first,
      followed by the guesses that were already there. */
  lemma {:induction false} InsertAllNewestFirst(h: seq<Row>, rows: seq<Row>)
    requires |h| >= 1
    ensures InsertAll(h, rows)[0] == h[0]
    ensures Guesses(InsertAll(h, rows)) == Reverse(rows) + Guesses(h)
    decreases |rows|
  {
    if rows != [] {
      var h' := InsertAfterHeader(h, rows[0]);
      InsertIsNewestFirst(h, rows[0]);
      InsertAllNewestFirst(h', rows[1..]);
      assert Reverse(rows) == Reverse(rows[1..]) + [rows[0]];
      assert Reverse(rows[1..]) + Guesses(h') == Reverse(rows[1..]) + ([rows[0]] + Guesses(h));
    }
  }

  /** Two guesses in a row: the second sits right under the header, the first below it. */
  lemma TwoInsertsOrder(h: seq<Row>, row1: Row, row2: Row)
    requires |h| >= 1
    ensures InsertAfterHeader(InsertAfterHeader(h, row1), row2) == [h[0], row2, row1] + h[1..]
  {
  }
}
