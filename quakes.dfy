/** The earthquake database as the viewer sees it.

    The database is built once from the data file and only read afterwards.
    Its implementation (parsing, ordering, the date search) is not part of
    this model: a database is a non-empty sequence of records together with
    the date lookup it answers, and the only promise made about that lookup
    is the one the viewer relies on, namely that its answers can be used as
    the bounds of a walk over valid record indices. */
module Quakes {

  /** One earthquake record; `seconds` is its date as seconds since the epoch. */
  datatype Earthquake = Earthquake(seconds: real, magnitude: real, latitude: real, longitude: real)

  datatype Database = Database(quakes: seq<Earthquake>, indexByDate: real -> int)
  {
    /** What the viewer relies on: at least one record, and every date
        lookup lands on a record index or one past the last one. */
    ghost predicate Valid()
    {
      |quakes| > 0 &&
      forall t: real :: 0 <= indexByDate(t) <= |quakes|
    }

    /** Index of the earliest record. */
    function MinIndex(): (i: int)
      requires Valid()
      ensures 0 <= i < |quakes|
    {
      0
    }

    /** Index of the latest record. */
    function MaxIndex(): (i: int)
      requires Valid()
      ensures MinIndex() <= i < |quakes|
      ensures i + 1 == |quakes|
    {
      |quakes| - 1
    }

    function ByIndex(i: int): (e: Earthquake)
      requires Valid()
      requires MinIndex() <= i <= MaxIndex()
      ensures e in quakes
    {
      quakes[i]
    }

    /** The date lookup: some index from the first record to one past the last. */
    function IndexByDate(t: real): (i: int)
      requires Valid()
      ensures MinIndex() <= i <= MaxIndex() + 1
    {
      indexByDate(t)
    }

    /** Date of the record at the minimum index. */
    function MinSeconds(): real
      requires Valid()
    {
      ByIndex(MinIndex()).seconds
    }

    /** Date of the record at the maximum index. */
    function MaxSeconds(): real
      requires Valid()
    {
      ByIndex(MaxIndex()).seconds
    }

    /** The records are in date order (the file order of the data set). */
    ghost predicate Sorted()
    {
      forall i, j :: 0 <= i < j < |quakes| ==> quakes[i].seconds <= quakes[j].seconds
    }

    /** The lookup is a lower bound: the records before the answer are
        exactly the ones dated strictly before `t`. */
    ghost predicate LowerBoundLookup()
    {
      forall t: real, i :: 0 <= i < |quakes| ==>
        (i < indexByDate(t) <==> quakes[i].seconds < t)
    }
  }

  /** In a sorted database the first record is the earliest and the last the latest. */
  lemma SortedBounds(db: Database, i: int)
    requires db.Valid() && db.Sorted()
    requires 0 <= i < |db.quakes|
    ensures db.MinSeconds() <= db.quakes[i].seconds <= db.MaxSeconds()
  {
  }

  /** A date-ordered data set never has an inverted span, so the viewer's
      clock invariant holds without condition. */
  lemma SortedSpan(db: Database)
    requires db.Valid() && db.Sorted()
    ensures db.MinSeconds() <= db.MaxSeconds()
  {
    SortedBounds(db, 0);
  }
}
