/**
 * Numeric bands with integer end points, compared against a `real` reading,
 * and tables that pair each band with the outcome a classifier shows for it.
 * The dashboard's classifiers compare a reading only against integer
 * constants, so every band they use has one of these shapes.
 */
module Intervals {

  datatype Band =
    | Below(hi: int)                 // v < hi
    | AtLeast(lo: int)               // lo <= v
    | HalfOpen(lo: int, hi: int)     // lo <= v < hi
    | Open(lo: int, hi: int)         // lo < v < hi
    | Point(at: int)                 // v == at

  predicate Contains(b: Band, v: real) {
    match b
    case Below(hi) => v < hi as real
    case AtLeast(lo) => lo as real <= v
    case HalfOpen(lo, hi) => lo as real <= v < hi as real
    case Open(lo, hi) => lo as real < v < hi as real
    case Point(at) => v == at as real
  }

  /** `v` lies past the upper end of `b`. */
  predicate Above(b: Band, v: real) {
    match b
    case Below(hi) => hi as real <= v
    case AtLeast(_) => false
    case HalfOpen(_, hi) => hi as real <= v
    case Open(_, hi) => hi as real <= v
    case Point(at) => at as real < v
  }

  /** A bounded band is not empty. */
  predicate Proper(b: Band) {
    match b
    case HalfOpen(lo, hi) => lo < hi
    case Open(lo, hi) => lo < hi
    case _ => true
  }

  /** `b` starts exactly where `a` ends: no gap between them and no overlap. */
  predicate Adjacent(a: Band, b: Band) {
    match (a, b)
    case (Below(hi), Point(at)) => hi == at
    case (Below(hi), HalfOpen(lo, _)) => hi == lo
    case (Below(hi), AtLeast(lo)) => hi == lo
    case (Point(at), Open(lo, _)) => at == lo
    case (Open(_, hi), HalfOpen(lo, _)) => hi == lo
    case (HalfOpen(_, hi), HalfOpen(lo, _)) => hi == lo
    case (HalfOpen(_, hi), AtLeast(lo)) => hi == lo
    case _ => false
  }

  /** A band table: each band paired with the outcome shown for readings in it. */
  type Table<O> = seq<(Band, O)>

  /** The bands of `t`, read from first to last, run from minus infinity to
      plus infinity, each starting where the previous one ends. */
  ghost predicate Chain<O>(t: Table<O>) {
    && |t| >= 2
    && t[0].0.Below?
    && t[|t| - 1].0.AtLeast?
    && (forall i | 0 <= i < |t| :: Proper(t[i].0))
    && (forall i | 0 <= i < |t| - 1 :: Adjacent(t[i].0, t[i + 1].0))
  }

  /** `v` lies in at least one band of the table. */
  ghost predicate Located<O>(t: Table<O>, v: real) {
    exists i :: 0 <= i < |t| && Contains(t[i].0, v)
  }

  /** Every reading lies in at least one band of the table. */
  ghost predicate Covers<O>(t: Table<O>) {
    forall v: real :: Located(t, v)
  }

  /** No reading lies in two different bands of the table. */
  ghost predicate Disjoint<O>(t: Table<O>) {
    forall v: real, i, j ::
      0 <= i < |t| && 0 <= j < |t| && Contains(t[i].0, v) && Contains(t[j].0, v) ==> i == j
  }

  /** `o` is what the table shows for `v`: the outcome of a band containing `v`. */
  ghost predicate Shows<O>(t: Table<O>, v: real, o: O) {
    exists i :: 0 <= i < |t| && Contains(t[i].0, v) && t[i].1 == o
  }

  /** Crossing the common end point of two adjacent bands. */
  lemma AdjacentStep(a: Band, b: Band, v: real)
    requires Adjacent(a, b) && Proper(b)
    ensures Above(a, v) <==> Contains(b, v) || Above(b, v)
    ensures Contains(a, v) ==> !Above(a, v)
  {
  }

  /** A reading at or past the start of band `k` lies in band `k` or a later one. */
  lemma {:induction false} CoversFrom<O>(t: Table<O>, k: nat, v: real)
    requires Chain(t) && k < |t|
    requires Contains(t[k].0, v) || Above(t[k].0, v)
    ensures exists i :: k <= i < |t| && Contains(t[i].0, v)
    decreases |t| - k
  {
    if !Contains(t[k].0, v) {
      assert k < |t| - 1;
      AdjacentStep(t[k].0, t[k + 1].0, v);
      CoversFrom(t, k + 1, v);
    }
  }

  /** A reading in band `i` lies before the start of every later band `j`. */
  lemma {:induction false} BeforeLater<O>(t: Table<O>, i: nat, j: nat, v: real)
    requires Chain(t) && i < j < |t|
    requires Contains(t[i].0, v)
    ensures !Contains(t[j].0, v) && !Above(t[j].0, v)
    decreases j - i
  {
    if j == i + 1 {
      AdjacentStep(t[i].0, t[j].0, v);
    } else {
      BeforeLater(t, i, j - 1, v);
      AdjacentStep(t[j - 1].0, t[j].0, v);
    }
  }

  /** A chain of adjacent bands partitions the real line. */
  lemma ChainIsPartition<O>(t: Table<O>)
    requires Chain(t)
    ensures Covers(t) && Disjoint(t)
  {
    ChainCovers(t);
    ChainDisjoint(t);
  }

  lemma ChainCovers<O>(t: Table<O>)
    requires Chain(t)
    ensures Covers(t)
  {
    forall v: real
      ensures Located(t, v)
    {
      CoversFrom(t, 0, v);
    }
  }

  lemma ChainDisjoint<O>(t: Table<O>)
    requires Chain(t)
    ensures Disjoint(t)
  {
    forall v: real, i, j |
      0 <= i < |t| && 0 <= j < |t| && Contains(t[i].0, v) && Contains(t[j].0, v)
      ensures i == j
    {
      if i < j {
        BeforeLater(t, i, j, v);
      } else if j < i {
        BeforeLater(t, j, i, v);
      }
    }
  }
}
