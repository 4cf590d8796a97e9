/** The scan of Python's `re.search`: try the pattern at every start
    position from left to right and report the first position where it
    matches. The pattern itself is a function from a start position to the
    captured value (`None` when the pattern does not match there). */
module Search {
  import opened Wrappers

  /** The value of the first match at a start position in `from..last`. */
  function Leftmost<T>(matchAt: nat -> Option<T>, from: nat, last: nat): Option<T>
    decreases last + 1 - from
  {
    if from > last then None
    else if matchAt(from).Some? then matchAt(from)
    else Leftmost(matchAt, from + 1, last)
  }

  /** The scan finds `v` exactly when some position matches with value `v`
      and no earlier position matches at all. */
  lemma {:induction false} LeftmostIsFirst<T>(matchAt: nat -> Option<T>, from: nat, last: nat, v: T)
    ensures Leftmost(matchAt, from, last) == Some(v) <==>
      exists i: nat :: from <= i <= last && matchAt(i) == Some(v)
        && forall j: nat :: from <= j < i ==> matchAt(j).None?
    decreases last + 1 - from
  {
    if from <= last && matchAt(from).None? {
      LeftmostIsFirst(matchAt, from + 1, last, v);
      if exists i: nat :: from <= i <= last && matchAt(i) == Some(v)
           && forall j: nat :: from <= j < i ==> matchAt(j).None? {
        var i: nat :| from <= i <= last && matchAt(i) == Some(v)
           && forall j: nat :: from <= j < i ==> matchAt(j).None?;
        assert from + 1 <= i;
      }
    }
  }

  /** The scan finds nothing exactly when no position in range matches. */
  lemma {:induction false} LeftmostNone<T>(matchAt: nat -> Option<T>, from: nat, last: nat)
    ensures Leftmost(matchAt, from, last).None? <==>
      forall i: nat :: from <= i <= last ==> matchAt(i).None?
    decreases last + 1 - from
  {
    if from <= last && matchAt(from).None? {
      LeftmostNone(matchAt, from + 1, last);
    }
  }

  /** A position that matches, with no match before it, is what the scan
      reports. */
  lemma {:induction false} LeftmostAt<T>(matchAt: nat -> Option<T>, from: nat, last: nat, i: nat)
    requires from <= i <= last && matchAt(i).Some?
    requires forall j: nat :: from <= j < i ==> matchAt(j).None?
    ensures Leftmost(matchAt, from, last) == matchAt(i)
    decreases i - from
  {
    if from < i {
      LeftmostAt(matchAt, from + 1, last, i);
    }
  }
}
