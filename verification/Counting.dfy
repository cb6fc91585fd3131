/** Counting and summing over append-only logs. */
module Counting {

  function Count<T>(log: seq<T>, p: T -> bool): nat {
    if log == [] then 0
    else Count(log[..|log| - 1], p) + if p(log[|log| - 1]) then 1 else 0
  }

  lemma CountAppend<T>(log: seq<T>, x: T, p: T -> bool)
    ensures Count(log + [x], p) == Count(log, p) + if p(x) then 1 else 0
  {
    assert (log + [x])[..|log|] == log;
  }

  /** Replacing an entry by one of the same kind leaves the count alone. */
  lemma {:induction false} CountReplace<T>(log: seq<T>, k: nat, x: T, p: T -> bool)
    requires k < |log| && p(x) == p(log[k])
    ensures Count(log[k := x], p) == Count(log, p)
  {
    var last := |log| - 1;
    if k == last {
      assert log[k := x][..last] == log[..last];
    } else {
      assert log[k := x][..last] == log[..last][k := x];
      CountReplace(log[..last], k, x, p);
    }
  }

  function Sum<T>(log: seq<T>, f: T -> real): real {
    if log == [] then 0.0 else Sum(log[..|log| - 1], f) + f(log[|log| - 1])
  }

  lemma SumAppend<T>(log: seq<T>, x: T, f: T -> real)
    ensures Sum(log + [x], f) == Sum(log, f) + f(x)
  {
    assert (log + [x])[..|log|] == log;
  }
}
