/** Small vocabulary shared by the models of the agent runtime and the desktop supervisor. */
module Common {

  /** A value that may be missing: `None`, `null` or `undefined` in the source. */
  datatype Option<+T> = None | Some(value: T)

  /** `s[-limit:]` for a positive limit: the last `limit` elements, or everything. */
  function Tail<T>(s: seq<T>, limit: nat): (r: seq<T>)
    ensures |r| == if |s| <= limit then |s| else limit
  {
    if |s| <= limit then s else s[|s| - limit..]
  }

  /** Cutting a growing sequence early never changes its last `limit` elements. */
  lemma TailOfTail<T>(a: seq<T>, b: seq<T>, limit: nat)
    ensures Tail(Tail(a, limit) + b, limit) == Tail(a + b, limit)
  {
    var cut := |a| - |Tail(a, limit)|;
    assert a == a[..cut] + Tail(a, limit);
    assert a + b == a[..cut] + (Tail(a, limit) + b);
  }

  ghost predicate Nondecreasing(times: seq<int>) {
    forall i, j :: 0 <= i <= j < |times| ==> times[i] <= times[j]
  }
}
