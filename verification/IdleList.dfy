/** What the two worker pools share: taking the newest live worker off an idle list. */
module IdleList {
  import opened Wrappers

  /** The identity of a worker process. */
  type Worker = nat

  /** Idle workers are tried newest first; dead ones are dropped until a live one is found. */
  function TakeNewest(idle: seq<Worker>, closed: set<Worker>): (r: (seq<Worker>, Option<Worker>))
    ensures r.0 <= idle
    ensures r.1.Some? ==> |r.0| < |idle| && idle[|r.0|] == r.1.value && r.1.value !in closed
    ensures r.1.None? ==> r.0 == []
    ensures forall k :: |r.0| + (if r.1.Some? then 1 else 0) <= k < |idle| ==> idle[k] in closed
  {
    if idle == [] then ([], None)
    else if idle[|idle| - 1] !in closed then (idle[..|idle| - 1], Some(idle[|idle| - 1]))
    else TakeNewest(idle[..|idle| - 1], closed)
  }
}
