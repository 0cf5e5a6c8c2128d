/** Counting the requests of a pool by what they are doing. */
module Heads {

  ghost function Where<P>(m: map<nat, P>, which: P -> bool): set<nat> {
    set r | r in m && which(m[r])
  }

  function One(b: bool): nat {
    if b then 1 else 0
  }

  lemma WhereUpdated<P>(m: map<nat, P>, r: nat, phase: P, which: P -> bool)
    ensures Where(m[r := phase], which) == if which(phase) then Where(m, which) + {r} else Where(m, which) - {r}
  {
  }

  /** How a head count moves when one request changes or enters. */
  lemma Moves<P>(m: map<nat, P>, r: nat, phase: P, which: P -> bool)
    ensures |Where(m[r := phase], which)| == |Where(m, which)| - One(r in m && which(m[r])) + One(which(phase))
  {
    WhereUpdated(m, r, phase, which);
    assert r in Where(m, which) <==> r in m && which(m[r]);
    hide Where;
  }

  lemma Grows<P>(m: map<nat, P>, r: nat, phase: P)
    ensures |m[r := phase]| == |m| + One(r !in m)
  {
    assert m[r := phase].Keys == m.Keys + {r};
  }

  /** How it moves when one request leaves. */
  lemma Leaves<P>(m: map<nat, P>, r: nat, which: P -> bool)
    requires r in m
    ensures |Where(m - {r}, which)| == |Where(m, which)| - One(which(m[r]))
    ensures |m - {r}| == |m| - 1
  {
    var others := Where(m, which) - {r};
    assert Where(m - {r}, which) == others;
    assert Where(m, which) == if which(m[r]) then others + {r} else others;
    assert (m - {r}).Keys == m.Keys - {r};
  }

  lemma {:induction false} Subset<T>(small: set<T>, large: set<T>)
    requires small <= large
    ensures |small| <= |large|
  {
    assert large == small + (large - small);
  }

  /** A count never exceeds the number of requests, and is less when one of them does not count. */
  lemma Fits<P>(m: map<nat, P>, r: nat, which: P -> bool)
    ensures |Where(m, which)| <= |m|
    ensures r in m && !which(m[r]) ==> |Where(m, which)| < |m|
  {
    assert |m.Keys| == |m|;
    Subset(Where(m, which), m.Keys);
    if r in m && !which(m[r]) {
      Subset(Where(m, which) + {r}, m.Keys);
    }
  }
}
