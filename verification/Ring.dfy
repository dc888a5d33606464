/** Placement on the consistent-hash ring (src/ring.cc). The mixing of node keys and the hash of
    idempotency keys are parameters: nothing here depends on which functions they are. */
module Ring {
  import opened Bytes
  import opened Jobs

  type Mix = nat -> nat
  type Hash = seq<byte> -> nat

  function Ekey(e: Endpoint): nat { e.addr * U16 + e.port }

  /** A port is sixteen bits wide, so the key tells endpoints apart. */
  predicate Real(e: Endpoint) { e.port < U16 }

  predicate AllReal(es: seq<Endpoint>) { forall i :: 0 <= i < |es| ==> Real(es[i]) }

  lemma EkeyInjective(a: Endpoint, b: Endpoint)
    requires Real(a) && Real(b) && Ekey(a) == Ekey(b)
    ensures a == b
  {
  }

  /** The sort order: by position, ties by endpoint key. */
  predicate Before(mix: Mix, a: Endpoint, b: Endpoint) {
    mix(Ekey(a)) < mix(Ekey(b)) || (mix(Ekey(a)) == mix(Ekey(b)) && Ekey(a) < Ekey(b))
  }

  predicate Ordered(mix: Mix, ps: seq<Endpoint>) {
    forall i, j :: 0 <= i < j < |ps| ==> !Before(mix, ps[j], ps[i])
  }

  // ---- Sorting ---------------------------------------------------------------------------------------

  lemma InsertOrdered(mix: Mix, ps: seq<Endpoint>, x: Endpoint, i: nat)
    requires Ordered(mix, ps) && i <= |ps|
    requires forall k :: 0 <= k < i ==> !Before(mix, x, ps[k])
    requires forall k :: i <= k < |ps| ==> Before(mix, x, ps[k])
    ensures Ordered(mix, ps[..i] + [x] + ps[i..]) && multiset(ps[..i] + [x] + ps[i..]) == multiset(ps) + multiset{x}
  {
    var zs := ps[..i] + [x] + ps[i..];
    forall a, b | 0 <= a < b < |zs| ensures !Before(mix, zs[b], zs[a]) {
      if a != i && b != i {
        assert !Before(mix, ps[if b < i then b else b - 1], ps[if a < i then a else a - 1]);
      }
    }
    assert ps == ps[..i] + ps[i..];
  }

  /** One node into its place. */
  method Place(mix: Mix, ps: seq<Endpoint>, x: Endpoint) returns (qs: seq<Endpoint>)
    requires Ordered(mix, ps)
    ensures Ordered(mix, qs) && multiset(qs) == multiset(ps) + multiset{x} && |qs| == |ps| + 1
  {
    var i := |ps|;
    while i > 0 && Before(mix, x, ps[i - 1])
      invariant 0 <= i <= |ps| && forall k :: i <= k < |ps| ==> Before(mix, x, ps[k])
    {
      i := i - 1;
    }
    assert forall k :: 0 <= k < i - 1 ==> !Before(mix, ps[i - 1], ps[k]);
    InsertOrdered(mix, ps, x, i);
    qs := ps[..i] + [x] + ps[i..];
  }

  /** The nodes in ring order, whatever order they came in. */
  method Positions(mix: Mix, alive: seq<Endpoint>) returns (ps: seq<Endpoint>)
    ensures Ordered(mix, ps) && multiset(ps) == multiset(alive) && |ps| == |alive|
  {
    ps := [];
    for n := 0 to |alive|
      invariant Ordered(mix, ps) && multiset(ps) == multiset(alive[..n]) && |ps| == n
    {
      hide Ordered;
      assert alive[..n + 1] == alive[..n] + [alive[n]];
      ps := Place(mix, ps, alive[n]);
    }
    assert alive[..|alive|] == alive;
  }

  lemma SameOrBefore(mix: Mix, a: Endpoint, b: Endpoint)
    requires Real(a) && Real(b) && !Before(mix, a, b) && !Before(mix, b, a)
    ensures a == b
  {
    EkeyInjective(a, b);
  }

  lemma FirstIsLeast(mix: Mix, ps: seq<Endpoint>, e: Endpoint)
    requires Ordered(mix, ps) && e in ps
    ensures !Before(mix, e, ps[0])
  {
    var i :| 0 <= i < |ps| && ps[i] == e;
    if i > 0 { assert !Before(mix, ps[i], ps[0]); }
  }

  lemma SameFirst(mix: Mix, ps: seq<Endpoint>, qs: seq<Endpoint>)
    requires Ordered(mix, ps) && Ordered(mix, qs) && multiset(ps) == multiset(qs) && AllReal(ps) && AllReal(qs)
             && ps != [] && qs != []
    ensures ps[0] == qs[0]
  {
    assert ps[0] in multiset(ps) && qs[0] in multiset(qs);
    FirstIsLeast(mix, qs, ps[0]);
    FirstIsLeast(mix, ps, qs[0]);
    SameOrBefore(mix, ps[0], qs[0]);
  }

  lemma RestOf(ps: seq<Endpoint>)
    requires ps != []
    ensures multiset(ps[1..]) == multiset(ps) - multiset{ps[0]}
  {
    assert ps == [ps[0]] + ps[1..];
  }

  /** There is only one ring order of a collection of nodes. */
  lemma {:induction false} OrderUnique(mix: Mix, ps: seq<Endpoint>, qs: seq<Endpoint>)
    requires Ordered(mix, ps) && Ordered(mix, qs) && multiset(ps) == multiset(qs) && AllReal(ps) && AllReal(qs)
    ensures ps == qs
    decreases ps
  {
    assert |multiset(ps)| == |ps| && |multiset(qs)| == |qs|;
    if ps != [] {
      SameFirst(mix, ps, qs);
      RestOf(ps);
      RestOf(qs);
      hide Before;
      OrderUnique(mix, ps[1..], qs[1..]);
      assert ps == [ps[0]] + ps[1..] && qs == [qs[0]] + qs[1..];
    }
  }

  // ---- The walk ----------------------------------------------------------------------------------------

  /** How many nodes lie before the key. */
  function Start(mix: Mix, ps: seq<Endpoint>, kh: nat): (n: nat)
    ensures n <= |ps|
  {
    if ps == [] || mix(Ekey(ps[0])) >= kh then 0 else 1 + Start(mix, ps[1..], kh)
  }

  /** Clockwise from the key, once around. */
  function Walk(mix: Mix, ps: seq<Endpoint>, kh: nat): (w: seq<Endpoint>)
    ensures |w| == |ps|
  {
    ps[Start(mix, ps, kh)..] + ps[..Start(mix, ps, kh)]
  }

  /** The first three of the walk; unused slots stay empty. */
  function FirstThree(w: seq<Endpoint>): (out: seq<Endpoint>)
    ensures |out| == 3
  {
    [if |w| > 0 then w[0] else NO_ENDPOINT,
     if |w| > 1 then w[1] else NO_ENDPOINT,
     if |w| > 2 then w[2] else NO_ENDPOINT]
  }

  /** The replica set of a key: search for the successor, then take three, wrapping. */
  method ReplicaSet(mix: Mix, hash: Hash, key: seq<byte>, alive: seq<Endpoint>, ghost ring: seq<Endpoint>)
      returns (out: seq<Endpoint>)
    requires AllReal(alive) && Ordered(mix, ring) && multiset(ring) == multiset(alive)
    ensures out == FirstThree(Walk(mix, ring, hash(key)))
  {
    out := [NO_ENDPOINT, NO_ENDPOINT, NO_ENDPOINT];
    SameReal(alive, ring);
    if alive == [] {
      assert |multiset(ring)| == 0;
      return;
    }
    var ps := Positions(mix, alive);
    SameReal(alive, ps);
    OrderUnique(mix, ps, ring);
    var kh, start := hash(key), 0;
    assert ps[0..] == ps;
    while start < |ps| && mix(Ekey(ps[start])) < kh
      invariant 0 <= start <= |ps| && Start(mix, ps, kh) == start + Start(mix, ps[start..], kh)
    {
      assert ps[start..][1..] == ps[start + 1..];
      start := start + 1;
    }
    assert Start(mix, ps, kh) == start;
    ghost var w := Walk(mix, ps, kh);
    if start == |ps| { start := 0; }
    var i := 0;
    while i < |ps| && i < 3
      invariant 0 <= i <= 3 && i <= |ps| && |out| == 3
      invariant forall k :: 0 <= k < 3 ==> out[k] == if k < i then w[k] else NO_ENDPOINT
    {
      WrapAround(ps, start, i);
      out := out[i := ps[(start + i) % |ps|]];
      i := i + 1;
    }
  }

  lemma WrapAround(ps: seq<Endpoint>, start: nat, i: nat)
    requires start < |ps| && i < |ps|
    ensures (ps[start..] + ps[..start])[i] == ps[(start + i) % |ps|]
  {
    Wrapped(start + i, |ps|);
    if start + i < |ps| {
      assert ps[start..][i] == ps[start + i];
    } else {
      assert ps[..start][i - (|ps| - start)] == ps[start + i - |ps|];
    }
  }

  lemma Wrapped(k: nat, n: nat)
    requires k < 2 * n
    ensures k % n == if k < n then k else k - n
  {
  }

  lemma SameReal(es: seq<Endpoint>, fs: seq<Endpoint>)
    requires AllReal(es) && multiset(es) == multiset(fs)
    ensures AllReal(fs)
  {
    forall i | 0 <= i < |fs| ensures Real(fs[i]) {
      assert fs[i] in multiset(fs);
      assert fs[i] in es;
    }
  }

  /** Placement depends only on which nodes there are, not on the order they are listed in. */
  lemma PlacementByMembers(mix: Mix, kh: nat, ring1: seq<Endpoint>, ring2: seq<Endpoint>)
    requires Ordered(mix, ring1) && Ordered(mix, ring2) && multiset(ring1) == multiset(ring2) && AllReal(ring1)
    ensures FirstThree(Walk(mix, ring1, kh)) == FirstThree(Walk(mix, ring2, kh))
  {
    SameReal(ring1, ring2);
    OrderUnique(mix, ring1, ring2);
  }

  predicate Distinct(es: seq<Endpoint>) { forall i, j :: 0 <= i < j < |es| ==> es[i] != es[j] }

  /** No node takes two slots. */
  predicate Apart(es: seq<Endpoint>) { forall i, j :: 0 <= i < j < |es| && es[i] == es[j] ==> es[i] == NO_ENDPOINT }

  lemma FirstThreeApart(w: seq<Endpoint>)
    requires Distinct(w)
    ensures Apart(FirstThree(w))
  {
  }

  /** The replicas are distinct nodes of the ring, as many as there can be. */
  lemma ReplicasDistinct(mix: Mix, kh: nat, ring: seq<Endpoint>)
    requires Distinct(ring) && NO_ENDPOINT !in ring
    ensures
      var out, n := FirstThree(Walk(mix, ring, kh)), if |ring| < 3 then |ring| else 3;
      && (forall k :: 0 <= k < n ==> out[k] in ring) && (forall k :: n <= k < 3 ==> out[k] == NO_ENDPOINT)
      && Distinct(out[..n]) && Apart(out)
  {
    var s, w := Start(mix, ring, kh), Walk(mix, ring, kh);
    forall k | 0 <= k < |ring| ensures w[k] == ring[if k < |ring| - s then s + k else k - (|ring| - s)] { }
  }

  // ---- Removing a node ---------------------------------------------------------------------------------

  function Without(es: seq<Endpoint>, x: Endpoint): seq<Endpoint> {
    if es == [] then [] else (if es[0] == x then [] else [es[0]]) + Without(es[1..], x)
  }

  lemma ConsDistinct(x: Endpoint, es: seq<Endpoint>)
    requires Distinct(es) && x !in es
    ensures Distinct([x] + es)
  {
    var all := [x] + es;
    assert forall k :: 1 <= k < |all| ==> all[k] == es[k - 1];
  }

  lemma {:induction false} WithoutApart(es: seq<Endpoint>, x: Endpoint)
    ensures forall e :: e in Without(es, x) <==> e in es && e != x
    ensures Distinct(es) ==> Distinct([x] + Without(es, x))
    decreases es
  {
    if es != [] {
      WithoutApart(es[1..], x);
      assert forall e :: e in es <==> e == es[0] || e in es[1..];
      if Distinct(es) {
        assert Distinct(es[1..]) && es[0] !in es[1..];
        var rest := Without(es[1..], x);
        assert forall k :: 0 <= k < |rest| ==> rest[k] == ([x] + rest)[k + 1];
        ConsDistinct(es[0], rest);
        if es[0] != x { ConsDistinct(x, [es[0]] + rest); }
      }
    }
  }

  function Unless(e: Endpoint, x: Endpoint): seq<Endpoint> { if e == x then [] else [e] }

  lemma WithoutHead(es: seq<Endpoint>, x: Endpoint)
    requires es != []
    ensures Without(es, x) == Unless(es[0], x) + Without(es[1..], x)
  {
  }

  lemma {:induction false} WithoutConcat(a: seq<Endpoint>, b: seq<Endpoint>, x: Endpoint)
    ensures Without(a + b, x) == Without(a, x) + Without(b, x)
    decreases a
  {
    if a == [] {
      assert a + b == b;
    } else {
      hide Without, Unless;
      TailConcat(a, b);
      WithoutHead(a, x);
      WithoutHead(a + b, x);
      WithoutConcat(a[1..], b, x);
      Associates(Unless(a[0], x), Without(a[1..], x), Without(b, x));
    }
  }

  lemma TailConcat(a: seq<Endpoint>, b: seq<Endpoint>)
    requires a != []
    ensures a + b != [] && (a + b)[0] == a[0] && (a + b)[1..] == a[1..] + b
  {
  }

  lemma Associates(a: seq<Endpoint>, b: seq<Endpoint>, c: seq<Endpoint>)
    ensures a + (b + c) == (a + b) + c
  {
  }

  lemma {:induction false} StartSplits(mix: Mix, ps: seq<Endpoint>, kh: nat)
    requires Ordered(mix, ps)
    ensures forall i :: 0 <= i < Start(mix, ps, kh) ==> mix(Ekey(ps[i])) < kh
    ensures forall i :: Start(mix, ps, kh) <= i < |ps| ==> mix(Ekey(ps[i])) >= kh
    decreases ps
  {
    if ps != [] {
      if mix(Ekey(ps[0])) < kh {
        StartSplits(mix, ps[1..], kh);
        assert forall i :: 0 < i < |ps| ==> ps[i] == ps[1..][i - 1];
      } else {
        assert forall i :: 0 < i < |ps| ==> !Before(mix, ps[i], ps[0]);
      }
    }
  }

  lemma {:induction false} StartOf(mix: Mix, low: seq<Endpoint>, high: seq<Endpoint>, kh: nat)
    requires forall i :: 0 <= i < |low| ==> mix(Ekey(low[i])) < kh
    requires forall i :: 0 <= i < |high| ==> mix(Ekey(high[i])) >= kh
    ensures Start(mix, low + high, kh) == |low|
    decreases low
  {
    if low == [] {
      assert low + high == high;
    } else {
      StartOf(mix, low[1..], high, kh);
      assert (low + high)[1..] == low[1..] + high;
    }
  }

  lemma {:induction false} WithoutFrom(es: seq<Endpoint>, x: Endpoint, i: nat)
    requires i < |Without(es, x)|
    ensures Without(es, x)[i] in es && Without(es, x)[i] != x
    decreases es
  {
    var n := if es[0] == x then 0 else 1;
    if i >= n { WithoutFrom(es[1..], x, i - n); }
  }

  lemma SplitWithout(mix: Mix, low: seq<Endpoint>, high: seq<Endpoint>, kh: nat, x: Endpoint)
    requires forall i :: 0 <= i < |low| ==> mix(Ekey(low[i])) < kh
    requires forall i :: 0 <= i < |high| ==> mix(Ekey(high[i])) >= kh
    ensures Start(mix, Without(low + high, x), kh) == |Without(low, x)|
  {
    forall i | 0 <= i < |Without(low, x)| ensures mix(Ekey(Without(low, x)[i])) < kh { WithoutFrom(low, x, i); }
    forall i | 0 <= i < |Without(high, x)| ensures mix(Ekey(Without(high, x)[i])) >= kh { WithoutFrom(high, x, i); }
    hide Start, Without;
    WithoutConcat(low, high, x);
    StartOf(mix, Without(low, x), Without(high, x), kh);
  }

  /** When a node leaves, the walk from any key is the old walk with just that node taken out. */
  lemma RemovalKeepsWalk(mix: Mix, kh: nat, ring: seq<Endpoint>, x: Endpoint)
    requires Ordered(mix, ring)
    ensures Walk(mix, Without(ring, x), kh) == Without(Walk(mix, ring, kh), x)
  {
    hide Ordered, Start, Without, Ekey;
    var s := Start(mix, ring, kh);
    var low, high := ring[..s], ring[s..];
    StartSplits(mix, ring, kh);
    assert ring == low + high;
    SplitWithout(mix, low, high, kh, x);
    WithoutConcat(low, high, x);
    WithoutConcat(high, low, x);
    var v := Without(ring, x);
    assert v[..|Without(low, x)|] == Without(low, x) && v[|Without(low, x)|..] == Without(high, x);
  }

  /** So no key of another owner changes owner. */
  lemma RemovalKeepsOwner(mix: Mix, kh: nat, ring: seq<Endpoint>, x: Endpoint)
    requires Ordered(mix, ring) && ring != [] && Walk(mix, ring, kh)[0] != x
    ensures Without(ring, x) != [] && Walk(mix, Without(ring, x), kh)[0] == Walk(mix, ring, kh)[0]
  {
    var w := Walk(mix, ring, kh);
    hide Ordered, Walk;
    RemovalKeepsWalk(mix, kh, ring, x);
    assert Without(w, x)[0] == w[0];
  }

  /** What is left in ring order is the ring order of what is left. */
  lemma {:induction false} RemovalKeepsOrder(mix: Mix, ring: seq<Endpoint>, x: Endpoint)
    requires Ordered(mix, ring)
    ensures Ordered(mix, Without(ring, x))
    ensures forall e :: multiset(Without(ring, x))[e] == if e == x then 0 else multiset(ring)[e]
    decreases ring
  {
    if ring != [] {
      var rest := Without(ring[1..], x);
      RemovalKeepsOrder(mix, ring[1..], x);
      assert ring == [ring[0]] + ring[1..];
      forall i | 0 <= i < |rest| ensures !Before(mix, rest[i], ring[0]) {
        WithoutFrom(ring[1..], x, i);
        FirstIsLeast(mix, ring, rest[i]);
      }
    }
  }
}
