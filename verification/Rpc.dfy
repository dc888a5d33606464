/** Request and response between nodes: handshakes, calls, and callbacks that may call again
    (src/rpc.cc). Sessions are taut's; here a session either takes a frame or pushes back. */
module Rpc {
  import opened Calls

  datatype Hello = Hello(isAck: bool, sender: nat, echo: nat)

  /** What the handshake has established about a peer; remoteBoot is 0 while unknown. */
  datatype Core = Core(session: bool, remoteBoot: nat, acked: bool)

  const NO_CORE := Core(false, 0, false)

  datatype Peer = Peer(core: Core, nextHello: nat, pending: seq<nat>)

  const NEW_PEER := Peer(NO_CORE, 0, [])

  const HELLO_RETRY := 200
  const STRANGER_INTERVAL := 1000

  function CoreOf(peers: map<nat, Peer>, k: nat): Core { if k in peers then peers[k].core else NO_CORE }

  /** How a HELLO or an ACK moves the handshake with its sender. */
  function HelloCore(c: Core, boot: nat, h: Hello): Core {
    if !h.isAck then
      if c.remoteBoot != 0 && c.remoteBoot != h.sender then Core(false, h.sender, false)
      else Core(c.session || (h.sender != 0 && c.acked), h.sender, c.acked)
    else if h.echo != boot then c
    else Core(true, h.sender, true)
  }

  /** is_established. */
  predicate Linked(c: Core) { c.session && c.remoteBoot != 0 && c.acked }

  ghost predicate CoresKept(before: map<nat, Peer>, after: map<nat, Peer>) {
    forall k :: CoreOf(after, k) == CoreOf(before, k)
  }

  predicate CallsKept(before: CallMap, after: CallMap) {
    forall id :: id in before ==> id in after && after[id] == before[id]
  }

  /** Only greetings were sent. */
  predicate Greets(before: seq<(nat, Hello)>, after: seq<(nat, Hello)>, boot: nat) {
    before <= after && forall i :: |before| <= i < |after| ==> after[i].1 == Hello(false, boot, 0)
  }

  datatype Snap = Snap(peers: map<nat, Peer>, sent: seq<(nat, Hello)>, frames: seq<(nat, nat)>, calls: CallMap,
      nextReq: nat, issued: nat, fired: seq<Firing>)

  /** The request of the call was handed to its peer's session, or waits for one. */
  predicate Placed(s: Snap, id: nat) {
    id in s.calls && Given(s, s.calls[id].peer, id)
  }

  predicate Given(s: Snap, k: nat, id: nat) { (k, id) in s.frames || (k in s.peers && id in s.peers[k].pending) }

  /** No call is left without its request, unless it was before. */
  ghost predicate PlacedKept(a: Snap, b: Snap) {
    forall id :: id in b.calls && (id !in a.calls || Placed(a, id)) ==> Placed(b, id)
  }

  function Line(peers: map<nat, Peer>, k: nat): seq<nat> { if k in peers then peers[k].pending else [] }

  function HelloDue(peers: map<nat, Peer>, k: nat): nat { if k in peers then peers[k].nextHello else 0 }

  /** The request waited in the line of k, or has been made since. */
  predicate Comes(a: Snap, k: nat, id: nat, n: nat) { id in Line(a.peers, k) || id >= n }

  /** Whatever waits, and whatever the sessions took since, comes from there. */
  ghost predicate Sourced(a: Snap, b: Snap, n: nat) {
    && a.frames <= b.frames
    && (forall i :: |a.frames| <= i < |b.frames| ==> Comes(a, b.frames[i].0, b.frames[i].1, n))
    && (forall k, id :: id in Line(b.peers, k) ==> Comes(a, k, id, n))
  }

  /** A greeting is put off only by one that was sent. */
  ghost predicate Timely(a: Snap, b: Snap, boot: nat) {
    forall k :: HelloDue(b.peers, k) == HelloDue(a.peers, k) || Greeted(a.sent, b.sent, boot, k)
  }

  /** Nothing that was asked of k before goes to k, or waits for it, any more. */
  ghost predicate Forgotten(a: Snap, b: Snap, k: nat) {
    && a.frames <= b.frames
    && (forall i :: |a.frames| <= i < |b.frames| && b.frames[i].0 == k ==> b.frames[i].1 >= a.nextReq)
    && (forall id :: id in Line(b.peers, k) ==> id >= a.nextReq)
  }

  lemma SourcedTrans(a: Snap, b: Snap, c: Snap, n: nat, m: nat)
    requires Sourced(a, b, n) && Sourced(b, c, m) && n <= m
    ensures Sourced(a, c, n)
  {
    forall i | |a.frames| <= i < |c.frames| ensures Comes(a, c.frames[i].0, c.frames[i].1, n) {
      if i < |b.frames| { assert c.frames[i] == b.frames[i]; }
      else { assert Comes(b, c.frames[i].0, c.frames[i].1, m); }
    }
    forall k, id | id in Line(c.peers, k) ensures Comes(a, k, id, n) { assert Comes(b, k, id, m); }
  }

  lemma TimelyTrans(a: Snap, b: Snap, c: Snap, boot: nat)
    requires Timely(a, b, boot) && Timely(b, c, boot) && a.sent <= b.sent <= c.sent
    ensures Timely(a, c, boot)
  {
    hide Greeted;
    forall k ensures HelloDue(c.peers, k) == HelloDue(a.peers, k) || Greeted(a.sent, c.sent, boot, k) {
      if Greeted(a.sent, b.sent, boot, k) { GreetedLater(a.sent, b.sent, c.sent, boot, k); }
      if Greeted(b.sent, c.sent, boot, k) { GreetedSince(a.sent, b.sent, c.sent, boot, k); }
    }
  }

  lemma GreetedSince(before: seq<(nat, Hello)>, mid: seq<(nat, Hello)>, after: seq<(nat, Hello)>, boot: nat, k: nat)
    requires Greeted(mid, after, boot, k) && before <= mid
    ensures Greeted(before, after, boot, k)
  {
  }

  lemma Unmoved(a: Snap, b: Snap, boot: nat, n: nat)
    requires b.frames == a.frames && b.peers == a.peers
    ensures Sourced(a, b, n) && Timely(a, b, boot)
  {
  }

  lemma Emptied(a: Snap, b: Snap, k: nat)
    requires k in a.peers && Sourced(Dropped(a, k), b, a.nextReq)
    ensures Forgotten(a, b, k)
  {
    var d := Dropped(a, k);
    assert Line(d.peers, k) == [];
    forall i | |a.frames| <= i < |b.frames| && b.frames[i].0 == k ensures b.frames[i].1 >= a.nextReq {
      assert Comes(d, b.frames[i].0, b.frames[i].1, a.nextReq);
    }
    forall id | id in Line(b.peers, k) ensures id >= a.nextReq { assert Comes(d, k, id, a.nextReq); }
  }

  /** What any amount of calling leaves alone: handshakes, calls that wait, firings that happened.
      New calls have new ids, and their requests are on the way or queued. */
  ghost predicate Progress(a: Snap, b: Snap, boot: nat) {
    && CoresKept(a.peers, b.peers) && CallsKept(a.calls, b.calls) && Greets(a.sent, b.sent, boot)
    && (forall id :: id in b.calls ==> id in a.calls || id >= a.nextReq)
    && a.fired <= b.fired && a.issued <= b.issued && a.nextReq <= b.nextReq && PlacedKept(a, b)
    && Sourced(a, b, a.nextReq) && Timely(a, b, boot)
  }

  /** Request id for k was queued: taken by the session if there is one; otherwise last in line, with a
      greeting to k if one is due. */
  predicate Queues(a: Snap, b: Snap, boot: nat, now: nat, k: nat, id: nat) {
    var p := if k in a.peers then a.peers[k] else NEW_PEER;
    if Linked(p.core) then b.frames == a.frames + [(k, id)] && b.sent == a.sent
    else
      && k in b.peers && b.peers[k].pending == p.pending + [id] && b.frames == a.frames
      && b.sent == a.sent + (if now >= p.nextHello then [(k, Hello(false, boot, 0))] else [])
  }

  lemma HandedOver(a: Snap, b: Snap, boot: nat, k: nat, id: nat)
    requires b.peers == (if k in a.peers then a.peers else a.peers[k := NEW_PEER]) && b.calls == a.calls
    requires b.frames == a.frames || b.frames == a.frames + [(k, id)]
    ensures Sourced(a, b, id) && Timely(a, b, boot) && PlacedKept(a, b)
    ensures b.frames != a.frames ==> Given(b, k, id)
  {
    if b.frames != a.frames { assert b.frames[|a.frames|] == (k, id); }
    GrownKeeps(a, b);
  }

  lemma LinedUp(a: Snap, b: Snap, boot: nat, k: nat, id: nat)
    requires k in b.peers && b.peers == a.peers[k := b.peers[k]] && b.calls == a.calls && b.frames == a.frames
    requires b.peers[k].pending == Line(a.peers, k) + [id]
    requires b.sent == a.sent + [(k, Hello(false, boot, 0))]
             || (b.sent == a.sent && b.peers[k].nextHello == HelloDue(a.peers, k))
    ensures Sourced(a, b, id) && Timely(a, b, boot) && PlacedKept(a, b) && Given(b, k, id)
  {
    if b.sent != a.sent { GreetedNow(a.sent, a.sent, boot, k); }
    GrownKeeps(a, b);
    hide PlacedKept;
  }

  lemma GrownKeeps(a: Snap, b: Snap)
    requires b.calls == a.calls && a.frames <= b.frames
    requires forall k :: k in a.peers ==> k in b.peers && forall id :: id in a.peers[k].pending ==> Given(b, k, id)
    ensures PlacedKept(a, b)
  {
    forall id | id in b.calls && Placed(a, id) ensures Placed(b, id) {
      var k := a.calls[id].peer;
      if (k, id) in a.frames {
        var i :| 0 <= i < |a.frames| && a.frames[i] == (k, id);
        assert b.frames[i] == (k, id);
      }
    }
  }

  lemma SamePlaces(a: Snap, b: Snap)
    requires b.calls == a.calls && b.frames == a.frames && b.peers == a.peers
    ensures PlacedKept(a, b)
  {
    GrownKeeps(a, b);
  }

  lemma KeptTrans(a: Snap, b: Snap, c: Snap)
    requires PlacedKept(a, b) && PlacedKept(b, c)
    ensures PlacedKept(a, c)
  {
  }

  lemma FiredSo(fired: seq<Firing>, t: nat, o: Outcome)
    requires FiredWith(fired, t, o)
    ensures Fired(fired, t)
  {
    var i :| 0 <= i < |fired| && fired[i] == (t, o);
  }

  lemma NotInHand(calls: CallMap, nextReq: nat, issued: nat, fired: seq<Firing>, t: nat)
    requires Books(calls, nextReq, issued, fired, {t})
    ensures !Fired(fired, t)
  {
  }

  lemma ProgressTrans(a: Snap, b: Snap, c: Snap, boot: nat)
    requires Progress(a, b, boot) && Progress(b, c, boot)
    ensures Progress(a, c, boot) && b.issued <= c.issued
  {
    SourcedTrans(a, b, c, a.nextReq, b.nextReq);
    TimelyTrans(a, b, c, boot);
    hide Sourced, Timely;
  }

  lemma Quiet(a: Snap, b: Snap, boot: nat)
    requires CoresKept(a.peers, b.peers) && Greets(a.sent, b.sent, boot) && a.calls == b.calls && a.fired == b.fired
    requires a.issued <= b.issued && a.nextReq <= b.nextReq && PlacedKept(a, b)
    requires Sourced(a, b, a.nextReq) && Timely(a, b, boot)
    ensures Progress(a, b, boot)
  {
    hide Sourced, Timely;
  }

  lemma Waiting(a: Snap, b: Snap, boot: nat, id: nat, c: PendingCall)
    requires Progress(a, b, boot) && a.nextReq <= id && Given(b, c.peer, id)
    ensures id !in b.calls ==> Progress(a, b.(calls := b.calls[id := c]), boot)
  {
    var b' := b.(calls := b.calls[id := c]);
    Relabel(a, b, a, b', boot, a.nextReq);
    hide Sourced, Timely;
    forall j | j in b'.calls && (j !in a.calls || Placed(a, j)) ensures Placed(b', j) {
      if j != id { assert Placed(b, j); }
    }
  }

  lemma AfterFiring(a: Snap, b: Snap, boot: nat, f: Firing)
    requires Progress(a.(fired := a.fired + [f]), b, boot)
    ensures Progress(a, b, boot)
  {
    var a' := a.(fired := a.fired + [f]);
    Relabel(a', b, a, b, boot, a.nextReq);
    hide Sourced, Timely;
    forall j | j in b.calls && (j !in a.calls || Placed(a, j)) ensures Placed(b, j) {
      assert j in a.calls && Placed(a, j) ==> Placed(a', j);
    }
  }

  /** Only peers, frames and greetings matter. */
  lemma Relabel(a: Snap, b: Snap, a': Snap, b': Snap, boot: nat, n: nat)
    requires Sourced(a, b, n) && Timely(a, b, boot)
    requires a'.frames == a.frames && a'.peers == a.peers && a'.sent == a.sent
    requires b'.frames == b.frames && b'.peers == b.peers && b'.sent == b.sent
    ensures Sourced(a', b', n) && Timely(a', b', boot)
  {
    forall i | |a'.frames| <= i < |b'.frames| ensures Comes(a', b'.frames[i].0, b'.frames[i].1, n) {
      assert Comes(a, b.frames[i].0, b.frames[i].1, n);
    }
    forall k, id | id in Line(b'.peers, k) ensures Comes(a', k, id, n) { assert Comes(a, k, id, n); }
  }

  lemma FiredLater(a: Snap, b: Snap, boot: nat, t: nat, o: Outcome)
    requires Progress(a, b, boot) && FiredWith(a.fired, t, o)
    ensures FiredWith(b.fired, t, o)
  {
    var i :| 0 <= i < |a.fired| && a.fired[i] == (t, o);
    assert b.fired[i] == (t, o);
  }

  class RpcNode {
    const boot: nat
    var now: nat
    var peers: map<nat, Peer>
    var calls: CallMap
    var nextReq: nat
    var strangerNext: map<nat, nat>

    /** Handshake datagrams handed to the transport, by destination. */
    var sent: seq<(nat, Hello)>

    /** Requests taken by sessions: the peer and the request id. */
    var frames: seq<(nat, nat)>

    /** Calls made so far; each call is known by its number. */
    var issued: nat
    ghost var fired: seq<Firing>

    constructor (boot: nat)
      ensures Valid() && this.boot == boot && issued == 0 && peers == map[] && sent == []
    {
      this.boot := boot;
      now, peers, calls, nextReq, strangerNext, sent, frames := 0, map[], map[], 1, map[], [], [];
      issued, fired := 0, [];
    }

    ghost predicate Valid()
      reads this
    {
      Books(calls, nextReq, issued, fired, {})
    }

    ghost function Now(): Snap
      reads this
    {
      Snap(peers, sent, frames, calls, nextReq, issued, fired)
    }

    method FindPeer(k: nat) returns (p: Peer)
      modifies this`peers
      ensures k in peers && peers[k] == p && CoresKept(old(peers), peers)
      ensures p == if k in old(peers) then old(peers)[k] else NEW_PEER
      ensures forall j :: j in old(peers) ==> j in peers && peers[j] == old(peers)[j]
      ensures peers == if k in old(peers) then old(peers) else old(peers)[k := NEW_PEER]
    {
      if k !in peers { peers := peers[k := NEW_PEER]; }
      p := peers[k];
    }

    method SendHello(k: nat)
      requires k in peers
      modifies this`peers, this`sent
      ensures CoresKept(old(peers), peers) && old(peers).Keys <= peers.Keys && Greets(old(sent), sent, boot)
      ensures sent == old(sent) + [(k, Hello(false, boot, 0))]
      ensures peers == old(peers)[k := old(peers)[k].(nextHello := now + HELLO_RETRY)]
    {
      sent := sent + [(k, Hello(false, boot, 0))];
      peers := peers[k := peers[k].(nextHello := now + HELLO_RETRY)];
    }

    /** The frame goes to the session, or waits for one. */
    method Enqueue(k: nat, id: nat) returns (taken: bool)
      modifies this`peers, this`sent, this`frames
      ensures CoresKept(old(peers), peers) && Greets(old(sent), sent, boot) && PlacedKept(old(Now()), Now())
      ensures !taken ==> Linked(CoreOf(old(peers), k))
      ensures taken ==> Queues(old(Now()), Now(), boot, now, k, id) && Given(Now(), k, id)
      ensures Sourced(old(Now()), Now(), id) && Timely(old(Now()), Now(), boot)
    {
      hide Greeted, Sourced, Timely, PlacedKept, Given;
      ghost var a := Now();
      var p := FindPeer(k);
      if p.core.session && p.core.remoteBoot != 0 && p.core.acked {
        taken := *;
        if taken { frames := frames + [(k, id)]; }
        HandedOver(a, Now(), boot, k, id);
      } else {
        peers := peers[k := p.(pending := p.pending + [id])];
        if now >= p.nextHello { SendHello(k); }
        taken := true;
        LinedUp(a, Now(), boot, k, id);
      }
    }

    /** Issues a request. Its callback fires here and now, or waits for its time under a fresh id, with
        the request taken by the peer's session or, without one, at the end of those that wait for it. */
    method Call(r: Request) returns (token: nat)
      requires Valid()
      modifies this`peers, this`frames, this`calls, this`nextReq, this`sent, this`issued, this`fired
      ensures Valid() && Progress(old(Now()), Now(), boot) && token == old(issued) < issued
      ensures r.size > MAX_RPC_BODY ==> FiredWith(fired, token, TooLarge)
      ensures r.size <= MAX_RPC_BODY && !Linked(CoreOf(old(peers), r.to)) ==> !Fired(fired, token)
      ensures !Fired(fired, token) ==>
                var id := old(nextReq);
                && fired == old(fired) && calls == old(calls)[id := PendingCall(r.to, now + r.timeout, r.cb, token)]
                && Queues(old(Now()), Now(), boot, now, r.to, id)
      decreases r, 1
    {
      hide Books, Fired, FiredWith, Progress, PlacedKept, Sourced, Timely;
      token := issued;
      Issue(calls, nextReq, issued, fired);
      issued := issued + 1;
      if r.size > MAX_RPC_BODY {
        ghost var a := Now();
        SamePlaces(old(Now()), a);
        Unmoved(old(Now()), a, boot, nextReq);
        Quiet(old(Now()), a, boot);
        RunCallback(r.cb, TooLarge, token);
        ProgressTrans(old(Now()), a, Now(), boot);
        FiredSo(fired, token, TooLarge);
        return;
      }
      var id := nextReq;
      FreshId(calls, nextReq, issued, fired, {token});
      SkipId(calls, nextReq, issued, fired, {token});
      nextReq := nextReq + 1;
      NotInHand(calls, nextReq, issued, fired, token);
      ghost var a := Now();
      var taken := Enqueue(r.to, id);
      ghost var b := Now();
      SamePlaces(old(Now()), a);
      KeptTrans(old(Now()), a, b);
      Relabel(a, b, old(Now()), b, boot, id);
      Quiet(old(Now()), b, boot);
      if !taken {
        RunCallback(r.cb, Busy, token);
        ProgressTrans(old(Now()), b, Now(), boot);
        FiredSo(fired, token, Busy);
        return;
      }
      var c := PendingCall(r.to, now + r.timeout, r.cb, token);
      Register(calls, nextReq, issued, fired, id, c);
      calls := calls[id := c];
      Waiting(old(Now()), b, boot, id, c);
    }

    /** Runs a callback that has just left the books: it fires, then may call again. */
    method RunCallback(cb: Callback, o: Outcome, token: nat)
      requires Books(calls, nextReq, issued, fired, {token})
      modifies this`peers, this`frames, this`calls, this`nextReq, this`sent, this`issued, this`fired
      ensures Valid() && Progress(old(Now()), Now(), boot) && FiredWith(fired, token, o)
      decreases cb, 0
    {
      hide Books, Progress, Sourced, Timely;
      Fire(calls, nextReq, issued, fired, token, o);
      fired := fired + [(token, o)];
      assert fired[|old(fired)|] == (token, o);
      assert FiredWith(fired, token, o);
      hide FiredWith;
      ghost var start := Now();
      Unmoved(start, start, boot, nextReq);
      Quiet(start, start, boot);
      AfterFiring(old(Now()), start, boot, (token, o));
      var k: int := *;
      if k < 0 || k >= |cb.plans| { return; }
      var plan := cb.plans[k];
      for i := 0 to |plan.requests|
        invariant Valid() && Progress(old(Now()), Now(), boot) && FiredWith(fired, token, o)
      {
        ghost var a := Now();
        var _ := Call(plan.requests[i]);
        ProgressTrans(old(Now()), a, Now(), boot);
        FiredLater(a, Now(), boot, token, o);
      }
    }

    /** Completes a call, if it is still waiting: duplicates and late responses find nothing. */
    method FinishCall(id: nat, o: Outcome)
      requires Valid()
      modifies this`peers, this`frames, this`calls, this`nextReq, this`sent, this`issued, this`fired
      ensures Valid() && Progress(old(Now()).(calls := old(calls) - {id}), Now(), boot)
      ensures id !in old(calls) ==> Now() == old(Now())
      ensures id in old(calls) ==> FiredWith(fired, old(calls)[id].token, o)
    {
      hide Books, FiredWith, Progress;
      if id !in calls {
        assert calls - {id} == calls;
        Unmoved(Now(), Now(), boot, nextReq);
        Quiet(Now(), Now(), boot);
        return;
      }
      var c := calls[id];
      Take(calls, nextReq, issued, fired, id);
      calls := calls - {id};
      RunCallback(c.cb, o, c.token);
    }

    /** Fails every call to a peer. Callbacks may call the peer again: those calls stay. */
    method FailCallsTo(k: nat, o: Outcome)
      requires Valid()
      modifies this`peers, this`frames, this`calls, this`nextReq, this`sent, this`issued, this`fired
      ensures Valid() && Progress(old(Now()).(calls := CallsNotTo(old(calls), k)), Now(), boot)
      ensures forall id :: id in old(calls) && old(calls)[id].peer == k ==> FiredWith(fired, old(calls)[id].token, o)
    {
      hide Books, FiredWith, Progress;
      var ids := set id | id in calls && calls[id].peer == k;
      FinishAll(ids, o);
      assert CallsNotTo(old(calls), k) == old(calls) - ids;
    }

    /** The collected ids, one after the other. */
    method FinishAll(ids: set<nat>, o: Outcome)
      requires Valid() && ids <= calls.Keys
      modifies this`peers, this`frames, this`calls, this`nextReq, this`sent, this`issued, this`fired
      ensures Valid() && Progress(old(Now()).(calls := old(calls) - ids), Now(), boot)
      ensures forall id :: id in ids ==> FiredWith(fired, old(calls)[id].token, o)
    {
      hide Books, FiredWith, Progress;
      var rest := ids;
      ghost var left := calls;
      Unmoved(Now(), Now(), boot, nextReq);
      Quiet(Now(), Now(), boot);
      while rest != {}
        invariant rest <= ids && left == old(calls) - (ids - rest) && Valid()
                  && Progress(old(Now()).(calls := left), Now(), boot)
        invariant forall id :: id in ids - rest ==> FiredWith(fired, old(calls)[id].token, o)
      {
        var id :| id in rest;
        ghost var a := Now();
        StillThere(old(Now()).(calls := left), a, boot, id);
        FinishCall(id, o);
        OneLess(old(Now()).(calls := left), a, Now(), boot, id);
        forall t | t in ids - rest ensures FiredWith(fired, old(calls)[t].token, o) {
          FiredStays(a, Now(), boot, id, old(calls)[t].token, o);
        }
        rest, left := rest - {id}, left - {id};
      }
      assert left == old(calls) - ids;
    }

    /** Drops the session and what waited for it, and fails the peer's calls. */
    method Teardown(k: nat)
      requires Valid() && k in peers
      modifies this`peers, this`frames, this`calls, this`nextReq, this`sent, this`issued, this`fired
      ensures Valid() && Progress(Dropped(old(Now()), k), Now(), boot)
      ensures forall id :: id in old(calls) && old(calls)[id].peer == k ==>
          FiredWith(fired, old(calls)[id].token, PeerDown)
      ensures Forgotten(old(Now()), Now(), k) && Sourced(Dropped(old(Now()), k), Now(), old(nextReq))
      ensures HelloDue(peers, k) == 0 || Greeted(old(sent), sent, boot, k)
    {
      hide Books, FiredWith, Progress, Forgotten, Greeted, Sourced;
      peers := peers[k := Peer(peers[k].core.(session := false), 0, [])];
      assert Now().(calls := CallsNotTo(calls, k)) == Dropped(old(Now()), k);
      FailCallsTo(k, PeerDown);
      TornDown(old(Now()), Now(), boot, k);
    }

    /** The failure detector gave the peer up. A callback may call it again: such a call waits, and
        times out unless the peer returns. */
    method PeerDead(k: nat)
      requires Valid()
      modifies this`peers, this`frames, this`calls, this`nextReq, this`sent, this`issued, this`fired
      ensures Valid() && CoreOf(peers, k) == NO_CORE && Others(old(peers), peers, k) && Greets(old(sent), sent, boot)
      ensures CallsKept(CallsNotTo(old(calls), k), calls) && old(fired) <= fired
      ensures forall id :: id in old(calls) && old(calls)[id].peer == k ==>
          FiredWith(fired, old(calls)[id].token, PeerDown)
      ensures forall id :: id in calls && calls[id].peer != k && (id !in old(calls) || Placed(old(Now()), id)) ==>
          Placed(Now(), id)
    {
      hide Books, FiredWith;
      if k in peers {
        AllOthers(peers, k);
        ghost var a := Now();
        Teardown(k);
        DroppedMeans(old(peers), a, Now(), boot, k);
        DroppedKeeps(a, Now(), boot, k);
        ghost var b := Now();
        peers := peers - {k};
        assert forall id :: id in calls && calls[id].peer != k && Placed(b, id) ==> Placed(Now(), id);
      } else {
        FailCallsTo(k, PeerDown);
      }
    }

    /** Creates the session and hands it what waited. */
    method Establish(k: nat)
      requires k in peers
      modifies this`peers, this`frames
      ensures k in peers && peers[k].core == old(peers)[k].core.(session := true) && Others(old(peers), peers, k)
      ensures Flushes(old(Now()), Now(), k)
    {
      peers := peers[k := peers[k].(core := peers[k].core.(session := true))];
      FlushPending(k);
    }

    /** Until the session pushes back: what it took was the head of the line, the rest still waits. */
    method FlushPending(k: nat)
      requires k in peers
      modifies this`peers, this`frames
      ensures old(peers).Keys <= peers.Keys && CoresKept(old(peers), peers) && peers[k].core == old(peers)[k].core
      ensures Flushes(old(Now()), Now(), k)
    {
      ghost var taken := [];
      while peers[k].pending != []
        invariant k in peers && taken + peers[k].pending == old(peers)[k].pending
        invariant frames == old(frames) + Frames(k, taken)
        invariant peers == old(peers)[k := old(peers)[k].(pending := peers[k].pending)]
        decreases |peers[k].pending|
      {
        var goes: bool := *;
        if !goes { break; }
        var id := peers[k].pending[0];
        FramesMore(k, taken, id);
        taken := taken + [id];
        frames := frames + [(k, id)];
        peers := peers[k := peers[k].(pending := peers[k].pending[1..])];
      }
      assert old(peers)[k].pending == taken + peers[k].pending;
    }

    /** A HELLO or an ACK from k. */
    method HandleHello(k: nat, h: Hello)
      requires Valid()
      modifies this`peers, this`frames, this`calls, this`nextReq, this`sent, this`issued, this`fired
      ensures Valid() && CoreOf(peers, k) == HelloCore(CoreOf(old(peers), k), boot, h) && Others(old(peers), peers, k)
      ensures Answers(old(sent), sent, boot, k, h)
      ensures NewBoot(CoreOf(old(peers), k), boot, h) ==>
                forall id :: id in old(calls) && old(calls)[id].peer == k ==>
                    FiredWith(fired, old(calls)[id].token, PeerDown)
      ensures old(fired) <= fired && CallsKept(CallsNotTo(old(calls), k), calls)
      ensures PlacedKept(old(Now()), Now())
      ensures NewBoot(CoreOf(old(peers), k), boot, h) ==> Forgotten(old(Now()), Now(), k)
      ensures h.isAck && h.echo == boot ==> CoreOf(peers, k) == Core(true, h.sender, true)
      ensures h.isAck && h.echo != boot ==> CoreOf(peers, k) == CoreOf(old(peers), k)
      ensures !h.isAck ==>
                var c, same := CoreOf(old(peers), k), CoreOf(old(peers), k).remoteBoot in {0, h.sender};
                && CoreOf(peers, k).remoteBoot == h.sender && CoreOf(peers, k).acked == (same && c.acked)
                && CoreOf(peers, k).session == (same && (c.session || (h.sender != 0 && c.acked)))
    {
      if h.isAck { TakeAck(k, h); } else { TakeHello(k, h); }
    }

    method TakeAck(k: nat, h: Hello)
      requires Valid() && h.isAck
      modifies this`peers, this`frames, this`calls, this`nextReq, this`sent, this`issued, this`fired
      ensures Valid() && CoreOf(peers, k) == HelloCore(CoreOf(old(peers), k), boot, h) && Others(old(peers), peers, k)
      ensures Answers(old(sent), sent, boot, k, h)
      ensures NewBoot(CoreOf(old(peers), k), boot, h) ==>
                forall id :: id in old(calls) && old(calls)[id].peer == k ==>
                    FiredWith(fired, old(calls)[id].token, PeerDown)
      ensures old(fired) <= fired && CallsKept(CallsNotTo(old(calls), k), calls)
      ensures PlacedKept(old(Now()), Now())
      ensures NewBoot(CoreOf(old(peers), k), boot, h) ==> Forgotten(old(Now()), Now(), k)
    {
      hide Books, FiredWith, Progress, CoresKept, Others, CallsKept, PlacedKept, Flushes, Sourced, Forgotten;
      var p := FindPeer(k);
      AllKept(old(peers), peers, k);
      KeptCalls(calls, k);
      FoundKeeps(old(Now()), Now(), k);
      if h.echo != boot { return; }
      ghost var s0, d := Now(), Now();
      SamePlaces(s0, s0);
      Unmoved(s0, s0, boot, nextReq);
      if p.core.remoteBoot != 0 && p.core.remoteBoot != h.sender {
        Teardown(k);
        DroppedMeans(old(peers), s0, Now(), boot, k);
        DroppedKeeps(s0, Now(), boot, k);
        d := Dropped(s0, k);
      }
      KeptTrans(old(Now()), s0, Now());
      ghost var peers1, s1 := peers, Now();
      p := FindPeer(k);
      AllKept(peers1, peers, k);
      FoundKeeps(s1, Now(), k);
      KeptTrans(old(Now()), s1, Now());
      SourcedTrans(d, s1, Now(), s0.nextReq, nextReq);
      ghost var peers2, s2 := peers, Now();
      peers := peers[k := p.(core := p.core.(remoteBoot := h.sender, acked := true))];
      SetOthers(peers2, k, peers[k]);
      CoreKeeps(s2, Now(), k);
      KeptTrans(old(Now()), s2, Now());
      SourcedTrans(d, s2, Now(), s0.nextReq, nextReq);
      ghost var peers3, s3 := peers, Now();
      if !p.core.session {
        Establish(k);
        FlushKeeps(s3, Now(), k);
        KeptTrans(old(Now()), s3, Now());
        SourcedTrans(d, s3, Now(), s0.nextReq, nextReq);
      } else {
        AllOthers(peers, k);
      }
      if NewBoot(CoreOf(old(peers), k), boot, h) { Emptied(s0, Now(), k); }
      OthersChain(old(peers), peers1, peers2, peers3, peers, k);
    }

    method TakeHello(k: nat, h: Hello)
      requires Valid() && !h.isAck
      modifies this`peers, this`frames, this`calls, this`nextReq, this`sent, this`issued, this`fired
      ensures Valid() && CoreOf(peers, k) == HelloCore(CoreOf(old(peers), k), boot, h) && Others(old(peers), peers, k)
      ensures Answers(old(sent), sent, boot, k, h)
      ensures NewBoot(CoreOf(old(peers), k), boot, h) ==>
                forall id :: id in old(calls) && old(calls)[id].peer == k ==>
                    FiredWith(fired, old(calls)[id].token, PeerDown)
      ensures old(fired) <= fired && CallsKept(CallsNotTo(old(calls), k), calls)
      ensures PlacedKept(old(Now()), Now())
      ensures NewBoot(CoreOf(old(peers), k), boot, h) ==> Forgotten(old(Now()), Now(), k)
    {
      hide Books, FiredWith, Progress, CoresKept, Others, CallsKept, PlacedKept, Sourced, Forgotten;
      var p := FindPeer(k);
      AllKept(old(peers), peers, k);
      KeptCalls(calls, k);
      FoundKeeps(old(Now()), Now(), k);
      ghost var s0, d := Now(), Now();
      Unmoved(s0, s0, boot, nextReq);
      if p.core.remoteBoot != 0 && p.core.remoteBoot != h.sender {
        ghost var a := Now();
        Teardown(k);
        DroppedMeans(old(peers), a, Now(), boot, k);
        DroppedKeeps(a, Now(), boot, k);
        KeptTrans(old(Now()), a, Now());
        ghost var peers0, s1 := peers, Now();
        p := FindPeer(k);
        AllKept(peers0, peers, k);
        FoundKeeps(s1, Now(), k);
        KeptTrans(old(Now()), s1, Now());
        d := Dropped(a, k);
        SourcedTrans(d, s1, Now(), s0.nextReq, nextReq);
        ghost var s2 := Now();
        SetOthers(peers, k, p.(core := p.core.(acked := false)));
        OthersTrans(old(peers), peers0, peers, k);
        OthersTrans(old(peers), peers, peers[k := p.(core := p.core.(acked := false))], k);
        p := p.(core := p.core.(acked := false));
        peers := peers[k := p];
        CoreKeeps(s2, Now(), k);
        KeptTrans(old(Now()), s2, Now());
        SourcedTrans(d, s2, Now(), s0.nextReq, nextReq);
      }
      assert p == peers[k];
      ghost var s3 := Now();
      FinishHello(k, h, old(peers), old(sent));
      KeptTrans(old(Now()), s3, Now());
      SourcedTrans(d, s3, Now(), s0.nextReq, nextReq);
      if NewBoot(CoreOf(old(peers), k), boot, h) { Emptied(s0, Now(), k); }
    }

    /** The rest of a HELLO, once a stale session is gone. */
    method FinishHello(k: nat, h: Hello, ghost peers0: map<nat, Peer>, ghost sent0: seq<(nat, Hello)>)
      requires k in peers && !h.isAck && Others(peers0, peers, k) && Greets(sent0, sent, boot)
      modifies this`peers, this`sent, this`frames
      ensures Others(peers0, peers, k) && Answers(sent0, sent, boot, k, h) && PlacedKept(old(Now()), Now())
      ensures Sourced(old(Now()), Now(), nextReq)
      ensures !old(peers)[k].core.acked && now >= old(peers)[k].nextHello ==>
          sent == old(sent) + [(k, Hello(true, boot, h.sender)), (k, Hello(false, boot, 0))]
      ensures
        var c := old(peers)[k].core;
        CoreOf(peers, k) == Core(c.session || (h.sender != 0 && c.acked), h.sender, c.acked)
    {
      hide CoresKept, Others, Greets, Answers, PlacedKept, Flushes, Sourced;
      ghost var s0 := Now();
      var p := peers[k].(core := peers[k].core.(remoteBoot := h.sender));
      SetOthers(peers, k, p);
      OthersTrans(peers0, peers, peers[k := p], k);
      peers := peers[k := p];
      CoreKeeps(s0, Now(), k);
      Answered(sent0, sent, boot, k, h);
      sent := sent + [(k, Hello(true, boot, h.sender))];
      ghost var peers1, sent1 := peers, sent;
      if !p.core.acked && now >= p.nextHello {
        SendHello(k);
        AllKept(peers1, peers, k);
        MoreGreets(sent0, sent1, sent, boot, k, h);
        OthersTrans(peers0, peers1, peers, k);
      }
      ghost var peers2 := peers;
      CoreKeeps(s0, Now(), k);
      ghost var s1 := Now();
      if p.core.remoteBoot != 0 && p.core.acked && !p.core.session {
        Establish(k);
        OthersTrans(peers0, peers2, peers, k);
        FlushKeeps(s1, Now(), k);
        KeptTrans(s0, s1, Now());
        SourcedTrans(s0, s1, Now(), nextReq, nextReq);
      }
    }

    /** Session traffic from a peer without a handshake: greet it, not too often. */
    method HandleStranger(k: nat)
      requires Valid()
      modifies this`peers, this`sent, this`strangerNext
      ensures Valid() && CoresKept(old(peers), peers) && Greets(old(sent), sent, boot)
      ensures
        var early := k in old(strangerNext) && now < old(strangerNext)[k];
        && strangerNext == (if early then old(strangerNext) else old(strangerNext)[k := now + STRANGER_INTERVAL])
        && (if early then sent == old(sent) else |sent| == |old(sent)| + 1 && sent[|old(sent)|].0 == k)
    {
      if k in strangerNext && now < strangerNext[k] { return; }
      strangerNext := strangerNext[k := now + STRANGER_INTERVAL];
      var _ := FindPeer(k);
      SendHello(k);
    }

    /** A response, from whichever peer. */
    method TakeResponse(reqId: nat, status: nat)
      requires Valid()
      modifies this`peers, this`frames, this`calls, this`nextReq, this`sent, this`issued, this`fired
      ensures Valid() && CallsKept(old(calls) - {reqId}, calls) && old(fired) <= fired
      ensures reqId in old(calls) ==> FiredWith(fired, old(calls)[reqId].token, Response(status))
      ensures reqId !in old(calls) ==> fired == old(fired)
      ensures PlacedKept(old(Now()), Now())
    {
      FinishCall(reqId, Response(status));
    }

    /** Retries handshakes, then times out what is due. */
    method Tick(time: nat)
      requires Valid() && now <= time
      modifies this`now, this`peers, this`frames, this`calls, this`nextReq, this`sent, this`issued, this`fired
      ensures Valid() && now == time && CoresKept(old(peers), peers) && Greets(old(sent), sent, boot)
              && old(fired) <= fired
      ensures forall id :: id in old(calls) && old(calls)[id].deadline <= time ==>
          FiredWith(fired, old(calls)[id].token, Timeout)
      ensures forall id :: id in old(calls) && old(calls)[id].deadline > time ==>
          id in calls && calls[id] == old(calls)[id]
      ensures PlacedKept(old(Now()), Now())
      ensures forall k :: Ungreeted(old(peers), k, time) ==> Greeted(old(sent), sent, boot, k)
    {
      hide Books, FiredWith, Greeted;
      now := time;
      ghost var s0 := Now();
      SamePlaces(old(Now()), s0);
      Retry();
      ghost var s1 := Now();
      KeptTrans(old(Now()), s0, s1);
      var due := set id | id in calls && time >= calls[id].deadline;
      FinishAll(due, Timeout);
      FewerKeeps(s1, Now(), boot, due);
      KeptTrans(old(Now()), s1, Now());
      forall k | Greeted(old(sent), s1.sent, boot, k) ensures Greeted(old(sent), sent, boot, k) {
        GreetedLater(old(sent), s1.sent, sent, boot, k);
      }
    }

    /** Every session is offered what waits for it, and every peer something waits for is greeted when
        that is due. */
    method Retry()
      modifies this`peers, this`frames, this`sent
      ensures CoresKept(old(peers), peers) && Greets(old(sent), sent, boot) && PlacedKept(old(Now()), Now())
      ensures forall k :: Ungreeted(old(peers), k, now) ==> Greeted(old(sent), sent, boot, k)
    {
      hide PlacedKept, Flushes, Greeted;
      var keys := peers.Keys;
      SamePlaces(Now(), Now());
      while keys != {}
        invariant keys <= old(peers).Keys == peers.Keys && CoresKept(old(peers), peers)
        invariant Greets(old(sent), sent, boot)
        invariant calls == old(calls) && PlacedKept(old(Now()), Now())
        invariant forall k :: k in keys ==> peers[k] == old(peers)[k]
        invariant forall k :: Ungreeted(old(peers), k, now) && k !in keys ==> Greeted(old(sent), sent, boot, k)
      {
        var k :| k in keys;
        var p := peers[k];
        ghost var a := Now();
        if p.core.session {
          FlushPending(k);
          FlushPeers(a, Now(), k);
          FlushKeeps(a, Now(), k);
          KeptTrans(old(Now()), a, Now());
        } else if p.pending != [] && now >= p.nextHello {
          SendHello(k);
          CoreKeeps(a, Now(), k);
          KeptTrans(old(Now()), a, Now());
          GreetedNow(old(sent), a.sent, boot, k);
          forall j | Greeted(old(sent), a.sent, boot, j) ensures Greeted(old(sent), sent, boot, j) {
            GreetedLater(old(sent), a.sent, sent, boot, j);
          }
        }
        keys := keys - {k};
      }
    }
  }

  /** Requests wait for k without a session, and a greeting is due. */
  predicate Ungreeted(peers: map<nat, Peer>, k: nat, now: nat) {
    k in peers && !peers[k].core.session && peers[k].pending != [] && now >= peers[k].nextHello
  }

  /** A greeting went to k. */
  predicate Greeted(before: seq<(nat, Hello)>, after: seq<(nat, Hello)>, boot: nat, k: nat) {
    exists i :: |before| <= i < |after| && after[i] == (k, Hello(false, boot, 0))
  }

  lemma GreetedNow(before: seq<(nat, Hello)>, mid: seq<(nat, Hello)>, boot: nat, k: nat)
    requires before <= mid
    ensures Greeted(before, mid + [(k, Hello(false, boot, 0))], boot, k)
  {
    assert (mid + [(k, Hello(false, boot, 0))])[|mid|] == (k, Hello(false, boot, 0));
  }

  lemma GreetedLater(before: seq<(nat, Hello)>, mid: seq<(nat, Hello)>, after: seq<(nat, Hello)>, boot: nat, k: nat)
    requires Greeted(before, mid, boot, k) && mid <= after
    ensures Greeted(before, after, boot, k)
  {
    var i :| |before| <= i < |mid| && mid[i] == (k, Hello(false, boot, 0));
    assert after[i] == (k, Hello(false, boot, 0));
  }

  lemma FlushPeers(a: Snap, b: Snap, k: nat)
    requires Flushes(a, b, k)
    ensures b.peers.Keys == a.peers.Keys && b.calls == a.calls && b.sent == a.sent
    ensures forall j :: j in a.peers && j != k ==> b.peers[j] == a.peers[j]
  {
  }

  lemma FewerKeeps(a: Snap, b: Snap, boot: nat, ids: set<nat>)
    requires Progress(a.(calls := a.calls - ids), b, boot)
    ensures PlacedKept(a, b)
  {
    var d := a.(calls := a.calls - ids);
    forall id | id in b.calls && (id !in a.calls || Placed(a, id)) ensures Placed(b, id) {
      if id in d.calls { assert Placed(d, id); }
    }
  }

  function Frames(k: nat, ids: seq<nat>): seq<(nat, nat)> { seq(|ids|, i requires 0 <= i < |ids| => (k, ids[i])) }

  lemma FramesMore(k: nat, ids: seq<nat>, id: nat)
    ensures Frames(k, ids + [id]) == Frames(k, ids) + [(k, id)]
  {
  }

  /** The session of k took some of the requests that waited for it, from the first on. */
  ghost predicate Flushes(a: Snap, b: Snap, k: nat) {
    && k in a.peers && k in b.peers && b.calls == a.calls && b.sent == a.sent
    && (forall j :: j != k ==> (j in a.peers <==> j in b.peers) && (j in a.peers ==> b.peers[j] == a.peers[j]))
    && exists taken :: a.peers[k].pending == taken + b.peers[k].pending && b.frames == a.frames + Frames(k, taken)
  }

  lemma FlushKeeps(a: Snap, b: Snap, k: nat)
    requires Flushes(a, b, k)
    ensures PlacedKept(a, b) && Sourced(a, b, a.nextReq)
  {
    FlushSourced(a, b, k);
    hide Sourced;
    var taken :| a.peers[k].pending == taken + b.peers[k].pending && b.frames == a.frames + Frames(k, taken);
    forall id | id in a.peers[k].pending ensures Given(b, k, id) {
      if id in taken {
        var i :| 0 <= i < |taken| && taken[i] == id;
        assert b.frames[|a.frames| + i] == (k, id);
      }
    }
    GrownKeeps(a, b);
  }

  lemma FlushSourced(a: Snap, b: Snap, k: nat)
    requires Flushes(a, b, k)
    ensures Sourced(a, b, a.nextReq)
  {
    var taken :| a.peers[k].pending == taken + b.peers[k].pending && b.frames == a.frames + Frames(k, taken);
    forall i | |a.frames| <= i < |b.frames| ensures Comes(a, b.frames[i].0, b.frames[i].1, a.nextReq) {
      assert b.frames[i] == (k, taken[i - |a.frames|]) && taken[i - |a.frames|] in a.peers[k].pending;
    }
    forall j, id | id in Line(b.peers, j) ensures Comes(a, j, id, a.nextReq) {
      if j == k { assert id in a.peers[k].pending; }
    }
  }

  /** Every peer but k is where it was. */
  ghost predicate Others(before: map<nat, Peer>, after: map<nat, Peer>, k: nat) {
    forall j :: j != k ==> CoreOf(after, j) == CoreOf(before, j)
  }

  lemma AllKept(a: map<nat, Peer>, b: map<nat, Peer>, k: nat)
    requires CoresKept(a, b)
    ensures Others(a, b, k) && CoreOf(a, k) == CoreOf(b, k)
  {
  }

  lemma AllOthers(a: map<nat, Peer>, k: nat)
    ensures Others(a, a, k)
  {
  }

  lemma SetOthers(a: map<nat, Peer>, k: nat, p: Peer)
    ensures Others(a, a[k := p], k)
  {
  }

  lemma OthersTrans(a: map<nat, Peer>, b: map<nat, Peer>, c: map<nat, Peer>, k: nat)
    requires Others(a, b, k) && Others(b, c, k)
    ensures Others(a, c, k)
  {
  }

  lemma OthersChain(a: map<nat, Peer>, b: map<nat, Peer>, c: map<nat, Peer>, d: map<nat, Peer>, e: map<nat, Peer>,
      k: nat)
    requires Others(a, b, k) && Others(b, c, k) && Others(c, d, k) && Others(d, e, k)
    ensures Others(a, e, k)
  {
  }

  lemma KeptCalls(calls: CallMap, k: nat)
    ensures CallsKept(CallsNotTo(calls, k), calls)
  {
  }

  /** Looking a peer up, or changing anything of it but its line. */
  lemma FoundKeeps(a: Snap, b: Snap, k: nat)
    requires b.calls == a.calls && b.frames == a.frames && k in b.peers
    requires b.peers[k].pending == (if k in a.peers then a.peers[k].pending else [])
    requires forall j :: j in a.peers && j != k ==> j in b.peers && b.peers[j] == a.peers[j]
    requires b.peers.Keys == a.peers.Keys + {k}
    ensures PlacedKept(a, b) && Sourced(a, b, a.nextReq)
  {
    GrownKeeps(a, b);
  }

  lemma CoreKeeps(a: Snap, b: Snap, k: nat)
    requires b.calls == a.calls && b.frames == a.frames && k in a.peers && k in b.peers
    requires b.peers == a.peers[k := b.peers[k]] && b.peers[k].pending == a.peers[k].pending
    ensures PlacedKept(a, b) && Sourced(a, b, a.nextReq)
  {
    GrownKeeps(a, b);
  }

  /** A teardown empties the line of k, but then no call to k that was there is left. */
  lemma DroppedKeeps(a: Snap, b: Snap, boot: nat, k: nat)
    requires k in a.peers && Progress(Dropped(a, k), b, boot)
    ensures PlacedKept(a, b)
  {
    var d := Dropped(a, k);
    forall id | id in b.calls && (id !in a.calls || Placed(a, id)) ensures Placed(b, id) {
      if id in d.calls { assert Placed(d, id); }
    }
  }

  lemma TornDown(a: Snap, b: Snap, boot: nat, k: nat)
    requires k in a.peers && Progress(Dropped(a, k), b, boot)
    ensures Sourced(Dropped(a, k), b, a.nextReq) && Forgotten(a, b, k)
    ensures HelloDue(b.peers, k) == 0 || Greeted(a.sent, b.sent, boot, k)
  {
    hide Sourced, Forgotten, Greeted;
    assert HelloDue(Dropped(a, k).peers, k) == 0;
    Emptied(a, b, k);
  }

  /** What a teardown did, seen from before the peer was looked up. */
  lemma DroppedMeans(peers0: map<nat, Peer>, a: Snap, b: Snap, boot: nat, k: nat)
    requires k in a.peers && Others(peers0, a.peers, k) && Progress(Dropped(a, k), b, boot)
    ensures Others(peers0, b.peers, k) && CoreOf(b.peers, k) == a.peers[k].core.(session := false)
    ensures Greets(a.sent, b.sent, boot) && a.fired <= b.fired && CallsKept(CallsNotTo(a.calls, k), b.calls)
    ensures a.nextReq <= b.nextReq
  {
    assert CoresKept(Dropped(a, k).peers, b.peers);
  }

  lemma Answered(before: seq<(nat, Hello)>, sent: seq<(nat, Hello)>, boot: nat, k: nat, h: Hello)
    requires Greets(before, sent, boot) && !h.isAck
    ensures Answers(before, sent + [(k, Hello(true, boot, h.sender))], boot, k, h)
  {
    var after := sent + [(k, Hello(true, boot, h.sender))];
    assert after[|sent|] == (k, Hello(true, boot, h.sender));
  }

  lemma MoreGreets(before: seq<(nat, Hello)>, sent: seq<(nat, Hello)>, after: seq<(nat, Hello)>, boot: nat, k: nat,
      h: Hello)
    requires Answers(before, sent, boot, k, h) && Greets(sent, after, boot)
    ensures Answers(before, after, boot, k, h)
  {
    if !h.isAck {
      var i :| |before| <= i < |sent| && sent[i] == (k, Hello(true, boot, h.sender));
      assert after[i] == (k, Hello(true, boot, h.sender));
    }
  }

  /** Greetings, and the one answer a HELLO calls for. */
  predicate Answers(before: seq<(nat, Hello)>, after: seq<(nat, Hello)>, boot: nat, k: nat, h: Hello) {
    && before <= after
    && (forall i :: |before| <= i < |after| ==>
          after[i].1 == Hello(false, boot, 0) || (!h.isAck && after[i] == (k, Hello(true, boot, h.sender))))
    && (!h.isAck ==> exists i :: |before| <= i < |after| && after[i] == (k, Hello(true, boot, h.sender)))
  }

  /** The datagram tells of another incarnation than the one the session was built against. */
  predicate NewBoot(c: Core, boot: nat, h: Hello) {
    c.remoteBoot != 0 && c.remoteBoot != h.sender && (h.isAck ==> h.echo == boot)
  }

  function Dropped(a: Snap, k: nat): Snap
    requires k in a.peers
  {
    a.(peers := a.peers[k := Peer(a.peers[k].core.(session := false), 0, [])], calls := CallsNotTo(a.calls, k))
  }

  function CallsNotTo(calls: CallMap, k: nat): CallMap {
    map id | id in calls && calls[id].peer != k :: calls[id]
  }

  lemma StillThere(a: Snap, b: Snap, boot: nat, id: nat)
    requires Progress(a, b, boot) && id in a.calls
    ensures id in b.calls && b.calls[id] == a.calls[id]
  {
  }

  lemma OneLess(a: Snap, b: Snap, c: Snap, boot: nat, id: nat)
    requires Progress(a, b, boot) && Progress(b.(calls := b.calls - {id}), c, boot)
    ensures Progress(a.(calls := a.calls - {id}), c, boot)
  {
    var b', a' := b.(calls := b.calls - {id}), a.(calls := a.calls - {id});
    Relabel(a, b, a', b', boot, a.nextReq);
    SourcedTrans(a', b', c, a.nextReq, b.nextReq);
    TimelyTrans(a', b', c, boot);
    hide Sourced, Timely;
  }

  lemma FiredStays(b: Snap, c: Snap, boot: nat, id: nat, t: nat, o: Outcome)
    requires Progress(b.(calls := b.calls - {id}), c, boot) && FiredWith(b.fired, t, o)
    ensures FiredWith(c.fired, t, o)
  {
    FiredLater(b.(calls := b.calls - {id}), c, boot, t, o);
  }
}
