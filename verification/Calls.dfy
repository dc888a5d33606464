/** The books of the call layer: which callbacks were issued, which are waiting, which have fired
    (src/rpc.cc). */
module Calls {
  /** The largest body a call carries. */
  const MAX_RPC_BODY := 1120

  datatype Outcome = Response(status: nat) | Timeout | PeerDown | TooLarge | Busy

  /** A callback may issue further calls before it returns: those of one of its plans, whichever. */
  datatype Callback = Callback(plans: seq<Plan>)

  datatype Plan = Plan(requests: seq<Request>)

  datatype Request = Request(to: nat, size: nat, timeout: nat, cb: Callback)

  /** token identifies one call(), and so one callback, for ever. */
  datatype PendingCall = PendingCall(peer: nat, deadline: nat, cb: Callback, token: nat)

  type CallMap = map<nat, PendingCall>
  type Firing = (nat, Outcome)

  predicate Waits(calls: CallMap, t: nat) { exists id :: id in calls && calls[id].token == t }

  predicate Fired(fired: seq<Firing>, t: nat) { exists i :: 0 <= i < |fired| && fired[i].0 == t }

  predicate FiredWith(fired: seq<Firing>, t: nat, o: Outcome) { exists i :: 0 <= i < |fired| && fired[i] == (t, o) }

  /** Of the callbacks issued so far each one is in exactly one place: waiting under one request
      id, fired at one time, or in hand. */
  predicate Books(calls: CallMap, nextReq: nat, issued: nat, fired: seq<Firing>, hand: set<nat>) {
    && (forall id :: id in calls ==>
        id < nextReq && calls[id].token < issued && !Fired(fired, calls[id].token) && calls[id].token !in hand)
    && (forall id1, id2 :: id1 in calls && id2 in calls && id1 != id2 ==> calls[id1].token != calls[id2].token)
    && (forall i :: 0 <= i < |fired| ==> fired[i].0 < issued && fired[i].0 !in hand)
    && (forall i, j :: 0 <= i < j < |fired| ==> fired[i].0 != fired[j].0)
    && (forall t :: 0 <= t < issued ==> Waits(calls, t) || Fired(fired, t) || t in hand)
    && (forall t :: t in hand ==> t < issued)
  }

  lemma Issue(calls: CallMap, nextReq: nat, issued: nat, fired: seq<Firing>)
    requires Books(calls, nextReq, issued, fired, {})
    ensures Books(calls, nextReq, issued + 1, fired, {issued})
  {
  }

  lemma SkipId(calls: CallMap, nextReq: nat, issued: nat, fired: seq<Firing>, hand: set<nat>)
    requires Books(calls, nextReq, issued, fired, hand)
    ensures Books(calls, nextReq + 1, issued, fired, hand)
  {
  }

  lemma FreshId(calls: CallMap, nextReq: nat, issued: nat, fired: seq<Firing>, hand: set<nat>)
    requires Books(calls, nextReq, issued, fired, hand)
    ensures nextReq !in calls
  {
  }

  lemma Register(calls: CallMap, nextReq: nat, issued: nat, fired: seq<Firing>, id: nat, c: PendingCall)
    requires Books(calls, nextReq, issued, fired, {c.token}) && id < nextReq && id !in calls
    ensures Books(calls[id := c], nextReq, issued, fired, {})
  {
    var calls' := calls[id := c];
    forall t | 0 <= t < issued ensures Waits(calls', t) || Fired(fired, t) {
      if t == c.token {
        assert calls'[id].token == t;
      } else if Waits(calls, t) {
        var k :| k in calls && calls[k].token == t;
        assert k in calls' && calls'[k].token == t;
      }
    }
    assert !Fired(fired, c.token);
  }

  lemma Take(calls: CallMap, nextReq: nat, issued: nat, fired: seq<Firing>, id: nat)
    requires Books(calls, nextReq, issued, fired, {}) && id in calls
    ensures Books(calls - {id}, nextReq, issued, fired, {calls[id].token})
  {
    var calls', t0 := calls - {id}, calls[id].token;
    forall t | 0 <= t < issued ensures Waits(calls', t) || Fired(fired, t) || t in {t0} {
      if Waits(calls, t) && t != t0 {
        var k :| k in calls && calls[k].token == t;
        assert k in calls' && calls'[k].token == t;
      }
    }
    forall i | 0 <= i < |fired| ensures fired[i].0 != t0 { assert !Fired(fired, t0); }
  }

  lemma Fire(calls: CallMap, nextReq: nat, issued: nat, fired: seq<Firing>, t: nat, o: Outcome)
    requires Books(calls, nextReq, issued, fired, {t})
    ensures Books(calls, nextReq, issued, fired + [(t, o)], {})
  {
    var fired' := fired + [(t, o)];
    forall id | id in calls ensures !Fired(fired', calls[id].token) { assert !Fired(fired, calls[id].token); }
    forall u | 0 <= u < issued ensures Waits(calls, u) || Fired(fired', u) {
      if u == t {
        assert fired'[|fired|].0 == u;
      } else if Fired(fired, u) {
        var i :| 0 <= i < |fired| && fired[i].0 == u;
        assert fired'[i].0 == u;
      }
    }
  }

  function Count(fired: seq<Firing>, t: nat): nat {
    if fired == [] then 0 else Count(fired[..|fired| - 1], t) + if fired[|fired| - 1].0 == t then 1 else 0
  }

  lemma {:induction false} CountIs(fired: seq<Firing>, t: nat)
    requires forall i, j :: 0 <= i < j < |fired| ==> fired[i].0 != fired[j].0
    ensures Count(fired, t) == if Fired(fired, t) then 1 else 0
  {
    if fired != [] {
      var n := |fired| - 1;
      CountIs(fired[..n], t);
      assert forall i :: 0 <= i < n ==> fired[..n][i] == fired[i];
      if Fired(fired[..n], t) {
        var i :| 0 <= i < n && fired[..n][i].0 == t;
        assert fired[i].0 == t;
      }
    }
  }

  /** Exactly once: between calls every callback ever issued has fired once and waits no more, or
      has not fired and is still waiting. */
  lemma ExactlyOnce(calls: CallMap, nextReq: nat, issued: nat, fired: seq<Firing>, t: nat)
    requires Books(calls, nextReq, issued, fired, {}) && t < issued
    ensures (Count(fired, t) == 1 && !Waits(calls, t)) || (Count(fired, t) == 0 && Waits(calls, t))
  {
    CountIs(fired, t);
    if Waits(calls, t) {
      var id :| id in calls && calls[id].token == t;
      assert !Fired(fired, calls[id].token);
    }
  }
}
