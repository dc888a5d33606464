/** A quorum commit over the call layer: each of its Apply requests is one call, each call completes
    once, and so done is called once (src/queue_node.cc:497-538 over src/rpc.cc). */
module QuorumCalls {
  import opened Calls
  import opened Quorum

  /** kCreated. */
  const CREATED: nat := 0

  predicate Says(o: Outcome) { o == Response(CREATED) }

  /** The replies that the calls with tokens ts have drawn, in the order their callbacks ran. */
  function Replies(fired: seq<Firing>, ts: set<nat>): seq<bool> {
    if fired == [] then []
    else
      var front, last := Replies(fired[..|fired| - 1], ts), fired[|fired| - 1];
      if last.0 in ts then front + [Says(last.1)] else front
  }

  predicate TokensDiffer(fired: seq<Firing>) { forall i, j :: 0 <= i < j < |fired| ==> fired[i].0 != fired[j].0 }

  function Done(fired: seq<Firing>, ts: set<nat>): set<nat> { set t | t in ts && Fired(fired, t) }

  /** One reply per call that has completed. */
  lemma {:induction false} RepliesSize(fired: seq<Firing>, ts: set<nat>)
    requires TokensDiffer(fired)
    ensures |Replies(fired, ts)| == |Done(fired, ts)|
  {
    if fired == [] {
      assert Done(fired, ts) == {};
    } else {
      var n := |fired| - 1;
      var front, t := fired[..n], fired[n].0;
      RepliesSize(front, ts);
      FiredMore(fired);
      if t in ts {
        assert Done(fired, ts) == Done(front, ts) + {t};
      } else {
        assert Done(fired, ts) == Done(front, ts);
      }
    }
  }

  lemma FiredMore(fired: seq<Firing>)
    requires TokensDiffer(fired) && fired != []
    ensures
      var n := |fired| - 1;
      !Fired(fired[..n], fired[n].0) && forall t :: Fired(fired, t) <==> Fired(fired[..n], t) || t == fired[n].0
  {
    var n := |fired| - 1;
    forall t ensures Fired(fired, t) <==> Fired(fired[..n], t) || t == fired[n].0 {
      if Fired(fired[..n], t) {
        var i :| 0 <= i < n && fired[..n][i].0 == t;
        assert fired[i].0 == t;
      }
      if Fired(fired, t) && t != fired[n].0 {
        var i :| 0 <= i < |fired| && fired[i].0 == t;
        assert fired[..n][i].0 == t;
      }
    }
  }

  /** A yes among the replies is a call answered with kCreated. */
  lemma {:induction false} SomeYes(fired: seq<Firing>, ts: set<nat>)
    ensures true in Replies(fired, ts) <==> exists i :: 0 <= i < |fired| && fired[i].0 in ts && Says(fired[i].1)
  {
    if fired != [] {
      var n := |fired| - 1;
      SomeYes(fired[..n], ts);
      MoreReplies(Replies(fired[..n], ts), Says(fired[n].1));
      if i :| 0 <= i < n && fired[i].0 in ts && Says(fired[i].1) { assert fired[..n][i] == fired[i]; }
      if i :| 0 <= i < n && fired[..n][i].0 in ts && Says(fired[..n][i].1) { assert fired[i] == fired[..n][i]; }
    }
  }

  /** The shared state of one quorum commit, fed with the callbacks of its calls as they run. Whatever
      the call layer does, done is called at most once; once no call waits any more it has been
      called exactly once, with yes if and only if some peer answered kCreated. */
  method Collect(calls: CallMap, ghost nextReq: nat, ghost issued: nat, fired: seq<Firing>, ts: set<nat>)
      returns (q: QuorumCommit)
    requires Books(calls, nextReq, issued, fired, {}) && ts != {} && forall t :: t in ts ==> t < issued
    ensures fresh(q) && q.Valid() && q.n == |ts| && q.replies == Replies(fired, ts) && |q.answers| <= 1
    ensures (forall t :: t in ts ==> !Waits(calls, t)) ==>
              q.answers == [exists i :: 0 <= i < |fired| && fired[i].0 in ts && Says(fired[i].1)]
  {
    hide Counting;
    q := new QuorumCommit(|ts|);
    assert fired[..0] == [];
    for i := 0 to |fired|
      invariant fresh(q) && q.Valid() && q.n == |ts| && q.replies == Replies(fired[..i], ts)
    {
      assert fired[..i + 1][..i] == fired[..i];
      if fired[i].0 in ts {
        RoomLeft(fired, ts, i);
        q.OnReply(Says(fired[i].1));
      }
    }
    assert fired[..|fired|] == fired;
    Complete(calls, nextReq, issued, fired, ts);
    Answers(q, fired, ts);
  }

  lemma RoomLeft(fired: seq<Firing>, ts: set<nat>, i: nat)
    requires TokensDiffer(fired) && i < |fired| && fired[i].0 in ts
    ensures |Replies(fired[..i], ts)| < |ts|
  {
    var t := fired[i].0;
    hide Replies;
    RepliesSize(fired[..i], ts);
    assert forall k :: 0 <= k < i ==> fired[..i][k] == fired[k];
    var done := Done(fired[..i], ts);
    assert t !in done && done <= ts;
    Fewer(done, ts, t);
  }

  lemma Fewer(a: set<nat>, b: set<nat>, t: nat)
    requires a <= b && t in b && t !in a
    ensures |a| < |b|
  {
    assert b == a + {t} + (b - a - {t});
  }

  /** When no call waits any more, every one has replied. */
  lemma Complete(calls: CallMap, nextReq: nat, issued: nat, fired: seq<Firing>, ts: set<nat>)
    requires Books(calls, nextReq, issued, fired, {}) && forall t :: t in ts ==> t < issued
    ensures (forall t :: t in ts ==> !Waits(calls, t)) ==> |Replies(fired, ts)| == |ts|
  {
    RepliesSize(fired, ts);
    if forall t :: t in ts ==> !Waits(calls, t) { assert Done(fired, ts) == ts; }
  }

  lemma Answers(q: QuorumCommit, fired: seq<Firing>, ts: set<nat>)
    requires q.Valid() && q.n == |ts| > 0 && q.replies == Replies(fired, ts)
    ensures |q.answers| <= 1
    ensures |q.replies| == |ts| ==> q.answers == [exists i :: 0 <= i < |fired| && fired[i].0 in ts && Says(fired[i].1)]
  {
    SomeYes(fired, ts);
    if |q.replies| == |ts| { assert First(q.n, q.replies) == q.replies; }
  }
}
