/** Runs in which a lease sequence number is granted twice, each breaking a single premise of the
    lease theorem. The code enforces none of these premises. */
module Counterexamples {
  import opened Options
  import opened Bytes
  import opened Jobs
  import opened Store
  import opened Takeover
  import opened Handlers
  import opened Cluster
  import opened Votes
  import opened LeaseSafety

  /** The premise a run may break, if any. */
  datatype Which = Order | Ignored | Unfinal | Rounds | Merges | Nothing

  /** Every premise but one. */
  predicate PremisesBut(s: State, st: Step, w: Which) {
    && (InOrder(s, st) || w.Order?) && (NoIgnoredAck(s, st) || w.Ignored?)
    && (ActsFinalized(s, st) || w.Unfinal?) && (RoundMatches(s, st) || w.Rounds?) && (MergesRooted(st) || w.Merges?)
  }

  predicate CanRunBut(s: State, steps: seq<Step>, w: Which)
    decreases steps
  {
    steps == [] || (Enabled(s, steps[0]) && PremisesBut(s, steps[0], w) && CanRunBut(Exec(s, steps[0]), steps[1..], w))
  }

  lemma {:induction false} ButIsRun(s: State, steps: seq<Step>, w: Which)
    requires CanRunBut(s, steps, w)
    ensures CanRun(s, steps)
    decreases steps
  {
    if steps != [] { ButIsRun(Exec(s, steps[0]), steps[1..], w); }
  }

  /** s is reached from s0 by these steps. */
  ghost predicate Reaches(s0: State, steps: seq<Step>, s: State, w: Which) {
    CanRunBut(s0, steps, w) && CanRun(s0, steps) && Run(s0, steps) == s
  }

  lemma {:induction false} OneMore(s0: State, steps: seq<Step>, s: State, st: Step, w: Which)
    requires Reaches(s0, steps, s, w) && Enabled(s, st) && PremisesBut(s, st, w)
    ensures Reaches(s0, steps + [st], Exec(s, st), w)
    decreases steps
  {
    hide Exec, Enabled, PremisesBut;
    if steps == [] {
      assert steps + [st] == [st] && [st][1..] == [];
      var s1 := Exec(s, st);
      assert s == s0 && CanRunBut(s1, [], w) && CanRun(s1, []) && Run(s1, []) == s1;
    } else {
      var s1 := Exec(s0, steps[0]);
      assert Reaches(s1, steps[1..], s, w);
      OneMore(s1, steps[1..], s, st, w);
      assert (steps + [st])[1..] == steps[1..] + [st];
    }
  }

  // ---- Three members, one job -------------------------------------------------------------------------

  const A := Endpoint(1, 1)
  const B := Endpoint(2, 1)
  const C := Endpoint(3, 1)

  function J(state: JobState, owner: Endpoint, epoch: nat, seq_: nat): Job {
    Job(JobId(1, 1), [1], [1], [], 30000, 5, [A, B, C], state, owner, epoch, seq_, seq_)
  }

  function Third(x: Endpoint, y: Endpoint): Endpoint {
    if x != A && y != A then A else if x != B && y != B then B else C
  }

  predicate Member(x: Endpoint) { x == A || x == B || x == C }

  predicate Pair(s: State, x: Endpoint, y: Endpoint) {
    Member(x) && Member(y) && x != y && s.nodes.Keys == {A, B, C}
  }

  predicate Has(s: State, x: Endpoint, j: Job) { x in s.nodes && s.nodes[x].copy == Some(j) && s.nodes[x].claim.None? }

  lemma PeersOf(j: Job, x: Endpoint)
    requires j.replicas == [A, B, C] && Member(x)
    ensures Peers(j.replicas, x) == {A, B, C} - {x}
  {
  }

  /** A copy travels. */
  lemma Copying(s0: State, steps: seq<Step>, s: State, w: Which, x: Endpoint, y: Endpoint, j: Job)
      returns (steps': seq<Step>, s': State)
    requires Reaches(s0, steps, s, w) && Pair(s, x, y) && Has(s, x, j) && s.nodes[x].rooted && j.replicas == [A, B, C]
    requires s.nodes[y].copy.None? && s.nodes[y].claim.None?
    ensures Reaches(s0, steps', s', w) && s'.nodes == s.nodes[y := s.nodes[y].(copy := Some(j), rooted := true)]
    ensures s'.commits == s.commits && s'.finals == s.finals
  {
    PeersOf(j, x);
    var send, take := SendCopy(x, y), DeliverReplicate(CopyMsg(x, y, j, true), false);
    var s1 := Exec(s, send);
    hide Reaches;
    OneMore(s0, steps, s, send, w);
    OneMore(s0, steps + [send], s1, take, w);
    steps', s' := steps + [send] + [take], Exec(s1, take);
  }

  lemma ThreeSlots()
    ensures SetSize([A, B, C]) == 3
  {
    assert [A, B, C][1..] == [B, C] && [B, C][1..] == [C] && [C][1..] == [];
    assert SetSize([C]) == 1 && SetSize([B, C]) == 2;
  }

  /** Same description, possibly other owner and epoch. */
  predicate Alike(j: Job, k: Job) { k == j.(owner := k.owner, epoch := k.epoch) && j.replicas == [A, B, C] }

  /** A copy that has not heard of the lease. */
  predicate Behind(j: Job, k: Job) {
    j.replicas == k.replicas == [A, B, C] && j.state == Leased && k.state == Ready && k.leaseSeq < j.leaseSeq
  }

  predicate SameBut(s: State, s': State, x: Endpoint) {
    x in s.nodes && x in s'.nodes && s'.nodes == s.nodes[x := s'.nodes[x]] && s'.nodes[x].fifo == s.nodes[x].fifo
        && s'.commits == s.commits
  }

  lemma Bumped(s: State, x: Endpoint, j: Job)
    requires Enabled(s, StartTakeover(x)) && s.nodes[x].copy == Some(j) && j.epoch + 1 < U32
    ensures Proposal(j) == j.epoch + 1
    ensures
      var j' := j.(owner := x, epoch := j.epoch + 1);
      Proposed(s, x) == WithCopy(s, x, Some(j'), false).(votes := s.votes[(x, j.epoch + 1) := x])
  {
  }

  lemma Claimed(s: State, x: Endpoint, y: Endpoint, j: Job)
    requires Pair(s, x, y) && Has(s, x, j) && j.replicas == [A, B, C] && j.owner != x && j.epoch + 1 < U32
             && !Terminal(j.state)
    ensures Enabled(s, StartTakeover(x))
    ensures
      var s', e := Exec(s, StartTakeover(x)), j.epoch + 1;
      && SameBut(s, s', x) && s'.finals == s.finals && s'.nodes[x].copy == Some(j.(owner := x, epoch := e))
      && s'.nodes[x].claim == Some(ClaimState(e, 0, 1, j.state, j.leaseSeq, {}))
      && s.msgs <= s'.msgs && ClaimMsg(x, y, e) in s'.msgs && ClaimMsg(x, Third(x, y), e) in s'.msgs
  {
    hide SetSize, Peers, Proposed, Proposal, Finalize;
    Bumped(s, x, j);
    PeersOf(j, x);
    ThreeSlots();
  }

  lemma Granted(s: State, x: Endpoint, y: Endpoint, e: nat, j: Job)
    requires Pair(s, x, y) && Has(s, y, j) && j.replicas == [A, B, C] && j.epoch < e && ClaimMsg(x, y, e) in s.msgs
    ensures Enabled(s, DeliverClaim(ClaimMsg(x, y, e), true))
    ensures
      var s' := Exec(s, DeliverClaim(ClaimMsg(x, y, e), true));
      && SameBut(s, s', y) && s'.finals == s.finals && Has(s', y, j.(owner := x, epoch := e))
      && s.msgs <= s'.msgs && GrantMsg(x, e, Grant(y, j.state, j.leaseSeq)) in s'.msgs
  {
    assert x in j.replicas;
  }

  /** The grant is no better than the claimant's own copy; any round it answers counts. */
  lemma Won(s: State, x: Endpoint, e: nat, round: nat, g: Grant, j: Job)
    requires x in s.nodes && s.nodes[x].copy == Some(j) && j.owner == x && j.epoch == e && j.replicas == [A, B, C]
    requires s.nodes[x].claim == Some(ClaimState(e, 0, 1, j.state, j.leaseSeq, {})) && !Terminal(j.state)
    requires GrantMsg(x, round, g) in s.msgs && g.from in j.replicas
             && ((g.state == j.state && g.seq_ == j.leaseSeq)
                 || (g.state == Ready && j.state == Leased && g.seq_ < j.leaseSeq))
    ensures Enabled(s, DeliverGrant(GrantMsg(x, round, g)))
    ensures
      var s' := Exec(s, DeliverGrant(GrantMsg(x, round, g)));
      && SameBut(s, s', x) && Has(s', x, j) && s'.nodes[x].rooted && s.msgs == s'.msgs
      && IsFinal(s', e, x) && s'.finals == s.finals[e := s'.finals[e]]
  {
    var c := CountGrant(s.nodes[x].claim.value, j.replicas, g);
    assert c.acks == 1 && c.bestState == j.state && c.bestSeq == j.leaseSeq;
    assert Finalized(j, c) == j;
  }

  lemma TakeoverAllowed(s: State, x: Endpoint, w: Which)
    ensures PremisesBut(s, StartTakeover(x), w)
  {
  }

  lemma ClaimAllowed(s: State, m: Msg, reply: bool, w: Which)
    ensures PremisesBut(s, DeliverClaim(m, reply), w)
  {
  }

  lemma GrantAllowed(s: State, m: Msg, w: Which)
    requires m.GrantMsg? && m.to in s.nodes && s.nodes[m.to].claim.Some?
    requires s.nodes[m.to].claim.value.proposed == m.round || w.Rounds?
    ensures PremisesBut(s, DeliverGrant(m), w)
  {
  }

  /** x claims the job from a copy that is not terminal, and y grants; the grant is on its way. */
  lemma Asking(s0: State, steps: seq<Step>, s: State, w: Which, x: Endpoint, y: Endpoint, jx: Job, jy: Job)
      returns (steps': seq<Step>, s': State)
    requires Reaches(s0, steps, s, w) && Pair(s, x, y) && Has(s, x, jx) && Has(s, y, jy)
    requires jx.replicas == jy.replicas == [A, B, C] && jx.owner != x && jx.epoch + 1 < U32 && jy.epoch <= jx.epoch
             && !Terminal(jx.state)
    ensures
      var e := jx.epoch + 1;
      && Reaches(s0, steps', s', w) && Pair(s', x, y) && s'.commits == s.commits && s'.finals == s.finals
      && s'.nodes[x].copy == Some(jx.(owner := x, epoch := e)) && s'.nodes[x].fifo == s.nodes[x].fifo
      && s'.nodes[x].claim == Some(ClaimState(e, 0, 1, jx.state, jx.leaseSeq, {}))
      && Has(s', y, jy.(owner := x, epoch := e)) && s'.nodes[y].fifo == s.nodes[y].fifo
      && s'.nodes[Third(x, y)] == s.nodes[Third(x, y)] && s.msgs <= s'.msgs
      && ClaimMsg(x, Third(x, y), e) in s'.msgs && GrantMsg(x, e, Grant(y, jy.state, jy.leaseSeq)) in s'.msgs
  {
    var e := jx.epoch + 1;
    var start, claim := StartTakeover(x), DeliverClaim(ClaimMsg(x, y, e), true);
    hide Reaches, Exec, Enabled, PremisesBut;
    Claimed(s, x, y, jx);
    TakeoverAllowed(s, x, w);
    OneMore(s0, steps, s, start, w);
    var s1 := Exec(s, start);
    Granted(s1, x, y, e, jy);
    ClaimAllowed(s1, ClaimMsg(x, y, e), true, w);
    OneMore(s0, steps + [start], s1, claim, w);
    steps', s' := steps + [start] + [claim], Exec(s1, claim);
  }

  /** x claims the job, y grants, x is finalized one epoch up. */
  lemma Succession(s0: State, steps: seq<Step>, s: State, w: Which, x: Endpoint, y: Endpoint, jx: Job, jy: Job)
      returns (steps': seq<Step>, s': State)
    requires Reaches(s0, steps, s, w) && Pair(s, x, y) && Has(s, x, jx) && Has(s, y, jy)
    requires (Alike(jx, jy) || Behind(jx, jy)) && jx.owner != x && jx.epoch + 1 < U32 && jy.epoch <= jx.epoch
             && !Terminal(jx.state)
    ensures Reaches(s0, steps', s', w) && Pair(s', x, y)
    ensures Has(s', x, jx.(owner := x, epoch := jx.epoch + 1)) && s'.nodes[x].rooted
            && s'.nodes[x].fifo == s.nodes[x].fifo
    ensures Has(s', y, jy.(owner := x, epoch := jx.epoch + 1)) && s'.nodes[y].fifo == s.nodes[y].fifo
    ensures s'.nodes[Third(x, y)] == s.nodes[Third(x, y)] && s'.commits == s.commits
    ensures IsFinal(s', jx.epoch + 1, x) && s'.finals == s.finals[jx.epoch + 1 := s'.finals[jx.epoch + 1]]
    ensures s.msgs <= s'.msgs && ClaimMsg(x, Third(x, y), jx.epoch + 1) in s'.msgs
  {
    var e := jx.epoch + 1;
    var m := GrantMsg(x, e, Grant(y, jy.state, jy.leaseSeq));
    hide Reaches, Exec, Enabled, PremisesBut;
    var steps1, s1 := Asking(s0, steps, s, w, x, y, jx, jy);
    Won(s1, x, e, e, m.grant, jx.(owner := x, epoch := e));
    GrantAllowed(s1, m, w);
    OneMore(s0, steps1, s1, DeliverGrant(m), w);
    steps', s' := steps1 + [DeliverGrant(m)], Exec(s1, DeliverGrant(m));
  }

  /** x acts as owner; nobody hears of it. */
  lemma Deciding(s0: State, steps: seq<Step>, s: State, w: Which, x: Endpoint, op: OwnerOp, j: Job)
      returns (steps': seq<Step>, s': State)
    requires Reaches(s0, steps, s, w) && x in s.nodes && s.nodes[x].copy == Some(j) && j.owner == x
             && OwnerDecision(j, op).Some? && (IsFinal(s, j.epoch, x) || w.Unfinal?)
    ensures
      var rec := OwnerDecision(j, op).value;
      && Reaches(s0, steps', s', w) && s'.finals == s.finals && s'.msgs == s.msgs
      && s'.nodes == s.nodes[x := s.nodes[x].(copy := Transition(Some(j), rec))]
      && s'.commits == s.commits + [Commit(x, rec, Peers(j.replicas, x), {}, Peers(j.replicas, x) == {})]
  {
    hide Reaches, OwnerDecision, Transition, Peers;
    OneMore(s0, steps, s, Owner(x, op), w);
    steps', s' := steps + [Owner(x, op)], Exec(s, Owner(x, op));
  }

  /** Commit q of x reaches y, which answers. */
  lemma Applying(s0: State, steps: seq<Step>, s: State, w: Which, q: nat, x: Endpoint, y: Endpoint, j: Job)
      returns (steps': seq<Step>, s': State)
    requires Reaches(s0, steps, s, w) && q < |s.commits| && s.commits[q].author == x && y in s.commits[q].sentTo
             && Has(s, y, j)
    requires RecEpoch(s.commits[q].rec).Some? && RecEpoch(s.commits[q].rec).value >= j.epoch && j.owner == x
    requires w.Order? || x !in s.nodes[y].fifo || s.nodes[y].fifo[x] <= q
    requires w.Ignored? || !Ignores(j, s.commits[q].rec)
    ensures Reaches(s0, steps', s', w) && s'.finals == s.finals && s'.msgs == s.msgs
    ensures s'.commits == s.commits[q := s.commits[q].(acks := s.commits[q].acks + {y})]
    ensures s'.nodes.Keys == s.nodes.Keys
    ensures Has(s', y, Transition(Some(j), s.commits[q].rec).value) && forall z :: z in s.nodes && z != y ==>
        s'.nodes[z] == s.nodes[z]
    ensures s'.nodes[y].fifo == s.nodes[y].fifo[x := q + 1]
  {
    var st := DeliverApply(q, y, true);
    hide Reaches;
    OneMore(s0, steps, s, st, w);
    steps', s' := steps + [st], Exec(s, st);
  }

  /** The transition of one lease. */
  function Leased1(j: Job): Job { j.(state := Leased, leaseSeq := j.leaseSeq + 1, attempts := j.leaseSeq + 1) }

  function LeaseCommit(x: Endpoint, y: Endpoint, j: Job): Commit {
    Commit(x, LeaseRec(j.id, j.epoch, j.leaseSeq + 1, 0), {A, B, C} - {x}, {y}, true)
  }

  lemma LeaseDecided(j: Job)
    requires j.state == Ready && j.leaseSeq + 1 <= j.maxAttempts && j.leaseSeq + 1 < U32
    ensures OwnerDecision(j, LeaseOp(0)) == Some(LeaseRec(j.id, j.epoch, j.leaseSeq + 1, 0))
  {
  }

  /** x leases the job, y acknowledges, the lease is reported as granted. */
  lemma Leasing(s0: State, steps: seq<Step>, s: State, w: Which, x: Endpoint, y: Endpoint, jx: Job, jy: Job)
      returns (steps': seq<Step>, s': State)
    requires Reaches(s0, steps, s, w) && Pair(s, x, y) && s.nodes[x].copy == Some(jx) && Has(s, y, jy)
             && (IsFinal(s, jx.epoch, x) || w.Unfinal?)
    requires jx.replicas == [A, B, C] && jx.owner == x && jx.state == Ready && jx.leaseSeq + 1 <= jx.maxAttempts
             && jx.leaseSeq + 1 < U32
    requires jy.owner == x && jy.epoch <= jx.epoch && (w.Order? || x !in s.nodes[y].fifo)
             && (w.Ignored? || !Terminal(jy.state))
    ensures Reaches(s0, steps', s', w) && Pair(s', x, y) && s'.finals == s.finals && s'.msgs == s.msgs
    ensures s'.nodes[x] == s.nodes[x].(copy := Some(Leased1(jx)))
    ensures Has(s', y, Transition(Some(jy), LeaseRec(jx.id, jx.epoch, jx.leaseSeq + 1, 0)).value)
    ensures s'.nodes[Third(x, y)] == s.nodes[Third(x, y)] && s'.commits == s.commits + [LeaseCommit(x, y, jx)]
    ensures forall z :: z in s'.nodes[y].fifo ==> z in s.nodes[y].fifo || z == x
  {
    hide Reaches, Peers, OwnerDecision;
    var q, rec := |s.commits|, LeaseRec(jx.id, jx.epoch, jx.leaseSeq + 1, 0);
    LeaseDecided(jx);
    PeersOf(jx, x);
    assert y in {A, B, C} - {x};
    var steps1, s1 := Deciding(s0, steps, s, w, x, LeaseOp(0), jx);
    var steps2, s2 := Applying(s0, steps1, s1, w, q, x, y, jy);
    assert s1.commits == s.commits + [Commit(x, rec, {A, B, C} - {x}, {}, false)];
    var none: set<Endpoint> := {};
    assert none + {y} == {y};
    steps', s' := Confirming(s0, steps2, s2, w, q, y);
    assert s2.commits == s.commits + [Commit(x, rec, {A, B, C} - {x}, {y}, false)];
    assert s'.commits == s.commits + [LeaseCommit(x, y, jx)];
  }

  lemma Confirming(s0: State, steps: seq<Step>, s: State, w: Which, q: nat, y: Endpoint)
      returns (steps': seq<Step>, s': State)
    requires Reaches(s0, steps, s, w) && q < |s.commits| && y in s.commits[q].acks
    ensures Reaches(s0, steps', s', w) && s' == s.(commits := s.commits[q := s.commits[q].(ok := true)])
  {
    hide Reaches;
    OneMore(s0, steps, s, Confirm(q, y), w);
    steps', s' := steps + [Confirm(q, y)], Exec(s, Confirm(q, y));
  }

  /** Two grants with one sequence number. */
  lemma Twice(s: State, q: nat, k: nat, n: nat)
    requires q < k < |s.commits| && OkLease(s, q) && OkLease(s, k)
             && s.commits[q].rec.leaseSeq == s.commits[k].rec.leaseSeq == n
    ensures !LeasesDistinct(s)
  {
  }

  lemma Starting(x: Endpoint, w: Which) returns (s: State)
    requires Member(x)
    ensures s == Init(J(Ready, x, 1, 0), {A, B, C}) && FreshJob(J(Ready, x, 1, 0)) && Reaches(s, [], s, w)
    ensures s.nodes.Keys == {A, B, C} && Has(s, x, J(Ready, x, 1, 0)) && s.nodes[x].rooted && s.commits == []
            && IsFinal(s, 1, x)
    ensures s.nodes[x].fifo == map[] && forall y :: y in s.nodes && y != x ==>
        s.nodes[y] == Node(None, None, false, map[])
  {
    s := Init(J(Ready, x, 1, 0), {A, B, C});
    ThreeSlots();
    assert Members(J(Ready, x, 1, 0)) == {A, B, C};
  }

  /** The submitted job with a copy on every member. */
  lemma Spread(x: Endpoint, y: Endpoint, w: Which) returns (s0: State, steps: seq<Step>, s: State)
    requires Member(x) && Member(y) && x != y
    ensures s0 == Init(J(Ready, x, 1, 0), {A, B, C}) && FreshJob(J(Ready, x, 1, 0)) && Reaches(s0, steps, s, w)
    ensures s.nodes.Keys == {A, B, C} && (forall z :: z in s.nodes ==> Has(s, z, J(Ready, x, 1, 0)))
    ensures (forall z :: z in s.nodes ==> s.nodes[z].fifo == map[]) && s.commits == [] && IsFinal(s, 1, x)
  {
    hide Reaches, Init, FreshJob;
    s0 := Starting(x, w);
    var steps1, s1 := Copying(s0, [], s0, w, x, y, J(Ready, x, 1, 0));
    steps, s := Copying(s0, steps1, s1, w, x, Third(x, y), J(Ready, x, 1, 0));
  }

  // ---- A record that overtakes another ------------------------------------------------------------------

  /** A leases to B and expires the lease. */
  lemma Expired() returns (s0: State, steps: seq<Step>, s: State)
    ensures s0 == Init(J(Ready, A, 1, 0), {A, B, C}) && FreshJob(J(Ready, A, 1, 0))
            && Reaches(s0, steps, s, Order) && Pair(s, A, C)
    ensures Has(s, A, J(Ready, A, 1, 1)) && Has(s, B, J(Leased, A, 1, 1)) && Has(s, C, J(Ready, A, 1, 0))
            && IsFinal(s, 1, A)
    ensures |s.commits| == 2 && s.commits[0] == LeaseCommit(A, B, J(Ready, A, 1, 0))
  {
    hide Reaches, Peers, Init, FreshJob;
    var steps1, s1;
    s0, steps1, s1 := Spread(A, B, Order);
    var steps2, s2 := Leasing(s0, steps1, s1, Order, A, B, J(Ready, A, 1, 0), J(Ready, A, 1, 0));
    steps, s := Deciding(s0, steps2, s2, Order, A, ExpiryOp, J(Leased, A, 1, 1));
  }

  /** Then A leases to C; the first lease reaches C only now and takes its sequence number back. */
  lemma Overtaken() returns (s0: State, steps: seq<Step>, s: State)
    ensures s0 == Init(J(Ready, A, 1, 0), {A, B, C}) && FreshJob(J(Ready, A, 1, 0))
            && Reaches(s0, steps, s, Order) && Pair(s, B, C)
    ensures Has(s, B, J(Leased, A, 1, 1)) && Has(s, C, J(Leased, A, 1, 1))
    ensures |s.commits| == 3 && OkLease(s, 2) && s.commits[2].rec.leaseSeq == 2
  {
    hide Reaches, Peers, Init, FreshJob;
    var steps1, s1;
    s0, steps1, s1 := Expired();
    var steps2, s2 := Leasing(s0, steps1, s1, Order, A, C, J(Ready, A, 1, 1), J(Ready, A, 1, 0));
    steps, s := Applying(s0, steps2, s2, Order, 0, A, C, J(Leased, A, 1, 2));
  }

  /** Without send order the lease theorem fails: B inherits the number that went back and grants
      it again. */
  lemma ReorderingGrantsTwice() returns (job: Job, steps: seq<Step>)
    ensures FreshJob(job) && CanRunBut(Init(job, {A, B, C}), steps, Order) && CanRun(Init(job, {A, B, C}), steps)
    ensures !LeasesDistinct(Run(Init(job, {A, B, C}), steps))
  {
    job := J(Ready, A, 1, 0);
    var s0, steps0, s1 := Overtaken();
    var steps1, s2 := Succession(s0, steps0, s1, Order, B, C, J(Leased, A, 1, 1), J(Leased, A, 1, 1));
    assert s2.commits == s1.commits;
    var steps2, s3 := Deciding(s0, steps1, s2, Order, B, ExpiryOp, J(Leased, B, 2, 1));
    var steps3, s4 := Leasing(s0, steps2, s3, Order, B, C, J(Ready, B, 2, 1), J(Leased, B, 2, 1));
    steps := steps3;
    Twice(s4, 2, 4, 2);
  }

  // ---- A record acknowledged but ignored -----------------------------------------------------------------

  /** C leases the job, both peers hear of it, and C completes it on its own. */
  lemma CompletedAlone() returns (s0: State, steps: seq<Step>, s: State)
    ensures s0 == Init(J(Ready, C, 1, 0), {A, B, C}) && FreshJob(J(Ready, C, 1, 0))
            && Reaches(s0, steps, s, Ignored) && Pair(s, A, B)
    ensures Has(s, A, J(Leased, C, 1, 1)) && Has(s, B, J(Leased, C, 1, 1)) && Has(s, C, J(Done, C, 1, 1))
            && s.nodes[C].fifo == map[]
    ensures |s.commits| == 2 && OkLease(s, 0)
  {
    hide Reaches, Peers, Init, FreshJob;
    var steps1, s1;
    s0, steps1, s1 := Spread(C, A, Ignored);
    var steps2, s2 := Leasing(s0, steps1, s1, Ignored, C, A, J(Ready, C, 1, 0), J(Ready, C, 1, 0));
    var steps3, s3 := Applying(s0, steps2, s2, Ignored, 0, C, B, J(Ready, C, 1, 0));
    steps, s := Deciding(s0, steps3, s3, Ignored, C, AckOp(1, 1, true), J(Leased, C, 1, 1));
  }

  /** A takes over without it, and C learns only who owns the job. */
  lemma Unheard() returns (s0: State, steps: seq<Step>, s: State)
    ensures s0 == Init(J(Ready, C, 1, 0), {A, B, C}) && FreshJob(J(Ready, C, 1, 0))
            && Reaches(s0, steps, s, Ignored) && Pair(s, A, B)
    ensures Has(s, A, J(Leased, A, 2, 1)) && Has(s, B, J(Leased, A, 2, 1)) && Has(s, C, J(Done, A, 2, 1))
            && s.nodes[C].fifo == map[]
    ensures |s.commits| == 2
  {
    hide Reaches, Peers, Init, FreshJob;
    var steps1, s1;
    s0, steps1, s1 := CompletedAlone();
    var steps2, s2 := Succession(s0, steps1, s1, Ignored, A, B, J(Leased, C, 1, 1), J(Leased, C, 1, 1));
    hide Exec, Enabled;
    Granted(s2, A, C, 2, J(Done, C, 1, 1));
    OneMore(s0, steps2, s2, DeliverClaim(ClaimMsg(A, C, 2), true), Ignored);
    steps, s := steps2 + [DeliverClaim(ClaimMsg(A, C, 2), true)], Exec(s2, DeliverClaim(ClaimMsg(A, C, 2), true));
  }

  /** B takes over and sends C its copy; A takes over again. */
  lemma Returned() returns (s0: State, steps: seq<Step>, s: State)
    ensures s0 == Init(J(Ready, C, 1, 0), {A, B, C}) && FreshJob(J(Ready, C, 1, 0))
            && Reaches(s0, steps, s, Ignored) && Pair(s, A, C)
    ensures Has(s, A, J(Leased, A, 4, 1)) && Has(s, B, J(Leased, A, 4, 1)) && Has(s, C, J(Done, A, 2, 1))
            && s.nodes[C].fifo == map[]
    ensures |s.commits| == 2 && IsFinal(s, 4, A) && CopyMsg(B, C, J(Leased, B, 3, 1), true) in s.msgs
  {
    hide Reaches, Peers, Init, FreshJob;
    var steps0, s1;
    s0, steps0, s1 := Unheard();
    var steps1, s2 := Succession(s0, steps0, s1, Ignored, B, A, J(Leased, A, 2, 1), J(Leased, A, 2, 1));
    PeersOf(J(Leased, B, 3, 1), B);
    OneMore(s0, steps1, s2, SendCopy(B, C), Ignored);
    var s3 := Exec(s2, SendCopy(B, C));
    steps, s := Succession(s0, steps1 + [SendCopy(B, C)], s3, Ignored, A, B, J(Leased, B, 3, 1), J(Leased, B, 3, 1));
  }

  /** The lease runs out; A grants the next one on C's word alone, and then B's copy reaches C. */
  lemma Forgotten() returns (s0: State, steps: seq<Step>, s: State)
    ensures s0 == Init(J(Ready, C, 1, 0), {A, B, C}) && FreshJob(J(Ready, C, 1, 0))
            && Reaches(s0, steps, s, Ignored) && Pair(s, B, C)
    ensures Has(s, B, J(Leased, A, 4, 1)) && Has(s, C, J(Leased, B, 3, 1)) && B !in s.nodes[C].fifo
    ensures |s.commits| == 4 && OkLease(s, 3) && s.commits[3].rec.leaseSeq == 2
  {
    hide Reaches, Peers, Init, FreshJob;
    var steps1, s1;
    s0, steps1, s1 := Returned();
    var steps2, s2 := Deciding(s0, steps1, s1, Ignored, A, ExpiryOp, J(Leased, A, 4, 1));
    var steps3, s3 := Leasing(s0, steps2, s2, Ignored, A, C, J(Ready, A, 4, 1), J(Done, A, 2, 1));
    var copy := DeliverReplicate(CopyMsg(B, C, J(Leased, B, 3, 1), true), false);
    OneMore(s0, steps3, s3, copy, Ignored);
    steps, s := steps3 + [copy], Exec(s3, copy);
  }

  /** If a replica acknowledges a record it ignores, the lease theorem fails: the lease is counted
      as granted on C's word, and C forgets ever having given it. */
  lemma IgnoredAckGrantsTwice() returns (job: Job, steps: seq<Step>)
    ensures FreshJob(job) && CanRunBut(Init(job, {A, B, C}), steps, Ignored) && CanRun(Init(job, {A, B, C}), steps)
    ensures !LeasesDistinct(Run(Init(job, {A, B, C}), steps))
  {
    job := J(Ready, C, 1, 0);
    var s0, steps0, s1 := Forgotten();
    var steps1, s2 := Succession(s0, steps0, s1, Ignored, B, C, J(Leased, A, 4, 1), J(Leased, B, 3, 1));
    var steps2, s3 := Deciding(s0, steps1, s2, Ignored, B, ExpiryOp, J(Leased, B, 5, 1));
    var steps3, s4 := Leasing(s0, steps2, s3, Ignored, B, C, J(Ready, B, 5, 1), J(Leased, B, 5, 1));
    steps := steps3;
    assert s4.commits[3] == s1.commits[3];
    Twice(s4, 3, 5, 2);
  }

  // ---- A copy whose content is older than its epoch -----------------------------------------------------------

  /** C's takeover with B's grant; B's copy then has the new epoch and the old content. */
  lemma Outdated() returns (s0: State, steps: seq<Step>, s: State)
    ensures s0 == Init(J(Ready, A, 1, 0), {A, B, C}) && FreshJob(J(Ready, A, 1, 0))
            && Reaches(s0, steps, s, Merges) && Pair(s, A, B)
    ensures Has(s, A, J(Leased, A, 1, 1)) && Has(s, B, J(Ready, C, 2, 0)) && B !in s.nodes[A].fifo
    ensures |s.commits| == 1 && OkLease(s, 0) && s.commits[0].rec.leaseSeq == 1
  {
    hide Reaches, Peers, Init, FreshJob;
    var steps1, s1;
    s0, steps1, s1 := Spread(A, B, Merges);
    var steps2, s2 := Leasing(s0, steps1, s1, Merges, A, C, J(Ready, A, 1, 0), J(Ready, A, 1, 0));
    steps, s := Succession(s0, steps2, s2, Merges, C, B, J(Leased, A, 1, 1), J(Ready, A, 1, 0));
  }

  /** A adopts B's copy, which only moved its epoch. */
  lemma Adopted() returns (s0: State, steps: seq<Step>, s: State)
    ensures s0 == Init(J(Ready, A, 1, 0), {A, B, C}) && FreshJob(J(Ready, A, 1, 0))
            && Reaches(s0, steps, s, Merges) && Pair(s, A, B)
    ensures Has(s, A, J(Ready, C, 2, 0)) && Has(s, B, J(Ready, C, 2, 0)) && B !in s.nodes[A].fifo
    ensures |s.commits| == 1 && OkLease(s, 0) && s.commits[0].rec.leaseSeq == 1
  {
    hide Reaches, Peers, Init, FreshJob;
    var steps1, s1;
    s0, steps1, s1 := Outdated();
    PeersOf(J(Ready, C, 2, 0), B);
    OneMore(s0, steps1, s1, SendCopy(B, A), Merges);
    var s2 := Exec(s1, SendCopy(B, A));
    var take := DeliverResync(CopyMsg(B, A, J(Ready, C, 2, 0), s1.nodes[B].rooted));
    OneMore(s0, steps1 + [SendCopy(B, A)], s2, take, Merges);
    steps, s := steps1 + [SendCopy(B, A)] + [take], Exec(s2, take);
  }

  /** If a granter's copy may be merged, the lease theorem fails: A forgets the lease it gave, and B
      gives it again with A's grant and A's word. */
  lemma OutdatedMergeGrantsTwice() returns (job: Job, steps: seq<Step>)
    ensures FreshJob(job) && CanRunBut(Init(job, {A, B, C}), steps, Merges) && CanRun(Init(job, {A, B, C}), steps)
    ensures !LeasesDistinct(Run(Init(job, {A, B, C}), steps))
  {
    job := J(Ready, A, 1, 0);
    var s0, steps0, s1 := Adopted();
    var steps1, s2 := Succession(s0, steps0, s1, Merges, B, A, J(Ready, C, 2, 0), J(Ready, C, 2, 0));
    var steps2, s3 := Leasing(s0, steps1, s2, Merges, B, A, J(Ready, B, 3, 0), J(Ready, B, 3, 0));
    steps := steps2;
    assert s3.commits[0] == s1.commits[0];
    Twice(s3, 0, 1, 1);
  }

  // ---- A claimant that acts before it is finalized ------------------------------------------------------------

  /** A leases to C; B claims the job and C grants it, but the grant is still on its way. */
  lemma Unfinished() returns (s0: State, steps: seq<Step>, s: State)
    ensures s0 == Init(J(Ready, A, 1, 0), {A, B, C}) && FreshJob(J(Ready, A, 1, 0))
            && Reaches(s0, steps, s, Unfinal) && Pair(s, B, C)
    ensures s.nodes[B].copy == Some(J(Ready, B, 2, 0)) && Has(s, C, J(Leased, B, 2, 1)) && B !in s.nodes[C].fifo
    ensures |s.commits| == 1 && OkLease(s, 0) && s.commits[0].rec.leaseSeq == 1
  {
    hide Reaches, Peers, Init, FreshJob;
    var steps1, s1;
    s0, steps1, s1 := Spread(A, B, Unfinal);
    var steps2, s2 := Leasing(s0, steps1, s1, Unfinal, A, C, J(Ready, A, 1, 0), J(Ready, A, 1, 0));
    steps, s := Asking(s0, steps2, s2, Unfinal, B, C, J(Ready, A, 1, 0), J(Leased, A, 1, 1));
  }

  /** If a claimant may act before it is finalized, the lease theorem fails: it has not heard of the
      lease yet and gives it again. */
  lemma EarlyOwnerGrantsTwice() returns (job: Job, steps: seq<Step>)
    ensures FreshJob(job) && CanRunBut(Init(job, {A, B, C}), steps, Unfinal) && CanRun(Init(job, {A, B, C}), steps)
    ensures !LeasesDistinct(Run(Init(job, {A, B, C}), steps))
  {
    job := J(Ready, A, 1, 0);
    var s0, steps0, s1 := Unfinished();
    var steps1, s2 := Leasing(s0, steps0, s1, Unfinal, B, C, J(Ready, B, 2, 0), J(Leased, B, 2, 1));
    steps := steps1;
    assert s2.commits[0] == s1.commits[0];
    Twice(s2, 0, 1, 1);
  }

  // ---- A grant counted in another round ------------------------------------------------------------------------

  function Stale(): Msg { GrantMsg(B, 2, Grant(C, Ready, 0)) }

  /** B asks C for epoch 2, C grants, B gives up before the grant arrives. */
  lemma GaveUp() returns (s0: State, steps: seq<Step>, s: State)
    ensures s0 == Init(J(Ready, A, 1, 0), {A, B, C}) && FreshJob(J(Ready, A, 1, 0))
            && Reaches(s0, steps, s, Rounds) && Pair(s, C, A)
    ensures Has(s, A, J(Ready, A, 1, 0)) && Has(s, B, J(Ready, B, 2, 0)) && Has(s, C, J(Ready, B, 2, 0))
    ensures (forall z :: z in s.nodes ==> s.nodes[z].fifo == map[]) && s.commits == [] && Stale() in s.msgs
  {
    hide Reaches, Peers, Init, FreshJob;
    var steps1, s1;
    s0, steps1, s1 := Spread(A, B, Rounds);
    var steps2, s2 := Asking(s0, steps1, s1, Rounds, B, C, J(Ready, A, 1, 0), J(Ready, A, 1, 0));
    OneMore(s0, steps2, s2, Abandon(B), Rounds);
    steps, s := steps2 + [Abandon(B)], Exec(s2, Abandon(B));
  }

  /** C takes over at epoch 3 with A's grant and leases on A's word. B learns who owns the job. */
  lemma MovedOn() returns (s0: State, steps: seq<Step>, s: State)
    ensures s0 == Init(J(Ready, A, 1, 0), {A, B, C}) && FreshJob(J(Ready, A, 1, 0))
            && Reaches(s0, steps, s, Rounds) && Pair(s, B, A)
    ensures Has(s, A, J(Leased, C, 3, 1)) && Has(s, B, J(Ready, C, 3, 0)) && B !in s.nodes[A].fifo
    ensures |s.commits| == 1 && OkLease(s, 0) && s.commits[0].rec.leaseSeq == 1 && Stale() in s.msgs
  {
    hide Reaches, Peers, Init, FreshJob, Stale;
    var steps1, s1;
    s0, steps1, s1 := GaveUp();
    var steps2, s2 := Succession(s0, steps1, s1, Rounds, C, A, J(Ready, B, 2, 0), J(Ready, A, 1, 0));
    var steps3, s3 := Leasing(s0, steps2, s2, Rounds, C, A, J(Ready, C, 3, 0), J(Ready, C, 3, 0));
    hide Exec, Enabled;
    var claim := DeliverClaim(ClaimMsg(C, B, 3), true);
    Granted(s3, C, B, 3, J(Ready, B, 2, 0));
    OneMore(s0, steps3, s3, claim, Rounds);
    steps, s := steps3 + [claim], Exec(s3, claim);
  }

  /** B claims epoch 4, and C's old grant makes it the owner. A hears of the claim too. */
  lemma MadeOwner() returns (s0: State, steps: seq<Step>, s: State)
    ensures s0 == Init(J(Ready, A, 1, 0), {A, B, C}) && FreshJob(J(Ready, A, 1, 0))
            && Reaches(s0, steps, s, Rounds) && Pair(s, B, A)
    ensures Has(s, A, J(Leased, B, 4, 1)) && Has(s, B, J(Ready, B, 4, 0)) && B !in s.nodes[A].fifo && IsFinal(s, 4, B)
    ensures |s.commits| == 1 && OkLease(s, 0) && s.commits[0].rec.leaseSeq == 1
  {
    hide Reaches, Peers, Init, FreshJob;
    var steps1, s1;
    s0, steps1, s1 := MovedOn();
    hide Exec, Enabled;
    Claimed(s1, B, A, J(Ready, C, 3, 0));
    OneMore(s0, steps1, s1, StartTakeover(B), Rounds);
    var s2 := Exec(s1, StartTakeover(B));
    Won(s2, B, 4, 2, Grant(C, Ready, 0), J(Ready, B, 4, 0));
    OneMore(s0, steps1 + [StartTakeover(B)], s2, DeliverGrant(Stale()), Rounds);
    var s3 := Exec(s2, DeliverGrant(Stale()));
    var claim := DeliverClaim(ClaimMsg(B, A, 4), true);
    Granted(s3, B, A, 4, J(Leased, C, 3, 1));
    OneMore(s0, steps1 + [StartTakeover(B)] + [DeliverGrant(Stale())], s3, claim, Rounds);
    steps, s := steps1 + [StartTakeover(B)] + [DeliverGrant(Stale())] + [claim], Exec(s3, claim);
  }

  /** If a grant counts for a round that did not ask for it, the lease theorem fails: C had granted
      before it gave the lease itself. */
  lemma StaleGrantGrantsTwice() returns (job: Job, steps: seq<Step>)
    ensures FreshJob(job) && CanRunBut(Init(job, {A, B, C}), steps, Rounds) && CanRun(Init(job, {A, B, C}), steps)
    ensures !LeasesDistinct(Run(Init(job, {A, B, C}), steps))
  {
    job := J(Ready, A, 1, 0);
    var s0, steps0, s1 := MadeOwner();
    var steps1, s2 := Leasing(s0, steps0, s1, Rounds, B, A, J(Ready, B, 4, 0), J(Leased, B, 4, 1));
    steps := steps1;
    assert s2.commits[0] == s1.commits[0];
    Twice(s2, 0, 1, 1);
  }
}
