/** Epoch fencing over whole runs, with every message kind and no premise: any loss,
    duplication, reordering or restart that keeps the log. */
module Fencing {
  import opened Options
  import opened Jobs
  import opened Store
  import opened Takeover
  import opened Handlers
  import opened Cluster
  import opened ClusterInv

  lemma TransitionRises(local: Option<Job>, r: Record)
    requires !r.SubmitRec? || local.None?
    ensures FenceLeq(local, Transition(local, r))
  {
  }

  lemma FinalizedRises(j: Job, c: ClaimState)
    ensures FenceLeq(Some(j), Some(Finalized(j, c)))
  {
  }

  predicate CopiesRise(s: State, s': State) {
    s'.nodes.Keys == s.nodes.Keys && forall n :: n in s.nodes ==> FenceLeq(s.nodes[n].copy, s'.nodes[n].copy)
  }

  lemma FinalizeRises(s: State, n: Endpoint, c: ClaimState)
    requires n in s.nodes && s.nodes[n].copy.Some?
    ensures CopiesRise(s, Finalize(s, n, c))
  {
    FinalizedRises(s.nodes[n].copy.value, c);
  }

  lemma TakeoverRises(s: State, n: Endpoint)
    requires Enabled(s, StartTakeover(n))
    ensures CopiesRise(s, ExecTakeover(s, n))
  {
    hide Proposed, CopiesRise, OpenClaim;
    ProposedRises(s, n);
    var mid := Proposed(s, n);
    var c := StartClaim(mid.nodes[n].copy.value, Proposal(s.nodes[n].copy.value));
    OpenClaimRises(mid, n, c);
    FenceTransitive(s, mid, OpenClaim(mid, n, c));
  }

  lemma ProposedRises(s: State, n: Endpoint)
    requires Enabled(s, StartTakeover(n))
    ensures n in Proposed(s, n).nodes && Proposed(s, n).nodes[n].copy.Some? && CopiesRise(s, Proposed(s, n))
  {
    var j := s.nodes[n].copy.value;
    TransitionRises(Some(j), TakeoverRec(j.id, Proposal(j), n));
  }

  lemma OpenClaimRises(s: State, n: Endpoint, c: ClaimState)
    requires n in s.nodes && s.nodes[n].copy.Some?
    ensures CopiesRise(s, OpenClaim(s, n, c))
  {
    hide Finalize;
    if c.needed == 0 { FinalizeRises(s, n, c); }
  }

  lemma FenceTransitive(a: State, b: State, c: State)
    requires CopiesRise(a, b) && CopiesRise(b, c)
    ensures CopiesRise(a, c)
  {
  }

  lemma DeliverRises(s: State, st: Step)
    requires Enabled(s, st) && (st.DeliverApply? || st.DeliverReplicate? || st.DeliverResync?)
    ensures CopiesRise(s, Exec(s, st))
  {
    hide Transition, FenceLeq, CopiesRise;
    var n := if st.DeliverApply? then st.p else st.m.to;
    FenceSame(s.nodes[n].copy);
    if st.DeliverApply? {
      if !s.commits[st.qid].rec.SubmitRec? { TransitionRises(s.nodes[n].copy, s.commits[st.qid].rec); }
    } else {
      TransitionRises(s.nodes[n].copy, ReplicateRec(st.m.job));
    }
    OneRises(s, Exec(s, st), n);
  }

  lemma FenceSame(copy: Option<Job>)
    ensures FenceLeq(copy, copy)
  {
  }

  lemma OneRises(s: State, s': State, n: Endpoint)
    requires n in s.nodes && n in s'.nodes && s'.nodes == s.nodes[n := s'.nodes[n]]
    requires FenceLeq(s.nodes[n].copy, s'.nodes[n].copy)
    ensures CopiesRise(s, s')
  {
  }

  lemma GrantRises(s: State, m: Msg)
    requires Enabled(s, DeliverGrant(m))
    ensures CopiesRise(s, ExecGrant(s, m))
  {
    FinalizeRises(s, m.to, CountGrant(s.nodes[m.to].claim.value, s.nodes[m.to].copy.value.replicas, m.grant));
  }

  lemma ClaimRises(s: State, m: Msg, reply: bool)
    requires Enabled(s, DeliverClaim(m, reply))
    ensures CopiesRise(s, ExecClaim(s, m, reply))
  {
  }

  lemma LocalRises(s: State, st: Step)
    requires Enabled(s, st) && (st.Owner? || st.SelfExpire?)
    ensures CopiesRise(s, Exec(s, st))
  {
    match st
    case Owner(n, op) => TransitionRises(s.nodes[n].copy, OwnerDecision(s.nodes[n].copy.value, op).value);
    case SelfExpire(n) =>
  }

  /** No step lowers a node's (epoch, Done, DeadLetter). */
  lemma StepRises(s: State, st: Step)
    requires Enabled(s, st)
    ensures CopiesRise(s, Exec(s, st))
  {
    match st
    case Owner(_, _) => LocalRises(s, st);
    case SelfExpire(_) => LocalRises(s, st);
    case DeliverApply(_, _, _) => DeliverRises(s, st);
    case DeliverReplicate(_, _) => DeliverRises(s, st);
    case DeliverResync(_) => DeliverRises(s, st);
    case StartTakeover(n) => TakeoverRises(s, n);
    case DeliverClaim(m, reply) => ClaimRises(s, m, reply);
    case DeliverGrant(m) => GrantRises(s, m);
    case Confirm(_, _) =>
    case SendCopy(_, _) =>
    case AcceptSubmit(_) =>
    case Abandon(_) =>
    case Restart(_) =>
  }

  predicate Ahead(s: State, n: Endpoint, e: nat) {
    HasCopy(s, n) && s.nodes[n].copy.value.epoch > e
  }

  /** At most one pinned member has not moved past epoch e. With three members: two have. */
  predicate Fenced(job: Job, s: State, e: nat) {
    && |Members(job)| >= 2
    && forall a, b :: a in Members(job) && b in Members(job) && a != b ==> Ahead(s, a, e) || Ahead(s, b, e)
  }

  predicate Failing(s: State, c: Commit, e: nat) {
    c.acks == {} && !c.ok && forall p :: p in c.sentTo ==> Ahead(s, p, e)
  }

  /** Every commit from q0 on that carries an epoch of at most e is unacknowledged for ever. */
  predicate StaleFail(s: State, q0: nat, e: nat) {
    forall q :: q0 <= q < |s.commits| && RecEpoch(s.commits[q].rec).Some? && RecEpoch(s.commits[q].rec).value <= e
      ==> Failing(s, s.commits[q], e)
  }

  lemma OwnerFenced(job: Job, s: State, n: Endpoint, op: OwnerOp, q0: nat, e: nat)
    requires Inv(job, s) && Enabled(s, Owner(n, op)) && Fenced(job, s, e) && StaleFail(s, q0, e)
    requires CopiesRise(s, ExecOwner(s, n, op))
    ensures StaleFail(ExecOwner(s, n, op), q0, e)
  {
    var s' := ExecOwner(s, n, op);
    var j := s.nodes[n].copy.value;
    assert NodeOk(job, n, s.nodes[n]);
    DecisionOk(job, j, op);
    PeersOfCopy(job, j, n);
    forall q | q0 <= q < |s'.commits| && RecEpoch(s'.commits[q].rec).Some? && RecEpoch(s'.commits[q].rec).value <= e
      ensures Failing(s', s'.commits[q], e)
    {
      if q < |s.commits| {
        assert Failing(s, s.commits[q], e);
        AheadStays(s, s', s.commits[q].sentTo, e);
      } else {
        assert !Ahead(s, n, e);
        OthersAhead(job, s, n, e);
        AheadStays(s, s', Members(job) - {n}, e);
      }
    }
  }

  lemma OthersAhead(job: Job, s: State, n: Endpoint, e: nat)
    requires Fenced(job, s, e) && n in Members(job) && !Ahead(s, n, e)
    ensures forall p :: p in Members(job) - {n} ==> Ahead(s, p, e)
    ensures Members(job) - {n} != {}
  {
    assert Members(job) == {n} + (Members(job) - {n});
  }

  lemma AheadStays(s: State, s': State, ps: set<Endpoint>, e: nat)
    requires CopiesRise(s, s') && forall p :: p in ps ==> Ahead(s, p, e)
    ensures forall p :: p in ps ==> Ahead(s', p, e)
  {
    forall p | p in ps ensures Ahead(s', p, e) { assert Ahead(s, p, e); }
  }

  lemma ApplyFenced(s: State, q: nat, p: Endpoint, reply: bool, q0: nat, e: nat)
    requires Enabled(s, DeliverApply(q, p, reply)) && StaleFail(s, q0, e)
    requires CopiesRise(s, ExecApply(s, q, p, reply))
    ensures StaleFail(ExecApply(s, q, p, reply), q0, e)
  {
    var s' := ExecApply(s, q, p, reply);
    forall k | q0 <= k < |s'.commits| && RecEpoch(s'.commits[k].rec).Some? && RecEpoch(s'.commits[k].rec).value <= e
      ensures Failing(s', s'.commits[k], e)
    {
      assert s'.commits[k].rec == s.commits[k].rec && s'.commits[k].sentTo == s.commits[k].sentTo;
      assert Failing(s, s.commits[k], e);
      AheadStays(s, s', s.commits[k].sentTo, e);
      if k == q { assert Ahead(s, p, e); }
    }
  }

  lemma SameCommitsFenced(s: State, s': State, q0: nat, e: nat)
    requires CopiesRise(s, s') && s'.commits == s.commits && StaleFail(s, q0, e)
    ensures StaleFail(s', q0, e)
  {
    forall q | q0 <= q < |s'.commits| && RecEpoch(s'.commits[q].rec).Some? && RecEpoch(s'.commits[q].rec).value <= e
      ensures Failing(s', s'.commits[q], e)
    {
      assert Failing(s, s.commits[q], e);
      AheadStays(s, s', s.commits[q].sentTo, e);
    }
  }

  predicate Commits(st: Step) { st.Owner? || st.DeliverApply? || st.Confirm? }

  lemma CommitsUntouched(s: State, st: Step)
    requires Enabled(s, st) && !Commits(st)
    ensures Exec(s, st).commits == s.commits
  {
    hide ExecTakeover, ExecGrant, ExecClaim, ExecReplicate, ExecResync, ExecSelfExpire, OwnerDecision, Peers;
    match st
    case SelfExpire(n) => SelfExpireCommits(s, n);
    case DeliverReplicate(m, reply) => ReplicateCommits(s, m, reply);
    case DeliverResync(m) => ResyncCommits(s, m);
    case StartTakeover(n) => TakeoverCommits(s, n);
    case DeliverClaim(m, reply) => ClaimCommits(s, m, reply);
    case DeliverGrant(m) => GrantCommits(s, m);
    case _ =>
  }

  lemma SelfExpireCommits(s: State, n: Endpoint)
    requires Enabled(s, SelfExpire(n))
    ensures ExecSelfExpire(s, n).commits == s.commits
  {
    hide Transition;
  }

  lemma ReplicateCommits(s: State, m: Msg, reply: bool)
    requires Enabled(s, DeliverReplicate(m, reply))
    ensures ExecReplicate(s, m, reply).commits == s.commits
  {
    hide OnReplicate;
  }

  lemma ResyncCommits(s: State, m: Msg)
    requires Enabled(s, DeliverResync(m))
    ensures ExecResync(s, m).commits == s.commits
  {
    hide OnResync;
  }

  lemma TakeoverCommits(s: State, n: Endpoint)
    requires Enabled(s, StartTakeover(n))
    ensures ExecTakeover(s, n).commits == s.commits
  {
    hide Finalized, Peers, SetSize, Proposal;
  }

  lemma ClaimCommits(s: State, m: Msg, reply: bool)
    requires Enabled(s, DeliverClaim(m, reply))
    ensures ExecClaim(s, m, reply).commits == s.commits
  {
    hide OnClaim;
  }

  lemma GrantCommits(s: State, m: Msg)
    requires Enabled(s, DeliverGrant(m))
    ensures ExecGrant(s, m).commits == s.commits
  {
    hide CountGrant, Finalized;
  }

  lemma ConfirmFenced(s: State, q: nat, p: Endpoint, q0: nat, e: nat)
    requires Enabled(s, Confirm(q, p)) && StaleFail(s, q0, e)
    ensures StaleFail(Exec(s, Confirm(q, p)), q0, e)
  {
    var s' := Exec(s, Confirm(q, p));
    forall k | q0 <= k < |s'.commits| && RecEpoch(s'.commits[k].rec).Some? && RecEpoch(s'.commits[k].rec).value <= e
      ensures Failing(s', s'.commits[k], e)
    {
      assert Failing(s, s.commits[k], e);
    }
  }

  lemma FencedStep(job: Job, s: State, st: Step, q0: nat, e: nat)
    requires Inv(job, s) && Enabled(s, st) && Fenced(job, s, e) && StaleFail(s, q0, e)
    ensures Fenced(job, Exec(s, st), e) && StaleFail(Exec(s, st), q0, e)
  {
    StepRises(s, st);
    StaysFenced(job, s, Exec(s, st), e);
    if Commits(st) {
      match st
      case Owner(n, op) => OwnerFenced(job, s, n, op, q0, e);
      case DeliverApply(q, p, reply) => ApplyFenced(s, q, p, reply, q0, e);
      case Confirm(q, p) => ConfirmFenced(s, q, p, q0, e);
    } else {
      CommitsUntouched(s, st);
      SameCommitsFenced(s, Exec(s, st), q0, e);
    }
  }

  lemma StaysFenced(job: Job, s: State, s': State, e: nat)
    requires CopiesRise(s, s') && Fenced(job, s, e)
    ensures Fenced(job, s', e)
  {
    forall a, b | a in Members(job) && b in Members(job) && a != b ensures Ahead(s', a, e) || Ahead(s', b, e) {
      assert Ahead(s, a, e) || Ahead(s, b, e);
    }
  }

  lemma {:induction false} FencedRun(job: Job, s: State, steps: seq<Step>, q0: nat, e: nat)
    requires FreshJob(job) && Inv(job, s) && CanRun(s, steps) && Fenced(job, s, e) && StaleFail(s, q0, e)
    ensures StaleFail(Run(s, steps), q0, e)
    decreases steps
  {
    if steps != [] {
      InvStep(job, s, steps[0]);
      FencedStep(job, s, steps[0], q0, e);
      FencedRun(job, Exec(s, steps[0]), steps[1..], q0, e);
    }
  }

  /** Once all pinned members but one stand above epoch e, no quorum commit begun afterwards
      with an epoch of at most e ever reports success, whatever happens next. */
  lemma StaleOwnerCannotCommit(job: Job, s: State, steps: seq<Step>, e: nat, q: nat)
    requires FreshJob(job) && Inv(job, s) && CanRun(s, steps) && Fenced(job, s, e)
    requires |s.commits| <= q < |Run(s, steps).commits|
    requires RecEpoch(Run(s, steps).commits[q].rec) != None && RecEpoch(Run(s, steps).commits[q].rec).value <= e
    ensures !Run(s, steps).commits[q].ok && Run(s, steps).commits[q].acks == {}
  {
    FencedRun(job, s, steps, |s.commits|, e);
    assert Failing(Run(s, steps), Run(s, steps).commits[q], e);
  }

  /** Over a whole run a node's fence triple never falls. */
  lemma {:induction false} CopiesRiseAlways(s: State, steps: seq<Step>)
    requires CanRun(s, steps)
    ensures CopiesRise(s, Run(s, steps))
    decreases steps
  {
    if steps != [] {
      StepRises(s, steps[0]);
      CopiesRiseAlways(Exec(s, steps[0]), steps[1..]);
      FenceTransitive(s, Exec(s, steps[0]), Run(s, steps));
    }
  }
}
