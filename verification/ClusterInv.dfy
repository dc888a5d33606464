/** What every copy and every message of a job keeps in every run, with no premise on the
    network or on timing. */
module ClusterInv {
  import opened Options
  import opened Jobs
  import opened Store
  import opened Takeover
  import opened Handlers
  import opened Cluster

  /** The description set at submit never changes, the owner is a pinned member, attempts count
      leases within the limit, and the body is dropped exactly by completion. */
  predicate CopyOk(job: Job, j: Job) {
    && j.id == job.id && j.idemKey == job.idemKey && j.url == job.url
    && j.visibilityMs == job.visibilityMs && j.maxAttempts == job.maxAttempts && j.replicas == job.replicas
    && j.owner in Members(job) && j.epoch >= 1
    && j.attempts == j.leaseSeq <= job.maxAttempts
    && !j.state.Other?
    && j.body == (if j.state.Done? then [] else job.body)
  }

  predicate RecOk(job: Job, r: Record) {
    && RecId(r) == job.id
    && (r.LeaseRec? || r.DoneRec? || r.ExpireRec? || r.DeadLetterRec?)
    && RecEpoch(r).value >= 1
    && (r.LeaseRec? ==> r.leaseSeq <= job.maxAttempts)
  }

  predicate GrantOk(job: Job, g: Grant) {
    g.from in Members(job) && g.seq_ <= job.maxAttempts && !g.state.Other?
  }

  predicate ClaimOk(job: Job, n: Endpoint, c: ClaimState) {
    && c.bestSeq <= job.maxAttempts && !c.bestState.Other?
    && c.acked <= Members(job) - {n} && c.acks == |c.acked|
    && c.needed == |Members(job)| / 2
  }

  predicate HasCopy(s: State, n: Endpoint) {
    n in s.nodes && s.nodes[n].copy.Some?
  }

  predicate NodeOk(job: Job, n: Endpoint, node: Node) {
    && (node.copy.Some? ==> n in Members(job) && CopyOk(job, node.copy.value))
    && (node.claim.Some? ==> node.copy.Some? && ClaimOk(job, n, node.claim.value))
  }

  predicate MsgOk(job: Job, s: State, m: Msg) {
    match m
    case CopyMsg(from, to, j, _) =>
      from in Members(job) && to in Members(job) && from != to && HasCopy(s, from) && CopyOk(job, j)
    case ReplicateOk(p, to) => p in Members(job) && to in Members(job) && p != to && HasCopy(s, p) && HasCopy(s, to)
    case ClaimMsg(from, to, _) => from in Members(job) && to in Members(job) && from != to && HasCopy(s, from)
    case GrantMsg(to, _, g) => to in Members(job) && g.from != to && GrantOk(job, g)
  }

  predicate CommitOk(job: Job, s: State, c: Commit) {
    && c.author in Members(job) && HasCopy(s, c.author) && RecOk(job, c.rec)
    && c.sentTo == Members(job) - {c.author}
    && c.acks <= c.sentTo && (forall p :: p in c.acks ==> HasCopy(s, p))
    && (c.ok ==> c.acks != {} || c.sentTo == {})
  }

  /** An accepted submit is on the submitter and on one more pinned member. */
  predicate SubmitDurable(job: Job, s: State) {
    && s.submitter == job.owner && HasCopy(s, job.owner)
    && (s.accepted && Members(job) != {job.owner} ==>
          exists p :: p in Members(job) && p != job.owner && HasCopy(s, p))
  }

  predicate Inv(job: Job, s: State) {
    && Members(job) <= s.nodes.Keys
    && (forall n :: n in s.nodes ==> NodeOk(job, n, s.nodes[n]))
    && (forall m :: m in s.msgs ==> MsgOk(job, s, m))
    && (forall q :: 0 <= q < |s.commits| ==> CommitOk(job, s, s.commits[q]))
    && SubmitDurable(job, s)
  }

  // ---- Every record and merge keeps a well-formed copy ------------------------------------------

  lemma PeersOfCopy(job: Job, j: Job, n: Endpoint)
    requires CopyOk(job, j)
    ensures Peers(j.replicas, n) == Members(job) - {n}
  {
  }

  lemma TransitionOk(job: Job, j: Job, r: Record)
    requires CopyOk(job, j)
    requires RecOk(job, r) || (r.TakeoverRec? && r.newOwner in Members(job)) || (r.ReplicateRec? && CopyOk(job, r.job))
    ensures Transition(Some(j), r).Some? && CopyOk(job, Transition(Some(j), r).value)
  {
  }

  lemma DecisionOk(job: Job, j: Job, op: OwnerOp)
    requires CopyOk(job, j) && OwnerDecision(j, op).Some?
    ensures RecOk(job, OwnerDecision(j, op).value)
    ensures RecEpoch(OwnerDecision(j, op).value) == Some(j.epoch)
  {
  }

  lemma CountGrantOk(job: Job, n: Endpoint, c: ClaimState, j: Job, g: Grant)
    requires ClaimOk(job, n, c) && GrantOk(job, g) && g.from != n && CopyOk(job, j)
    ensures ClaimOk(job, n, CountGrant(c, j.replicas, g))
  {
    CountOnce(c, j.replicas, g);
  }

  lemma FinalizedOk(job: Job, n: Endpoint, j: Job, c: ClaimState)
    requires CopyOk(job, j) && ClaimOk(job, n, c)
    ensures CopyOk(job, Finalized(j, c))
  {
  }

  // ---- The invariant is kept by every step -------------------------------------------------------

  /** s' differs from s at node n only, plus new messages; copies only appear. */
  predicate Local(s: State, s': State, n: Endpoint) {
    && n in s.nodes && s'.nodes.Keys == s.nodes.Keys
    && (forall e :: e in s.nodes && e != n ==> s'.nodes[e] == s.nodes[e])
    && (s.nodes[n].copy.Some? ==> s'.nodes[n].copy.Some?)
    && s'.submitter == s.submitter
  }

  lemma LocalKeeps(job: Job, s: State, s': State, n: Endpoint)
    requires Inv(job, s) && Local(s, s', n) && NodeOk(job, n, s'.nodes[n])
    requires s'.commits == s.commits && s'.accepted == s.accepted
    requires forall m :: m in s'.msgs && m !in s.msgs ==> MsgOk(job, s', m)
    ensures Inv(job, s')
  {
    forall e | HasCopy(s, e) ensures HasCopy(s', e) {}
    forall m | m in s'.msgs ensures MsgOk(job, s', m) {
      if m in s.msgs { assert MsgOk(job, s, m); }
    }
    forall q | 0 <= q < |s'.commits| ensures CommitOk(job, s', s'.commits[q]) {
      assert CommitOk(job, s, s.commits[q]);
    }
    SubmitKeeps(job, s, s');
  }

  lemma SubmitKeeps(job: Job, s: State, s': State)
    requires SubmitDurable(job, s) && s'.submitter == s.submitter && s'.accepted == s.accepted
    requires forall e :: HasCopy(s, e) ==> HasCopy(s', e)
    ensures SubmitDurable(job, s')
  {
    if s'.accepted && Members(job) != {job.owner} {
      var p :| p in Members(job) && p != job.owner && HasCopy(s, p);
      assert HasCopy(s', p);
    }
  }

  lemma StepOwner(job: Job, s: State, n: Endpoint, op: OwnerOp)
    requires Inv(job, s) && Enabled(s, Owner(n, op))
    ensures Inv(job, ExecOwner(s, n, op))
  {
    hide CopyOk, Members, Transition, OwnerDecision, Peers;
    var j := s.nodes[n].copy.value;
    var rec := OwnerDecision(j, op).value;
    assert NodeOk(job, n, s.nodes[n]);
    DecisionOk(job, j, op);
    TransitionOk(job, j, rec);
    PeersOfCopy(job, j, n);
    var mid := WithCopy(s, n, Transition(Some(j), rec), s.nodes[n].rooted);
    LocalKeeps(job, s, mid, n);
    var s' := ExecOwner(s, n, op);
    forall q | 0 <= q < |s'.commits| ensures CommitOk(job, s', s'.commits[q]) {
      if q < |s.commits| { assert CommitOk(job, mid, mid.commits[q]); }
    }
    MsgsKeep(job, mid, s');
  }

  lemma MsgsKeep(job: Job, s: State, s': State)
    requires Inv(job, s) && s'.nodes == s.nodes && s'.msgs == s.msgs
    ensures forall m :: m in s'.msgs ==> MsgOk(job, s', m)
  {
    forall m | m in s'.msgs ensures MsgOk(job, s', m) { assert MsgOk(job, s, m); }
  }

  /** The commit log only learns acknowledgements from nodes that hold the job. */
  lemma CommitsKeep(job: Job, s: State, s': State, q: nat)
    requires q < |s.commits| == |s'.commits|
             && (forall k :: 0 <= k < |s.commits| && k != q ==> s'.commits[k] == s.commits[k])
    requires forall k :: 0 <= k < |s.commits| ==> CommitOk(job, s, s.commits[k])
    requires CommitOk(job, s', s'.commits[q])
    requires forall e :: HasCopy(s, e) ==> HasCopy(s', e)
    ensures forall k :: 0 <= k < |s'.commits| ==> CommitOk(job, s', s'.commits[k])
  {
    forall k | 0 <= k < |s'.commits| ensures CommitOk(job, s', s'.commits[k]) {
      if k != q { assert CommitOk(job, s, s.commits[k]); }
    }
  }

  lemma ApplyShape(job: Job, s: State, q: nat, p: Endpoint, reply: bool)
    requires Enabled(s, DeliverApply(q, p, reply))
    requires NodeOk(job, p, s.nodes[p]) && CommitOk(job, s, s.commits[q])
    ensures
      var s' := ExecApply(s, q, p, reply);
      && Local(s, s', p) && NodeOk(job, p, s'.nodes[p])
      && s'.msgs == s.msgs && s'.accepted == s.accepted && |s'.commits| == |s.commits|
      && (forall k :: 0 <= k < |s.commits| && k != q ==> s'.commits[k] == s.commits[k])
      && CommitOk(job, s', s'.commits[q])
  {
    hide Transition, CopyOk, Members;
    if s.nodes[p].copy.Some? { TransitionOk(job, s.nodes[p].copy.value, s.commits[q].rec); }
    var s' := ExecApply(s, q, p, reply);
    assert forall e :: HasCopy(s, e) ==> HasCopy(s', e);
  }

  lemma StepApply(job: Job, s: State, q: nat, p: Endpoint, reply: bool)
    requires Inv(job, s) && Enabled(s, DeliverApply(q, p, reply))
    ensures Inv(job, ExecApply(s, q, p, reply))
  {
    ApplyShape(job, s, q, p, reply);
    CommitStep(job, s, ExecApply(s, q, p, reply), q, p);
  }

  lemma CommitStep(job: Job, s: State, s': State, q: nat, p: Endpoint)
    requires Inv(job, s) && Local(s, s', p) && NodeOk(job, p, s'.nodes[p])
    requires s'.msgs == s.msgs && s'.accepted == s.accepted && q < |s.commits| == |s'.commits|
    requires forall k :: 0 <= k < |s.commits| && k != q ==> s'.commits[k] == s.commits[k]
    requires CommitOk(job, s', s'.commits[q])
    ensures Inv(job, s')
  {
    var mid := s'.(commits := s.commits);
    LocalKeeps(job, s, mid, p);
    CommitsKeep(job, s, s', q);
    MsgsKeep(job, mid, s');
  }

  lemma ReplicateShape(job: Job, s: State, m: Msg, reply: bool)
    requires Enabled(s, DeliverReplicate(m, reply)) && MsgOk(job, s, m) && NodeOk(job, m.to, s.nodes[m.to])
    ensures
      var s' := ExecReplicate(s, m, reply);
      && Local(s, s', m.to) && NodeOk(job, m.to, s'.nodes[m.to])
      && s'.commits == s.commits && s'.accepted == s.accepted
      && (forall x :: x in s'.msgs && x !in s.msgs ==> MsgOk(job, s', x))
  {
    hide CopyOk, Members;
    if s.nodes[m.to].copy.Some? { TransitionOk(job, s.nodes[m.to].copy.value, ReplicateRec(m.job)); }
  }

  lemma StepReplicate(job: Job, s: State, m: Msg, reply: bool)
    requires Inv(job, s) && Enabled(s, DeliverReplicate(m, reply))
    ensures Inv(job, ExecReplicate(s, m, reply))
  {
    ReplicateShape(job, s, m, reply);
    LocalKeeps(job, s, ExecReplicate(s, m, reply), m.to);
  }

  lemma ResyncShape(job: Job, s: State, m: Msg)
    requires Enabled(s, DeliverResync(m)) && MsgOk(job, s, m) && NodeOk(job, m.to, s.nodes[m.to])
    ensures
      var s' := ExecResync(s, m);
      && Local(s, s', m.to) && NodeOk(job, m.to, s'.nodes[m.to])
      && s'.commits == s.commits && s'.accepted == s.accepted && s'.msgs == s.msgs
  {
    if s.nodes[m.to].copy.Some? { TransitionOk(job, s.nodes[m.to].copy.value, ReplicateRec(m.job)); }
    hide CopyOk, Members;
  }

  lemma StepResync(job: Job, s: State, m: Msg)
    requires Inv(job, s) && Enabled(s, DeliverResync(m))
    ensures Inv(job, ExecResync(s, m))
  {
    ResyncShape(job, s, m);
    LocalKeeps(job, s, ExecResync(s, m), m.to);
  }

  lemma FinalizeShape(job: Job, s: State, n: Endpoint, c: ClaimState)
    requires n in s.nodes && s.nodes[n].copy.Some? && NodeOk(job, n, s.nodes[n]) && ClaimOk(job, n, c)
    ensures
      var s' := Finalize(s, n, c);
      && Local(s, s', n) && NodeOk(job, n, s'.nodes[n])
      && s'.commits == s.commits && s'.accepted == s.accepted && s'.msgs == s.msgs
  {
    FinalizedOk(job, n, s.nodes[n].copy.value, c);
    hide Finalized, CopyOk, Members;
  }

  lemma OpenClaimShape(job: Job, s: State, n: Endpoint, c: ClaimState)
    requires n in s.nodes && s.nodes[n].copy.Some? && NodeOk(job, n, s.nodes[n]) && ClaimOk(job, n, c)
    ensures
      var s' := OpenClaim(s, n, c);
      && Local(s, s', n) && NodeOk(job, n, s'.nodes[n])
      && s'.commits == s.commits && s'.accepted == s.accepted
      && (forall x :: x in s'.msgs && x !in s.msgs ==> MsgOk(job, s', x))
  {
    if c.needed == 0 { FinalizeShape(job, s, n, c); }
    PeersOfCopy(job, s.nodes[n].copy.value, n);
  }

  lemma TakeoverCopy(job: Job, n: Endpoint, j: Job)
    requires FreshJob(job) && CopyOk(job, j) && n in Members(job)
    ensures
      var copy' := Transition(Some(j), TakeoverRec(j.id, Proposal(j), n));
      copy'.Some? && CopyOk(job, copy'.value) && ClaimOk(job, n, StartClaim(copy'.value, Proposal(j)))
  {
  }

  lemma TakeoverShape(job: Job, s: State, n: Endpoint)
    requires FreshJob(job) && Enabled(s, StartTakeover(n)) && NodeOk(job, n, s.nodes[n])
    ensures
      var s' := ExecTakeover(s, n);
      && Local(s, s', n) && NodeOk(job, n, s'.nodes[n])
      && s'.commits == s.commits && s'.accepted == s.accepted
      && (forall x :: x in s'.msgs && x !in s.msgs ==> MsgOk(job, s', x))
  {
    var j := s.nodes[n].copy.value;
    TakeoverCopy(job, n, j);
    var mid := Proposed(s, n);
    OpenClaimShape(job, mid, n, StartClaim(mid.nodes[n].copy.value, Proposal(j)));
  }

  lemma StepTakeover(job: Job, s: State, n: Endpoint)
    requires FreshJob(job) && Inv(job, s) && Enabled(s, StartTakeover(n))
    ensures Inv(job, ExecTakeover(s, n))
  {
    TakeoverShape(job, s, n);
    LocalKeeps(job, s, ExecTakeover(s, n), n);
  }

  lemma OnClaimOk(job: Job, local: Option<Job>, self: Endpoint, proposed: nat, claimant: Endpoint)
    requires claimant in Members(job)
    requires local.Some? ==> self in Members(job) && CopyOk(job, local.value)
    ensures
      var (copy', _, g) := OnClaim(local, self, proposed, claimant);
      && (local.Some? <==> copy'.Some?) && (copy'.Some? ==> CopyOk(job, copy'.value))
      && (g.Some? ==>
          g.value.from == self && GrantOk(job, g.value) && copy'.value.epoch == proposed
              && copy'.value.owner == claimant)
  {
  }

  lemma ClaimShape(job: Job, s: State, m: Msg, reply: bool)
    requires Enabled(s, DeliverClaim(m, reply)) && MsgOk(job, s, m) && NodeOk(job, m.to, s.nodes[m.to])
    ensures
      var s' := ExecClaim(s, m, reply);
      && Local(s, s', m.to) && NodeOk(job, m.to, s'.nodes[m.to])
      && s'.commits == s.commits && s'.accepted == s.accepted
      && (forall x :: x in s'.msgs && x !in s.msgs ==> MsgOk(job, s', x))
  {
    OnClaimOk(job, s.nodes[m.to].copy, m.to, m.proposed, m.from);
  }

  lemma StepClaim(job: Job, s: State, m: Msg, reply: bool)
    requires Inv(job, s) && Enabled(s, DeliverClaim(m, reply))
    ensures Inv(job, ExecClaim(s, m, reply))
  {
    ClaimShape(job, s, m, reply);
    LocalKeeps(job, s, ExecClaim(s, m, reply), m.to);
  }

  lemma GrantShape(job: Job, s: State, m: Msg)
    requires Enabled(s, DeliverGrant(m)) && MsgOk(job, s, m) && NodeOk(job, m.to, s.nodes[m.to])
    ensures
      var s' := ExecGrant(s, m);
      && Local(s, s', m.to) && NodeOk(job, m.to, s'.nodes[m.to])
      && s'.commits == s.commits && s'.accepted == s.accepted && s'.msgs == s.msgs
  {
    hide CountGrant, ClaimOk, CopyOk, Finalize, GrantOk, Members;
    var node := s.nodes[m.to];
    CountGrantOk(job, m.to, node.claim.value, node.copy.value, m.grant);
    FinalizeShape(job, s, m.to, CountGrant(node.claim.value, node.copy.value.replicas, m.grant));
  }

  lemma StepGrant(job: Job, s: State, m: Msg)
    requires Inv(job, s) && Enabled(s, DeliverGrant(m))
    ensures Inv(job, ExecGrant(s, m))
  {
    GrantShape(job, s, m);
    LocalKeeps(job, s, ExecGrant(s, m), m.to);
  }

  lemma StepConfirm(job: Job, s: State, q: nat, p: Endpoint)
    requires Inv(job, s) && Enabled(s, Confirm(q, p))
    ensures Inv(job, Exec(s, Confirm(q, p)))
  {
    var s' := Exec(s, Confirm(q, p));
    forall k | 0 <= k < |s'.commits| ensures CommitOk(job, s', s'.commits[k]) {
      assert CommitOk(job, s, s.commits[k]);
    }
    MsgsKeep(job, s, s');
  }

  lemma StepSelfExpire(job: Job, s: State, n: Endpoint)
    requires Inv(job, s) && Enabled(s, SelfExpire(n))
    ensures Inv(job, ExecSelfExpire(s, n))
  {
    var j := s.nodes[n].copy.value;
    assert NodeOk(job, n, s.nodes[n]);
    TransitionOk(job, j, ExpireRec(j.id, j.epoch, j.leaseSeq));
    LocalKeeps(job, s, ExecSelfExpire(s, n), n);
  }

  lemma StepAccept(job: Job, s: State, p: Endpoint)
    requires Inv(job, s) && Enabled(s, AcceptSubmit(p))
    ensures Inv(job, s.(accepted := true))
  {
    var s' := s.(accepted := true);
    assert MsgOk(job, s, ReplicateOk(p, s.submitter));
    assert HasCopy(s', p);
    MsgsKeep(job, s, s');
    forall q | 0 <= q < |s'.commits| ensures CommitOk(job, s', s'.commits[q]) {
      assert CommitOk(job, s, s.commits[q]);
    }
  }

  lemma StepSend(job: Job, s: State, n: Endpoint, to: Endpoint)
    requires Inv(job, s) && Enabled(s, SendCopy(n, to))
    ensures Inv(job, Exec(s, SendCopy(n, to)))
  {
    assert NodeOk(job, n, s.nodes[n]);
    PeersOfCopy(job, s.nodes[n].copy.value, n);
    LocalKeeps(job, s, Exec(s, SendCopy(n, to)), n);
  }

  lemma StepDropClaim(job: Job, s: State, n: Endpoint)
    requires Inv(job, s) && n in s.nodes
    ensures Inv(job, s.(nodes := s.nodes[n := s.nodes[n].(claim := None)]))
  {
    LocalKeeps(job, s, s.(nodes := s.nodes[n := s.nodes[n].(claim := None)]), n);
  }

  lemma InvStep(job: Job, s: State, st: Step)
    requires FreshJob(job) && Inv(job, s) && Enabled(s, st)
    ensures Inv(job, Exec(s, st))
  {
    match st
    case Owner(n, op) => StepOwner(job, s, n, op);
    case SelfExpire(n) => StepSelfExpire(job, s, n);
    case DeliverApply(q, p, reply) => StepApply(job, s, q, p, reply);
    case Confirm(q, p) => StepConfirm(job, s, q, p);
    case SendCopy(n, to) => StepSend(job, s, n, to);
    case DeliverReplicate(m, reply) => StepReplicate(job, s, m, reply);
    case DeliverResync(m) => StepResync(job, s, m);
    case AcceptSubmit(p) => StepAccept(job, s, p);
    case StartTakeover(n) => StepTakeover(job, s, n);
    case DeliverClaim(m, reply) => StepClaim(job, s, m, reply);
    case DeliverGrant(m) => StepGrant(job, s, m);
    case Abandon(n) => StepDropClaim(job, s, n);
    case Restart(n) => StepDropClaim(job, s, n);
  }

  lemma InvInit(job: Job, all: set<Endpoint>)
    requires FreshJob(job) && Members(job) <= all
    ensures Inv(job, Init(job, all))
  {
    assert CopyOk(job, job);
    PeersOfCopy(job, job, job.owner);
    var s := Init(job, all);
    assert HasCopy(s, job.owner);
    assert s.accepted ==> Members(job) == {job.owner} by {
      if s.accepted { assert Members(job) - {job.owner} == {}; }
    }
  }

  /** The cluster invariant holds in every reachable state of every run. */
  lemma {:induction false} InvAlways(job: Job, s: State, steps: seq<Step>)
    requires FreshJob(job) && Inv(job, s) && CanRun(s, steps)
    ensures Inv(job, Run(s, steps))
    decreases steps
  {
    if steps != [] {
      InvStep(job, s, steps[0]);
      InvAlways(job, Exec(s, steps[0]), steps[1..]);
    }
  }
}
