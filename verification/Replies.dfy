/** What a reply of a peer tells whoever asked: when one is sent, in any run, and what the peer held
    (src/queue_node.cc, handle_replicate, handle_apply and handle_claim). */
module Replies {
  import opened Bytes
  import opened Options
  import opened Jobs
  import opened Store
  import opened Takeover
  import opened Handlers
  import opened Cluster
  import opened ClusterInv
  import opened Fencing

  // ---- Which steps send what -----------------------------------------------------------------------------------

  lemma TakeoverMsgs(s: State, n: Endpoint)
    requires Enabled(s, StartTakeover(n))
    ensures s.msgs <= ExecTakeover(s, n).msgs
    ensures forall m :: m in ExecTakeover(s, n).msgs && m !in s.msgs ==> m.ClaimMsg?
  {
    hide Transition, Finalized, Peers;
  }

  lemma GrantMsgs(s: State, m: Msg)
    requires Enabled(s, DeliverGrant(m))
    ensures ExecGrant(s, m).msgs == s.msgs
  {
    hide Finalized, CountGrant;
  }

  lemma ClaimMsgs(s: State, m: Msg, reply: bool)
    requires Enabled(s, DeliverClaim(m, reply))
    ensures s.msgs <= ExecClaim(s, m, reply).msgs
    ensures forall x :: x in ExecClaim(s, m, reply).msgs && x !in s.msgs ==> x.GrantMsg?
  {
    hide OnClaim;
  }

  lemma OtherMsgs(s: State, st: Step)
    requires Enabled(s, st)
    requires !st.StartTakeover? && !st.DeliverGrant? && !st.DeliverClaim? && !st.DeliverReplicate? && !st.SendCopy?
    ensures Exec(s, st).msgs == s.msgs
  {
    hide OnApply, OnReplicate, OnResync, OnClaim, OwnerDecision, Transition, ExecClaim, ExecGrant, ExecTakeover;
  }

  lemma StepMsgs(s: State, st: Step)
    requires Enabled(s, st)
    ensures s.msgs <= Exec(s, st).msgs
    ensures forall m :: m in Exec(s, st).msgs && m !in s.msgs && m.ReplicateOk? ==> st.DeliverReplicate?
  {
    hide OnReplicate, ExecApply, ExecResync, ExecOwner, ExecSelfExpire, ExecClaim, ExecGrant, ExecTakeover;
    match st
    case StartTakeover(n) => TakeoverMsgs(s, n);
    case DeliverGrant(m) => GrantMsgs(s, m);
    case DeliverClaim(m, reply) => ClaimMsgs(s, m, reply);
    case DeliverReplicate(_, _) =>
    case SendCopy(_, _) =>
    case _ => OtherMsgs(s, st);
  }

  /** No message is ever taken back. */
  lemma {:induction false} MsgsStay(s: State, steps: seq<Step>)
    requires CanRun(s, steps)
    ensures s.msgs <= Run(s, steps).msgs
    decreases steps
  {
    if steps != [] {
      StepMsgs(s, steps[0]);
      MsgsStay(Exec(s, steps[0]), steps[1..]);
    }
  }

  // ---- Confirmed copies ----------------------------------------------------------------------------------------

  /** A copy sent by to arrives at p, which holds nothing newer, and the answer gets away. */
  predicate Confirms(s: State, st: Step, p: Endpoint, to: Endpoint) {
    && st.DeliverReplicate? && Enabled(s, st) && st.reply && st.m.to == p && st.m.from == to
    && (s.nodes[p].copy.None? || s.nodes[p].copy.value.epoch <= st.m.job.epoch)
  }

  /** A peer that confirms a copy stands at that copy's epoch, and the copy brings nothing it lacks. */
  lemma ConfirmedStands(s: State, st: Step, p: Endpoint, to: Endpoint)
    requires Confirms(s, st, p, to)
    ensures
      var copy := Exec(s, st).nodes[p].copy;
      copy.Some? && copy.value.epoch == st.m.job.epoch && !JobAdvances(copy.value, st.m.job)
  {
  }

  lemma OkStep(s: State, st: Step, p: Endpoint, to: Endpoint)
    requires Enabled(s, st)
    ensures ReplicateOk(p, to) in Exec(s, st).msgs <==> ReplicateOk(p, to) in s.msgs || Confirms(s, st, p, to)
  {
    hide Transition, ExecApply, ExecResync, ExecOwner, ExecSelfExpire, ExecClaim, ExecGrant, ExecTakeover;
    StepMsgs(s, st);
  }

  ghost predicate EverConfirms(s: State, steps: seq<Step>, p: Endpoint, to: Endpoint)
    requires CanRun(s, steps)
    decreases steps
  {
    steps != [] && (Confirms(s, steps[0], p, to) || EverConfirms(Exec(s, steps[0]), steps[1..], p, to))
  }

  /** In every run, a confirmation is on its way exactly if such a delivery happened. */
  lemma {:induction false} OkIffConfirmed(s: State, steps: seq<Step>, p: Endpoint, to: Endpoint)
    requires CanRun(s, steps)
    ensures ReplicateOk(p, to) in Run(s, steps).msgs <==>
            ReplicateOk(p, to) in s.msgs || EverConfirms(s, steps, p, to)
    decreases steps
  {
    if steps != [] {
      OkStep(s, steps[0], p, to);
      OkIffConfirmed(Exec(s, steps[0]), steps[1..], p, to);
    }
  }

  // ---- Acknowledged records ------------------------------------------------------------------------------------

  /** A peer acknowledges a record exactly if it has the job, has seen no newer epoch than the record's,
      and the author is the owner it knows or becomes it by this record. */
  lemma AckedIff(s: State, q: nat, p: Endpoint)
    requires Enabled(s, DeliverApply(q, p, true))
    ensures
      var c, held := s.commits[q], s.nodes[p].copy;
      p in Exec(s, DeliverApply(q, p, true)).commits[q].acks <==>
        || p in c.acks
        || (&& held.Some? && RecEpoch(c.rec).Some? && held.value.epoch <= RecEpoch(c.rec).value
            && (c.author == held.value.owner || c.rec.TakeoverRec?))
  {
    hide Transition;
  }

  // ---- Granted claims ------------------------------------------------------------------------------------------

  /** The claimant is pinned, and the epoch it wants is free here or already its own. */
  predicate Grants(j: Job, from: Endpoint, proposed: nat) {
    from in j.replicas && (proposed > j.epoch || (proposed == j.epoch && j.owner == from))
  }

  /** A claim that arrives is granted exactly then, with what the granter knew before; the granter then
      stands at the claimed epoch, under the claimant, and nothing else about its copy has changed. */
  lemma GrantedIff(s: State, m: Msg, reply: bool)
    requires Enabled(s, DeliverClaim(m, reply)) && s.nodes[m.to].copy.Some?
    ensures m.to in Exec(s, DeliverClaim(m, reply)).nodes
    ensures
      var j, s' := s.nodes[m.to].copy.value, Exec(s, DeliverClaim(m, reply));
      var grant := GrantMsg(m.from, m.proposed, Grant(m.to, j.state, j.leaseSeq));
      if Grants(j, m.from, m.proposed)
      then && s'.msgs == (if reply then s.msgs + {grant} else s.msgs)
           && s'.nodes[m.to].copy == Some(j.(epoch := m.proposed, owner := m.from))
      else s'.msgs == s.msgs && s'.nodes[m.to].copy == Some(j)
  {
  }

  lemma OthersUnmoved(s: State, m: Msg, reply: bool)
    requires Enabled(s, DeliverClaim(m, reply))
    ensures
      var s' := Exec(s, DeliverClaim(m, reply));
      s'.nodes.Keys == s.nodes.Keys && forall p :: p in s.nodes && p != m.to ==> s'.nodes[p] == s.nodes[p]
  {
    hide OnClaim;
  }

  /** A claim can always be answered once more. Whatever happens after it was granted, the granter never
      falls below the claimed epoch; and while it stands there under the claimant, the same message
      brings another grant, with what the granter knows by now. So a lost grant costs a retry, not the
      round. */
  lemma GrantedAgain(job: Job, s: State, m: Msg, first: bool, steps: seq<Step>)
    requires FreshJob(job) && Inv(job, s)
    requires Enabled(s, DeliverClaim(m, first)) && s.nodes[m.to].copy.Some?
    requires Grants(s.nodes[m.to].copy.value, m.from, m.proposed)
    requires CanRun(Exec(s, DeliverClaim(m, first)), steps)
    ensures
      var s1 := Run(Exec(s, DeliverClaim(m, first)), steps);
      && Enabled(s1, DeliverClaim(m, true)) && s1.nodes[m.to].copy.Some?
      && var j := s1.nodes[m.to].copy.value;
         && j.epoch >= m.proposed
         && (j.epoch == m.proposed && j.owner == m.from ==>
               GrantMsg(m.from, m.proposed, Grant(m.to, j.state, j.leaseSeq)) in Exec(s1, DeliverClaim(m, true)).msgs)
  {
    hide Inv, CopiesRise, Grants, ExecClaim, FreshJob;
    var st := DeliverClaim(m, first);
    var s0 := Exec(s, st);
    StepMsgs(s, st);
    GrantedIff(s, m, first);
    InvStep(job, s, st);
    MsgsStay(s0, steps);
    InvAlways(job, s0, steps);
    CopiesRiseAlways(s0, steps);
    Regrants(job, s0, Run(s0, steps), m);
  }

  lemma Regrants(job: Job, s: State, s': State, m: Msg)
    requires m in s.msgs && s.msgs <= s'.msgs && m.ClaimMsg? && m.to in s.nodes && s.nodes[m.to].copy.Some?
    requires s.nodes[m.to].copy.value.epoch >= m.proposed
    requires CopiesRise(s, s') && Inv(job, s) && Inv(job, s')
    ensures
      && Enabled(s', DeliverClaim(m, true)) && s'.nodes[m.to].copy.Some?
      && var j := s'.nodes[m.to].copy.value;
         && j.epoch >= m.proposed
         && (j.epoch == m.proposed && j.owner == m.from ==>
               GrantMsg(m.from, m.proposed, Grant(m.to, j.state, j.leaseSeq)) in Exec(s', DeliverClaim(m, true)).msgs)
  {
    hide Inv, CopiesRise, ExecClaim;
    StandsOn(s, s', m.to);
    Pinned(job, s, s', m);
    GrantedIff(s', m, true);
  }

  lemma StandsOn(s: State, s': State, n: Endpoint)
    requires CopiesRise(s, s') && n in s.nodes && s.nodes[n].copy.Some?
    ensures n in s'.nodes && s'.nodes[n].copy.Some? && s'.nodes[n].copy.value.epoch >= s.nodes[n].copy.value.epoch
  {
  }

  lemma Pinned(job: Job, s: State, s': State, m: Msg)
    requires Inv(job, s) && Inv(job, s') && m in s.msgs && m.ClaimMsg? && HasCopy(s', m.to)
    ensures m.from in s'.nodes[m.to].copy.value.replicas
  {
    assert MsgOk(job, s, m) && NodeOk(job, m.to, s'.nodes[m.to]);
  }

  // ---- A round can be won --------------------------------------------------------------------------------------

  lemma SetSizeOf3(es: seq<Endpoint>)
    requires |es| == 3
    ensures SetSize(es) <= 3
  {
    assert es[1..][1..][1..] == [];
    assert SetSize(es[1..][1..]) <= 1 && SetSize(es[1..]) <= 2;
  }

  /** With anybody else pinned, one grant is a majority with the claimant's own vote. */
  lemma OneNeeded(job: Job, n: Endpoint, p: Endpoint)
    requires FreshJob(job) && n in Members(job) && p in Members(job) && n != p
    ensures SetSize(job.replicas) / 2 == 1
  {
    SetSizeOf3(job.replicas);
    assert {n, p} <= Members(job);
    assert |Members(job)| >= 2 by {
      var rest := Members(job) - {n};
      assert p in rest && Members(job) == rest + {n};
    }
  }

  /** Asking opens the round: every other pinned member is asked for the next epoch. */
  lemma RoundAsks(job: Job, s: State, n: Endpoint, p: Endpoint)
    requires Enabled(s, StartTakeover(n)) && s.nodes[n].copy.value.epoch + 1 < U32
    requires FreshJob(job) && Inv(job, s) && p in Members(job) && p != n
    ensures
      var j, s' := s.nodes[n].copy.value, Exec(s, StartTakeover(n));
      var taken := j.(epoch := j.epoch + 1, owner := n);
      && s'.nodes.Keys == s.nodes.Keys && (forall q :: q in s.nodes && q != n ==> s'.nodes[q] == s.nodes[q])
      && ClaimMsg(n, p, j.epoch + 1) in s'.msgs
      && s'.nodes[n].copy == Some(taken) && s'.nodes[n].claim == Some(StartClaim(taken, j.epoch + 1))
      && taken.replicas == job.replicas
  {
    hide Inv, FreshJob, Peers, Members, SetSize, Proposed, OpenClaim;
    var j := s.nodes[n].copy.value;
    InMembers(job, s, n, p);
    OneNeeded(job, n, p);
    var mid := Proposed(s, n);
    ProposedHere(s, n);
    var c := StartClaim(mid.nodes[n].copy.value, j.epoch + 1);
    ClaimOpened(mid, n, c, p);
  }

  lemma InMembers(job: Job, s: State, n: Endpoint, p: Endpoint)
    requires HasCopy(s, n) && Inv(job, s) && p in Members(job) && p != n
    ensures n in Members(job) && s.nodes[n].copy.value.replicas == job.replicas && p in Peers(job.replicas, n)
  {
    assert NodeOk(job, n, s.nodes[n]);
  }

  lemma ProposedHere(s: State, n: Endpoint)
    requires Enabled(s, StartTakeover(n)) && s.nodes[n].copy.value.epoch + 1 < U32
    ensures
      var j, s' := s.nodes[n].copy.value, Proposed(s, n);
      && s'.nodes == s.nodes[n := s.nodes[n].(copy := Some(j.(epoch := j.epoch + 1, owner := n)), rooted := false)]
      && s'.msgs == s.msgs && Proposal(j) == j.epoch + 1
  {
  }

  lemma ClaimOpened(s: State, n: Endpoint, c: ClaimState, p: Endpoint)
    requires n in s.nodes && s.nodes[n].copy.Some? && c.needed > 0 && p in Peers(s.nodes[n].copy.value.replicas, n)
    ensures
      var s' := OpenClaim(s, n, c);
      s'.nodes == s.nodes[n := s.nodes[n].(claim := Some(c))] && ClaimMsg(n, p, c.proposed) in s'.msgs
  {
    hide Peers;
  }

  /** The granter's answer ends it. */
  lemma RoundEnds(job: Job, s: State, n: Endpoint, p: Endpoint, taken: Job, round: nat, g: Grant)
    requires FreshJob(job) && n in Members(job) && p in Members(job) && n != p && g.from == p
    requires n in s.nodes && s.nodes[n].copy == Some(taken) && taken.owner == n && taken.replicas == job.replicas
    requires s.nodes[n].claim == Some(StartClaim(taken, taken.epoch)) && GrantMsg(n, round, g) in s.msgs
    requires !Terminal(taken.state)
    ensures Enabled(s, DeliverGrant(GrantMsg(n, round, g)))
    ensures
      var s' := Exec(s, DeliverGrant(GrantMsg(n, round, g)));
      && s'.nodes.Keys == s.nodes.Keys && (forall q :: q in s.nodes && q != n ==> s'.nodes[q] == s.nodes[q])
      && s'.nodes[n].claim.None? && s'.nodes[n].copy.Some? && IsFinal(s', taken.epoch, n)
      && Merged(taken, g, s'.nodes[n].copy.value)
  {
    OneNeeded(job, n, p);
    var c0 := StartClaim(taken, taken.epoch);
    var c := CountGrant(c0, taken.replicas, g);
    assert c.acks == 1 && c.needed == 1;
    assert [g][..0] == [];
    assert CountGrants(c0, taken.replicas, [g]) == c;
    TakeoverMergeDominates(taken, taken, taken.epoch, [g]);
    assert Merged(taken, g, Finalized(taken, c)) by { assert [g][0] == g; }
    hide CountGrant, Finalized, Merged, SetSize, Members;
  }

  /** What a new owner starts from: its own copy and what the granter knew, the more advanced of each. */
  predicate Merged(j: Job, g: Grant, f: Job) {
    && f.epoch == j.epoch && f.owner == j.owner
    && (f.state.Done? <==> g.state.Done?) && (!g.state.Done? ==> (f.state.DeadLetter? <==> g.state.DeadLetter?))
    && (!Terminal(g.state) ==>
          && f.leaseSeq == (if g.seq_ > j.leaseSeq then g.seq_ else j.leaseSeq)
          && (j.state.Leased? || g.state.Leased? || g.seq_ > j.leaseSeq ==> f.state.Leased?))
  }

  /** A takeover can always be completed with one live member: if p has seen no newer epoch than n, then n
      asks, p grants, the grant arrives, and n is the finalized owner one epoch up, of a copy with all
      that either of them knew. */
  lemma TakeoverCompletes(job: Job, s: State, n: Endpoint, p: Endpoint) returns (steps: seq<Step>)
    requires Enabled(s, StartTakeover(n)) && s.nodes[n].copy.value.epoch + 1 < U32
    requires HasCopy(s, p) && p != n && s.nodes[p].copy.value.epoch <= s.nodes[n].copy.value.epoch
    requires FreshJob(job) && Inv(job, s)
    ensures |steps| == 3 && CanRun(s, steps)
    ensures
      var j, k, s' := s.nodes[n].copy.value, s.nodes[p].copy.value, Run(s, steps);
      && HasCopy(s', n) && HasCopy(s', p) && s'.nodes[n].claim.None? && IsFinal(s', j.epoch + 1, n)
      && Merged(j.(epoch := j.epoch + 1, owner := n), Grant(p, k.state, k.leaseSeq), s'.nodes[n].copy.value)
      && s'.nodes[p].copy == Some(k.(epoch := j.epoch + 1, owner := n))
  {
    hide Inv, Merged, ExecTakeover, ExecClaim, ExecGrant, Grants;
    var j, k := s.nodes[n].copy.value, s.nodes[p].copy.value;
    CopyFacts(job, s, n);
    CopyFacts(job, s, p);
    var e, g := j.epoch + 1, Grant(p, k.state, k.leaseSeq);
    var ask, grant, count := StartTakeover(n), DeliverClaim(ClaimMsg(n, p, e), true), DeliverGrant(GrantMsg(n, e, g));
    steps := [ask, grant, count];
    RoundAsks(job, s, n, p);
    var s1 := Exec(s, ask);
    Grantable(job, k, n, e);
    GrantedIff(s1, ClaimMsg(n, p, e), true);
    OthersUnmoved(s1, ClaimMsg(n, p, e), true);
    var s2 := Exec(s1, grant);
    RoundEnds(job, s2, n, p, j.(epoch := e, owner := n), e, g);
    ThreeSteps(s, ask, grant, count);
  }

  lemma CopyFacts(job: Job, s: State, n: Endpoint)
    requires HasCopy(s, n) && Inv(job, s)
    ensures n in Members(job) && s.nodes[n].copy.value.replicas == job.replicas
  {
    assert NodeOk(job, n, s.nodes[n]);
  }

  lemma Grantable(job: Job, k: Job, n: Endpoint, e: nat)
    requires k.replicas == job.replicas && n in Members(job) && e > k.epoch
    ensures Grants(k, n, e)
  {
  }

  lemma ThreeSteps(s: State, a: Step, b: Step, c: Step)
    requires Enabled(s, a) && Enabled(Exec(s, a), b) && Enabled(Exec(Exec(s, a), b), c)
    ensures CanRun(s, [a, b, c]) && Run(s, [a, b, c]) == Exec(Exec(Exec(s, a), b), c)
  {
    hide Enabled, Exec;
    assert [a, b, c][1..] == [b, c] && [b, c][1..] == [c] && [c][1..] == [];
    var s2 := Exec(Exec(s, a), b);
    assert CanRun(s2, [c]) && Run(s2, [c]) == Exec(s2, c);
    assert CanRun(Exec(s, a), [b, c]) && Run(Exec(s, a), [b, c]) == Exec(s2, c);
  }
}
