/** Takeover authority: what the claim rounds guarantee when the run respects the premises the
    design relies on but the code does not enforce. At most one node is ever finalized per
    epoch, by a strict majority that voted for it, and every record travels under such an
    authority. */
module Votes {
  import opened Options
  import opened Bytes
  import opened Jobs
  import opened Store
  import opened Takeover
  import opened Handlers
  import opened Cluster
  import opened ClusterInv
  import opened Fencing

  // ---- The premises, one per clause ---------------------------------------------------------------

  /** Apply records of one owner reach a peer in send order, none twice. */
  predicate InOrder(s: State, st: Step) {
    st.DeliverApply? && Enabled(s, st) ==>
      var author := s.commits[st.qid].author;
      author in s.nodes[st.p].fifo ==> s.nodes[st.p].fifo[author] <= st.qid
  }

  /** Only a node whose takeover was finalized acts as owner. */
  predicate ActsFinalized(s: State, st: Step) {
    st.Owner? && Enabled(s, st) ==> IsFinal(s, s.nodes[st.n].copy.value.epoch, st.n)
  }

  /** A grant counts only for the round that asked for it. */
  predicate RoundMatches(s: State, st: Step) {
    st.DeliverGrant? && Enabled(s, st) ==> st.m.round == s.nodes[st.m.to].claim.value.proposed
  }

  /** No merge adopts a copy whose content does not come from its epoch's finalized owner:
      neither a claimant's before it finalizes nor a granter's that only moved its epoch. */
  predicate MergesRooted(st: Step) {
    && (st.DeliverReplicate? && st.m.CopyMsg? ==> st.m.rooted)
    && (st.DeliverResync? && st.m.CopyMsg? ==> st.m.rooted)
  }

  /** A terminal copy leaves the record without effect, and so does not move to its epoch. */
  predicate Ignores(j: Job, r: Record) {
    (r.LeaseRec? && Terminal(j.state)) || ((r.DoneRec? || r.DeadLetterRec?) && j.state.Done?)
  }

  /** A replica at an older epoch does not acknowledge a record it ignores. */
  predicate NoIgnoredAck(s: State, st: Step) {
    st.DeliverApply? && Enabled(s, st) && st.reply && s.nodes[st.p].copy.Some?
        && RecEpoch(s.commits[st.qid].rec).Some? ==>
      !(Ignores(s.nodes[st.p].copy.value, s.commits[st.qid].rec)
        && s.nodes[st.p].copy.value.epoch < RecEpoch(s.commits[st.qid].rec).value)
  }

  predicate Premises(s: State, st: Step) {
    && InOrder(s, st) && ActsFinalized(s, st) && RoundMatches(s, st)
    && MergesRooted(st) && NoIgnoredAck(s, st)
  }

  predicate CanRunPremised(s: State, steps: seq<Step>)
    decreases steps
  {
    steps == [] || (Enabled(s, steps[0]) && Premises(s, steps[0]) && CanRunPremised(Exec(s, steps[0]), steps[1..]))
  }

  lemma {:induction false} PremisedIsRun(s: State, steps: seq<Step>)
    requires CanRunPremised(s, steps)
    ensures CanRun(s, steps)
    decreases steps
  {
    if steps != [] { PremisedIsRun(Exec(s, steps[0]), steps[1..]); }
  }

  // ---- The invariant ---------------------------------------------------------------------------------

  predicate Voted(s: State, y: Endpoint, e: nat, cand: Endpoint) {
    (y, e) in s.votes && s.votes[(y, e)] == cand
  }

  predicate VoteHeld(s: State, y: Endpoint, e: nat) {
    HasCopy(s, y) && s.nodes[y].copy.value.epoch >= e && e >= 2
  }

  predicate FinalVotes(job: Job, s: State, e: nat, f: Final) {
    && 1 <= e < U32 && f.owner in Members(job) && HasCopy(s, f.owner) && s.nodes[f.owner].copy.value.epoch >= e
    && (e >= 2 ==> f.electors <= Members(job) && 2 * |f.electors| > |Members(job)|
                   && forall y :: y in f.electors ==> Voted(s, y, e, f.owner))
  }

  /** A round whose epoch wrapped to 0 never gets an ack; any other counts votes for n. */
  predicate ClaimVotes(s: State, n: Endpoint, j: Job, c: ClaimState) {
    if c.proposed == 0 then c.acked == {} && c.acks == 0 < c.needed
    else
      && Voted(s, n, c.proposed, n) && !IsFinal(s, c.proposed, n)
      && (forall y :: y in c.acked ==> Voted(s, y, c.proposed, n))
      && j.epoch >= c.proposed && (j.owner == n ==> j.epoch == c.proposed)
  }

  predicate NodeVotes(s: State, n: Endpoint, node: Node) {
    && (node.claim.Some? && node.copy.Some? ==> ClaimVotes(s, n, node.copy.value, node.claim.value))
    && (node.copy.Some? ==> 1 <= node.copy.value.epoch < U32)
    && (node.rooted ==> node.copy.Some? && IsFinal(s, node.copy.value.epoch, node.copy.value.owner))
    && (node.copy.Some? && IsFinal(s, node.copy.value.epoch, n) ==> node.rooted && node.copy.value.owner == n)
    && (node.copy.Some? ==> Voted(s, n, node.copy.value.epoch, node.copy.value.owner)
                            || IsFinal(s, node.copy.value.epoch, node.copy.value.owner))
  }

  predicate MsgVotes(s: State, m: Msg) {
    match m
    case CopyMsg(_, _, j, rooted) => rooted ==> IsFinal(s, j.epoch, j.owner)
    case GrantMsg(to, round, g) =>
      VoteHeld(s, g.from, round) && (Voted(s, g.from, round, to) || IsFinal(s, round, to))
    case ClaimMsg(_, _, proposed) => proposed == 0 || 2 <= proposed < U32
    case ReplicateOk(_, _) => true
  }

  predicate VoteInv(job: Job, s: State) {
    && (forall v :: v in s.votes ==> VoteHeld(s, v.0, v.1))
    && (forall e :: e in s.finals ==> FinalVotes(job, s, e, s.finals[e]))
    && (forall n :: n in s.nodes ==> NodeVotes(s, n, s.nodes[n]))
    && (forall m :: m in s.msgs ==> MsgVotes(s, m))
    && (forall q :: 0 <= q < |s.commits| && RecEpoch(s.commits[q].rec).Some? ==>
          IsFinal(s, RecEpoch(s.commits[q].rec).value, s.commits[q].author))
  }

  // ---- History only grows --------------------------------------------------------------------------

  /** Votes and finals are never revised, a new final belongs to n, and n alone changes. */
  predicate Grows(s: State, s': State, n: Endpoint) {
    && Local(s, s', n) && CopiesRise(s, s')
    && (forall v :: v in s.votes ==> v in s'.votes && s'.votes[v] == s.votes[v])
    && (forall e :: e in s.finals ==> e in s'.finals && s'.finals[e] == s.finals[e])
    && (forall e :: e in s'.finals && e !in s.finals ==> s'.finals[e].owner == n)
  }

  lemma HeldStays(s: State, s': State, y: Endpoint, e: nat)
    requires CopiesRise(s, s') && VoteHeld(s, y, e)
    ensures VoteHeld(s', y, e)
  {
  }

  lemma FinalStays(job: Job, s: State, s': State, n: Endpoint, e: nat)
    requires Grows(s, s', n) && e in s.finals && FinalVotes(job, s, e, s.finals[e])
    ensures FinalVotes(job, s', e, s'.finals[e])
  {
    var f := s.finals[e];
    if e >= 2 {
      forall y | y in f.electors ensures Voted(s', y, e, f.owner) { assert Voted(s, y, e, f.owner); }
    }
  }

  lemma NodeStays(s: State, s': State, n: Endpoint, m: Endpoint)
    requires Grows(s, s', n) && m in s.nodes && m != n && NodeVotes(s, m, s.nodes[m])
    ensures NodeVotes(s', m, s'.nodes[m])
  {
    var node := s.nodes[m];
    if node.claim.Some? && node.copy.Some? && node.claim.value.proposed != 0 {
      var c := node.claim.value;
      assert Voted(s, m, c.proposed, m);
      forall y | y in c.acked ensures Voted(s', y, c.proposed, m) { assert Voted(s, y, c.proposed, m); }
    }
  }

  lemma MsgStays(s: State, s': State, n: Endpoint, m: Msg)
    requires Grows(s, s', n) && MsgVotes(s, m)
    ensures MsgVotes(s', m)
  {
    if m.GrantMsg? {
      HeldStays(s, s', m.grant.from, m.round);
      if Voted(s, m.grant.from, m.round, m.to) { assert Voted(s', m.grant.from, m.round, m.to); }
    }
  }

  /** To keep VoteInv a step at node n need only account for what it adds. */
  lemma GrowsKeeps(job: Job, s: State, s': State, n: Endpoint)
    requires VoteInv(job, s) && Grows(s, s', n)
    requires forall v :: v in s'.votes && v !in s.votes ==> VoteHeld(s', v.0, v.1)
    requires forall e :: e in s'.finals && e !in s.finals ==> FinalVotes(job, s', e, s'.finals[e])
    requires NodeVotes(s', n, s'.nodes[n])
    requires forall m :: m in s'.msgs && m !in s.msgs ==> MsgVotes(s', m)
    requires |s'.commits| >= |s.commits|
    requires forall q :: 0 <= q < |s.commits| ==>
        s'.commits[q].rec == s.commits[q].rec && s'.commits[q].author == s.commits[q].author
    requires forall q :: |s.commits| <= q < |s'.commits| && RecEpoch(s'.commits[q].rec).Some? ==>
               IsFinal(s', RecEpoch(s'.commits[q].rec).value, s'.commits[q].author)
    ensures VoteInv(job, s')
  {
    forall v | v in s'.votes ensures VoteHeld(s', v.0, v.1) {
      if v in s.votes { HeldStays(s, s', v.0, v.1); }
    }
    forall e | e in s'.finals ensures FinalVotes(job, s', e, s'.finals[e]) {
      if e in s.finals { FinalStays(job, s, s', n, e); }
    }
    forall m | m in s'.nodes ensures NodeVotes(s', m, s'.nodes[m]) {
      if m != n { NodeStays(s, s', n, m); }
    }
    forall m | m in s'.msgs ensures MsgVotes(s', m) {
      if m in s.msgs { MsgStays(s, s', n, m); }
    }
    forall q | 0 <= q < |s'.commits| && RecEpoch(s'.commits[q].rec).Some?
      ensures IsFinal(s', RecEpoch(s'.commits[q].rec).value, s'.commits[q].author)
    {
      if q < |s.commits| { assert IsFinal(s, RecEpoch(s.commits[q].rec).value, s.commits[q].author); }
    }
  }

  // ---- Every premised step keeps it ---------------------------------------------------------------

  lemma Intersect(a: set<Endpoint>, b: set<Endpoint>, m: set<Endpoint>) returns (y: Endpoint)
    requires a <= m && b <= m && |a| + |b| > |m|
    ensures y in a && y in b
  {
    if a * b == {} {
      assert |a + b| == |a| + |b|;
      CardSubset(a + b, m);
      assert false;
    }
    y :| y in a * b;
  }

  lemma CardSubset(a: set<Endpoint>, m: set<Endpoint>)
    requires a <= m
    ensures |a| <= |m|
  {
    assert m == a + (m - a);
  }

  /** A transition at the copy's own epoch moves neither epoch nor owner. */
  lemma SameAuthority(j: Job, r: Record)
    requires RecEpoch(r) == Some(j.epoch) && !r.TakeoverRec?
    ensures Transition(Some(j), r).Some?
    ensures Transition(Some(j), r).value.epoch == j.epoch && Transition(Some(j), r).value.owner == j.owner
  {
  }

  lemma SameAuthorityNode(s: State, s': State, n: Endpoint, node: Node, node': Node)
    requires NodeVotes(s, n, node) && s'.votes == s.votes && s'.finals == s.finals
    requires node.copy.Some? && node'.copy.Some? && node'.claim == node.claim && node'.rooted == node.rooted
    requires node'.copy.value.epoch == node.copy.value.epoch && node'.copy.value.owner == node.copy.value.owner
    ensures NodeVotes(s', n, node')
  {
    if node.claim.Some? {
      var c := node.claim.value;
      forall y | y in c.acked ensures Voted(s', y, c.proposed, n) { assert Voted(s, y, c.proposed, n); }
    }
  }

  lemma OwnerNodeVotes(job: Job, s: State, n: Endpoint, op: OwnerOp)
    requires Enabled(s, Owner(n, op)) && NodeOk(job, n, s.nodes[n]) && NodeVotes(s, n, s.nodes[n])
    ensures
      var s', j := ExecOwner(s, n, op), s.nodes[n].copy.value;
      && Local(s, s', n) && NodeVotes(s', n, s'.nodes[n]) && s'.votes == s.votes && s'.finals == s.finals
          && s'.msgs == s.msgs
      && |s'.commits| == |s.commits| + 1 && s'.commits[..|s.commits|] == s.commits
      && s'.commits[|s.commits|].author == n && RecEpoch(s'.commits[|s.commits|].rec) == Some(j.epoch)
  {
    var j, s' := s.nodes[n].copy.value, ExecOwner(s, n, op);
    DecisionOk(job, j, op);
    SameAuthority(j, OwnerDecision(j, op).value);
    SameAuthorityNode(s, s', n, s.nodes[n], s'.nodes[n]);
  }

  lemma OwnerVotes(job: Job, s: State, n: Endpoint, op: OwnerOp)
    requires Inv(job, s) && VoteInv(job, s) && Enabled(s, Owner(n, op)) && ActsFinalized(s, Owner(n, op))
    ensures VoteInv(job, ExecOwner(s, n, op))
  {
    OwnerNodeVotes(job, s, n, op);
    LocalRises(s, Owner(n, op));
    NewCommitKeeps(job, s, ExecOwner(s, n, op), n);
  }

  lemma NewCommitKeeps(job: Job, s: State, s': State, n: Endpoint)
    requires VoteInv(job, s) && Local(s, s', n) && CopiesRise(s, s') && NodeVotes(s', n, s'.nodes[n])
    requires s'.votes == s.votes && s'.finals == s.finals && s'.msgs == s.msgs
    requires |s'.commits| == |s.commits| + 1 && s'.commits[..|s.commits|] == s.commits
    requires RecEpoch(s'.commits[|s.commits|].rec).Some?
    requires IsFinal(s, RecEpoch(s'.commits[|s.commits|].rec).value, s'.commits[|s.commits|].author)
    ensures VoteInv(job, s')
  {
    hide NodeVotes, FinalVotes, MsgVotes, VoteHeld, RecEpoch;
    assert forall q :: 0 <= q < |s.commits| ==> s'.commits[q] == s'.commits[..|s.commits|][q];
    GrowsKeeps(job, s, s', n);
  }

  lemma SelfExpireVotes(job: Job, s: State, n: Endpoint)
    requires VoteInv(job, s) && Enabled(s, SelfExpire(n))
    ensures VoteInv(job, ExecSelfExpire(s, n))
  {
    var j, s' := s.nodes[n].copy.value, ExecSelfExpire(s, n);
    SameAuthority(j, ExpireRec(j.id, j.epoch, j.leaseSeq));
    LocalRises(s, SelfExpire(n));
    SameAuthorityNode(s, s', n, s.nodes[n], s'.nodes[n]);
    GrowsKeeps(job, s, s', n);
  }

  lemma ApplyNodeVotes(job: Job, s: State, q: nat, p: Endpoint, reply: bool)
    requires Enabled(s, DeliverApply(q, p, reply)) && NodeVotes(s, p, s.nodes[p]) && CommitOk(job, s, s.commits[q])
    requires IsFinal(s, RecEpoch(s.commits[q].rec).value, s.commits[q].author) && RecEpoch(s.commits[q].rec).value < U32
    ensures NodeVotes(ExecApply(s, q, p, reply), p, ExecApply(s, q, p, reply).nodes[p])
  {
    var c, node, s' := s.commits[q], s.nodes[p], ExecApply(s, q, p, reply);
    if node.copy.Some? && node.claim.Some? && node.claim.value.proposed != 0 {
      var cl := node.claim.value;
      forall y | y in cl.acked ensures Voted(s', y, cl.proposed, p) { assert Voted(s, y, cl.proposed, p); }
    }
    if s'.nodes[p].copy != node.copy {
      assert s'.nodes[p].copy.value.epoch == RecEpoch(c.rec).value;
      assert s'.nodes[p].copy.value.owner == node.copy.value.owner == c.author != p;
    }
  }

  lemma ApplyVotes(job: Job, s: State, q: nat, p: Endpoint, reply: bool)
    requires Inv(job, s) && VoteInv(job, s) && Enabled(s, DeliverApply(q, p, reply))
    ensures VoteInv(job, ExecApply(s, q, p, reply))
  {
    assert CommitOk(job, s, s.commits[q]) && RecEpoch(s.commits[q].rec).Some?;
    var e := RecEpoch(s.commits[q].rec).value;
    assert IsFinal(s, e, s.commits[q].author) && FinalVotes(job, s, e, s.finals[e]);
    ApplyNodeVotes(job, s, q, p, reply);
    ApplyRecords(s, q, p, reply);
    ApplyShape(job, s, q, p, reply);
    DeliverRises(s, DeliverApply(q, p, reply));
    SameRecordsKeeps(job, s, ExecApply(s, q, p, reply), p);
  }

  lemma ApplyRecords(s: State, q: nat, p: Endpoint, reply: bool)
    requires Enabled(s, DeliverApply(q, p, reply))
    ensures SameRecords(s, ExecApply(s, q, p, reply))
  {
  }

  /** Adopting a rooted copy: the adopter cannot hold an open claim it would still own. */
  lemma AdoptVotes(job: Job, s: State, p: Endpoint, j: Job)
    requires p in s.nodes && NodeVotes(s, p, s.nodes[p]) && IsFinal(s, j.epoch, j.owner)
    requires FinalVotes(job, s, j.epoch, s.finals[j.epoch])
    requires s.nodes[p].copy.Some? ==> JobAdvances(s.nodes[p].copy.value, j)
    requires s.nodes[p].claim.Some? ==> s.nodes[p].copy.Some?
    ensures NodeVotes(s, p, s.nodes[p].(copy := Some(j), rooted := true))
    ensures NodeVotes(s, p, s.nodes[p].(copy := Some(j), rooted := true, claim := None))
  {
  }

  lemma SameHistory(s: State, s': State, n: Endpoint, node: Node)
    requires NodeVotes(s, n, node) && s'.votes == s.votes && s'.finals == s.finals
    ensures NodeVotes(s', n, node)
  {
    if node.claim.Some? && node.copy.Some? {
      var c := node.claim.value;
      forall y | y in c.acked ensures Voted(s', y, c.proposed, n) { assert Voted(s, y, c.proposed, n); }
    }
  }

  /** History and commit identities untouched: only node n and the message set may change. */
  predicate SameRecords(s: State, s': State) {
    && s'.votes == s.votes && s'.finals == s.finals && |s'.commits| == |s.commits|
    && forall q :: 0 <= q < |s.commits| ==>
        s'.commits[q].rec == s.commits[q].rec && s'.commits[q].author == s.commits[q].author
  }

  lemma SameRecordsKeeps(job: Job, s: State, s': State, n: Endpoint)
    requires VoteInv(job, s) && Local(s, s', n) && CopiesRise(s, s') && SameRecords(s, s')
    requires NodeVotes(s', n, s'.nodes[n])
    requires forall m :: m in s'.msgs && m !in s.msgs ==> MsgVotes(s', m)
    ensures VoteInv(job, s')
  {
    GrowsKeeps(job, s, s', n);
  }

  lemma ReplicateNodeVotes(job: Job, s: State, m: Msg, reply: bool)
    requires Enabled(s, DeliverReplicate(m, reply)) && NodeVotes(s, m.to, s.nodes[m.to])
             && NodeOk(job, m.to, s.nodes[m.to])
    requires m.rooted && IsFinal(s, m.job.epoch, m.job.owner) && FinalVotes(job, s, m.job.epoch, s.finals[m.job.epoch])
    ensures
      var s' := ExecReplicate(s, m, reply);
      && NodeVotes(s', m.to, s'.nodes[m.to]) && SameRecords(s, s')
      && (forall x :: x in s'.msgs && x !in s.msgs ==> MsgVotes(s', x))
  {
    var s', node := ExecReplicate(s, m, reply), s.nodes[m.to];
    if s'.nodes[m.to].copy != node.copy { AdoptVotes(job, s, m.to, m.job); }
    SameHistory(s, s', m.to, s'.nodes[m.to]);
  }

  lemma ReplicateVotes(job: Job, s: State, m: Msg, reply: bool)
    requires Inv(job, s) && VoteInv(job, s) && Enabled(s, DeliverReplicate(m, reply)) && m.rooted
    ensures VoteInv(job, ExecReplicate(s, m, reply))
  {
    assert MsgVotes(s, m) && MsgOk(job, s, m);
    ReplicateNodeVotes(job, s, m, reply);
    ReplicateShape(job, s, m, reply);
    DeliverRises(s, DeliverReplicate(m, reply));
    SameRecordsKeeps(job, s, ExecReplicate(s, m, reply), m.to);
  }

  lemma ResyncNodeVotes(job: Job, s: State, m: Msg)
    requires Enabled(s, DeliverResync(m)) && NodeVotes(s, m.to, s.nodes[m.to]) && NodeOk(job, m.to, s.nodes[m.to])
    requires m.rooted && IsFinal(s, m.job.epoch, m.job.owner) && FinalVotes(job, s, m.job.epoch, s.finals[m.job.epoch])
    ensures
      var s' := ExecResync(s, m);
      NodeVotes(s', m.to, s'.nodes[m.to]) && SameRecords(s, s')
  {
    var s', node := ExecResync(s, m), s.nodes[m.to];
    if s'.nodes[m.to].copy != node.copy { AdoptVotes(job, s, m.to, m.job); }
    SameHistory(s, s', m.to, s'.nodes[m.to]);
  }

  lemma ResyncVotes(job: Job, s: State, m: Msg)
    requires Inv(job, s) && VoteInv(job, s) && Enabled(s, DeliverResync(m)) && m.rooted
    ensures VoteInv(job, ExecResync(s, m))
  {
    assert MsgVotes(s, m) && MsgOk(job, s, m);
    ResyncNodeVotes(job, s, m);
    ResyncShape(job, s, m);
    DeliverRises(s, DeliverResync(m));
    SameRecordsKeeps(job, s, ExecResync(s, m), m.to);
  }

  /** What a takeover leaves: a higher epoch, an own vote, an open claim, an unrooted copy. */
  lemma TakeoverEffect(job: Job, s: State, n: Endpoint)
    requires FreshJob(job) && Enabled(s, StartTakeover(n)) && NodeOk(job, n, s.nodes[n])
    requires s.nodes[n].copy.value.epoch + 1 < U32
    ensures
      var j, s' := s.nodes[n].copy.value, ExecTakeover(s, n);
      var j' := j.(epoch := j.epoch + 1, owner := n);
      && s'.nodes == s.nodes[n :=
          s.nodes[n].(copy := Some(j'), claim := Some(StartClaim(j', j.epoch + 1)), rooted := false)]
      && s'.votes == s.votes[(n, j.epoch + 1) := n] && s'.finals == s.finals && s'.commits == s.commits
      && (forall x :: x in s'.msgs && x !in s.msgs ==> x.ClaimMsg? && x.proposed == j.epoch + 1)
  {
    var j := s.nodes[n].copy.value;
    assert Proposal(j) == j.epoch + 1;
    var pair := {n, j.owner};
    CardSubset(pair, Members(job));
    assert |pair| == 2;
  }

  /** Node n casts its one vote of epoch e, for cand. */
  predicate NewVote(s: State, s': State, n: Endpoint, e: nat, cand: Endpoint) {
    && Local(s, s', n) && CopiesRise(s, s') && NodeVotes(s', n, s'.nodes[n])
    && (n, e) !in s.votes && s'.votes == s.votes[(n, e) := cand] && VoteHeld(s', n, e)
    && s'.finals == s.finals && s'.commits == s.commits
    && (forall m :: m in s'.msgs && m !in s.msgs ==> MsgVotes(s', m))
  }

  lemma NewVoteKeeps(job: Job, s: State, s': State, n: Endpoint, e: nat, cand: Endpoint)
    requires VoteInv(job, s) && NewVote(s, s', n, e, cand)
    ensures VoteInv(job, s')
  {
    GrowsKeeps(job, s, s', n);
  }

  /** An epoch above a node's own has neither its vote nor its finalization. */
  lemma FutureIsFree(job: Job, s: State, n: Endpoint, e: nat)
    requires VoteInv(job, s) && HasCopy(s, n) && s.nodes[n].copy.value.epoch < e
    ensures (n, e) !in s.votes && !IsFinal(s, e, n)
  {
    assert (n, e) in s.votes ==> VoteHeld(s, (n, e).0, (n, e).1);
    assert e in s.finals ==> FinalVotes(job, s, e, s.finals[e]);
  }

  lemma TakeoverNodeVotes(job: Job, s: State, n: Endpoint)
    requires FreshJob(job) && Enabled(s, StartTakeover(n)) && NodeOk(job, n, s.nodes[n])
    requires s.nodes[n].copy.value.epoch + 1 < U32 && !IsFinal(s, s.nodes[n].copy.value.epoch + 1, n)
    ensures
      var s', e := ExecTakeover(s, n), s.nodes[n].copy.value.epoch + 1;
      && NodeVotes(s', n, s'.nodes[n]) && VoteHeld(s', n, e)
      && s'.votes == s.votes[(n, e) := n] && s'.finals == s.finals && s'.commits == s.commits
      && (forall m :: m in s'.msgs && m !in s.msgs ==> MsgVotes(s', m))
  {
    TakeoverEffect(job, s, n);
  }

  lemma TakeoverNewVote(job: Job, s: State, n: Endpoint)
    requires FreshJob(job) && Enabled(s, StartTakeover(n)) && NodeOk(job, n, s.nodes[n])
    requires s.nodes[n].copy.value.epoch + 1 < U32
    requires !IsFinal(s, s.nodes[n].copy.value.epoch + 1, n) && (n, s.nodes[n].copy.value.epoch + 1) !in s.votes
    ensures NewVote(s, ExecTakeover(s, n), n, s.nodes[n].copy.value.epoch + 1, n)
  {
    TakeoverNodeVotes(job, s, n);
    TakeoverRises(s, n);
    TakeoverShape(job, s, n);
  }

  /** At the largest epoch only a claim is opened, of a round nobody can grant. */
  lemma WrapEffect(job: Job, s: State, n: Endpoint)
    requires FreshJob(job) && Enabled(s, StartTakeover(n)) && NodeOk(job, n, s.nodes[n])
    requires s.nodes[n].copy.value.epoch + 1 == U32
    ensures
      var j, s' := s.nodes[n].copy.value, ExecTakeover(s, n);
      && StartClaim(j, 0).needed > 0 && s'.nodes == s.nodes[n := s.nodes[n].(claim := Some(StartClaim(j, 0)))]
      && s'.votes == s.votes && s'.finals == s.finals && s'.commits == s.commits
      && (forall x :: x in s'.msgs && x !in s.msgs ==> x.ClaimMsg? && x.proposed == 0)
  {
    var j := s.nodes[n].copy.value;
    assert Proposal(j) == 0 && Transition(Some(j), TakeoverRec(j.id, 0, n)) == Some(j);
    var pair := {n, j.owner};
    CardSubset(pair, Members(job));
    assert |pair| == 2;
  }

  lemma WrapVotes(job: Job, s: State, n: Endpoint)
    requires FreshJob(job) && Enabled(s, StartTakeover(n)) && s.nodes[n].copy.value.epoch + 1 == U32
    requires Inv(job, s) && VoteInv(job, s)
    ensures VoteInv(job, ExecTakeover(s, n))
  {
    assert NodeOk(job, n, s.nodes[n]) && NodeVotes(s, n, s.nodes[n]);
    WrapEffect(job, s, n);
    TakeoverShape(job, s, n);
    TakeoverRises(s, n);
    SameRecordsKeeps(job, s, ExecTakeover(s, n), n);
  }

  lemma TakeoverVotes(job: Job, s: State, n: Endpoint)
    requires FreshJob(job) && Inv(job, s) && VoteInv(job, s) && Enabled(s, StartTakeover(n))
    ensures VoteInv(job, ExecTakeover(s, n))
  {
    assert NodeVotes(s, n, s.nodes[n]);
    if s.nodes[n].copy.value.epoch + 1 < U32 { MovedVotes(job, s, n); } else { WrapVotes(job, s, n); }
  }

  lemma MovedVotes(job: Job, s: State, n: Endpoint)
    requires FreshJob(job) && Enabled(s, StartTakeover(n)) && s.nodes[n].copy.value.epoch + 1 < U32
    requires Inv(job, s) && VoteInv(job, s)
    ensures VoteInv(job, ExecTakeover(s, n))
  {
    hide ExecTakeover, NewVote;
    var e := s.nodes[n].copy.value.epoch + 1;
    assert NodeOk(job, n, s.nodes[n]);
    FutureIsFree(job, s, n, e);
    TakeoverNewVote(job, s, n);
    NewVoteKeeps(job, s, ExecTakeover(s, n), n, e, n);
  }

  lemma ClaimEffect(s: State, m: Msg, reply: bool)
    requires Enabled(s, DeliverClaim(m, reply)) && m.from != m.to
    ensures
      var s', node := ExecClaim(s, m, reply), s.nodes[m.to];
      && s'.finals == s.finals && s'.commits == s.commits
      && ((s'.nodes == s.nodes && s'.votes == s.votes)
          || (node.copy.Some? && m.proposed > node.copy.value.epoch
              && s'.nodes == s.nodes[m.to :=
                  node.(copy := Some(node.copy.value.(epoch := m.proposed, owner := m.from)), rooted := false,
                    claim := None)]
              && s'.votes == s.votes[(m.to, m.proposed) := m.from]))
      && (forall x :: x in s'.msgs && x !in s.msgs ==>
            && node.copy.Some?
                && x == GrantMsg(m.from, m.proposed, Grant(m.to, node.copy.value.state, node.copy.value.leaseSeq))
            && s'.nodes[m.to].copy.Some? && s'.nodes[m.to].copy.value.epoch == m.proposed
            && s'.nodes[m.to].copy.value.owner == m.from
            && (s'.nodes != s.nodes ==> Voted(s', m.to, m.proposed, m.from)))
  {
  }

  lemma ClaimGrantMsg(s: State, m: Msg, reply: bool)
    requires Enabled(s, DeliverClaim(m, reply)) && m.from != m.to && (m.proposed == 0 || 2 <= m.proposed < U32)
             && NodeVotes(s, m.to, s.nodes[m.to])
    ensures
      var s' := ExecClaim(s, m, reply);
      forall x :: x in s'.msgs && x !in s.msgs ==> MsgVotes(s', x)
  {
    ClaimEffect(s, m, reply);
  }

  lemma ClaimNewVote(job: Job, s: State, m: Msg, reply: bool)
    requires Enabled(s, DeliverClaim(m, reply)) && MsgOk(job, s, m) && 2 <= m.proposed < U32
    requires NodeOk(job, m.to, s.nodes[m.to]) && NodeVotes(s, m.to, s.nodes[m.to])
    requires ExecClaim(s, m, reply).nodes != s.nodes && (m.to, m.proposed) !in s.votes && !IsFinal(s, m.proposed, m.to)
    ensures NewVote(s, ExecClaim(s, m, reply), m.to, m.proposed, m.from)
  {
    ClaimEffect(s, m, reply);
    ClaimGrantMsg(s, m, reply);
    ClaimShape(job, s, m, reply);
    ClaimRises(s, m, reply);
  }

  lemma ClaimNoVote(job: Job, s: State, m: Msg, reply: bool)
    requires Inv(job, s) && VoteInv(job, s) && Enabled(s, DeliverClaim(m, reply))
             && ExecClaim(s, m, reply).nodes == s.nodes
    ensures VoteInv(job, ExecClaim(s, m, reply))
  {
    assert MsgVotes(s, m) && MsgOk(job, s, m) && NodeVotes(s, m.to, s.nodes[m.to]);
    ClaimGrantMsg(s, m, reply);
    ClaimEffect(s, m, reply);
    UntouchedVotes(job, s, ExecClaim(s, m, reply));
  }

  lemma ClaimVotesKept(job: Job, s: State, m: Msg, reply: bool)
    requires Inv(job, s) && VoteInv(job, s) && Enabled(s, DeliverClaim(m, reply))
    ensures VoteInv(job, ExecClaim(s, m, reply))
  {
    if ExecClaim(s, m, reply).nodes == s.nodes {
      ClaimNoVote(job, s, m, reply);
    } else {
      assert MsgVotes(s, m) && MsgOk(job, s, m) && NodeOk(job, m.to, s.nodes[m.to])
          && NodeVotes(s, m.to, s.nodes[m.to]);
      FutureIsFree(job, s, m.to, m.proposed);
      ClaimNewVote(job, s, m, reply);
      NewVoteKeeps(job, s, ExecClaim(s, m, reply), m.to, m.proposed, m.from);
    }
  }

  /** Two claim majorities at one epoch share a voter, and a node votes once per epoch. */
  lemma ClaimIsFirst(job: Job, s: State, n: Endpoint, e: nat, electors: set<Endpoint>)
    requires VoteInv(job, s) && e >= 2 && !IsFinal(s, e, n)
    requires electors <= Members(job) && 2 * |electors| > |Members(job)|
    requires forall y :: y in electors ==> Voted(s, y, e, n)
    ensures e !in s.finals
  {
    if e in s.finals {
      assert FinalVotes(job, s, e, s.finals[e]);
      var y := Intersect(electors, s.finals[e].electors, Members(job));
    }
  }

  lemma GrantCounted(job: Job, s: State, n: Endpoint, c: ClaimState, g: Grant)
    requires n in s.nodes && s.nodes[n].copy.Some? && CopyOk(job, s.nodes[n].copy.value) && GrantOk(job, g)
    requires ClaimVotes(s, n, s.nodes[n].copy.value, c) && c.proposed != 0
    requires Voted(s, g.from, c.proposed, n)
    ensures ClaimVotes(s, n, s.nodes[n].copy.value, CountGrant(c, s.nodes[n].copy.value.replicas, g))
    ensures CountGrant(c, s.nodes[n].copy.value.replicas, g).proposed == c.proposed
  {
  }

  lemma FinalizeEffect(s: State, n: Endpoint, c: ClaimState)
    requires HasCopy(s, n)
    ensures
      var s', j := Finalize(s, n, c), s.nodes[n].copy.value;
      && s'.votes == s.votes && s'.commits == s.commits && s'.msgs == s.msgs
      && (j.owner != n ==> s'.finals == s.finals && s'.nodes[n] == s.nodes[n].(claim := None))
      && (j.owner == n ==>
            && s'.nodes[n] == s.nodes[n].(copy := Some(Finalized(j, c)), claim := None, rooted := true)
            && s'.finals == s.finals[j.epoch := Final(n, c.acked + {n}, Finalized(j, c))]
            && Finalized(j, c).epoch == j.epoch && Finalized(j, c).owner == n)
  {
  }

  lemma FinalizeVotes(job: Job, s: State, n: Endpoint, c: ClaimState)
    requires Inv(job, s) && VoteInv(job, s) && HasCopy(s, n)
    requires ClaimOk(job, n, c) && ClaimVotes(s, n, s.nodes[n].copy.value, c) && c.acks >= c.needed
    ensures VoteInv(job, Finalize(s, n, c))
  {
    assert NodeOk(job, n, s.nodes[n]) && NodeVotes(s, n, s.nodes[n]);
    FinalizeShape(job, s, n, c);
    FinalizeRises(s, n, c);
    FinalizeEffect(s, n, c);
    if s.nodes[n].copy.value.owner != n {
      SameRecordsKeeps(job, s, Finalize(s, n, c), n);
    } else {
      assert VoteHeld(s, (n, c.proposed).0, (n, c.proposed).1);
      ClaimWins(job, s, n, c);
      NewFinalKeeps(job, s, Finalize(s, n, c), n, c.proposed);
    }
  }

  /** A claim with enough acks is a strict majority of voters, and the first at its epoch. */
  lemma ClaimWins(job: Job, s: State, n: Endpoint, c: ClaimState)
    requires VoteInv(job, s) && HasCopy(s, n) && n in Members(job)
    requires ClaimOk(job, n, c) && ClaimVotes(s, n, s.nodes[n].copy.value, c) && c.acks >= c.needed && c.proposed >= 2
    ensures c.proposed !in s.finals
    ensures FinalVotes(job, s, c.proposed, Final(n, c.acked + {n}, Finalized(s.nodes[n].copy.value, c)))
  {
    assert |c.acked + {n}| == c.acks + 1;
    ClaimIsFirst(job, s, n, c.proposed, c.acked + {n});
  }

  lemma NewFinalKeeps(job: Job, s: State, s': State, n: Endpoint, e: nat)
    requires VoteInv(job, s) && Local(s, s', n) && CopiesRise(s, s') && HasCopy(s', n)
    requires s'.votes == s.votes && s'.commits == s.commits && s'.msgs == s.msgs
    requires e !in s.finals && e in s'.finals && s'.finals[e].owner == n && s'.finals == s.finals[e := s'.finals[e]]
    requires FinalVotes(job, s, e, s'.finals[e])
    requires s'.nodes[n].copy.value.epoch == e && s'.nodes[n].copy.value.owner == n
    requires s'.nodes[n].rooted && s'.nodes[n].claim.None?
    ensures VoteInv(job, s')
  {
    var f := s'.finals[e];
    if e >= 2 {
      forall y | y in f.electors ensures Voted(s', y, e, n) { assert Voted(s, y, e, n); }
    }
    GrowsKeeps(job, s, s', n);
  }

  function Counted(s: State, m: Msg): ClaimState
    requires Enabled(s, DeliverGrant(m))
  {
    CountGrant(s.nodes[m.to].claim.value, s.nodes[m.to].copy.value.replicas, m.grant)
  }

  lemma GrantIsOk(job: Job, s: State, m: Msg)
    requires Inv(job, s) && Enabled(s, DeliverGrant(m))
    ensures MsgOk(job, s, m) && NodeOk(job, m.to, s.nodes[m.to])
  {
    hide MsgOk, NodeOk, CommitOk, SubmitDurable;
  }

  lemma GrantIsVoted(job: Job, s: State, m: Msg)
    requires VoteInv(job, s) && Enabled(s, DeliverGrant(m))
    ensures MsgVotes(s, m) && NodeVotes(s, m.to, s.nodes[m.to])
  {
    hide MsgVotes, NodeVotes, FinalVotes, VoteHeld, IsFinal;
  }

  /** The vote a grant of this round brings. */
  lemma GrantVote(s: State, m: Msg)
    requires Enabled(s, DeliverGrant(m)) && RoundMatches(s, DeliverGrant(m))
    requires MsgVotes(s, m) && NodeVotes(s, m.to, s.nodes[m.to])
    ensures
      var node := s.nodes[m.to];
      && ClaimVotes(s, m.to, node.copy.value, node.claim.value) && node.claim.value.proposed != 0
      && Voted(s, m.grant.from, node.claim.value.proposed, m.to)
  {
  }

  lemma GrantReady(job: Job, s: State, m: Msg)
    requires Inv(job, s) && VoteInv(job, s) && Enabled(s, DeliverGrant(m)) && RoundMatches(s, DeliverGrant(m))
    ensures MsgOk(job, s, m) && NodeOk(job, m.to, s.nodes[m.to])
    ensures ClaimOk(job, m.to, Counted(s, m)) && ClaimVotes(s, m.to, s.nodes[m.to].copy.value, Counted(s, m))
  {
    hide Inv, VoteInv, MsgVotes, NodeVotes, ClaimVotes, Voted, RoundMatches;
    hide ClaimOk, GrantOk, CopyOk, CountGrant, Members;
    var node := s.nodes[m.to];
    GrantIsOk(job, s, m);
    GrantIsVoted(job, s, m);
    GrantVote(s, m);
    GrantCounted(job, s, m.to, node.claim.value, m.grant);
    CountGrantOk(job, m.to, node.claim.value, node.copy.value, m.grant);
  }

  lemma GrantVotes(job: Job, s: State, m: Msg)
    requires Inv(job, s) && VoteInv(job, s) && Enabled(s, DeliverGrant(m)) && RoundMatches(s, DeliverGrant(m))
    ensures VoteInv(job, ExecGrant(s, m))
  {
    hide Inv, VoteInv, RoundMatches, ClaimOk, ClaimVotes, MsgOk, NodeOk, CountGrant, Finalize;
    GrantReady(job, s, m);
    var c := Counted(s, m);
    if c.acks >= c.needed {
      FinalizeVotes(job, s, m.to, c);
    } else {
      CountedVotes(job, s, m);
    }
  }

  lemma CountedVotes(job: Job, s: State, m: Msg)
    requires Enabled(s, DeliverGrant(m)) && Counted(s, m).acks < Counted(s, m).needed
    requires ClaimVotes(s, m.to, s.nodes[m.to].copy.value, Counted(s, m)) && NodeOk(job, m.to, s.nodes[m.to])
    requires MsgOk(job, s, m) && VoteInv(job, s)
    ensures VoteInv(job, ExecGrant(s, m))
  {
    hide VoteInv, ClaimVotes, MsgOk, NodeOk, CountGrant, Local, CopiesRise;
    var s' := ExecGrant(s, m);
    VotesOf(job, s, m.to);
    assert NodeVotes(s, m.to, s'.nodes[m.to]);
    SameHistory(s, s', m.to, s'.nodes[m.to]);
    GrantShape(job, s, m);
    GrantRises(s, m);
    hide NodeVotes;
    SameRecordsKeeps(job, s, s', m.to);
  }

  lemma DropClaimVotes(job: Job, s: State, n: Endpoint)
    requires VoteInv(job, s) && n in s.nodes
    ensures VoteInv(job, s.(nodes := s.nodes[n := s.nodes[n].(claim := None)]))
  {
    SameRecordsKeeps(job, s, s.(nodes := s.nodes[n := s.nodes[n].(claim := None)]), n);
  }

  lemma UntouchedVotes(job: Job, s: State, s': State)
    requires Inv(job, s) && VoteInv(job, s) && s'.nodes == s.nodes && s'.submitter == s.submitter && SameRecords(s, s')
    requires forall m :: m in s'.msgs && m !in s.msgs ==> MsgVotes(s', m)
    ensures VoteInv(job, s')
  {
    assert HasCopy(s, job.owner);
    SameHistory(s, s', job.owner, s.nodes[job.owner]);
    SameRecordsKeeps(job, s, s', job.owner);
  }

  lemma SendVotes(job: Job, s: State, n: Endpoint, to: Endpoint)
    requires Inv(job, s) && VoteInv(job, s) && Enabled(s, SendCopy(n, to))
    ensures VoteInv(job, Exec(s, SendCopy(n, to)))
  {
    hide Inv, VoteInv, NodeVotes, MsgVotes, Peers;
    VotesOf(job, s, n);
    SentVotes(s, n, to);
    UntouchedVotes(job, s, Exec(s, SendCopy(n, to)));
  }

  lemma VotesOf(job: Job, s: State, n: Endpoint)
    requires VoteInv(job, s) && n in s.nodes
    ensures NodeVotes(s, n, s.nodes[n])
  {
    hide NodeVotes, MsgVotes, FinalVotes, VoteHeld, IsFinal;
  }

  lemma SentVotes(s: State, n: Endpoint, to: Endpoint)
    requires Enabled(s, SendCopy(n, to)) && NodeVotes(s, n, s.nodes[n])
    ensures forall m :: m in Exec(s, SendCopy(n, to)).msgs && m !in s.msgs ==> MsgVotes(Exec(s, SendCopy(n, to)), m)
  {
    hide Peers;
  }

  lemma QuietVotes(job: Job, s: State, st: Step)
    requires Inv(job, s) && VoteInv(job, s) && Enabled(s, st) && (st.Confirm? || st.AcceptSubmit?)
    ensures VoteInv(job, Exec(s, st))
  {
    hide Inv, VoteInv;
    UntouchedVotes(job, s, Exec(s, st));
  }

  lemma VoteStep(job: Job, s: State, st: Step)
    requires FreshJob(job) && Inv(job, s) && VoteInv(job, s) && Enabled(s, st) && Premises(s, st)
    ensures VoteInv(job, Exec(s, st))
  {
    match st
    case Owner(n, op) => OwnerVotes(job, s, n, op);
    case SelfExpire(n) => SelfExpireVotes(job, s, n);
    case DeliverApply(q, p, reply) => ApplyVotes(job, s, q, p, reply);
    case Confirm(_, _) => QuietVotes(job, s, st);
    case SendCopy(n, to) => SendVotes(job, s, n, to);
    case DeliverReplicate(m, reply) => ReplicateVotes(job, s, m, reply);
    case DeliverResync(m) => ResyncVotes(job, s, m);
    case AcceptSubmit(_) => QuietVotes(job, s, st);
    case StartTakeover(n) => TakeoverVotes(job, s, n);
    case DeliverClaim(m, reply) => ClaimVotesKept(job, s, m, reply);
    case DeliverGrant(m) => GrantVotes(job, s, m);
    case Abandon(n) => DropClaimVotes(job, s, n);
    case Restart(n) => DropClaimVotes(job, s, n);
  }

  lemma VoteInit(job: Job, all: set<Endpoint>)
    requires FreshJob(job) && Members(job) <= all
    ensures VoteInv(job, Init(job, all))
  {
  }

}
