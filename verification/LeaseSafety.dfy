/** Lease safety over whole premised runs. A lease that reached its quorum is never forgotten:
    every later finalized owner is terminal or already counts it, so committed leases carry
    pairwise distinct lease_seq values that strictly increase with the epoch. */
module LeaseSafety {
  import opened Options
  import opened Bytes
  import opened Jobs
  import opened Store
  import opened Takeover
  import opened Handlers
  import opened Cluster
  import opened ClusterInv
  import opened Fencing
  import opened Votes

  // ---- Which leases can still reach their quorum ---------------------------------------------------

  /** What a committed record obliges every later authority to know. */
  datatype Level = LeaseLevel(seq_: nat) | Parked | Completed

  predicate Binding(r: Record) { r.LeaseRec? || r.DoneRec? || r.DeadLetterRec? }

  function LevelOf(r: Record): Level
    requires Binding(r)
  {
    match r
    case LeaseRec(_, _, s, _) => LeaseLevel(s)
    case DeadLetterRec(_, _) => Parked
    case DoneRec(_, _, _) => Completed
  }

  /** The knowledge (state, lease_seq) includes the level. */
  predicate Covers(st: JobState, leaseSeq: nat, lv: Level) {
    match lv
    case LeaseLevel(s) => Terminal(st) || leaseSeq >= s
    case Parked => Terminal(st)
    case Completed => st.Done?
  }

  predicate JobCovers(j: Job, lv: Level) { Covers(j.state, j.leaseSeq, lv) }

  /** A record an owner that knows the level may still write. */
  predicate Respects(r: Record, lv: Level) {
    match r
    case LeaseRec(_, _, s, _) => lv.LeaseLevel? && s > lv.seq_
    case ExpireRec(_, _, s) => lv.LeaseLevel? && s >= lv.seq_
    case DeadLetterRec(_, _) => !lv.Completed?
    case _ => true
  }

  predicate Holder(c: Commit, y: Endpoint) { y == c.author || y in c.acks }

  /** W: the copies a commit needs, counting the owner. */
  function Quorum(job: Job): nat { if |Members(job)| == 1 then 1 else 2 }

  /** Members that hold the record or could still accept it. */
  function Low(job: Job, s: State, c: Commit): set<Endpoint>
    requires Binding(c.rec)
  {
    set y | y in Members(job) && (Holder(c, y) || !Ahead(s, y, c.rec.epoch))
  }

  predicate Choosable(job: Job, s: State, c: Commit) {
    Binding(c.rec) && |Low(job, s, c)| >= Quorum(job)
  }

  // ---- The invariant of one lease -------------------------------------------------------------------

  predicate NodeLease(c: Commit, ch: bool, n: Endpoint, node: Node)
    requires Binding(c.rec)
  {
    && (node.copy.Some? ==>
          var j := node.copy.value;
          && (Holder(c, n) ==>
              j.epoch >= c.rec.epoch && (j.epoch == c.rec.epoch || ch ==> JobCovers(j, LevelOf(c.rec))))
          && (node.rooted && j.epoch > c.rec.epoch && ch ==> JobCovers(j, LevelOf(c.rec))))
    && (node.claim.Some? && node.claim.value.proposed > c.rec.epoch && ch ==>
          forall y :: y in node.claim.value.acked + {n} && Holder(c, y) ==>
            Covers(node.claim.value.bestState, node.claim.value.bestSeq, LevelOf(c.rec)))
  }

  predicate MsgLease(c: Commit, ch: bool, m: Msg)
    requires Binding(c.rec)
  {
    && (m.CopyMsg? && m.rooted && m.job.epoch > c.rec.epoch && ch ==> JobCovers(m.job, LevelOf(c.rec)))
    && (m.GrantMsg? && Holder(c, m.grant.from) && m.round > c.rec.epoch && ch ==>
          Covers(m.grant.state, m.grant.seq_, LevelOf(c.rec)))
  }

  predicate FinalLease(c: Commit, ch: bool, e: nat, f: Final)
    requires Binding(c.rec)
  {
    e > c.rec.epoch && ch ==> JobCovers(f.base, LevelOf(c.rec))
  }

  /** d is commit k, c is commit q. */
  predicate PairLease(c: Commit, ch: bool, q: nat, d: Commit, k: nat)
    requires Binding(c.rec)
  {
    && (RecEpoch(d.rec).Some? && RecEpoch(d.rec).value > c.rec.epoch && ch ==> Respects(d.rec, LevelOf(c.rec)))
    && (RecEpoch(d.rec).Some? && RecEpoch(d.rec).value == c.rec.epoch && k > q ==> Respects(d.rec, LevelOf(c.rec)))
  }

  predicate FifoLease(s: State, q: nat, c: Commit) {
    forall y :: y in c.acks ==>
      y in s.nodes && c.author in s.nodes[y].fifo && s.nodes[y].fifo[c.author] > q
  }

  predicate LeaseParts(s: State, q: nat, c: Commit, ch: bool)
    requires Binding(c.rec)
  {
    && (forall n :: n in s.nodes ==> NodeLease(c, ch, n, s.nodes[n]))
    && (forall m :: m in s.msgs ==> MsgLease(c, ch, m))
    && (forall e :: e in s.finals ==> FinalLease(c, ch, e, s.finals[e]))
    && (forall k :: 0 <= k < |s.commits| ==> PairLease(c, ch, q, s.commits[k], k))
    && FifoLease(s, q, c)
  }

  predicate LeaseAt(job: Job, s: State, q: nat)
    requires q < |s.commits|
  {
    Binding(s.commits[q].rec) ==> LeaseParts(s, q, s.commits[q], Choosable(job, s, s.commits[q]))
  }

  predicate LeaseInv(job: Job, s: State) {
    forall q :: 0 <= q < |s.commits| ==> LeaseAt(job, s, q)
  }

  // ---- A lease can only become harder to complete --------------------------------------------------

  /** Epochs rise, and a new holder was not yet ahead, so the candidate set only shrinks. */
  lemma ChoosableShrinks(job: Job, s: State, s': State, c: Commit, c': Commit)
    requires CopiesRise(s, s') && Binding(c.rec) && c'.rec == c.rec && c'.author == c.author
    requires forall y :: y in c'.acks && y !in c.acks ==> !Ahead(s, y, c.rec.epoch)
    ensures Choosable(job, s', c') ==> Choosable(job, s, c)
  {
    assert Low(job, s', c') <= Low(job, s, c) by {
      forall y | y in Low(job, s', c') ensures y in Low(job, s, c) {
        if !Holder(c, y) && Ahead(s, y, c.rec.epoch) { assert Ahead(s', y, c.rec.epoch); }
      }
    }
    CardSubset(Low(job, s', c'), Low(job, s, c));
  }

  /** A choosable lease meets every later majority in a holder that has already voted. */
  lemma MeetsMajority(job: Job, s: State, c: Commit, electors: set<Endpoint>) returns (y: Endpoint)
    requires Choosable(job, s, c) && Binding(c.rec)
    requires electors <= Members(job) && 2 * |electors| > |Members(job)| && |Members(job)| <= 3
    requires forall x :: x in electors ==> Ahead(s, x, c.rec.epoch)
    ensures y in electors && Holder(c, y)
  {
    y := Intersect(electors, Low(job, s, c), Members(job));
  }

  lemma WeakerLease(c: Commit, ch: bool, ch': bool, n: Endpoint, node: Node)
    requires Binding(c.rec) && NodeLease(c, ch, n, node) && (ch' ==> ch)
    ensures NodeLease(c, ch', n, node)
  {
  }

  lemma WeakerMsg(c: Commit, ch: bool, ch': bool, m: Msg)
    requires Binding(c.rec) && MsgLease(c, ch, m) && (ch' ==> ch)
    ensures MsgLease(c, ch', m)
  {
  }

  // ---- What transitions preserve --------------------------------------------------------------------

  lemma TransitionCovers(j: Job, r: Record, lv: Level)
    requires JobCovers(j, lv) && !r.SubmitRec? && !r.ReplicateRec?
             && (r.LeaseRec? && lv.LeaseLevel? ==> r.leaseSeq >= lv.seq_)
    ensures JobCovers(Transition(Some(j), r).value, lv)
  {
  }

  lemma AdvanceCovers(j: Job, j': Job, lv: Level)
    requires JobCovers(j, lv) && JobAdvances(j, j') && j'.epoch == j.epoch
    ensures JobCovers(j', lv)
  {
  }

  lemma FinalizedCovers(j: Job, c: ClaimState, lv: Level)
    ensures JobCovers(j, lv) ==> JobCovers(Finalized(j, c), lv)
    ensures Covers(c.bestState, c.bestSeq, lv) ==> JobCovers(Finalized(j, c), lv)
  {
  }

  lemma CountCovers(c: ClaimState, replicas: seq<Endpoint>, g: Grant, lv: Level)
    ensures
      var c' := CountGrant(c, replicas, g);
      Covers(c.bestState, c.bestSeq, lv) || Covers(g.state, g.seq_, lv) ==> Covers(c'.bestState, c'.bestSeq, lv)
  {
  }

  // ---- A step at one node that commits nothing --------------------------------------------------------

  lemma LocalLease(job: Job, s: State, s': State, n: Endpoint, q: nat)
    requires q < |s.commits| && LeaseAt(job, s, q) && Local(s, s', n) && CopiesRise(s, s')
    requires s'.commits == s.commits && s'.nodes[n].fifo == s.nodes[n].fifo
    requires Binding(s.commits[q].rec) ==>
      var c, ch := s.commits[q], Choosable(job, s', s.commits[q]);
      && NodeLease(c, ch, n, s'.nodes[n])
      && (forall m :: m in s'.msgs && m !in s.msgs ==> MsgLease(c, ch, m))
      && (forall e :: e in s'.finals ==>
          (e in s.finals && s'.finals[e] == s.finals[e]) || FinalLease(c, ch, e, s'.finals[e]))
    ensures LeaseAt(job, s', q)
  {
    var c := s.commits[q];
    if Binding(c.rec) {
      var ch, ch' := Choosable(job, s, c), Choosable(job, s', c);
      ChoosableShrinks(job, s, s', c, c);
      forall m | m in s'.nodes ensures NodeLease(c, ch', m, s'.nodes[m]) {
        if m != n { WeakerLease(c, ch, ch', m, s.nodes[m]); }
      }
      forall m | m in s'.msgs ensures MsgLease(c, ch', m) {
        if m in s.msgs { assert MsgLease(c, ch, m); }
      }
      forall e | e in s'.finals ensures FinalLease(c, ch', e, s'.finals[e]) {
        if e in s.finals { assert FinalLease(c, ch, e, s.finals[e]); }
      }
      forall k | 0 <= k < |s'.commits| ensures PairLease(c, ch', q, s'.commits[k], k) {
        assert PairLease(c, ch, q, s.commits[k], k);
      }
    }
  }

  /** Adopting a rooted full copy that advances the local one. */
  lemma AdoptLease(c: Commit, ch: bool, ch': bool, n: Endpoint, node: Node, m: Msg)
    requires Binding(c.rec) && NodeLease(c, ch, n, node) && (ch' ==> ch)
    requires m.CopyMsg? && m.rooted && MsgLease(c, ch, m)
    requires Holder(c, n) ==> node.copy.Some?
    requires node.copy.Some? ==> JobAdvances(node.copy.value, m.job)
    ensures NodeLease(c, ch', n, node.(copy := Some(m.job), rooted := true))
    ensures NodeLease(c, ch', n, node.(copy := Some(m.job), rooted := true, claim := None))
  {
    if Holder(c, n) && JobCovers(node.copy.value, LevelOf(c.rec)) && m.job.epoch == node.copy.value.epoch {
      AdvanceCovers(node.copy.value, m.job, LevelOf(c.rec));
    }
  }

  lemma LeaseOf(job: Job, s: State, q: nat, m: Msg)
    requires q < |s.commits| && LeaseAt(job, s, q) && Binding(s.commits[q].rec)
    requires m in s.msgs && m.CopyMsg? && m.to in s.nodes
    ensures
      var c := s.commits[q];
      NodeLease(c, Choosable(job, s, c), m.to, s.nodes[m.to]) && MsgLease(c, Choosable(job, s, c), m)
  {
    hide Choosable, NodeLease, MsgLease;
  }

  lemma ReplicateMoves(job: Job, s: State, m: Msg, reply: bool)
    requires Enabled(s, DeliverReplicate(m, reply)) && MsgOk(job, s, m) && NodeOk(job, m.to, s.nodes[m.to])
    ensures
      var s' := ExecReplicate(s, m, reply);
      && Local(s, s', m.to) && CopiesRise(s, s') && s'.commits == s.commits
      && s'.nodes[m.to].fifo == s.nodes[m.to].fifo
  {
    ReplicateShape(job, s, m, reply);
    DeliverRises(s, DeliverReplicate(m, reply));
  }

  lemma ReplicateLease(job: Job, s: State, m: Msg, reply: bool, q: nat)
    requires Enabled(s, DeliverReplicate(m, reply)) && m.rooted && q < |s.commits| && LeaseAt(job, s, q)
    requires MsgOk(job, s, m) && NodeOk(job, m.to, s.nodes[m.to]) && CommitOk(job, s, s.commits[q])
    ensures LeaseAt(job, ExecReplicate(s, m, reply), q)
  {
    var s', c := ExecReplicate(s, m, reply), s.commits[q];
    if Binding(c.rec) { LeaseOf(job, s, q, m); }
    hide LeaseAt, Choosable, NodeLease, MsgLease, ExecReplicate, Local, CopiesRise, MsgOk, NodeOk;
    ReplicateMoves(job, s, m, reply);
    if Binding(c.rec) { ReplicateNodeLease(job, s, m, reply, c); }
    LocalLease(job, s, s', m.to, q);
  }

  lemma ReplicateNodeLease(job: Job, s: State, m: Msg, reply: bool, c: Commit)
    requires Enabled(s, DeliverReplicate(m, reply)) && m.rooted && Binding(c.rec)
    requires CopiesRise(s, ExecReplicate(s, m, reply)) && (Holder(c, m.to) ==> HasCopy(s, m.to))
    requires NodeLease(c, Choosable(job, s, c), m.to, s.nodes[m.to]) && MsgLease(c, Choosable(job, s, c), m)
    ensures
      var s' := ExecReplicate(s, m, reply);
      && NodeLease(c, Choosable(job, s', c), m.to, s'.nodes[m.to]) && s'.finals == s.finals
      && (forall x :: x in s'.msgs && x !in s.msgs ==> MsgLease(c, Choosable(job, s', c), x))
  {
    var s', node := ExecReplicate(s, m, reply), s.nodes[m.to];
    ChoosableShrinks(job, s, s', c, c);
    if s'.nodes[m.to].copy != node.copy {
      AdoptLease(c, Choosable(job, s, c), Choosable(job, s', c), m.to, node, m);
    }
  }

  lemma ResyncLease(job: Job, s: State, m: Msg, q: nat)
    requires Enabled(s, DeliverResync(m)) && m.rooted && q < |s.commits| && LeaseAt(job, s, q)
    requires MsgOk(job, s, m) && NodeOk(job, m.to, s.nodes[m.to]) && CommitOk(job, s, s.commits[q])
    ensures LeaseAt(job, ExecResync(s, m), q)
  {
    var s', c := ExecResync(s, m), s.commits[q];
    if Binding(c.rec) { LeaseOf(job, s, q, m); }
    hide LeaseAt, Choosable, NodeLease;
    ResyncShape(job, s, m);
    DeliverRises(s, DeliverResync(m));
    if Binding(c.rec) { ResyncNodeLease(job, s, m, c); }
    LocalLease(job, s, s', m.to, q);
  }

  lemma ResyncNodeLease(job: Job, s: State, m: Msg, c: Commit)
    requires Enabled(s, DeliverResync(m)) && m.rooted && Binding(c.rec)
    requires CopiesRise(s, ExecResync(s, m)) && (Holder(c, m.to) ==> HasCopy(s, m.to))
    requires NodeLease(c, Choosable(job, s, c), m.to, s.nodes[m.to]) && MsgLease(c, Choosable(job, s, c), m)
    ensures
      var s' := ExecResync(s, m);
      && NodeLease(c, Choosable(job, s', c), m.to, s'.nodes[m.to]) && s'.finals == s.finals && s'.msgs == s.msgs
      && s'.nodes[m.to].fifo == s.nodes[m.to].fifo
  {
    var s', node := ExecResync(s, m), s.nodes[m.to];
    ChoosableShrinks(job, s, s', c, c);
    if s'.nodes[m.to].copy != node.copy {
      AdoptLease(c, Choosable(job, s, c), Choosable(job, s', c), m.to, node, m);
    }
  }

  /** Moving to a higher epoch keeps the content; a claim opened on it starts from it. */
  lemma BumpLease(c: Commit, ch: bool, ch': bool, n: Endpoint, node: Node, e: nat, owner: Endpoint)
    requires Binding(c.rec) && NodeLease(c, ch, n, node) && (ch' ==> ch)
    requires node.copy.Some? && e > node.copy.value.epoch
    ensures
      var j' := node.copy.value.(epoch := e, owner := owner);
      && NodeLease(c, ch', n, node.(copy := Some(j'), rooted := false, claim := None))
      && NodeLease(c, ch', n, node.(copy := Some(j'), rooted := false, claim := Some(StartClaim(j', e))))
  {
  }

  /** A claim of round 0 says nothing about any lease. */
  lemma WrapLease(job: Job, s: State, n: Endpoint, q: nat)
    requires FreshJob(job) && Enabled(s, StartTakeover(n)) && s.nodes[n].copy.value.epoch + 1 == U32
    requires NodeOk(job, n, s.nodes[n]) && q < |s.commits| && LeaseAt(job, s, q)
    ensures LeaseAt(job, ExecTakeover(s, n), q)
  {
    var s', c := ExecTakeover(s, n), s.commits[q];
    WrapEffect(job, s, n);
    TakeoverShape(job, s, n);
    TakeoverRises(s, n);
    if Binding(c.rec) { ChoosableShrinks(job, s, s', c, c); }
    LocalLease(job, s, s', n, q);
  }

  lemma TakeoverLease(job: Job, s: State, n: Endpoint, q: nat)
    requires FreshJob(job) && Enabled(s, StartTakeover(n)) && NodeVotes(s, n, s.nodes[n])
    requires NodeOk(job, n, s.nodes[n]) && q < |s.commits| && LeaseAt(job, s, q)
    ensures LeaseAt(job, ExecTakeover(s, n), q)
  {
    if s.nodes[n].copy.value.epoch + 1 < U32 { MovedLease(job, s, n, q); } else { WrapLease(job, s, n, q); }
  }

  lemma MovedLease(job: Job, s: State, n: Endpoint, q: nat)
    requires FreshJob(job) && Enabled(s, StartTakeover(n)) && s.nodes[n].copy.value.epoch + 1 < U32
    requires NodeOk(job, n, s.nodes[n]) && q < |s.commits| && LeaseAt(job, s, q)
    ensures LeaseAt(job, ExecTakeover(s, n), q)
  {
    var s', c := ExecTakeover(s, n), s.commits[q];
    TakeoverEffect(job, s, n);
    TakeoverShape(job, s, n);
    TakeoverRises(s, n);
    if Binding(c.rec) {
      ChoosableShrinks(job, s, s', c, c);
      BumpLease(c, Choosable(job, s, c), Choosable(job, s', c), n, s.nodes[n], s.nodes[n].copy.value.epoch + 1, n);
    }
    LocalLease(job, s, s', n, q);
  }

  lemma ClaimLease(job: Job, s: State, m: Msg, reply: bool, q: nat)
    requires Enabled(s, DeliverClaim(m, reply)) && q < |s.commits| && LeaseAt(job, s, q)
    requires MsgOk(job, s, m) && NodeOk(job, m.to, s.nodes[m.to]) && CommitOk(job, s, s.commits[q])
    ensures LeaseAt(job, ExecClaim(s, m, reply), q)
  {
    var s', c := ExecClaim(s, m, reply), s.commits[q];
    ClaimShape(job, s, m, reply);
    ClaimRises(s, m, reply);
    if Binding(c.rec) { ClaimNodeLease(job, s, m, reply, c); }
    ClaimEffect(s, m, reply);
    LocalLease(job, s, s', m.to, q);
  }

  lemma ClaimNodeLease(job: Job, s: State, m: Msg, reply: bool, c: Commit)
    requires Enabled(s, DeliverClaim(m, reply)) && m.from != m.to && Binding(c.rec)
    requires CopiesRise(s, ExecClaim(s, m, reply)) && NodeLease(c, Choosable(job, s, c), m.to, s.nodes[m.to])
    ensures
      var s' := ExecClaim(s, m, reply);
      && NodeLease(c, Choosable(job, s', c), m.to, s'.nodes[m.to])
      && (forall x :: x in s'.msgs && x !in s.msgs ==> MsgLease(c, Choosable(job, s', c), x))
      && s'.nodes[m.to].fifo == s.nodes[m.to].fifo
  {
    var s', node := ExecClaim(s, m, reply), s.nodes[m.to];
    ClaimEffect(s, m, reply);
    ChoosableShrinks(job, s, s', c, c);
    if s'.nodes != s.nodes {
      BumpLease(c, Choosable(job, s, c), Choosable(job, s', c), m.to, node, m.proposed, m.from);
    } else {
      WeakerLease(c, Choosable(job, s, c), Choosable(job, s', c), m.to, node);
    }
  }

  /** Counting a grant keeps the claim's merge above every lease a counted member held. */
  lemma GrantNodeLease(c: Commit, ch: bool, n: Endpoint, node: Node, replicas: seq<Endpoint>, m: Msg)
    requires Binding(c.rec) && node.claim.Some? && NodeLease(c, ch, n, node)
    requires m.GrantMsg? && m.round == node.claim.value.proposed && MsgLease(c, ch, m)
    ensures NodeLease(c, ch, n, node.(claim := Some(CountGrant(node.claim.value, replicas, m.grant))))
  {
    CountCovers(node.claim.value, replicas, m.grant, LevelOf(c.rec));
  }

  /** What finalizing leaves at the claimant: a copy that covers every lease still choosable. */
  lemma FinalizeNodeLease(job: Job, s: State, n: Endpoint, cl: ClaimState, c: Commit)
    requires FreshJob(job) && VoteInv(job, s) && HasCopy(s, n) && n in Members(job) && Binding(c.rec)
    requires ClaimOk(job, n, cl) && ClaimVotes(s, n, s.nodes[n].copy.value, cl) && cl.acks >= cl.needed
    requires NodeLease(c, Choosable(job, s, c), n, s.nodes[n].(claim := Some(cl)))
    requires Choosable(job, Finalize(s, n, cl), c) ==> Choosable(job, s, c)
    ensures
      var s' := Finalize(s, n, cl);
      && NodeLease(c, Choosable(job, s', c), n, s'.nodes[n]) && s'.nodes[n].fifo == s.nodes[n].fifo
      && (forall e :: e in s'.finals ==>
          (e in s.finals && s'.finals[e] == s.finals[e]) || FinalLease(c, Choosable(job, s', c), e, s'.finals[e]))
  {
    FinalizeEffect(s, n, cl);
    FinalizedCovers(s.nodes[n].copy.value, cl, LevelOf(c.rec));
    if s.nodes[n].copy.value.owner == n && Choosable(job, s, c) && cl.proposed > c.rec.epoch {
      ClaimCovers(job, s, n, cl, c);
    }
    hide VoteInv, Choosable;
  }

  lemma FinalizeLease(job: Job, s: State, n: Endpoint, cl: ClaimState, q: nat)
    requires FreshJob(job) && Inv(job, s) && VoteInv(job, s) && HasCopy(s, n) && q < |s.commits| && LeaseAt(job, s, q)
    requires ClaimOk(job, n, cl) && ClaimVotes(s, n, s.nodes[n].copy.value, cl) && cl.acks >= cl.needed
    requires Binding(s.commits[q].rec) ==>
               NodeLease(s.commits[q], Choosable(job, s, s.commits[q]), n, s.nodes[n].(claim := Some(cl)))
    ensures LeaseAt(job, Finalize(s, n, cl), q)
  {
    var c := s.commits[q];
    assert NodeOk(job, n, s.nodes[n]);
    hide VoteInv, Inv, LeaseAt, Choosable, ClaimVotes, NodeLease, FinalLease;
    FinalizeShape(job, s, n, cl);
    FinalizeRises(s, n, cl);
    if Binding(c.rec) {
      ChoosableShrinks(job, s, Finalize(s, n, cl), c, c);
      FinalizeNodeLease(job, s, n, cl, c);
    } else {
      FinalizeEffect(s, n, cl);
    }
    LocalLease(job, s, Finalize(s, n, cl), n, q);
  }

  /** The claim majority meets the lease's holders, so the merge knows the lease. */
  lemma ClaimCovers(job: Job, s: State, n: Endpoint, cl: ClaimState, c: Commit)
    requires FreshJob(job) && VoteInv(job, s) && HasCopy(s, n) && n in Members(job) && Binding(c.rec)
             && Choosable(job, s, c)
    requires ClaimOk(job, n, cl) && ClaimVotes(s, n, s.nodes[n].copy.value, cl) && cl.acks >= cl.needed
    requires NodeLease(c, true, n, s.nodes[n].(claim := Some(cl))) && cl.proposed > c.rec.epoch
    ensures Covers(cl.bestState, cl.bestSeq, LevelOf(c.rec))
  {
    var electors := cl.acked + {n};
    assert |electors| == cl.acks + 1;
    forall x | x in electors ensures Ahead(s, x, c.rec.epoch) {
      assert Voted(s, x, cl.proposed, n);
      assert VoteHeld(s, (x, cl.proposed).0, (x, cl.proposed).1);
    }
    AtMostThree(job);
    var y := MeetsMajority(job, s, c, electors);
  }

  lemma AtMostThree(job: Job)
    requires FreshJob(job)
    ensures |Members(job)| <= 3
  {
    var a := {job.replicas[0], job.replicas[1], job.replicas[2]};
    assert Members(job) <= a;
    CardSubset(Members(job), a);
    assert |a| <= 3 by {
      assert a == {job.replicas[0]} + {job.replicas[1]} + {job.replicas[2]};
    }
  }

  lemma GrantNode(job: Job, s: State, m: Msg, q: nat)
    requires Enabled(s, DeliverGrant(m)) && RoundMatches(s, DeliverGrant(m)) && q < |s.commits| && LeaseAt(job, s, q)
    requires Binding(s.commits[q].rec)
    ensures NodeLease(s.commits[q], Choosable(job, s, s.commits[q]), m.to, s.nodes[m.to].(claim := Some(Counted(s, m))))
  {
    GrantNodeLease(s.commits[q], Choosable(job, s, s.commits[q]), m.to, s.nodes[m.to],
        s.nodes[m.to].copy.value.replicas, m);
  }

  lemma GrantLease(job: Job, s: State, m: Msg, q: nat)
    requires FreshJob(job) && Inv(job, s) && VoteInv(job, s) && Enabled(s, DeliverGrant(m))
             && RoundMatches(s, DeliverGrant(m))
    requires q < |s.commits| && LeaseAt(job, s, q)
    ensures LeaseAt(job, ExecGrant(s, m), q)
  {
    hide VoteInv, Inv, LeaseAt, Choosable, NodeLease, ClaimVotes, CountGrant, Finalize, ClaimOk, MsgOk, NodeOk,
        FreshJob;
    GrantReady(job, s, m);
    if Binding(s.commits[q].rec) { GrantNode(job, s, m, q); }
    if Counted(s, m).acks >= Counted(s, m).needed {
      FinalizeLease(job, s, m.to, Counted(s, m), q);
    } else {
      GrantCountedLease(job, s, m, q);
    }
  }

  lemma GrantCountedLease(job: Job, s: State, m: Msg, q: nat)
    requires Enabled(s, DeliverGrant(m)) && MsgOk(job, s, m) && NodeOk(job, m.to, s.nodes[m.to])
    requires q < |s.commits| && LeaseAt(job, s, q)
    requires
      var node := s.nodes[m.to];
      var cl := CountGrant(node.claim.value, node.copy.value.replicas, m.grant);
      && cl.acks < cl.needed
      && (Binding(s.commits[q].rec) ==>
          NodeLease(s.commits[q], Choosable(job, s, s.commits[q]), m.to, node.(claim := Some(cl))))
    ensures LeaseAt(job, ExecGrant(s, m), q)
  {
    var s', c := ExecGrant(s, m), s.commits[q];
    GrantShape(job, s, m);
    GrantRises(s, m);
    hide LeaseAt, Choosable;
    if Binding(c.rec) {
      ChoosableShrinks(job, s, s', c, c);
      WeakerLease(c, Choosable(job, s, c), Choosable(job, s', c), m.to, s'.nodes[m.to]);
    }
    hide NodeLease;
    LocalLease(job, s, s', m.to, q);
  }

  lemma SelfExpireLease(job: Job, s: State, n: Endpoint, q: nat)
    requires Enabled(s, SelfExpire(n)) && q < |s.commits| && LeaseAt(job, s, q)
    ensures LeaseAt(job, ExecSelfExpire(s, n), q)
  {
    var s', c, j := ExecSelfExpire(s, n), s.commits[q], s.nodes[n].copy.value;
    LocalRises(s, SelfExpire(n));
    SameAuthority(j, ExpireRec(j.id, j.epoch, j.leaseSeq));
    if Binding(c.rec) { ChoosableShrinks(job, s, s', c, c); }
    LocalLease(job, s, s', n, q);
  }

  lemma DropClaimLease(job: Job, s: State, n: Endpoint, q: nat)
    requires n in s.nodes && q < |s.commits| && LeaseAt(job, s, q)
    ensures LeaseAt(job, s.(nodes := s.nodes[n := s.nodes[n].(claim := None)]), q)
  {
    var s', c := s.(nodes := s.nodes[n := s.nodes[n].(claim := None)]), s.commits[q];
    if Binding(c.rec) { ChoosableShrinks(job, s, s', c, c); }
    LocalLease(job, s, s', n, q);
  }

  lemma SendLease(job: Job, s: State, n: Endpoint, to: Endpoint, q: nat)
    requires Enabled(s, SendCopy(n, to)) && q < |s.commits| && LeaseAt(job, s, q)
    ensures LeaseAt(job, Exec(s, SendCopy(n, to)), q)
  {
    var s', c := Exec(s, SendCopy(n, to)), s.commits[q];
    if Binding(c.rec) { ChoosableShrinks(job, s, s', c, c); }
    LocalLease(job, s, s', n, q);
  }

  lemma AcceptLease(job: Job, s: State, p: Endpoint, q: nat)
    requires q < |s.commits| && LeaseAt(job, s, q)
    ensures LeaseAt(job, s.(accepted := true), q)
  {
    if Binding(s.commits[q].rec) { assert Low(job, s.(accepted := true), s.commits[q]) == Low(job, s, s.commits[q]); }
  }

  // ---- Steps that touch the commits ------------------------------------------------------------------

  /** What a finalized owner's new record is, given the copy it decides on. */
  lemma DecisionLevel(job: Job, j: Job, op: OwnerOp)
    requires job.maxAttempts < U32 - 1 && CopyOk(job, j) && OwnerDecision(j, op).Some?
    ensures
      var r := OwnerDecision(j, op).value;
      && (r.LeaseRec? ==> j.state.Ready? && r.leaseSeq == j.leaseSeq + 1)
      && (r.ExpireRec? ==> j.state.Leased? && r.leaseSeq == j.leaseSeq)
      && !j.state.Done? && (r.DeadLetterRec? ==> !Terminal(j.state))
      && (Binding(r) ==> JobCovers(Transition(Some(j), r).value, LevelOf(r)))
  {
  }

  /** The step's shape: one more commit, one changed copy at an unchanged epoch. */
  lemma OwnerEffect(job: Job, s: State, n: Endpoint, op: OwnerOp)
    requires Enabled(s, Owner(n, op)) && CopyOk(job, s.nodes[n].copy.value)
    ensures
      var s', j := ExecOwner(s, n, op), s.nodes[n].copy.value;
      var r := OwnerDecision(j, op).value;
      && Transition(Some(j), r).Some?
      && s'.nodes == s.nodes[n := s.nodes[n].(copy := Transition(Some(j), r))]
      && s'.msgs == s.msgs && s'.finals == s.finals && s'.votes == s.votes && s'.submitter == s.submitter
      && |s'.commits| == |s.commits| + 1 && (forall k :: 0 <= k < |s.commits| ==> s'.commits[k] == s.commits[k])
      && s'.commits[|s.commits|].author == n && s'.commits[|s.commits|].rec == r && s'.commits[|s.commits|].acks == {}
      && RecEpoch(r) == Some(j.epoch) && Transition(Some(j), r).value.epoch == j.epoch
  {
    DecisionOk(job, s.nodes[n].copy.value, op);
    SameAuthority(s.nodes[n].copy.value, OwnerDecision(s.nodes[n].copy.value, op).value);
  }

  /** An older lease survives a finalized owner's next record, and the record tops it. */
  lemma OwnerOlder(job: Job, s: State, n: Endpoint, op: OwnerOp, c: Commit, ch: bool, q: nat)
    requires job.maxAttempts < U32 - 1 && Enabled(s, Owner(n, op)) && CopyOk(job, s.nodes[n].copy.value)
    requires Binding(c.rec) && NodeLease(c, ch, n, s.nodes[n]) && s.nodes[n].rooted
    requires c.rec.epoch == s.nodes[n].copy.value.epoch ==> c.author == n
    ensures
      var j := s.nodes[n].copy.value;
      var r := OwnerDecision(j, op).value;
      && NodeLease(c, ch, n, s.nodes[n].(copy := Transition(Some(j), r)))
      && PairLease(c, ch, q, Commit(n, r, Peers(j.replicas, n), {}, Peers(j.replicas, n) == {}), q + 1)
  {
    var j := s.nodes[n].copy.value;
    var r := OwnerDecision(j, op).value;
    DecisionOk(job, j, op);
    DecisionLevel(job, j, op);
    SameAuthority(j, r);
    if JobCovers(j, LevelOf(c.rec)) { TransitionCovers(j, r, LevelOf(c.rec)); }
  }

  lemma OwnerOldLease(job: Job, s: State, n: Endpoint, op: OwnerOp, q: nat)
    requires FreshJob(job) && job.maxAttempts < U32 - 1 && Inv(job, s) && VoteInv(job, s)
    requires Enabled(s, Owner(n, op)) && ActsFinalized(s, Owner(n, op)) && q < |s.commits| && LeaseAt(job, s, q)
    ensures LeaseAt(job, ExecOwner(s, n, op), q)
  {
    var s', c, j := ExecOwner(s, n, op), s.commits[q], s.nodes[n].copy.value;
    assert NodeOk(job, n, s.nodes[n]) && NodeVotes(s, n, s.nodes[n]);
    assert Binding(c.rec) ==> IsFinal(s, c.rec.epoch, c.author);
    hide Inv, VoteInv;
    OwnerEffect(job, s, n, op);
    LocalRises(s, Owner(n, op));
    if Binding(c.rec) {
      OwnerOlder(job, s, n, op, c, Choosable(job, s, c), q);
      ChoosableShrinks(job, s, s', c, c);
      OldLeaseKept(s, s', n, q, c, Choosable(job, s, c), Choosable(job, s', c));
    }
  }

  lemma OldLeaseKept(s: State, s': State, n: Endpoint, q: nat, c: Commit, ch: bool, ch': bool)
    requires Binding(c.rec) && LeaseParts(s, q, c, ch) && (ch' ==> ch) && n in s.nodes && q < |s.commits|
    requires n in s'.nodes && s'.nodes == s.nodes[n := s'.nodes[n]] && s'.nodes[n].fifo == s.nodes[n].fifo
    requires NodeLease(c, ch, n, s'.nodes[n])
    requires s'.msgs == s.msgs && s'.finals == s.finals && |s'.commits| == |s.commits| + 1
    requires forall k :: 0 <= k < |s.commits| ==> s'.commits[k] == s.commits[k]
    requires PairLease(c, ch, q, s'.commits[|s.commits|], q + 1)
    ensures LeaseParts(s', q, c, ch')
  {
    forall m | m in s'.nodes ensures NodeLease(c, ch', m, s'.nodes[m]) {
      WeakerLease(c, ch, ch', m, s'.nodes[m]);
    }
    forall m | m in s'.msgs ensures MsgLease(c, ch', m) { assert MsgLease(c, ch, m); }
    forall e | e in s'.finals ensures FinalLease(c, ch', e, s'.finals[e]) { assert FinalLease(c, ch, e, s.finals[e]); }
    forall k | 0 <= k < |s'.commits| ensures PairLease(c, ch', q, s'.commits[k], k) {
      if k < |s.commits| { assert PairLease(c, ch, q, s.commits[k], k); }
    }
  }

  /** While a lease at the newest epoch is choosable, no later epoch is finalized. */
  lemma NoLaterFinal(job: Job, s: State, c: Commit, g: nat)
    requires FreshJob(job) && VoteInv(job, s) && Choosable(job, s, c) && Binding(c.rec) && c.acks == {}
    requires !Ahead(s, c.author, c.rec.epoch) && g in s.finals && c.rec.epoch >= 1
    ensures g <= c.rec.epoch
  {
    if g > c.rec.epoch {
      var f := s.finals[g];
      assert FinalVotes(job, s, g, f);
      forall x | x in f.electors ensures Ahead(s, x, c.rec.epoch) {
        assert Voted(s, x, g, f.owner);
        assert VoteHeld(s, (x, g).0, (x, g).1);
      }
      AtMostThree(job);
      var y := MeetsMajority(job, s, c, f.electors);
    }
  }

  /** A fresh lease: its author is at its epoch, and nothing newer exists if it is choosable. */
  lemma FreshLease(job: Job, s: State, q: nat)
    requires FreshJob(job) && Inv(job, s) && VoteInv(job, s) && q < |s.commits| && q == |s.commits| - 1
    requires Binding(s.commits[q].rec) && s.commits[q].acks == {} && s.commits[q].rec.epoch >= 1
    requires HasCopy(s, s.commits[q].author)
    requires s.nodes[s.commits[q].author].copy.value.epoch == s.commits[q].rec.epoch
    requires JobCovers(s.nodes[s.commits[q].author].copy.value, LevelOf(s.commits[q].rec))
    ensures LeaseAt(job, s, q)
  {
    var c, ch := s.commits[q], Choosable(job, s, s.commits[q]);
    FreshFinals(job, s, c);
    hide Choosable, JobCovers;
    FreshNodes(job, s, c, ch);
    FreshRest(job, s, q, c, ch);
  }

  lemma FreshFinals(job: Job, s: State, c: Commit)
    requires FreshJob(job) && VoteInv(job, s) && Binding(c.rec) && c.acks == {} && c.rec.epoch >= 1
             && !Ahead(s, c.author, c.rec.epoch)
    ensures Choosable(job, s, c) ==> forall g :: g in s.finals ==> g <= c.rec.epoch
  {
    if Choosable(job, s, c) {
      forall g | g in s.finals ensures g <= c.rec.epoch { NoLaterFinal(job, s, c, g); }
    }
  }

  lemma FreshNodes(job: Job, s: State, c: Commit, ch: bool)
    requires Inv(job, s) && VoteInv(job, s) && Binding(c.rec) && c.acks == {} && HasCopy(s, c.author)
    requires s.nodes[c.author].copy.value.epoch == c.rec.epoch
             && JobCovers(s.nodes[c.author].copy.value, LevelOf(c.rec))
    requires ch ==> forall g :: g in s.finals ==> g <= c.rec.epoch
    ensures forall n :: n in s.nodes ==> NodeLease(c, ch, n, s.nodes[n])
  {
    forall n | n in s.nodes ensures NodeLease(c, ch, n, s.nodes[n]) {
      assert NodeOk(job, n, s.nodes[n]);
      hide NodeLease, NodeVotes;
      FreshNode(s, c, ch, n);
    }
  }

  lemma FreshRest(job: Job, s: State, q: nat, c: Commit, ch: bool)
    requires VoteInv(job, s) && q == |s.commits| - 1 && Binding(c.rec) && c == s.commits[q] && c.acks == {}
             && HasCopy(s, c.author)
    requires s.nodes[c.author].copy.value.epoch == c.rec.epoch
    requires ch ==> forall g :: g in s.finals ==> g <= c.rec.epoch
    requires forall n :: n in s.nodes ==> NodeLease(c, ch, n, s.nodes[n])
    ensures LeaseParts(s, q, c, ch)
  {
    hide NodeLease, NodeVotes;
    forall m | m in s.msgs ensures MsgLease(c, ch, m) { FreshMsg(s, c, ch, m); }
    forall k | 0 <= k < |s.commits| ensures PairLease(c, ch, q, s.commits[k], k) {
      if RecEpoch(s.commits[k].rec).Some? { assert IsFinal(s, RecEpoch(s.commits[k].rec).value, s.commits[k].author); }
    }
  }

  lemma FreshNode(s: State, c: Commit, ch: bool, n: Endpoint)
    requires Binding(c.rec) && c.acks == {} && HasCopy(s, c.author) && n in s.nodes && NodeVotes(s, n, s.nodes[n])
    requires s.nodes[c.author].copy.value.epoch == c.rec.epoch
             && JobCovers(s.nodes[c.author].copy.value, LevelOf(c.rec))
    requires ch ==> forall g :: g in s.finals ==> g <= c.rec.epoch
    requires forall v :: v in s.votes ==> VoteHeld(s, v.0, v.1)
    requires s.nodes[n].claim.Some? ==> s.nodes[n].copy.Some?
    ensures NodeLease(c, ch, n, s.nodes[n])
  {
    var node := s.nodes[n];
    if node.claim.Some? && node.claim.value.proposed > c.rec.epoch {
      var cl := node.claim.value;
      forall y | y in cl.acked + {n} ensures !Holder(c, y) {
        assert Voted(s, y, cl.proposed, n);
        assert VoteHeld(s, (y, cl.proposed).0, (y, cl.proposed).1);
      }
    }
  }

  lemma FreshMsg(s: State, c: Commit, ch: bool, m: Msg)
    requires Binding(c.rec) && c.acks == {} && HasCopy(s, c.author) && MsgVotes(s, m)
    requires s.nodes[c.author].copy.value.epoch == c.rec.epoch
    requires ch ==> forall g :: g in s.finals ==> g <= c.rec.epoch
    ensures MsgLease(c, ch, m)
  {
  }

  lemma OwnerNewLease(job: Job, s: State, n: Endpoint, op: OwnerOp)
    requires FreshJob(job) && job.maxAttempts < U32 - 1 && Inv(job, s) && VoteInv(job, s)
    requires Enabled(s, Owner(n, op)) && ActsFinalized(s, Owner(n, op))
    ensures LeaseAt(job, ExecOwner(s, n, op), |s.commits|)
  {
    var s', j := ExecOwner(s, n, op), s.nodes[n].copy.value;
    assert NodeOk(job, n, s.nodes[n]);
    OwnerEffect(job, s, n, op);
    OwnerVotes(job, s, n, op);
    StepOwner(job, s, n, op);
    var r := OwnerDecision(j, op).value;
    if Binding(r) {
      DecisionLevel(job, j, op);
      FreshLease(job, s', |s.commits|);
    }
  }

  lemma OneCommitMore(s: State, n: Endpoint, op: OwnerOp)
    requires Enabled(s, Owner(n, op))
    ensures |ExecOwner(s, n, op).commits| == |s.commits| + 1
  {
    hide OwnerDecision, Transition, Peers;
  }

  lemma OwnerLease(job: Job, s: State, n: Endpoint, op: OwnerOp)
    requires FreshJob(job) && job.maxAttempts < U32 - 1 && Inv(job, s) && VoteInv(job, s) && LeaseInv(job, s)
    requires Enabled(s, Owner(n, op)) && ActsFinalized(s, Owner(n, op))
    ensures LeaseInv(job, ExecOwner(s, n, op))
  {
    hide LeaseAt, Inv, VoteInv, ExecOwner, ActsFinalized, FreshJob, Enabled;
    var s' := ExecOwner(s, n, op);
    OneCommitMore(s, n, op);
    OwnerNewLease(job, s, n, op);
    forall q | 0 <= q < |s'.commits| ensures LeaseAt(job, s', q) {
      if q < |s.commits| { OwnerOldLease(job, s, n, op, q); }
    }
  }

  /** Delivering record d to peer p: what it does to a lease c the peer may already hold. */
  lemma ApplyCopyLease(c: Commit, q: nat, d: Commit, k: nat, ch: bool, ch': bool, p: Endpoint, node: Node, node': Node)
    requires Binding(c.rec) && NodeLease(c, ch, p, node) && (ch' ==> ch) && PairLease(c, ch, q, d, k)
    requires (d.rec.LeaseRec? || d.rec.DoneRec? || d.rec.ExpireRec? || d.rec.DeadLetterRec?)
    requires node.copy.Some? && RecEpoch(d.rec).value >= node.copy.value.epoch
    requires node'.copy == Transition(node.copy, d.rec) && node'.claim == node.claim
    requires node'.rooted ==> node.rooted || node'.copy != node.copy
    requires Holder(c, p) && RecEpoch(d.rec).value == c.rec.epoch ==> k > q
    ensures NodeLease(c, ch', p, node')
  {
    if node'.copy != node.copy && JobCovers(node.copy.value, LevelOf(c.rec)) && !d.rec.LeaseRec? {
      TransitionCovers(node.copy.value, d.rec, LevelOf(c.rec));
    }
  }

  lemma ApplyEffect(job: Job, s: State, k: nat, p: Endpoint, reply: bool)
    requires Enabled(s, DeliverApply(k, p, reply)) && CommitOk(job, s, s.commits[k])
    ensures
      var s', d, node := ExecApply(s, k, p, reply), s.commits[k], s.nodes[p];
      var taken := OnApply(node.copy, d.author, d.rec).1 == Created;
      && s'.nodes == s.nodes[p := s'.nodes[p]] && s'.msgs == s.msgs && s'.finals == s.finals
      && s'.nodes[p].claim == node.claim && s'.nodes[p].fifo == node.fifo[d.author := k + 1]
      && s'.commits == s.commits[k := s'.commits[k]]
      && s'.commits[k] == d.(acks := if taken && reply then d.acks + {p} else d.acks)
      && (taken ==>
          node.copy.Some? && node.copy.value.owner == d.author && RecEpoch(d.rec).value >= node.copy.value.epoch
                    && s'.nodes[p].copy == Transition(node.copy, d.rec))
      && (!taken ==> s'.nodes[p].copy == node.copy && s'.nodes[p].rooted == node.rooted)
      && (s'.nodes[p].copy == node.copy ==> s'.nodes[p].rooted == node.rooted)
  {
  }

  /** The delivery order premise: a holder of an earlier lease sees only later ones. */
  lemma ApplyNodeLease(job: Job, s: State, k: nat, p: Endpoint, reply: bool, q: nat, c: Commit, ch: bool, ch': bool)
    requires Enabled(s, DeliverApply(k, p, reply)) && CommitOk(job, s, s.commits[k])
             && InOrder(s, DeliverApply(k, p, reply))
    requires q < |s.commits| && c == s.commits[q] && Binding(c.rec) && (ch' ==> ch)
    requires NodeLease(c, ch, p, s.nodes[p]) && PairLease(c, ch, q, s.commits[k], k) && FifoLease(s, q, c)
    requires RecEpoch(s.commits[k].rec) == Some(c.rec.epoch) ==> s.commits[k].author == c.author
    ensures NodeLease(c, ch', p, ExecApply(s, k, p, reply).nodes[p])
  {
    var s', d, node := ExecApply(s, k, p, reply), s.commits[k], s.nodes[p];
    ApplyEffect(job, s, k, p, reply);
    if OnApply(node.copy, d.author, d.rec).1 == Created {
      ApplyCopyLease(c, q, d, k, ch, ch', p, node, s'.nodes[p]);
    } else {
      WeakerLease(c, ch, ch', p, s'.nodes[p]);
    }
  }

  lemma ApplyOtherLease(job: Job, s: State, k: nat, p: Endpoint, reply: bool, q: nat)
    requires Enabled(s, DeliverApply(k, p, reply)) && InOrder(s, DeliverApply(k, p, reply))
             && CommitOk(job, s, s.commits[k])
    requires q < |s.commits| && Binding(s.commits[q].rec) && LeaseAt(job, s, q)
    requires RecEpoch(s.commits[k].rec) == Some(s.commits[q].rec.epoch) ==> s.commits[k].author == s.commits[q].author
    requires ExecApply(s, k, p, reply).commits[q] == s.commits[q]
    ensures LeaseAt(job, ExecApply(s, k, p, reply), q)
  {
    var s', c := ExecApply(s, k, p, reply), s.commits[q];
    DeliverRises(s, DeliverApply(k, p, reply));
    ChoosableShrinks(job, s, s', c, c);
    ApplyEffect(job, s, k, p, reply);
    ApplyNodeLease(job, s, k, p, reply, q, c, Choosable(job, s, c), Choosable(job, s', c));
    ApplyParts(s, s', p, q, c, Choosable(job, s, c), Choosable(job, s', c));
  }

  lemma ApplyParts(s: State, s': State, p: Endpoint, q: nat, c: Commit, ch: bool, ch': bool)
    requires Binding(c.rec) && LeaseParts(s, q, c, ch) && (ch' ==> ch)
    requires p in s.nodes && p in s'.nodes && s'.nodes == s.nodes[p := s'.nodes[p]] && s'.msgs == s.msgs
             && s'.finals == s.finals
    requires NodeLease(c, ch', p, s'.nodes[p])
    requires p in c.acks ==> c.author in s'.nodes[p].fifo && s'.nodes[p].fifo[c.author] > q
    requires |s'.commits| == |s.commits| && forall k :: 0 <= k < |s.commits| ==> s'.commits[k].rec == s.commits[k].rec
    ensures LeaseParts(s', q, c, ch')
  {
    forall m | m in s'.nodes ensures NodeLease(c, ch', m, s'.nodes[m]) {
      if m != p { WeakerLease(c, ch, ch', m, s.nodes[m]); }
    }
    forall m | m in s'.msgs ensures MsgLease(c, ch', m) { assert MsgLease(c, ch, m); }
    forall e | e in s'.finals ensures FinalLease(c, ch', e, s'.finals[e]) { assert FinalLease(c, ch, e, s.finals[e]); }
    forall k | 0 <= k < |s'.commits| ensures PairLease(c, ch', q, s'.commits[k], k) {
      assert PairLease(c, ch, q, s.commits[k], k);
    }
  }

  /** A peer that acknowledges a lease stands at its epoch and covers it. */
  lemma AckCovers(s: State, k: nat, p: Endpoint)
    requires Enabled(s, DeliverApply(k, p, true)) && NoIgnoredAck(s, DeliverApply(k, p, true))
    requires Binding(s.commits[k].rec)
    requires OnApply(s.nodes[p].copy, s.commits[k].author, s.commits[k].rec).1 == Created
    ensures s.nodes[p].copy.Some? && !Ahead(s, p, s.commits[k].rec.epoch)
    ensures
      var copy' := ExecApply(s, k, p, true).nodes[p].copy;
      copy'.Some? && copy'.value.epoch == s.commits[k].rec.epoch && JobCovers(copy'.value, LevelOf(s.commits[k].rec))
  {
  }

  /** The new holder is not ahead, so it has voted for nothing later and granted nothing later. */
  lemma NewHolderNode(s: State, c: Commit, c': Commit, ch: bool, n: Endpoint, p: Endpoint)
    requires Binding(c.rec) && c' == c.(acks := c.acks + {p}) && n in s.nodes && n != p
    requires NodeLease(c, ch, n, s.nodes[n]) && NodeVotes(s, n, s.nodes[n]) && !Ahead(s, p, c.rec.epoch)
    requires s.nodes[n].claim.Some? ==> s.nodes[n].copy.Some?
    requires forall v :: v in s.votes ==> VoteHeld(s, v.0, v.1)
    ensures NodeLease(c', ch, n, s.nodes[n])
  {
    var node := s.nodes[n];
    if node.claim.Some? && node.claim.value.proposed > c.rec.epoch && p in node.claim.value.acked {
      assert Voted(s, p, node.claim.value.proposed, n);
      assert VoteHeld(s, (p, node.claim.value.proposed).0, (p, node.claim.value.proposed).1);
    }
  }

  lemma NewHolderSelf(s: State, c: Commit, c': Commit, ch: bool, p: Endpoint, node': Node)
    requires Binding(c.rec) && c' == c.(acks := c.acks + {p}) && p in s.nodes && s.nodes[p].copy.Some?
    requires !Ahead(s, p, c.rec.epoch) && NodeVotes(s, p, s.nodes[p]) && node'.claim == s.nodes[p].claim
    requires node'.copy.Some? && node'.copy.value.epoch == c.rec.epoch && JobCovers(node'.copy.value, LevelOf(c.rec))
    ensures NodeLease(c', ch, p, node')
  {
  }

  lemma AckFacts(job: Job, s: State, k: nat, p: Endpoint)
    requires Enabled(s, DeliverApply(k, p, true)) && NoIgnoredAck(s, DeliverApply(k, p, true))
    requires Binding(s.commits[k].rec) && CommitOk(job, s, s.commits[k]) && NodeVotes(s, p, s.nodes[p])
    requires OnApply(s.nodes[p].copy, s.commits[k].author, s.commits[k].rec).1 == Created
    ensures
      var s', c := ExecApply(s, k, p, true), s.commits[k];
      var c' := c.(acks := c.acks + {p});
      && s'.commits[k] == c' && !Ahead(s, p, c.rec.epoch)
      && (Choosable(job, s', c') ==> Choosable(job, s, c))
      && NodeLease(c', Choosable(job, s', c'), p, s'.nodes[p])
      && p in s'.nodes && s'.nodes == s.nodes[p := s'.nodes[p]] && s'.msgs == s.msgs && s'.finals == s.finals
      && c.author in s'.nodes[p].fifo && s'.nodes[p].fifo[c.author] > k
      && |s'.commits| == |s.commits| && (forall i :: 0 <= i < |s.commits| ==> s'.commits[i].rec == s.commits[i].rec)
  {
    var s', c := ExecApply(s, k, p, true), s.commits[k];
    var c' := c.(acks := c.acks + {p});
    hide NodeVotes, Choosable, NodeLease;
    DeliverRises(s, DeliverApply(k, p, true));
    ApplyEffect(job, s, k, p, true);
    AckCovers(s, k, p);
    ChoosableShrinks(job, s, s', c, c');
    NewHolderSelf(s, c, c', Choosable(job, s', c'), p, s'.nodes[p]);
  }

  lemma ApplySelfLease(job: Job, s: State, k: nat, p: Endpoint)
    requires Enabled(s, DeliverApply(k, p, true)) && NoIgnoredAck(s, DeliverApply(k, p, true))
    requires Inv(job, s) && VoteInv(job, s) && LeaseAt(job, s, k) && Binding(s.commits[k].rec)
    requires OnApply(s.nodes[p].copy, s.commits[k].author, s.commits[k].rec).1 == Created
    ensures LeaseAt(job, ExecApply(s, k, p, true), k)
  {
    assert CommitOk(job, s, s.commits[k]) && NodeVotes(s, p, s.nodes[p]);
    hide Inv, VoteInv, LeaseParts, NodeVotes, NodeLease, Choosable, Ahead, ExecApply, CommitOk, OnApply, NoIgnoredAck;
    var s', c := ExecApply(s, k, p, true), s.commits[k];
    AckFacts(job, s, k, p);
    NewHolderParts(job, s, s', k, c, s'.commits[k], Choosable(job, s, c), Choosable(job, s', s'.commits[k]), p);
  }

  lemma NewHolderParts(job: Job, s: State, s': State, k: nat, c: Commit, c': Commit, ch: bool, ch': bool, p: Endpoint)
    requires Inv(job, s) && VoteInv(job, s) && Binding(c.rec) && LeaseParts(s, k, c, ch) && (ch' ==> ch)
    requires c' == c.(acks := c.acks + {p}) && !Ahead(s, p, c.rec.epoch) && p in s.nodes && p in s'.nodes
    requires s'.nodes == s.nodes[p := s'.nodes[p]] && s'.msgs == s.msgs && s'.finals == s.finals
    requires NodeLease(c', ch', p, s'.nodes[p]) && c.author in s'.nodes[p].fifo && s'.nodes[p].fifo[c.author] > k
    requires |s'.commits| == |s.commits| && forall i :: 0 <= i < |s.commits| ==> s'.commits[i].rec == s.commits[i].rec
    ensures LeaseParts(s', k, c', ch')
  {
    hide Inv, VoteInv, NodeLease, MsgLease, Ahead;
    NewHolderNodes(job, s, c, c', ch, p);
    NewHolderMsgs(job, s, c, c', ch, p);
    forall m | m in s'.msgs ensures MsgLease(c', ch', m) { WeakerMsg(c', ch, ch', m); }
    forall m | m in s'.nodes ensures NodeLease(c', ch', m, s'.nodes[m]) {
      if m != p { WeakerLease(c', ch, ch', m, s.nodes[m]); }
    }
    forall e | e in s'.finals ensures FinalLease(c', ch', e, s'.finals[e]) { assert FinalLease(c, ch, e, s.finals[e]); }
    forall i | 0 <= i < |s'.commits| ensures PairLease(c', ch', k, s'.commits[i], i) {
      assert PairLease(c, ch, k, s.commits[i], i);
    }
  }

  lemma NewHolderNodes(job: Job, s: State, c: Commit, c': Commit, ch: bool, p: Endpoint)
    requires Inv(job, s) && VoteInv(job, s) && Binding(c.rec) && c' == c.(acks := c.acks + {p})
             && !Ahead(s, p, c.rec.epoch)
    requires forall m :: m in s.nodes ==> NodeLease(c, ch, m, s.nodes[m])
    ensures forall m :: m in s.nodes && m != p ==> NodeLease(c', ch, m, s.nodes[m])
  {
    forall m | m in s.nodes && m != p ensures NodeLease(c', ch, m, s.nodes[m]) {
      assert NodeOk(job, m, s.nodes[m]);
      hide NodeLease, NodeVotes;
      NewHolderNode(s, c, c', ch, m, p);
    }
  }

  lemma NewHolderMsgs(job: Job, s: State, c: Commit, c': Commit, ch: bool, p: Endpoint)
    requires VoteInv(job, s) && Binding(c.rec) && c' == c.(acks := c.acks + {p}) && !Ahead(s, p, c.rec.epoch)
    requires forall m :: m in s.msgs ==> MsgLease(c, ch, m)
    ensures forall m :: m in s.msgs ==> MsgLease(c', ch, m)
  {
    forall m | m in s.msgs ensures MsgLease(c', ch, m) {
      assert MsgLease(c, ch, m) && MsgVotes(s, m);
    }
  }

  predicate Acks(s: State, k: nat, p: Endpoint, reply: bool)
    requires Enabled(s, DeliverApply(k, p, reply))
  {
    reply && OnApply(s.nodes[p].copy, s.commits[k].author, s.commits[k].rec).1 == Created
  }

  lemma ApplySameCommit(s: State, k: nat, p: Endpoint, reply: bool, q: nat)
    requires Enabled(s, DeliverApply(k, p, reply)) && q < |s.commits| && !(q == k && Acks(s, k, p, reply))
    ensures q < |ExecApply(s, k, p, reply).commits| && ExecApply(s, k, p, reply).commits[q] == s.commits[q]
  {
  }

  /** Records of one epoch have one author. */
  lemma OneAuthor(job: Job, s: State, q: nat, k: nat)
    requires VoteInv(job, s) && q < |s.commits| && k < |s.commits| && Binding(s.commits[q].rec)
    ensures RecEpoch(s.commits[k].rec) == Some(s.commits[q].rec.epoch) ==> s.commits[k].author == s.commits[q].author
  {
    assert IsFinal(s, s.commits[q].rec.epoch, s.commits[q].author);
    if RecEpoch(s.commits[k].rec).Some? { assert IsFinal(s, RecEpoch(s.commits[k].rec).value, s.commits[k].author); }
  }

  lemma ApplyLeaseAt(job: Job, s: State, k: nat, p: Endpoint, reply: bool, q: nat)
    requires Inv(job, s) && VoteInv(job, s) && Enabled(s, DeliverApply(k, p, reply))
    requires InOrder(s, DeliverApply(k, p, reply)) && NoIgnoredAck(s, DeliverApply(k, p, reply))
    requires q < |s.commits| == |ExecApply(s, k, p, reply).commits| && LeaseAt(job, s, q)
    requires Binding(s.commits[q].rec) && CommitOk(job, s, s.commits[k])
    ensures LeaseAt(job, ExecApply(s, k, p, reply), q)
  {
    hide Inv, VoteInv, LeaseAt, ExecApply, InOrder, NoIgnoredAck, CommitOk;
    if q == k && Acks(s, k, p, reply) {
      ApplySelfLease(job, s, k, p);
    } else {
      OneAuthor(job, s, q, k);
      ApplySameCommit(s, k, p, reply, q);
      ApplyOtherLease(job, s, k, p, reply, q);
    }
  }

  lemma ApplyLease(job: Job, s: State, k: nat, p: Endpoint, reply: bool)
    requires Inv(job, s) && VoteInv(job, s) && LeaseInv(job, s) && Enabled(s, DeliverApply(k, p, reply))
    requires InOrder(s, DeliverApply(k, p, reply)) && NoIgnoredAck(s, DeliverApply(k, p, reply))
    ensures LeaseInv(job, ExecApply(s, k, p, reply))
  {
    var s' := ExecApply(s, k, p, reply);
    ApplyRecords(s, k, p, reply);
    forall q | 0 <= q < |s'.commits| ensures LeaseAt(job, s', q) {
      assert LeaseAt(job, s, q) && CommitOk(job, s, s.commits[k]);
      if Binding(s.commits[q].rec) { ApplyLeaseAt(job, s, k, p, reply, q); }
    }
  }

  lemma ConfirmOne(job: Job, s: State, s': State, q: nat, c: Commit, c': Commit, ch: bool)
    requires Binding(c.rec) && c'.rec == c.rec && c'.author == c.author && c'.acks == c.acks && LeaseParts(s, q, c, ch)
    requires s'.nodes == s.nodes && s'.msgs == s.msgs && s'.finals == s.finals && |s'.commits| == |s.commits|
    requires forall k :: 0 <= k < |s.commits| ==> s'.commits[k].rec == s.commits[k].rec
    ensures LeaseParts(s', q, c', ch)
  {
    forall n | n in s'.nodes ensures NodeLease(c', ch, n, s'.nodes[n]) { assert NodeLease(c, ch, n, s.nodes[n]); }
    forall m | m in s'.msgs ensures MsgLease(c', ch, m) { assert MsgLease(c, ch, m); }
    forall e | e in s'.finals ensures FinalLease(c', ch, e, s'.finals[e]) { assert FinalLease(c, ch, e, s.finals[e]); }
    forall i | 0 <= i < |s'.commits| ensures PairLease(c', ch, q, s'.commits[i], i) {
      assert PairLease(c, ch, q, s.commits[i], i);
    }
  }

  lemma ConfirmLease(job: Job, s: State, k: nat, p: Endpoint)
    requires LeaseInv(job, s) && Enabled(s, Confirm(k, p))
    ensures LeaseInv(job, Exec(s, Confirm(k, p)))
  {
    var s' := Exec(s, Confirm(k, p));
    forall q | 0 <= q < |s'.commits| ensures LeaseAt(job, s', q) {
      assert LeaseAt(job, s, q);
      var c, c' := s.commits[q], s'.commits[q];
      if Binding(c.rec) {
        assert Low(job, s', c') == Low(job, s, c);
        ConfirmOne(job, s, s', q, c, c', Choosable(job, s, c));
      }
    }
  }

  // ---- The theorem ------------------------------------------------------------------------------------

  predicate Safe(job: Job, s: State) {
    Inv(job, s) && VoteInv(job, s) && LeaseInv(job, s)
  }

  lemma LeaseStep(job: Job, s: State, st: Step)
    requires FreshJob(job) && job.maxAttempts < U32 - 1 && Safe(job, s) && Enabled(s, st) && Premises(s, st)
    ensures LeaseInv(job, Exec(s, st))
  {
    if st.Owner? { OwnerLease(job, s, st.n, st.op); }
    else if st.DeliverApply? { ApplyLease(job, s, st.qid, st.p, st.reply); }
    else if st.Confirm? { ConfirmLease(job, s, st.qid, st.p); }
    else {
      CommitsUntouched(s, st);
      forall q | 0 <= q < |Exec(s, st).commits| ensures LeaseAt(job, Exec(s, st), q) { QuietLease(job, s, st, q); }
    }
  }

  lemma QuietLease(job: Job, s: State, st: Step, q: nat)
    requires FreshJob(job) && Inv(job, s) && VoteInv(job, s) && Enabled(s, st) && Premises(s, st) && !Commits(st)
    requires q < |s.commits| == |Exec(s, st).commits| && LeaseAt(job, s, q)
    ensures LeaseAt(job, Exec(s, st), q)
  {
    assert CommitOk(job, s, s.commits[q]);
    hide LeaseAt, VoteInv;
    match st
    case SelfExpire(n) => SelfExpireLease(job, s, n, q);
    case SendCopy(n, to) => SendLease(job, s, n, to, q);
    case DeliverReplicate(m, reply) => assert MsgOk(job, s, m); ReplicateLease(job, s, m, reply, q);
    case DeliverResync(m) => assert MsgOk(job, s, m); ResyncLease(job, s, m, q);
    case AcceptSubmit(p) => AcceptLease(job, s, p, q);
    case StartTakeover(n) => TakeoverLease(job, s, n, q);
    case DeliverClaim(m, reply) => assert MsgOk(job, s, m); ClaimLease(job, s, m, reply, q);
    case DeliverGrant(m) => GrantLease(job, s, m, q);
    case Abandon(n) => DropClaimLease(job, s, n, q);
    case Restart(n) => DropClaimLease(job, s, n, q);
  }

  lemma {:induction false} SafeAlways(job: Job, s: State, steps: seq<Step>)
    requires FreshJob(job) && job.maxAttempts < U32 - 1 && Safe(job, s) && CanRunPremised(s, steps)
    ensures CanRun(s, steps) && Safe(job, Run(s, steps))
    decreases steps
  {
    PremisedIsRun(s, steps);
    if steps != [] {
      InvStep(job, s, steps[0]);
      VoteStep(job, s, steps[0]);
      LeaseStep(job, s, steps[0]);
      SafeAlways(job, Exec(s, steps[0]), steps[1..]);
    }
  }

  lemma SafeInit(job: Job, all: set<Endpoint>)
    requires FreshJob(job) && Members(job) <= all
    ensures Safe(job, Init(job, all))
  {
    InvInit(job, all);
    VoteInit(job, all);
  }

  /** A record reported successful is held by a quorum, so it is choosable for ever. */
  lemma OkIsChoosable(job: Job, s: State, q: nat)
    requires Inv(job, s) && OkCommit(s, q)
    ensures Choosable(job, s, s.commits[q])
  {
    var c := s.commits[q];
    assert CommitOk(job, s, c);
    if c.sentTo == {} {
      assert Members(job) == {c.author};
      CardSubset({c.author}, Low(job, s, c));
    } else {
      var p :| p in c.acks;
      assert |{c.author, p}| == 2;
      CardSubset({c.author, p}, Low(job, s, c));
    }
  }

  /** A lease, completion or dead-lettering whose quorum_commit reported success. */
  predicate OkCommit(s: State, q: nat) {
    q < |s.commits| && Binding(s.commits[q].rec) && s.commits[q].ok
  }

  predicate OkLease(s: State, q: nat) { OkCommit(s, q) && s.commits[q].rec.LeaseRec? }

  /** The leases that reported success are pairwise distinct and ordered like their epochs. */
  predicate LeasesDistinct(s: State) {
    forall q: nat, k: nat :: q < |s.commits| && k < |s.commits| && q != k && OkLease(s, q) && OkLease(s, k) ==>
      && s.commits[q].rec.leaseSeq != s.commits[k].rec.leaseSeq
      && (s.commits[q].rec.epoch < s.commits[k].rec.epoch ==> s.commits[q].rec.leaseSeq < s.commits[k].rec.leaseSeq)
  }

  /** Commit k was written under a later authority than commit q: a higher epoch, or later at
      the same one. */
  predicate Later(s: State, q: nat, k: nat)
    requires q < |s.commits| && k < |s.commits| && Binding(s.commits[q].rec)
  {
    RecEpoch(s.commits[k].rec).Some? &&
      (RecEpoch(s.commits[k].rec).value > s.commits[q].rec.epoch
       || (RecEpoch(s.commits[k].rec).value == s.commits[q].rec.epoch && k > q))
  }

  /** After a completion reported success, no later authority leases, expires or parks the job;
      after a parking did, none leases or expires it. */
  predicate TerminalStays(s: State) {
    forall q: nat, k: nat :: q < |s.commits| && k < |s.commits| && OkCommit(s, q) && Later(s, q, k) ==>
      Respects(s.commits[k].rec, LevelOf(s.commits[q].rec))
  }

  /** n is the finalized owner of an epoch above e and still at it. */
  predicate LaterOwner(s: State, n: Endpoint, e: nat) {
    HasCopy(s, n) && s.nodes[n].copy.value.epoch > e && IsFinal(s, s.nodes[n].copy.value.epoch, n)
  }

  /** Every later finalized owner started from, and still holds, a copy that knows every record
      that reported success before its epoch: the lease is counted or the job terminal, the
      parked job terminal, the completed job Done. */
  predicate OwnersInherit(s: State) {
    forall q: nat :: q < |s.commits| && OkCommit(s, q) ==>
      && (forall e :: e in s.finals && e > s.commits[q].rec.epoch ==>
          JobCovers(s.finals[e].base, LevelOf(s.commits[q].rec)))
      && (forall n :: n in s.nodes && LaterOwner(s, n, s.commits[q].rec.epoch) ==>
          JobCovers(s.nodes[n].copy.value, LevelOf(s.commits[q].rec)))
  }

  /** Lease safety: every run that keeps the premises, from the submit on. */
  lemma LeaseSafetyTheorem(job: Job, all: set<Endpoint>, steps: seq<Step>)
    requires FreshJob(job) && Members(job) <= all && job.maxAttempts < U32 - 1
    requires CanRunPremised(Init(job, all), steps)
    ensures CanRun(Init(job, all), steps)
    ensures LeasesDistinct(Run(Init(job, all), steps))
    ensures TerminalStays(Run(Init(job, all), steps))
    ensures OwnersInherit(Run(Init(job, all), steps))
  {
    SafeInit(job, all);
    SafeAlways(job, Init(job, all), steps);
    SafeIsDistinct(job, Run(Init(job, all), steps));
    SafeInherits(job, Run(Init(job, all), steps));
  }

  lemma OkParts(job: Job, s: State, q: nat)
    requires Safe(job, s) && OkCommit(s, q)
    ensures LeaseParts(s, q, s.commits[q], true)
  {
    OkIsChoosable(job, s, q);
    assert LeaseAt(job, s, q);
  }

  lemma PairMeans(c: Commit, q: nat, d: Commit, k: nat)
    requires Binding(c.rec) && PairLease(c, true, q, d, k)
    requires RecEpoch(d.rec).Some?
    ensures RecEpoch(d.rec).value > c.rec.epoch || (RecEpoch(d.rec).value == c.rec.epoch && k > q) ==>
        Respects(d.rec, LevelOf(c.rec))
  {
  }

  lemma SafePairs(job: Job, s: State)
    requires Safe(job, s)
    ensures forall q: nat, k: nat :: q < |s.commits| && k < |s.commits| && OkCommit(s, q) ==>
        PairLease(s.commits[q], true, q, s.commits[k], k)
  {
    hide Safe;
    forall q: nat, k: nat | q < |s.commits| && k < |s.commits| && OkCommit(s, q)
      ensures PairLease(s.commits[q], true, q, s.commits[k], k)
    {
      OkParts(job, s, q);
    }
  }

  lemma SafeIsDistinct(job: Job, s: State)
    requires Safe(job, s)
    ensures LeasesDistinct(s) && TerminalStays(s)
  {
    hide Safe, PairLease;
    SafePairs(job, s);
    forall q: nat, k: nat | q < |s.commits| && k < |s.commits| && q != k && OkLease(s, q) && OkLease(s, k)
      ensures && s.commits[q].rec.leaseSeq != s.commits[k].rec.leaseSeq
              && (s.commits[q].rec.epoch < s.commits[k].rec.epoch ==>
                  s.commits[q].rec.leaseSeq < s.commits[k].rec.leaseSeq)
    {
      PairMeans(s.commits[q], q, s.commits[k], k);
      PairMeans(s.commits[k], k, s.commits[q], q);
    }
    forall q: nat, k: nat | q < |s.commits| && k < |s.commits| && OkCommit(s, q) && Later(s, q, k)
      ensures Respects(s.commits[k].rec, LevelOf(s.commits[q].rec))
    {
      PairMeans(s.commits[q], q, s.commits[k], k);
    }
  }

  lemma SafeInherits(job: Job, s: State)
    requires Safe(job, s)
    ensures OwnersInherit(s)
  {
    forall q: nat, n | q < |s.commits| && OkCommit(s, q) && LaterOwner(s, n, s.commits[q].rec.epoch)
      ensures JobCovers(s.nodes[n].copy.value, LevelOf(s.commits[q].rec))
    {
      OkParts(job, s, q);
      assert NodeLease(s.commits[q], true, n, s.nodes[n]) && NodeVotes(s, n, s.nodes[n]);
    }
    forall q: nat, e | q < |s.commits| && OkCommit(s, q) && e in s.finals && e > s.commits[q].rec.epoch
      ensures JobCovers(s.finals[e].base, LevelOf(s.commits[q].rec))
    {
      OkParts(job, s, q);
      assert FinalLease(s.commits[q], true, e, s.finals[e]);
    }
  }

  // ---- Copies taken only from the owner ------------------------------------------------------------------------

  /** A copy is merged only if the node that sent it owns it by that very copy. */
  predicate MergesFromOwner(st: Step) {
    (st.DeliverReplicate? || st.DeliverResync?) && st.m.CopyMsg? ==> st.m.from == st.m.job.owner
  }

  /** A claimant does not send its copy before it is finalized. */
  predicate SendsFinalized(s: State, st: Step) {
    st.SendCopy? && Enabled(s, st) && Owns(s, st.n) ==> IsFinal(s, s.nodes[st.n].copy.value.epoch, st.n)
  }

  /** The premises with these two in place of the one on merged copies. */
  predicate OwnerPremises(s: State, st: Step) {
    && InOrder(s, st) && ActsFinalized(s, st) && RoundMatches(s, st) && NoIgnoredAck(s, st)
    && MergesFromOwner(st) && SendsFinalized(s, st)
  }

  predicate CanRunFromOwner(s: State, steps: seq<Step>)
    decreases steps
  {
    steps == []
        || (Enabled(s, steps[0]) && OwnerPremises(s, steps[0]) && CanRunFromOwner(Exec(s, steps[0]), steps[1..]))
  }

  /** A copy on its way from its owner is the finalized owner's. */
  predicate OwnerRooted(s: State) {
    forall m :: m in s.msgs && m.CopyMsg? && m.from == m.job.owner ==> m.rooted
  }

  lemma OwnerRootedStep(job: Job, s: State, st: Step)
    requires VoteInv(job, s) && Enabled(s, st) && OwnerRooted(s) && SendsFinalized(s, st)
    ensures OwnerRooted(Exec(s, st))
  {
    if st.SendCopy? {
      assert NodeVotes(s, st.n, s.nodes[st.n]) by { hide NodeVotes; }
    }
    hide VoteInv;
    forall m | m in Exec(s, st).msgs && m.CopyMsg? && m.from == m.job.owner ensures m.rooted {
      if m !in s.msgs { NewCopy(s, st, m); }
    }
  }

  lemma NewCopy(s: State, st: Step, m: Msg)
    requires Enabled(s, st) && m in Exec(s, st).msgs && m !in s.msgs && m.CopyMsg?
    ensures st.SendCopy? && m == CopyMsg(st.n, st.to, s.nodes[st.n].copy.value, s.nodes[st.n].rooted)
  {
    hide Transition, OnApply, OnReplicate, OnResync, CountGrant, Finalized, Peers, OwnerDecision, SetSize, Proposal;
  }

  lemma {:induction false} FromOwnerIsPremised(job: Job, s: State, steps: seq<Step>)
    requires FreshJob(job) && job.maxAttempts < U32 - 1 && Safe(job, s) && OwnerRooted(s) && CanRunFromOwner(s, steps)
    ensures CanRunPremised(s, steps)
    decreases steps
  {
    if steps != [] {
      assert Premises(s, steps[0]);
      OwnerRootedStep(job, s, steps[0]);
      hide OwnerRooted, OwnerPremises, Premises, Exec, Enabled;
      InvStep(job, s, steps[0]);
      VoteStep(job, s, steps[0]);
      LeaseStep(job, s, steps[0]);
      FromOwnerIsPremised(job, Exec(s, steps[0]), steps[1..]);
    }
  }

  /** Lease safety again, on premises a node can see to: owners speak only once finalized, and copies are
      taken only from owners. */
  lemma LeaseSafetyFromOwners(job: Job, all: set<Endpoint>, steps: seq<Step>)
    requires FreshJob(job) && Members(job) <= all && job.maxAttempts < U32 - 1
    requires CanRunFromOwner(Init(job, all), steps)
    ensures CanRun(Init(job, all), steps)
    ensures LeasesDistinct(Run(Init(job, all), steps))
    ensures TerminalStays(Run(Init(job, all), steps))
    ensures OwnersInherit(Run(Init(job, all), steps))
  {
    SafeInit(job, all);
    FromOwnerIsPremised(job, Init(job, all), steps);
    LeaseSafetyTheorem(job, all, steps);
  }
}
