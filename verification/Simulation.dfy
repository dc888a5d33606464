/** The node class does what the cluster model says a node does: for any job, each handler moves the
    node's copy and open claim exactly as one step of the cluster does, or does nothing. This carries
    what is proved of cluster steps over to the class (src/queue_node.cc). */
module Simulation {
  import opened Options
  import opened Bytes
  import opened Jobs
  import opened Store
  import opened Records
  import opened Takeover
  import opened Handlers
  import opened Cluster
  import opened ClusterInv
  import opened Ring
  import opened QueueNodes

  /** What the node shows of a job is what the cluster state says it has. */
  ghost predicate Mirrors(node: QueueNode, id: JobId, s: State)
    reads node, node.store
  {
    && node.self in s.nodes && s.nodes[node.self].copy == node.Copy(id)
    && s.nodes[node.self].claim == node.Claim(id)
  }

  /** s' is s after this step. */
  ghost predicate Does(s: State, st: Step, s': State) { Enabled(s, st) && s' == Exec(s, st) }

  // ---- Messages that arrive ------------------------------------------------------------------------------------

  /** Commit q of the cluster arrives. */
  method ApplyStep(node: QueueNode, body: seq<byte>, ghost s: State, ghost q: nat, from: Endpoint, ghost id: JobId)
    returns (reply: Status, ghost s': State)
    requires node.Valid() && Mirrors(node, id, s) && Enabled(s, DeliverApply(q, node.self, true))
    requires DecodeRecord(body).Some? && DecodeRecord(body).value.0 == s.commits[q].rec && RecId(s.commits[q].rec) == id
    requires s.commits[q].author == from
    modifies node.store, node.store.wal, node.store.wal.dev
    ensures node.Valid() && Mirrors(node, id, s')
    ensures if reply == NoQuorum then s' == s else Does(s, DeliverApply(q, node.self, true), s')
    ensures reply == Created ==> q < |s'.commits| && node.self in s'.commits[q].acks
  {
    hide QueueNode.Valid, DecodeRecord, Apply, Transition;
    reply := node.HandleApply(from, body);
    s' := if reply == NoQuorum then s else Exec(s, DeliverApply(q, node.self, true));
  }

  /** A full copy arrives. */
  method ReplicateStep(node: QueueNode, body: seq<byte>, ghost s: State, ghost m: Msg, ghost id: JobId)
    returns (reply: Status, ghost s': State)
    requires m.CopyMsg? && m.to == node.self && m.job.id == id && GetJob(body).Some? && GetJob(body).value.0 == m.job
    requires node.Valid() && Mirrors(node, id, s) && Enabled(s, DeliverReplicate(m, true))
    modifies node.store, node.store.wal, node.store.wal.dev
    ensures node.Valid() && Mirrors(node, id, s')
    ensures if reply == NoQuorum then s' == s else Does(s, DeliverReplicate(m, true), s')
    ensures reply == Created ==> ReplicateOk(node.self, m.from) in s'.msgs
  {
    hide QueueNode.Valid, GetJob, Transition, JobAdvances;
    reply := node.HandleReplicate(body);
    s' := if reply == NoQuorum then s else Exec(s, DeliverReplicate(m, true));
  }

  /** A claim arrives; a grant that goes back is the one the cluster has. */
  method ClaimStep(node: QueueNode, body: seq<byte>, ghost s: State, ghost m: Msg, from: Endpoint, ghost id: JobId)
    returns (reply: Status, known: Option<Grant>, ghost s': State)
    requires m.ClaimMsg? && m.to == node.self && m.from == from
    requires ClaimOf(body) == Some(TakeoverRec(id, m.proposed, from))
    requires node.Valid() && Mirrors(node, id, s) && Enabled(s, DeliverClaim(m, true))
    modifies node, node.store, node.store.wal, node.store.wal.dev
    ensures node.Valid() && Mirrors(node, id, s')
    ensures if reply == NoQuorum then s' == s else Does(s, DeliverClaim(m, true), s')
    ensures known.Some? ==> GrantMsg(from, m.proposed, known.value) in s'.msgs
  {
    hide QueueNode.Valid, ClaimOf;
    reply, known := node.HandleClaim(from, body);
    s' := if reply == NoQuorum then s else Exec(s, DeliverClaim(m, true));
  }

  /** A peer's answer to a resync. Where the log fails, only the claim of a node that is not the owner is
      dropped. */
  method ResyncStep(node: QueueNode, remote: Job, ghost s: State, ghost m: Msg)
    returns (ghost s': State)
    requires m.CopyMsg? && m.to == node.self && m.job == remote && JobFits(remote)
    requires node.Valid() && Mirrors(node, remote.id, s) && Enabled(s, DeliverResync(m))
    modifies node, node.store, node.store.wal, node.store.wal.dev
    ensures node.Valid() && Mirrors(node, remote.id, s')
    ensures Does(s, DeliverResync(m), s') || (!node.store.wal.Usable() && (s' == s || Does(s, Abandon(node.self), s')))
  {
    hide QueueNode.Valid, JobFits;
    ghost var claim := node.Claim(remote.id);
    node.TakeResync(remote.id, remote);
    s' := if node.Copy(remote.id) == OnResync(s.nodes[node.self].copy, remote) then Exec(s, DeliverResync(m))
          else if node.Claim(remote.id) == claim then s
          else Exec(s, Abandon(node.self));
    AdvancedDiffers(s.nodes[node.self].copy, remote);
  }

  lemma AdvancedDiffers(copy: Option<Job>, remote: Job)
    ensures copy.Some? && JobAdvances(copy.value, remote) ==> OnResync(copy, remote) == Some(remote) != copy
  {
  }

  /** A grant arrives. Where the log fails, the round ends without a winner. */
  method GrantStep(node: QueueNode, g: Grant, now: nat, ghost s: State, ghost m: Msg, id: JobId)
    returns (ghost s': State)
    requires m.GrantMsg? && m.to == node.self && m.grant == g && g.seq_ < U32 && node.ClaimsFit()
    requires node.Valid() && Mirrors(node, id, s) && Enabled(s, DeliverGrant(m))
    modifies node, node.store, node.store.wal, node.store.wal.dev
    ensures node.Valid() && node.ClaimsFit() && Mirrors(node, id, s')
    ensures Does(s, DeliverGrant(m), s') || (!node.store.wal.Usable() && Does(s, Abandon(node.self), s'))
  {
    hide QueueNode.Valid, Finalized, CountGrant;
    ghost var c := CountGrant(node.claims[id], node.Copy(id).value.replicas, g);
    ghost var won := node.WonCopy(node.Copy(id), c);
    node.TakeGrant(id, g, now);
    s' := if c.acks < c.needed || node.Copy(id) == won then Exec(s, DeliverGrant(m)) else Exec(s, Abandon(node.self));
  }

  // ---- What an owner decides -----------------------------------------------------------------------------------

  /** The requests sent are those of the commit the cluster has. */
  ghost predicate Sends(requests: seq<(Endpoint, Record)>, s: State, s': State) {
    && |s'.commits| == |s.commits| + 1
    && (set m | m in requests :: m.0) == s'.commits[|s.commits|].sentTo
    && forall m :: m in requests ==> m.1 == s'.commits[|s.commits|].rec
  }

  /** A decision that was committed. */
  lemma Decided(s: State, n: Endpoint, op: OwnerOp, t: Table, id: JobId, rec: Record)
    requires Enabled(s, Owner(n, op)) && s.nodes[n].copy == Find(t, id)
    requires OwnerDecision(s.nodes[n].copy.value, op) == Some(rec)
    requires RecId(rec) == id && !rec.SubmitRec? && !rec.ReplicateRec?
    ensures
      var s', j := Exec(s, Owner(n, op)), s.nodes[n].copy.value;
      && s'.nodes[n].copy == Find(Apply(t, rec), id) && s'.nodes[n].claim == s.nodes[n].claim
      && Sends(FanOut(j.replicas, n, rec), s, s')
  {
    hide Apply, Transition, OwnerDecision;
    var j := s.nodes[n].copy.value;
    ApplyFinds(t, rec);
    FanOutIsPeers(j.replicas, n, rec);
    FanOutSame(j.replicas, n, rec);
  }

  lemma {:induction false} FanOutSame(replicas: seq<Endpoint>, self: Endpoint, rec: Record)
    ensures forall m :: m in FanOut(replicas, self, rec) ==> m.1 == rec
  {
    if replicas != [] { FanOutSame(replicas[..|replicas| - 1], self, rec); }
  }

  /** A worker asks for work. Whatever job the lease is of, all others are untouched. */
  method LeaseStep(node: QueueNode, worker: nat, now: nat, alive: set<Endpoint>, ghost s: State, ghost id: JobId)
    returns (reply: Status, started: Option<Record>, ghost s': State, ghost requests: seq<(Endpoint, Record)>)
    requires node.Valid() && worker < Pow256(8) && Mirrors(node, id, s)
    modifies node, node.store, node.store.wal, node.store.wal.dev
    ensures node.Valid() && Mirrors(node, id, s') && node.outbox == old(node.outbox) + requests
    ensures if started.Some? && RecId(started.value) == id
            then Does(s, Owner(node.self, LeaseOp(worker)), s') && Sends(requests, s, s')
            else s' == s
  {
    hide QueueNode.Valid, Apply, FanOut, Transition, LeaseDecision;
    ghost var t := node.store.Contents();
    reply, started := node.Lease(worker, now, alive);
    s', requests := s, [];
    if started.Some? {
      ApplyFinds(t, started.value);
      requests := FanOut(Find(t, RecId(started.value)).value.replicas, node.self, started.value);
      if RecId(started.value) == id {
        LeaseIsLease(s.nodes[node.self].copy.value, worker);
        Decided(s, node.self, LeaseOp(worker), t, id, started.value);
        s' := Exec(s, Owner(node.self, LeaseOp(worker)));
      }
    }
  }

  lemma LeaseIsLease(j: Job, worker: nat)
    ensures !LeaseDecision(j, worker).SubmitRec? && !LeaseDecision(j, worker).ReplicateRec?
  {
  }

  /** A worker acknowledges to the owner. */
  method AckStep(node: QueueNode, id: JobId, epoch: nat, leaseSeq: nat, success: bool, now: nat, ghost s: State)
    returns (reply: Option<Status>, started: Option<Record>, ghost s': State, ghost requests: seq<(Endpoint, Record)>)
    requires node.Valid() && Mirrors(node, id, s) && Owns(s, node.self)
    modifies node, node.store, node.store.wal, node.store.wal.dev
    ensures node.Valid() && Mirrors(node, id, s') && node.outbox == old(node.outbox) + requests
    ensures if started.Some?
            then Does(s, Owner(node.self, AckOp(epoch, leaseSeq, success)), s')
                 && Sends(requests, s, s')
            else s' == s
  {
    hide QueueNode.Valid, Apply, FanOut, Transition, AckDecision;
    ghost var t := node.store.Contents();
    AckIds(node, id, epoch, leaseSeq, success);
    reply, started := node.OwnerAck(id, epoch, leaseSeq, success, now);
    s', requests := s, [];
    if started.Some? {
      requests := FanOut(Find(t, id).value.replicas, node.self, started.value);
      Decided(s, node.self, AckOp(epoch, leaseSeq, success), t, id, started.value);
      s' := Exec(s, Owner(node.self, AckOp(epoch, leaseSeq, success)));
    }
  }

  lemma AckIds(node: QueueNode, id: JobId, epoch: nat, leaseSeq: nat, success: bool)
    requires node.Valid() && node.Copy(id).Some?
    ensures
      var r := AckDecision(node.Copy(id).value, epoch, leaseSeq, success);
      r.Some? ==> RecId(r.value) == id && !r.value.SubmitRec? && !r.value.ReplicateRec?
  {
    node.KeyedFacts();
  }

  /** A lease runs out. */
  method ExpiryStep(node: QueueNode, id: JobId, now: nat, ghost s: State)
    returns (started: Option<Record>, ghost s': State, ghost requests: seq<(Endpoint, Record)>)
    requires node.Valid() && Mirrors(node, id, s)
    modifies node, node.store, node.store.wal, node.store.wal.dev
    ensures node.Valid() && Mirrors(node, id, s') && node.outbox == old(node.outbox) + requests
    ensures if started.Some?
            then Does(s, Owner(node.self, ExpiryOp), s') && Sends(requests, s, s')
            else s' == s
  {
    hide QueueNode.Valid, Apply, FanOut, Transition, ExpiredAt;
    ghost var t := node.store.Contents();
    started := node.ExpireOne(id, now);
    s', requests := s, [];
    if started.Some? {
      requests := FanOut(Find(t, id).value.replicas, node.self, started.value);
      Decided(s, node.self, ExpiryOp, t, id, started.value);
      s' := Exec(s, Owner(node.self, ExpiryOp));
    }
  }

  /** The quorum answers for a lease; if it says no, the owner expires the lease on its own. */
  method LeaseDoneStep(node: QueueNode, id: JobId, ok: bool, now: nat, ghost s: State)
    returns (reply: Status, grant: Option<LeaseGrant>, ghost s': State)
    requires node.Valid() && Mirrors(node, id, s)
    modifies node, node.store, node.store.wal, node.store.wal.dev
    ensures node.Valid() && Mirrors(node, id, s')
    ensures s' == s || (!ok && Does(s, SelfExpire(node.self), s'))
    ensures !ok && node.Copy(id).Some? && node.store.wal.Usable() ==> Does(s, SelfExpire(node.self), s')
  {
    hide QueueNode.Valid, Apply, Transition;
    ghost var t := node.store.Contents();
    reply, grant := node.LeaseDone(id, ok, now);
    s' := s;
    if Find(t, id).Some? && !ok {
      var j := Find(t, id).value;
      SameExpiry(t, id);
      if node.store.Contents() == Apply(t, ExpireRec(id, j.epoch, j.leaseSeq)) { s' := Exec(s, SelfExpire(node.self)); }
    }
  }

  lemma SameExpiry(t: Table, id: JobId)
    requires Find(t, id).Some?
    ensures
      var j := Find(t, id).value;
      var own, given := ExpireRec(j.id, j.epoch, j.leaseSeq), ExpireRec(id, j.epoch, j.leaseSeq);
      Find(Apply(t, given), id) == Transition(Some(j), own)
  {
  }

  // ---- Takeover and submit -----------------------------------------------------------------------------------

  /** A member that is not the owner starts a takeover. */
  method TakeoverStep(node: QueueNode, id: JobId, now: nat, ghost s: State, ghost job: Job)
    returns (begun: bool, ghost s': State)
    requires node.Valid() && node.ClaimsFit() && FitsWire(node.self) && Mirrors(node, id, s)
    requires FreshJob(job) && Inv(job, s)
    modifies node, node.store, node.store.wal, node.store.wal.dev
    ensures node.Valid() && node.ClaimsFit() && Mirrors(node, id, s')
    ensures if begun then Does(s, Cluster.StartTakeover(node.self), s') else s' == s
  {
    hide QueueNode.Valid, Inv, FreshJob, FitsWire, StartClaim;
    ghost var copy := node.Copy(id);
    begun := node.StartTakeover(id, now);
    s' := s;
    if begun {
      Opens(s, node.self, id, job);
      s' := Exec(s, Cluster.StartTakeover(node.self));
    }
  }

  lemma Opens(s: State, n: Endpoint, id: JobId, job: Job)
    requires Enabled(s, Cluster.StartTakeover(n))
    requires FreshJob(job) && Inv(job, s)
    ensures n in ExecTakeover(s, n).nodes
    ensures
      var j, node := s.nodes[n].copy.value, ExecTakeover(s, n).nodes[n];
      var c := StartClaim(Taken(id, j, n), Proposal(j));
      c.needed > 0 && node.copy == Some(Taken(id, j, n)) && node.claim == Some(c)
  {
    hide Inv, FreshJob, CopyOk, Finalize, Proposal, Members;
    var j := s.nodes[n].copy.value;
    Pinned(s, n, job);
    TakeoverCopy(job, n, j);
    TwoMembers(job, n, j);
    SameTakeover(j, id, Proposal(j), n);
    hide Transition;
  }

  lemma Pinned(s: State, n: Endpoint, job: Job)
    requires Inv(job, s) && n in s.nodes
    ensures NodeOk(job, n, s.nodes[n])
  {
    hide NodeOk, MsgOk, CommitOk, SubmitDurable;
  }

  lemma TwoMembers(job: Job, n: Endpoint, j: Job)
    requires CopyOk(job, j) && n in Members(job) && j.owner != n
    ensures |Members(job)| >= 2
  {
    var pair := {n, j.owner};
    assert Members(job) == pair + (Members(job) - pair);
    assert |pair| == 2;
  }

  lemma SameTakeover(j: Job, id: JobId, e: nat, n: Endpoint)
    ensures Transition(Some(j), TakeoverRec(id, e, n)) == Transition(Some(j), TakeoverRec(j.id, e, n))
    ensures Transition(Some(j), TakeoverRec(id, e, n)).Some?
  {
  }

  /** A submit that is accepted starts a cluster run. */
  method SubmitStep(node: QueueNode, job: Job, placed: seq<Endpoint>, alive: seq<Endpoint>, ghost all: set<Endpoint>)
    returns (reply: Status, ghost s: State)
    requires node.Valid() && |placed| == 3 && JobFits(job) && node.Claim(job.id).None?
    requires FitsWire(node.self) && (forall k :: 0 <= k < 3 ==> FitsWire(placed[k]))
    requires forall k :: 0 <= k < |alive| ==> FitsWire(alive[k])
    requires Apart(placed) && Distinct(alive) && node.self != NO_ENDPOINT && node.self in all
    modifies node, node.store, node.store.wal, node.store.wal.dev
    ensures node.Valid()
    ensures reply == Created ==>
      var minted := Minted(job, Placement(placed, alive, node.self), node.self);
      FreshJob(minted) && s == Init(minted, all) && Mirrors(node, job.id, s)
  {
    hide QueueNode.Valid, JobFits, FitsWire, FreshJob, Placement;
    MintedFresh(job, placed, alive, node.self);
    var id;
    reply, id := node.OwnerSubmit(job, placed, alive);
    s := Init(Minted(job, Placement(placed, alive, node.self), node.self), all);
  }
}
