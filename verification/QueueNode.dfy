/** A queue node: the handlers of src/queue_node.cc over a durable store. Each is proved to do what
    the pure handlers say, and to answer kCreated only for what is synced in its log. */
module QueueNodes {
  import opened Bytes
  import opened Options
  import opened Jobs
  import opened Store
  import opened Records
  import opened Snapshots
  import opened Takeover
  import opened Handlers
  import opened Repair
  import opened Ring
  import opened Cluster
  import opened JobStores

  // ---- Records the node writes fit their fields --------------------------------------------------------

  lemma IdFits(j: Job)
    requires JobFits(j)
    ensures j.id.origin < Pow256(8) && j.id.nonce < Pow256(8) && j.epoch < Pow256(4) && j.leaseSeq < Pow256(4)
  {
    var w, v := ID(), IdValues(j.id);
    assert v[0] < Pow256(w[0]) && v[1] < Pow256(w[1]);
    TailFits(j);
  }

  lemma FenceFits(j: Job, e: nat, s: nat)
    requires JobFits(j) && e < Pow256(4) && s < Pow256(4)
    ensures RecordFits(ExpireRec(j.id, e, s)) && RecordFits(DoneRec(j.id, e, s)) && RecordFits(DeadLetterRec(j.id, e))
  {
    IdFits(j);
  }

  lemma LeaseFits(j: Job, e: nat, s: nat, w: nat)
    requires JobFits(j) && e < Pow256(4) && s < Pow256(4) && w < Pow256(8)
    ensures RecordFits(LeaseRec(j.id, e, s, w))
  {
    IdFits(j);
  }

  lemma TakeoverFits(j: Job, e: nat, o: Endpoint)
    requires JobFits(j) && e < Pow256(4) && FitsWire(o)
    ensures RecordFits(TakeoverRec(j.id, e, o))
  {
    IdFits(j);
  }

  lemma Small()
    ensures U32 == Pow256(4)
  {
    Widths();
  }

  class QueueNode {
    const self: Endpoint
    const store: JobStore

    var ready: seq<JobId>
    var leaseDeadline: map<JobId, nat>
    var notBefore: map<JobId, nat>
    var repair: map<JobId, set<nat>>
    var claims: map<JobId, ClaimState>
    var draining: bool

    /** Apply requests, in send order. */
    var outbox: seq<(Endpoint, Record)>

    constructor (self: Endpoint, store: JobStore)
      ensures this.self == self && this.store == store
    {
      this.self, this.store := self, store;
      ready, leaseDeadline, notBefore, repair, claims, draining, outbox := [], map[], map[], map[], map[], false, [];
    }

    /** A restarted node takes up what its log says it owns: ready jobs are queued, a running lease has a
        full window again, and every copy counts as not yet confirmed. */
    method Recover(now: nat)
      requires Valid()
      modifies this`ready, this`leaseDeadline, this`repair
      ensures Listed() && old(ready) <= ready
      ensures forall id :: id in repair <==> id in old(repair) || Owned(Copy(id), self)
      ensures forall id :: Owned(Copy(id), self) ==>
                && repair[id] == {}
                && (Copy(id).value.state.Leased? ==>
                      id in leaseDeadline && leaseDeadline[id] == now + Copy(id).value.visibilityMs)
      ensures forall id :: !Owned(Copy(id), self) || !Copy(id).value.state.Leased? ==>
                (id in leaseDeadline <==> id in old(leaseDeadline))
                && (id in leaseDeadline ==> leaseDeadline[id] == old(leaseDeadline)[id])
    {
      hide QueueNode.Valid;
      var rest := store.jobs.Keys;
      while rest != {}
        invariant rest <= store.jobs.Keys && old(ready) <= ready
        invariant forall id :: id in store.jobs && id !in rest && Awaits(Copy(id), self) ==> id in ready
        invariant forall id :: id in repair <==> id in old(repair) || (id !in rest && Owned(Copy(id), self))
        invariant forall id :: id !in rest && Owned(Copy(id), self) ==>
                    && repair[id] == {}
                    && (Copy(id).value.state.Leased? ==>
                          id in leaseDeadline && leaseDeadline[id] == now + Copy(id).value.visibilityMs)
        invariant forall id :: id in rest || !Owned(Copy(id), self) || !Copy(id).value.state.Leased? ==>
                    (id in leaseDeadline <==> id in old(leaseDeadline))
                    && (id in leaseDeadline ==> leaseDeadline[id] == old(leaseDeadline)[id])
      {
        var id :| id in rest;
        rest := rest - {id};
        var j := store.jobs[id];
        if j.owner != self { continue; }
        repair := repair[id := {}];
        if j.state.Ready? {
          ready := ready + [id];
        } else if j.state.Leased? {
          leaseDeadline := leaseDeadline[id := now + j.visibilityMs];
        }
      }
    }

    /** Everything the table shows is synced in the log. */
    ghost predicate Valid()
      reads store, store.wal, store.wal.dev
    {
      store.Valid() && store.promised == |store.history|
    }

    function Copy(id: JobId): Option<Job>
      reads store
    {
      Find(store.Contents(), id)
    }

    /** The peers that have confirmed, while some have not. */
    function Entry(id: JobId): Option<set<nat>>
      reads this`repair
    {
      if id in repair then Some(repair[id]) else None
    }

    /** The open takeover round of a job. */
    function Claim(id: JobId): Option<ClaimState>
      reads this`claims
    {
      if id in claims then Some(claims[id]) else None
    }

    /** A synced commit. */
    method Log(rec: Record) returns (ok: bool)
      requires Valid() && RecordFits(rec)
      modifies store, store.wal, store.wal.dev
      ensures Valid() && (ok || !store.wal.Usable()) && (!old(store.wal.Usable()) ==> !ok && !store.wal.Usable())
      ensures store.Contents() == if ok then Apply(old(store.Contents()), rec) else old(store.Contents())
    {
      hide JobStore.Valid, RecordFits, Apply;
      store.Facts();
      ok := store.Commit(rec, true);
      store.Facts();
    }

    /** A transition record from a peer. */
    method HandleApply(from: Endpoint, body: seq<byte>) returns (reply: Status)
      requires Valid()
      modifies store, store.wal, store.wal.dev
      ensures Valid()
      ensures DecodeRecord(body).None? ==> reply == Invalid && store.Contents() == old(store.Contents())
      ensures DecodeRecord(body).Some? ==>
                var rec := DecodeRecord(body).value.0;
                var (copy, answer) := OnApply(old(Copy(RecId(rec))), from, rec);
                && (reply == answer || (answer == Created && reply == NoQuorum && !store.wal.Usable()))
                && (reply == Created ==>
                    Copy(RecId(rec)) == copy && store.Contents() == Apply(old(store.Contents()), rec))
                && (reply != Created ==> store.Contents() == old(store.Contents()))
      ensures DecodeRecord(body).Some? ==>
                var rec := DecodeRecord(body).value.0;
                var held, full := old(Copy(RecId(rec))), rec.SubmitRec? || rec.ReplicateRec?;
                var epoch := if full then 0 else if rec.TakeoverRec? then rec.newEpoch else rec.epoch;
                && (reply == Invalid <==> full)
                && (reply == UnknownJob <==> !full && held.None?)
                && (reply == StaleEpoch <==> !full && held.Some? && epoch < held.value.epoch)
                && (reply == NotOwner <==>
                      !full && held.Some? && epoch >= held.value.epoch && from != held.value.owner && !rec.TakeoverRec?)
                && (from != self && !rec.TakeoverRec? && old(Listed()) ==> Listed())
    {
      hide JobStore.Valid, RecordFits, DecodeRecord, Transition, Awaits;
      var d := DecodeRecord(body);
      if d.None? { return Invalid; }
      var rec := d.value.0;
      var e := RecEpoch(rec);
      if e.None? { return Invalid; }
      var j := Copy(RecId(rec));
      if j.None? { return UnknownJob; }
      if e.value < j.value.epoch { return StaleEpoch; }
      if from != j.value.owner && !rec.TakeoverRec? { return NotOwner; }
      RecordCanonical(body);
      var ok := Log(rec);
      if !ok { return NoQuorum; }
      ApplyFinds(old(store.Contents()), rec);
      if from != self && !rec.TakeoverRec? && old(Listed()) {
        KeepsOwner(j, rec);
        StillListed(old(store.Contents()), store.Contents(), self, ready, ready, claims.Keys, claims.Keys, RecId(rec));
      }
      return Created;
    }

    /** A full copy from a peer. */
    method HandleReplicate(body: seq<byte>) returns (reply: Status)
      requires Valid()
      modifies store, store.wal, store.wal.dev
      ensures Valid()
      ensures GetJob(body).None? ==> reply == Invalid && store.Contents() == old(store.Contents())
      ensures GetJob(body).Some? ==>
                var j := GetJob(body).value.0;
                var (copy, answer) := OnReplicate(old(Copy(j.id)), j);
                && (reply == answer || (answer == Created && reply == NoQuorum && !store.wal.Usable()))
                && (reply == Created ==> Copy(j.id) == copy && copy.Some? && !JobAdvances(copy.value, j))
                && (reply != Created ==> store.Contents() == old(store.Contents()))
      ensures GetJob(body).Some? ==>
                var j := GetJob(body).value.0;
                var held := old(Copy(j.id));
                && (reply == StaleEpoch <==> held.Some? && held.value.epoch > j.epoch)
                && (reply in {Created, StaleEpoch} || (reply == NoQuorum && !store.wal.Usable()))
                && (reply == Created ==>
                      && Copy(j.id) == Some(if held.None? || JobAdvances(held.value, j) then j else held.value)
                      && Copy(j.id).value.epoch == j.epoch
                      && store.Contents() == Apply(old(store.Contents()), ReplicateRec(j)))
                && (j.owner != self && old(Listed()) ==> Listed())
    {
      hide JobStore.Valid, JobFits, GetJob, Transition, JobAdvances, Apply, Awaits;
      var d := GetJob(body);
      if d.None? { return Invalid; }
      var j := d.value.0;
      var known := Copy(j.id);
      if known.Some? && j.epoch < known.value.epoch { return StaleEpoch; }
      CanonicalFits(body);
      var ok := Log(ReplicateRec(j));
      if !ok { return NoQuorum; }
      ApplyFinds(old(store.Contents()), ReplicateRec(j));
      MergedAtLeast(known, j);
      MergedAtEpoch(known, j);
      if j.owner != self && old(Listed()) {
        Foreign(j, self);
        StillListed(old(store.Contents()), store.Contents(), self, ready, ready, claims.Keys, claims.Keys, j.id);
      }
      return Created;
    }

    /** A claim: strictly first-person, from a pinned member, never below the epoch held here. The
        grant carries what this node knew before it granted. */
    method HandleClaim(from: Endpoint, body: seq<byte>) returns (reply: Status, known: Option<Grant>)
      requires Valid()
      modifies this`ready, this`leaseDeadline, this`notBefore, this`repair, this`claims, store, store.wal, store.wal.dev
      ensures Valid() && (old(Listed()) ==> Listed())
      ensures ClaimOf(body).None? || from != ClaimOf(body).value.newOwner ==>
          reply == Invalid && store.Contents() == old(store.Contents()) && claims == old(claims)
      ensures ClaimOf(body).Some? && from == ClaimOf(body).value.newOwner ==>
                var c := ClaimOf(body).value;
                var (copy, answer, grant) := OnClaim(old(Copy(c.id)), self, c.newEpoch, from);
                && (reply == answer || (answer == Created && reply == NoQuorum && !store.wal.Usable()))
                && (reply == Created ==> Copy(c.id) == copy && known == grant)
                && (reply != Created ==> store.Contents() == old(store.Contents()) && known.None?)
                && (Copy(c.id) != old(Copy(c.id)) && Copy(c.id).Some? && Copy(c.id).value.owner != self ==>
                    claims == old(claims) - {c.id} && c.id !in leaseDeadline && c.id !in repair)
                && (Copy(c.id) == old(Copy(c.id)) || Copy(c.id).None? || Copy(c.id).value.owner == self ==>
                    claims == old(claims))
      ensures ClaimOf(body).Some? && from == ClaimOf(body).value.newOwner ==>
                var c := ClaimOf(body).value;
                var held := old(Copy(c.id));
                && (reply == UnknownJob <==> held.None?)
                && (held.Some? ==>
                      var j := held.value;
                      var pinned, again := from in j.replicas, c.newEpoch == j.epoch && j.owner == from;
                      && (reply == NotOwner <==> !pinned)
                      && (reply == StaleEpoch <==> pinned && c.newEpoch <= j.epoch && !again)
                      && (pinned && again ==> reply == Created && store.Contents() == old(store.Contents()))
                      && (pinned && c.newEpoch > j.epoch ==>
                            reply == Created || (reply == NoQuorum && !store.wal.Usable()))
                      && (reply == Created ==>
                            && known == Some(Grant(self, j.state, j.leaseSeq))
                            && Copy(c.id) == Some(j.(epoch := c.newEpoch, owner := from))
                            && (!again ==> store.Contents() == Apply(old(store.Contents()), c))))
    {
      hide JobStore.Valid, RecordFits, ClaimOf, Transition, QueueNode.Valid, QueueNode.Listed, Apply;
      known := None;
      var d := ClaimOf(body);
      if d.None? { return Invalid, None; }
      var c := d.value;
      if from != c.newOwner { return Invalid, None; }
      var copy := Copy(c.id);
      if copy.None? { return UnknownJob, None; }
      var j := copy.value;
      if from !in j.replicas { return NotOwner, None; }
      if c.newEpoch < j.epoch || (c.newEpoch == j.epoch && j.owner != from) { return StaleEpoch, None; }
      var grant := Grant(self, j.state, j.leaseSeq);
      if c.newEpoch == j.epoch { return Created, Some(grant); }
      ClaimFits(body);
      KeyedFacts();
      TakeoverMoves(j, c);
      var ok := Adopt(c);
      if !ok { return NoQuorum, None; }
      return Created, Some(grant);
    }

    lemma KeyedFacts()
      requires Valid()
      ensures KeyedById(store.Contents())
    {
      store.TableFacts();
    }

    /** The claimant becomes the owner here, and this node stands down if it was. */
    method Adopt(c: Record) returns (ok: bool)
      requires Valid() && RecordFits(c) && c.TakeoverRec?
      modifies this`ready, this`leaseDeadline, this`notBefore, this`repair, this`claims, store, store.wal, store.wal.dev
      ensures Valid() && (!ok ==> store.Contents() == old(store.Contents()) && !store.wal.Usable())
      ensures ok ==> Copy(c.id) == Transition(old(Copy(c.id)), c) && store.Contents() == Apply(old(store.Contents()), c)
      ensures old(Listed()) ==> Listed()
      ensures ok && Copy(c.id).Some? && Copy(c.id).value.owner != self ==>
          claims == old(claims) - {c.id} && c.id !in leaseDeadline && c.id !in repair
      ensures !ok || Copy(c.id).None? || Copy(c.id).value.owner == self ==> claims == old(claims)
    {
      hide JobStore.Valid, RecordFits, Transition, Apply, QueueNode.Valid;
      ghost var t := store.Contents();
      ok := Log(c);
      if !ok { return; }
      ApplyFinds(t, c);
      AfterOwnershipChange(c.id);
      if old(Listed()) {
        StillListed(t, store.Contents(), self, old(ready), ready, old(claims).Keys, claims.Keys, c.id);
      }
    }

    /** A demoted node grants nothing for the job any more. */
    method AfterOwnershipChange(id: JobId)
      modifies this`ready, this`leaseDeadline, this`notBefore, this`repair, this`claims
      ensures Copy(id).Some? && Copy(id).value.owner != self ==>
                && claims == old(claims) - {id} && leaseDeadline == old(leaseDeadline) - {id}
                && notBefore == old(notBefore) - {id} && repair == old(repair) - {id}
      ensures Copy(id).None? || Copy(id).value.owner == self ==>
                && claims == old(claims) && leaseDeadline == old(leaseDeadline)
                && notBefore == old(notBefore) && repair == old(repair)
      ensures ready == old(ready) + (if Grantable(id) then [id] else [])
    {
      var copy := Copy(id);
      if copy.None? { return; }
      if copy.value.owner != self {
        leaseDeadline, notBefore, repair, claims :=
            leaseDeadline - {id}, notBefore - {id}, repair - {id}, claims - {id};
        return;
      }
      if copy.value.state.Ready? { ready := ready + [id]; }
    }

    /** Local commit, then one Apply per peer slot, in slot order. */
    method QuorumCommit(id: JobId, rec: Record) returns (ok: bool)
      requires Valid() && RecordFits(rec) && RecId(rec) == id && !rec.SubmitRec? && !rec.ReplicateRec? && Copy(id).Some?
      modifies this`repair, this`outbox, store, store.wal, store.wal.dev
      ensures Valid() && (ok || !store.wal.Usable()) && (!old(store.wal.Usable()) ==> !store.wal.Usable())
      ensures store.Contents() == if ok then Apply(old(store.Contents()), rec) else old(store.Contents())
      ensures outbox == old(outbox) + if ok then FanOut(old(Copy(id)).value.replicas, self, rec) else []
      ensures repair == if ok then old(repair)[id := {}] else old(repair)
    {
      hide RecordFits, Apply, Transition, QueueNode.Valid;
      ghost var t := store.Contents();
      ok := Log(rec);
      if !ok { return; }
      ApplyFinds(t, rec);
      KeepsSlots(Find(t, id), rec);
      var replicas := store.jobs[id].replicas;
      repair := repair[id := {}];
      var sent: seq<(Endpoint, Record)> := [];
      for s := 0 to |replicas|
        invariant sent == FanOut(replicas[..s], self, rec)
        invariant Valid() && outbox == old(outbox) && store.Contents() == Apply(t, rec)
                  && repair == old(repair)[id := {}]
      {
        assert replicas[..s + 1][..s] == replicas[..s];
        if IsPeer(replicas[s], self) { sent := sent + [(replicas[s], rec)]; }
      }
      assert replicas[..|replicas|] == replicas;
      outbox := outbox + sent;
    }

    predicate Grantable(id: JobId)
      reads store
    {
      Awaits(Copy(id), self)
    }

    /** No job waits in vain: whatever this node may grant is queued, or will be when its round is won. */
    ghost predicate Listed()
      reads store, this`ready, this`claims
    {
      AllListed(store.Contents(), self, ready, claims.Keys)
    }

    predicate BackedOff(id: JobId, now: nat)
      reads this`notBefore
    {
      id in notBefore && now < notBefore[id]
    }

    /** The first in the queue that can be leased now. */
    function First(queue: seq<JobId>, now: nat): (pick: Option<JobId>)
      reads store, this`notBefore
      ensures pick.Some? ==> pick.value in queue && Grantable(pick.value) && !BackedOff(pick.value, now)
      decreases queue
    {
      if queue == [] then None
      else if Grantable(queue[0]) && !BackedOff(queue[0], now) then Some(queue[0])
      else First(queue[1..], now)
    }

    /** Takes the first leasable job off the queue, dropping stale entries on the way and putting
        jobs that back off at the end: no leasable job is passed over, none is lost. */
    method PickReady(now: nat) returns (pick: Option<JobId>)
      modifies this`ready
      ensures pick == First(old(ready), now)
      ensures pick.Some? && pick.value in notBefore ==> notBefore[pick.value] <= now
      ensures pick.None? ==> forall id :: id in old(ready) && Grantable(id) ==> id in notBefore && now < notBefore[id]
      ensures pick.Some? ==> pick.value in old(ready) && Grantable(pick.value) && !BackedOff(pick.value, now)
      ensures pick.None? ==> forall id :: id in old(ready) && Grantable(id) ==> BackedOff(id, now)
      ensures forall id :: id in old(ready) && Grantable(id) ==> id in ready || pick == Some(id)
      ensures forall id :: id in ready ==> id in old(ready)
    {
      hide QueueNode.Grantable, QueueNode.First;
      var scan, i := |ready|, 0;
      ghost var q0 := ready;
      ghost var back: seq<JobId> := [];
      assert q0[0..] == q0;
      while i < scan
        invariant 0 <= i <= scan == |q0| && ready == q0[i..] + back
        invariant forall id :: id in back ==> id in q0
        invariant forall k :: 0 <= k < i && Grantable(q0[k]) ==> q0[k] in back && BackedOff(q0[k], now)
        invariant First(q0[i..], now) == First(q0, now)
      {
        var id := ready[0];
        FirstStep(q0, i, now);
        TailOf(q0, i, back);
        ready := ready[1..];
        i := i + 1;
        if !Grantable(id) { continue; }
        if BackedOff(id, now) {
          ready, back := ready + [id], back + [id];
          continue;
        }
        forall d | d in q0 && Grantable(d) ensures d in ready || d == id {
          var k :| 0 <= k < |q0| && q0[k] == d;
          Kept(q0, i, back, k);
        }
        return Some(id);
      }
      FirstOfNone(now);
      return None;
    }

    lemma FirstStep(q: seq<JobId>, i: nat, now: nat)
      requires i < |q|
      ensures First(q[i..], now) ==
              if Grantable(q[i]) && !BackedOff(q[i], now) then Some(q[i]) else First(q[i + 1..], now)
    {
      hide QueueNode.Grantable, QueueNode.BackedOff;
      assert q[i..][1..] == q[i + 1..];
    }

    lemma FirstOfNone(now: nat)
      ensures forall q: seq<JobId> :: q == [] ==> First(q, now).None?
    {
    }

    /** Some other pinned member is alive, or there is none. */
    predicate Reachable(j: Job, alive: set<Endpoint>) {
      Peers(j.replicas, self) == {} || Peers(j.replicas, self) * alive != {}
    }

    method ReplicasReachable(j: Job, alive: set<Endpoint>) returns (yes: bool)
      ensures yes == Reachable(j, alive)
    {
      var hasSlot, reachable := false, false;
      for s := 0 to |j.replicas|
        invariant hasSlot <==> exists k :: 0 <= k < s && IsPeer(j.replicas[k], self)
        invariant reachable <==> exists k :: 0 <= k < s && IsPeer(j.replicas[k], self) && j.replicas[k] in alive
      {
        if IsPeer(j.replicas[s], self) {
          hasSlot := true;
          reachable := reachable || j.replicas[s] in alive;
        }
      }
      if hasSlot {
        var k :| 0 <= k < |j.replicas| && IsPeer(j.replicas[k], self);
        assert j.replicas[k] in Peers(j.replicas, self);
      }
      if reachable {
        var k :| 0 <= k < |j.replicas| && IsPeer(j.replicas[k], self) && j.replicas[k] in alive;
        assert j.replicas[k] in Peers(j.replicas, self) * alive;
      }
      if Peers(j.replicas, self) * alive != {} {
        var e :| e in Peers(j.replicas, self) * alive;
        var k :| 0 <= k < |j.replicas| && j.replicas[k] == e;
        assert IsPeer(j.replicas[k], self) && j.replicas[k] in alive;
      }
      return reachable || !hasSlot;
    }

    /** Starts a lease for a worker, or parks a job whose attempts are used up. What is committed is
        the decision the protocol prescribes for a job this node owns and may grant. */
    method Lease(worker: nat, now: nat, alive: set<Endpoint>) returns (reply: Status, started: Option<Record>)
      requires Valid() && worker < Pow256(8)
      modifies this`ready, this`leaseDeadline, this`notBefore, this`repair, this`outbox
      modifies store, store.wal, store.wal.dev
      ensures Valid() && leaseDeadline == old(leaseDeadline)
      ensures
        var pick := old(First(ready, now));
        if draining || pick.None? then reply == NoJob && started.None? && notBefore == old(notBefore)
        else
          var id, j := pick.value, old(Copy(pick.value)).value;
          if !Reachable(j, alive) then
            reply == NoQuorum && started.None? && notBefore == old(notBefore) && ready != [] && ready[0] == id
          else
            var rec := LeaseDecision(j, worker);
            && (started == Some(rec) || (started.None? && !store.wal.Usable()))
            && (started.Some? ==> reply == if rec.LeaseRec? then Created else NoJob)
            && (started.Some? ==> notBefore == if rec.LeaseRec? then old(notBefore) - {id} else old(notBefore))
      ensures store.wal.Usable() && old(Listed()) ==> Listed()
      ensures started.None? ==> store.Contents() == old(store.Contents()) && outbox == old(outbox)
      ensures started.Some? ==>
                var id := RecId(started.value);
                && !draining && id in old(ready) && old(Grantable(id)) && !old(BackedOff(id, now))
                    && Reachable(old(Copy(id)).value, alive)
                && started.value == LeaseDecision(old(Copy(id)).value, worker)
                && store.Contents() == Apply(old(store.Contents()), started.value)
                && outbox == old(outbox) + FanOut(old(Copy(id)).value.replicas, self, started.value)
    {
      hide Apply, QueueNode.Valid, AllListed, QueueNode.First, FanOut, LeaseDecision, QueueNode.Reachable;
      if draining { return NoJob, None; }
      ghost var t := store.Contents();
      var pick := PickReady(now);
      if old(Listed()) { PickedListed(t, self, old(ready), ready, claims.Keys, pick); }
      if pick.None? { return NoJob, None; }
      var id := pick.value;
      var j := store.jobs[id];
      var reachable := ReplicasReachable(j, alive);
      if !reachable {
        ready := [id] + ready;
        return NoQuorum, None;
      }
      reply, started := GrantTo(id, worker, now);
    }

    /** The job was picked: lease it, or park it. */
    method GrantTo(id: JobId, worker: nat, now: nat) returns (reply: Status, started: Option<Record>)
      requires Valid() && worker < Pow256(8) && Grantable(id)
      modifies this`ready, this`leaseDeadline, this`notBefore, this`repair, this`outbox
      modifies store, store.wal, store.wal.dev
      ensures Valid() && leaseDeadline == old(leaseDeadline) && (started.Some? || !store.wal.Usable())
      ensures started.None? ==> store.Contents() == old(store.Contents()) && outbox == old(outbox)
      ensures started.Some? ==>
                var rec := started.value;
                && RecId(rec) == id && rec == LeaseDecision(old(Copy(id)).value, worker)
                && store.Contents() == Apply(old(store.Contents()), rec)
                && outbox == old(outbox) + FanOut(old(Copy(id)).value.replicas, self, rec)
                && reply == (if rec.LeaseRec? then Created else NoJob) && ready == old(ready)
                && notBefore == (if rec.LeaseRec? then old(notBefore) - {id} else old(notBefore))
                && (AllListed(old(store.Contents()), self, ready, claims.Keys + {id}) ==> Listed())
    {
      hide RecordFits, Apply, QueueNode.Valid, JobStore.Valid, AllListed, FanOut;
      var j := store.jobs[id];
      DecisionsFit(id, worker);
      var rec := LeaseDecision(j, worker);
      if rec.LeaseRec? { notBefore := notBefore - {id}; }
      var ok := QuorumCommit(id, rec);
      if ok && AllListed(old(store.Contents()), self, ready, claims.Keys + {id}) {
        LeasedListed(old(store.Contents()), j, worker, self, ready, claims.Keys);
      }
      if rec.DeadLetterRec? { return NoJob, if ok then Some(rec) else None; }
      if !ok {
        var none;
        reply, none := LeaseDone(id, false, now);
        return reply, None;
      }
      return Created, Some(rec);
    }

    lemma DecisionsFit(id: JobId, worker: nat)
      requires Valid() && id in store.jobs && worker < Pow256(8)
      ensures store.jobs[id].id == id
      ensures RecordFits(LeaseDecision(store.jobs[id], worker)) && RecordFits(ExpiryDecision(store.jobs[id]))
      ensures RecordFits(ExpireRec(id, store.jobs[id].epoch, store.jobs[id].leaseSeq))
              && RecordFits(DoneRec(id, store.jobs[id].epoch, store.jobs[id].leaseSeq))
    {
      store.TableFacts();
      var j := store.jobs[id];
      Small();
      IdFits(j);
      LeaseFits(j, j.epoch, (j.leaseSeq + 1) % U32, worker);
      FenceFits(j, j.epoch, j.leaseSeq);
    }

    /** The worker's answer for a lease: granted once a replica confirmed it, otherwise expired on
        the spot and retried later. The grant is read from the copy as it is by then. */
    method LeaseDone(id: JobId, ok: bool, now: nat) returns (reply: Status, grant: Option<LeaseGrant>)
      requires Valid()
      modifies this`ready, this`leaseDeadline, this`notBefore, store, store.wal, store.wal.dev
      ensures Valid() && (old(Listed()) ==> Listed())
      ensures
        var retry := old(Copy(id)).Some? && !ok;
        && (retry ==> notBefore == old(notBefore)[id := now + NackBackoff(old(Copy(id)).value.attempts)])
        && (!retry ==> notBefore == old(notBefore)) && ready == old(ready) + (if retry then [id] else [])
      ensures old(Copy(id)).None? || !ok ==> leaseDeadline == old(leaseDeadline)
      ensures old(Copy(id)).None? ==> reply == UnknownJob && store.Contents() == old(store.Contents())
      ensures grant.Some? <==> reply == Created
      ensures old(Copy(id)).Some? && ok ==>
                var j := old(Copy(id)).value;
                var token := (j.epoch, j.leaseSeq);
                && reply == Created && store.Contents() == old(store.Contents())
                && grant == Some(LeaseGrant(id, j.url, j.body, j.idemKey, token, j.visibilityMs, j.attempts))
                && leaseDeadline == old(leaseDeadline)[id := now + j.visibilityMs]
      ensures old(Copy(id)).Some? && !ok ==>
                var j := old(Copy(id)).value;
                && reply == NoQuorum && id in ready
                && (|| store.Contents() == Apply(old(store.Contents()), ExpireRec(id, j.epoch, j.leaseSeq))
                    || (!store.wal.Usable() && store.Contents() == old(store.Contents())))
      ensures !old(store.wal.Usable()) ==> store.Contents() == old(store.Contents()) && !store.wal.Usable()
    {
      hide RecordFits, Apply, QueueNode.Valid, Awaits, NackBackoff, AllListed;
      if id !in store.jobs { return UnknownJob, None; }
      var j := store.jobs[id];
      if !ok {
        DecisionsFit(id, 0);
        ghost var t := store.Contents();
        var logged := Log(ExpireRec(id, j.epoch, j.leaseSeq));
        if logged { ApplyFinds(t, ExpireRec(id, j.epoch, j.leaseSeq)); }
        Requeue(id, now + NackBackoff(j.attempts));
        if old(Listed()) { QueuedListed(t, store.Contents(), self, old(ready), claims.Keys, id); }
        return NoQuorum, None;
      }
      leaseDeadline := leaseDeadline[id := now + j.visibilityMs];
      return Created, Some(GrantOf(id, j));
    }

    method Requeue(id: JobId, time: nat)
      modifies this`ready, this`notBefore
      ensures ready == old(ready) + [id] && notBefore == old(notBefore)[id := time]
    {
      ready, notBefore := ready + [id], notBefore[id := time];
    }

    /** A worker's completion. Whatever is committed is the decision the protocol prescribes, and a
        completed job is confirmed only while nothing about it awaits repair. */
    method OwnerAck(id: JobId, epoch: nat, leaseSeq: nat, success: bool, now: nat)
        returns (reply: Option<Status>, started: Option<Record>)
      requires Valid()
      modifies this`ready, this`leaseDeadline, this`notBefore, this`repair, this`outbox
      modifies store, store.wal, store.wal.dev
      ensures Valid() && (old(Listed()) ==> Listed())
      ensures old(Copy(id)).None? ==>
                reply == Some(UnknownJob) && started.None? && store.Contents() == old(store.Contents())
      ensures
        var taken := old(Copy(id)).Some? && AckDecision(old(Copy(id)).value, epoch, leaseSeq, success).Some?;
        && leaseDeadline == (if taken then old(leaseDeadline) - {id} else old(leaseDeadline))
        && ready == old(ready) + (if taken && !success then [id] else [])
        && notBefore == (if !taken then old(notBefore) else if success then old(notBefore) - {id}
                         else old(notBefore)[id := now + NackBackoff(old(Copy(id)).value.attempts)])
        && (taken ==> reply == (if !success then Some(Created) else if started.Some? then None else Some(NoQuorum)))
      ensures old(Copy(id)).Some? ==>
                var decision := AckDecision(old(Copy(id)).value, epoch, leaseSeq, success);
                && (started.Some? ==>
                    started == decision && store.Contents() == Apply(old(store.Contents()), decision.value))
                && (started.Some? ==>
                    repair == old(repair)[id := {}]
                        && outbox == old(outbox) + FanOut(old(Copy(id)).value.replicas, self, started.value))
                && (decision.Some? && started.None? ==> !store.wal.Usable())
                && (started.None? ==>
                    store.Contents() == old(store.Contents()) && outbox == old(outbox) && repair == old(repair))
                && (decision.None? && !old(Copy(id)).value.state.Done? ==> reply == Some(NotLeased))
                && (old(Copy(id)).value.state.Done? ==> reply == Some(if id in old(repair) then NoQuorum else Created))
    {
      hide RecordFits, Apply, QueueNode.Valid, FanOut, NackBackoff, AllListed, Transition, Awaits;
      if id !in store.jobs { return Some(UnknownJob), None; }
      var j := store.jobs[id];
      ghost var t := store.Contents();
      DecisionsFit(id, 0);
      if j.state.Done? { return Some(if id in repair then NoQuorum else Created), None; }
      var currentLease := j.state.Leased? && epoch <= j.epoch && j.leaseSeq == leaseSeq;
      if !success {
        if !currentLease { return Some(NotLeased), None; }
        leaseDeadline := leaseDeadline - {id};
        var ok := QuorumCommit(id, ExpireRec(j.id, j.epoch, j.leaseSeq));
        Requeue(id, now + NackBackoff(j.attempts));
        if ok { ApplyFinds(t, ExpireRec(j.id, j.epoch, j.leaseSeq)); }
        if old(Listed()) { QueuedListed(t, store.Contents(), self, old(ready), claims.Keys, id); }
        return Some(Created), if ok then Some(ExpireRec(j.id, j.epoch, j.leaseSeq)) else None;
      }
      var amnesty := j.state.Ready? && (epoch < j.epoch || (epoch == j.epoch && leaseSeq <= j.leaseSeq));
      var lateAfterPark := j.state.DeadLetter? && epoch <= j.epoch;
      if !currentLease && !amnesty && !lateAfterPark { return Some(NotLeased), None; }
      leaseDeadline, notBefore := leaseDeadline - {id}, notBefore - {id};
      var ok := QuorumCommit(id, DoneRec(j.id, j.epoch, j.leaseSeq));
      if !ok { return Some(NoQuorum), None; }
      if old(Listed()) { DoneListed(t, j, self, ready, claims.Keys); }
      return None, Some(DoneRec(j.id, j.epoch, j.leaseSeq));
    }

    /** A success told to a worker need not mean that any peer has the completion: the job was expired, the
        late completion is taken, its requests are still to be sent when both peers' answers to the
        expiry come in, and the worker's retry is then confirmed. */
    method ConfirmedUnheard(id: JobId, epoch: nat, leaseSeq: nat, now: nat)
        returns (started: Option<Record>, again: Option<Status>)
      requires Valid() && Copy(id).Some? && Copy(id).value.state.Ready? && PeerSlots(Copy(id), self) == {1, 2}
      requires epoch == Copy(id).value.epoch && leaseSeq <= Copy(id).value.leaseSeq
      modifies this, store, store.wal, store.wal.dev
      ensures started.Some? ==> started.value.DoneRec? && again == Some(Created)
      ensures started.Some? ==> outbox == old(outbox) + FanOut(old(Copy(id)).value.replicas, self, started.value)
      ensures started.None? ==> !store.wal.Usable()
    {
      hide JobStore.Valid, Apply, Transition, FanOut, TableFits;
      ghost var t := store.Contents();
      store.TableFacts();
      var reply;
      reply, started := OwnerAck(id, epoch, leaseSeq, true, now);
      if started.None? { return started, None; }
      DoneNow(t, id, started.value);
      MarkReplicaOk(id, 1);
      MarkReplicaOk(id, 2);
      assert {} + {1} + {2} == {1, 2};
      var none;
      again, none := OwnerAck(id, epoch, leaseSeq, true, now);
    }

    /** Expires every lease that is due, or parks the job if that was its last attempt. An expired job
        is as it was before the lease but for its number, and can be leased again at once; every other
        lease goes on. */
    method ExpiryTick(now: nat)
      requires Valid()
      modifies this`ready, this`leaseDeadline, this`notBefore, this`repair, this`outbox
      modifies store, store.wal, store.wal.dev
      ensures Valid() && (old(Listed()) ==> Listed()) && (!old(store.wal.Usable()) ==> !store.wal.Usable())
      ensures leaseDeadline == old(leaseDeadline) - Due(old(leaseDeadline), now)
      ensures forall id :: id in leaseDeadline <==> id in old(leaseDeadline) && now < old(leaseDeadline)[id]
      ensures store.wal.Usable() ==>
          AllExpired(old(store.Contents()), store.Contents(), Due(old(leaseDeadline), now), self)
      ensures forall id :: id !in Due(old(leaseDeadline), now) ==> Copy(id) == old(Copy(id))
      ensures store.wal.Usable() ==>
                forall id :: id in old(leaseDeadline) && old(leaseDeadline)[id] <= now && old(Copy(id)).Some?
                             && old(Copy(id)).value.state.Leased? && old(Copy(id)).value.owner == self ==>
                    var j := old(Copy(id)).value;
                    Copy(id) == Some(j.(state := if j.leaseSeq < j.maxAttempts then Ready else DeadLetter))
      ensures Requeued(old(store.Contents()), Due(old(leaseDeadline), now), self, now, old(ready), old(notBefore),
                       ready, notBefore)
    {
      hide QueueNode.Valid, AllExpired, QueueNode.Listed, Requeued;
      var due := Due(leaseDeadline, now);
      leaseDeadline := leaseDeadline - due;
      ExpireAll(due, now);
      if store.wal.Usable() { ExpiredExactly(old(store.Contents()), store.Contents(), due, self); }
    }

    method ExpireAll(due: set<JobId>, now: nat)
      requires Valid()
      modifies this`ready, this`notBefore, this`repair, this`outbox, store, store.wal, store.wal.dev
      ensures Valid() && (store.wal.Usable() ==> AllExpired(old(store.Contents()), store.Contents(), due, self))
      ensures (old(Listed()) ==> Listed()) && (!old(store.wal.Usable()) ==> !store.wal.Usable())
      ensures SameBut(old(store.Contents()), store.Contents(), due)
      ensures Requeued(old(store.Contents()), due, self, now, old(ready), old(notBefore), ready, notBefore)
    {
      hide QueueNode.Valid, AllExpired, ExpiredAt, JobStore.Contents, QueueNode.Listed, SameBut, Requeued;
      var rest := due;
      ghost var t0, done: set<JobId> := store.Contents(), {};
      Unexpired(t0, self);
      NotRequeued(t0, self, now, ready, notBefore);
      while rest != {}
        invariant Valid() && rest <= due && done == due - rest && (!old(store.wal.Usable()) ==> !store.wal.Usable())
        invariant store.wal.Usable() ==> AllExpired(t0, store.Contents(), done, self)
        invariant (old(Listed()) ==> Listed()) && SameBut(t0, store.Contents(), done)
        invariant Requeued(t0, done, self, now, old(ready), old(notBefore), ready, notBefore)
      {
        var id :| id in rest;
        ghost var t1, r1, n1 := store.Contents(), ready, notBefore;
        var _ := ExpireOne(id, now);
        OneMore(t0, t1, store.Contents(), done, id);
        RequeuedMore(t0, done, id, self, now, old(ready), old(notBefore), r1, n1, ready, notBefore);
        if store.wal.Usable() { OneExpired(t0, t1, store.Contents(), done, id, self); }
        rest, done := rest - {id}, done + {id};
      }
      assert done == due;
    }

    method ExpireOne(id: JobId, now: nat) returns (started: Option<Record>)
      requires Valid()
      modifies this`ready, this`notBefore, this`repair, this`outbox, store, store.wal, store.wal.dev
      ensures Valid() && (!old(store.wal.Usable()) ==> !store.wal.Usable()) && (old(Listed()) ==> Listed())
      ensures store.wal.Usable() ==> ExpiredAt(old(store.Contents()), store.Contents(), id, self)
      ensures SameBut(old(store.Contents()), store.Contents(), {id})
      ensures
        var retried := Retries(old(Copy(id)), self);
        && ready == old(ready) + (if retried then [id] else [])
        && notBefore == (if retried then old(notBefore)[id := now] else old(notBefore))
      ensures started.None? ==> store.Contents() == old(store.Contents()) && outbox == old(outbox)
      ensures started.Some? ==>
                && Expirable(old(Copy(id)), self) && started.value == ExpiryDecision(old(Copy(id)).value)
                && RecId(started.value) == id && store.Contents() == Apply(old(store.Contents()), started.value)
                && outbox == old(outbox) + FanOut(old(Copy(id)).value.replicas, self, started.value)
    {
      hide RecordFits, Apply, QueueNode.Valid, FanOut, Transition, AllListed;
      if !Expirable(Copy(id), self) { return None; }
      DecisionsFit(id, 0);
      ghost var t := store.Contents();
      var j := store.jobs[id];
      var rec := ExpiryDecision(j);
      var ok := QuorumCommit(id, rec);
      ApplyFinds(t, rec);
      if rec.ExpireRec? { Requeue(id, now); }
      if old(Listed()) { ExpiredListed(t, store.Contents(), j, self, old(ready), claims.Keys); }
      return if ok then Some(rec) else None;
    }

    // ---- Takeover -----------------------------------------------------------------------------------------

    /** The u32 fields of open claims. */
    predicate ClaimsFit()
      reads this`claims
    {
      forall id :: id in claims ==> claims[id].bestSeq < U32
    }

    /** What this node's copy becomes when its claim is won. */
    function WonCopy(copy: Option<Job>, c: ClaimState): Option<Job> {
      if copy.Some? && copy.value.owner == self then Some(Finalized(copy.value, c)) else copy
    }

    /** Moves the job to the next epoch here first, then opens a claim round; with no other member
        to ask, the round is won at once. */
    method StartTakeover(id: JobId, now: nat) returns (begun: bool)
      requires Valid() && ClaimsFit() && FitsWire(self)
      modifies this`ready, this`leaseDeadline, this`repair, this`claims, store, store.wal, store.wal.dev
      ensures Valid() && ClaimsFit() && (old(Listed()) ==> Listed())
      ensures
        var may := !draining && id !in old(claims) && old(Copy(id)).Some? && old(Copy(id)).value.owner != self
                   && !Terminal(old(Copy(id)).value.state);
        (begun ==> may) && (may ==> begun || !store.wal.Usable())
      ensures !begun ==> store.Contents() == old(store.Contents()) && claims == old(claims) && ready == old(ready)
                         && leaseDeadline == old(leaseDeadline) && repair == old(repair)
      ensures SameBut(old(store.Contents()), store.Contents(), {id})
      ensures begun ==>
                var taken := Taken(id, old(Copy(id)).value, self);
                var c := StartClaim(taken, Proposal(old(Copy(id)).value));
                && (c.needed > 0 ==>
                    && claims == old(claims)[id := c] && Copy(id) == Some(taken)
                    && ready == old(ready) && leaseDeadline == old(leaseDeadline) && repair == old(repair))
                && (c.needed == 0 ==>
                    && id !in claims
                    && leaseDeadline == Windows(old(leaseDeadline), id, Some(taken), c, Copy(id), self, now)
                    && (Copy(id) == WonCopy(Some(taken), c) || (!store.wal.Usable() && Copy(id) == Some(taken))))
    {
      begun := false;
      if draining || id in claims || id !in store.jobs { return; }
      var j := store.jobs[id];
      if j.owner == self || Terminal(j.state) { return; }
      var proposed := Proposal(j);
      var rec := TakeoverRec(id, proposed, self);
      NextEpochFits(id, proposed);
      hide RecordFits, Apply, QueueNode.Valid, Transition, WonCopy, AllListed, Windows;
      ghost var t := store.Contents();
      var ok := Log(rec);
      if !ok { return; }
      begun := true;
      ApplyFinds(t, rec);
      TakenFacts(id, j, self);
      if old(Listed()) { StillListed(t, store.Contents(), self, ready, ready, claims.Keys, claims.Keys + {id}, id); }
      OpenRound(id, proposed, now);
    }

    /** Opens the round for a job this node has just moved to its own epoch. */
    method OpenRound(id: JobId, proposed: nat, now: nat)
      requires Valid() && ClaimsFit() && id in store.jobs
      modifies this`ready, this`leaseDeadline, this`repair, this`claims, store, store.wal, store.wal.dev
      ensures Valid() && ClaimsFit() && SameBut(old(store.Contents()), store.Contents(), {id})
      ensures AllListed(old(store.Contents()), self, old(ready), old(claims).Keys + {id}) ==> Listed()
      ensures
        var taken := old(store.jobs[id]);
        var c := StartClaim(taken, proposed);
        && (c.needed > 0 ==>
            && claims == old(claims)[id := c] && store.Contents() == old(store.Contents())
            && ready == old(ready) && leaseDeadline == old(leaseDeadline) && repair == old(repair))
        && (c.needed == 0 ==>
            && claims == old(claims) - {id}
            && leaseDeadline == Windows(old(leaseDeadline), id, Some(taken), c, Copy(id), self, now)
            && (Copy(id) == WonCopy(Some(taken), c) || (!store.wal.Usable() && Copy(id) == Some(taken))))
    {
      hide QueueNode.Valid, WonCopy, AllListed, Windows;
      SeqFits(id);
      var taken := store.jobs[id];
      var setSize := CountMembers(taken.replicas);
      var c := ClaimState(proposed, 0, setSize / 2, taken.state, taken.leaseSeq, {});
      claims := claims[id := c];
      assert claims.Keys == old(claims).Keys + {id};
      if c.needed == 0 { FinalizeTakeover(id, now); }
    }

    lemma NextEpochFits(id: JobId, e: nat)
      requires Valid() && id in store.jobs && e < U32 && FitsWire(self)
      ensures RecordFits(TakeoverRec(id, e, self))
    {
      store.TableFacts();
      Small();
      TakeoverFits(store.jobs[id], e, self);
    }

    lemma SeqFits(id: JobId)
      requires Valid() && id in store.jobs
      ensures store.jobs[id].leaseSeq < U32
    {
      store.TableFacts();
      Small();
      IdFits(store.jobs[id]);
    }

    /** A grant is counted, and what the granter knew is merged in; a majority ends the round. */
    method TakeGrant(id: JobId, g: Grant, now: nat)
      requires Valid() && ClaimsFit() && g.seq_ < U32
      modifies this`ready, this`leaseDeadline, this`repair, this`claims, store, store.wal, store.wal.dev
      ensures Valid() && ClaimsFit() && (old(Listed()) ==> Listed())
      ensures SameBut(old(store.Contents()), store.Contents(), {id})
      ensures id !in old(claims) ==>
                && claims == old(claims) && store.Contents() == old(store.Contents())
                && ready == old(ready) && leaseDeadline == old(leaseDeadline) && repair == old(repair)
      ensures id in old(claims) ==>
                var replicas := if old(Copy(id)).Some? then old(Copy(id)).value.replicas else [];
                var c := CountGrant(old(claims)[id], replicas, g);
                && (c.acks < c.needed ==>
                    && claims == old(claims)[id := c] && store.Contents() == old(store.Contents())
                    && ready == old(ready) && leaseDeadline == old(leaseDeadline) && repair == old(repair))
                && (c.acks >= c.needed ==>
                    && claims == old(claims) - {id}
                    && leaseDeadline == Windows(old(leaseDeadline), id, old(Copy(id)), c, Copy(id), self, now)
                    && (Copy(id) == WonCopy(old(Copy(id)), c) || (!store.wal.Usable() && Copy(id) == old(Copy(id)))))
    {
      hide QueueNode.Valid, Finalized, CountGrant, Windows, AllListed, SameBut, QueueNode.WonCopy;
      if id !in claims {
        Same(store.Contents(), id);
        return;
      }
      var replicas := if id in store.jobs then store.jobs[id].replicas else [];
      var c := CountOne(claims[id], replicas, g);
      claims := claims[id := c];
      assert claims.Keys == old(claims).Keys;
      if c.acks >= c.needed { FinalizeTakeover(id, now); } else { Same(store.Contents(), id); }
    }

    /** Ends a won round: what the round learned is recorded at the new epoch, and the job is
        scheduled again. */
    method FinalizeTakeover(id: JobId, now: nat)
      requires Valid() && ClaimsFit() && id in claims
      modifies this`ready, this`leaseDeadline, this`repair, this`claims, store, store.wal, store.wal.dev
      ensures Valid() && claims == old(claims) - {id} && (old(Listed()) ==> Listed())
      ensures SameBut(old(store.Contents()), store.Contents(), {id})
      ensures leaseDeadline == Windows(old(leaseDeadline), id, old(Copy(id)), old(claims)[id], Copy(id), self, now)
      ensures ready == old(ready) + (if Grantable(id) then [id] else [])
      ensures repair == if old(Copy(id)).Some? && old(Copy(id)).value.owner == self then old(repair)[id := {}]
                        else old(repair)
      ensures Copy(id) == WonCopy(old(Copy(id)), old(claims)[id])
              || (!store.wal.Usable() && Copy(id) == old(Copy(id)))
      ensures Copy(id).Some? && Copy(id).value.owner == self ==>
                && (Copy(id).value.state.Ready? ==> id in ready) && (Copy(id).value.state.Leased? ==>
                    id in leaseDeadline)
                && id in repair
    {
      hide QueueNode.Valid, Finalized, Inherits, AllListed;
      var c := claims[id];
      claims := claims - {id};
      ghost var t := store.Contents();
      if id !in store.jobs || store.jobs[id].owner != self {
        if old(Listed()) { StillListed(t, t, self, ready, ready, old(claims).Keys, claims.Keys, id); }
        return;
      }
      var inherited := RecordMerged(id, c);
      var j := store.jobs[id];
      if inherited { leaseDeadline := leaseDeadline[id := now + j.visibilityMs]; }
      if j.state.Ready? {
        ready := ready + [id];
      } else if j.state.Leased? && id !in leaseDeadline {
        leaseDeadline := leaseDeadline[id := now + j.visibilityMs];
      }
      repair := repair[id := {}];
      if old(Listed()) {
        StillListed(t, store.Contents(), self, old(ready), ready, old(claims).Keys, claims.Keys, id);
      }
    }

    /** A lease that a round inherits has one full visibility window: no expiry before it is over touches
        the job, and one after it ends the lease. */
    method WindowHonoured(id: JobId, now: nat, later: nat) returns (won: Option<Job>)
      requires Valid() && ClaimsFit() && id in claims && Copy(id).Some? && Copy(id).value.owner == self
      requires Inherits(Copy(id).value, claims[id]) || id !in leaseDeadline
      modifies this`ready, this`leaseDeadline, this`notBefore, this`repair, this`claims, this`outbox
      modifies store, store.wal, store.wal.dev
      ensures Valid() && (store.wal.Usable() ==> won == WonCopy(old(Copy(id)), old(claims)[id]))
      ensures won.Some? && won.value.owner == self && won.value.visibilityMs == old(Copy(id)).value.visibilityMs
      ensures won.value.state.Leased? && later < now + won.value.visibilityMs ==>
          Copy(id) == won && id in leaseDeadline && leaseDeadline[id] == now + won.value.visibilityMs
      ensures won.value.state.Leased? && later >= now + won.value.visibilityMs && store.wal.Usable() ==>
          var spent := won.value.leaseSeq >= won.value.maxAttempts;
          Copy(id) == Some(won.value.(state := if spent then DeadLetter else Ready)) && id !in leaseDeadline
    {
      hide QueueNode.Valid, Finalized, Inherits, AllExpired, Requeued, AllListed;
      FinalizedMeans(store.jobs[id], claims[id]);
      FinalizeTakeover(id, now);
      won := Some(store.jobs[id]);
      ExpiryTick(later);
    }

    /** Done outranks parked outranks leased; a lease some granter knew of is inherited even if this
        node never saw it. */
    method RecordMerged(id: JobId, c: ClaimState) returns (inherited: bool)
      requires Valid() && id in store.jobs && store.jobs[id].owner == self && c.bestSeq < U32
      modifies store, store.wal, store.wal.dev
      ensures Valid() && id in store.jobs && store.jobs[id].owner == self
      ensures Copy(id) == Some(Finalized(old(store.jobs[id]), c)) || (!store.wal.Usable() && Copy(id) == old(Copy(id)))
      ensures inherited == Inherits(old(store.jobs[id]), c)
      ensures store.jobs[id].visibilityMs == old(store.jobs[id]).visibilityMs
      ensures SameBut(old(store.Contents()), store.Contents(), {id})
    {
      hide RecordFits, Apply, QueueNode.Valid, Transition;
      var j := store.jobs[id];
      MergedFits(id, c);
      FinalizedMeans(j, c);
      inherited := false;
      var ok;
      if c.bestState.Done? && !j.state.Done? {
        ok := Log(DoneRec(id, j.epoch, c.bestSeq));
      } else if c.bestState.DeadLetter? && !j.state.Done? && !j.state.DeadLetter? {
        ok := Log(DeadLetterRec(id, j.epoch));
      } else if c.bestState.Leased? || c.bestSeq > j.leaseSeq {
        inherited := true;
        if j.state.Leased? && j.leaseSeq >= c.bestSeq { return; }
        ok := Log(LeaseRec(id, j.epoch, if c.bestSeq > j.leaseSeq then c.bestSeq else j.leaseSeq, 0));
      } else {
        return false;
      }
      ApplyFinds(old(store.Contents()), FinalRecord(j, c).value);
    }

    lemma MergedFits(id: JobId, c: ClaimState)
      requires Valid() && id in store.jobs && c.bestSeq < U32
      ensures store.jobs[id].id == id
               && (FinalRecord(store.jobs[id], c).Some? ==> RecordFits(FinalRecord(store.jobs[id], c).value))
    {
      store.TableFacts();
      Small();
      var j := store.jobs[id];
      IdFits(j);
      FenceFits(j, j.epoch, c.bestSeq);
      LeaseFits(j, j.epoch, if c.bestSeq > j.leaseSeq then c.bestSeq else j.leaseSeq, 0);
    }

    /** A peer's answer to a resync: adopted only if it strictly advances the copy held here. */
    method TakeResync(id: JobId, remote: Job)
      requires Valid() && JobFits(remote)
      modifies this`ready, this`leaseDeadline, this`notBefore, this`repair, this`claims
      modifies store, store.wal, store.wal.dev
      ensures Valid() && (old(Listed()) ==> Listed())
      ensures remote.id == id && old(Copy(id)).Some? ==>
                && Copy(id) in {old(Copy(id)), Some(remote)}
                && (store.wal.Usable() ==> !JobAdvances(Copy(id).value, remote))
                && (Copy(id) != old(Copy(id)) ==> JobAdvances(old(Copy(id)).value, remote))
      ensures remote.id != id ==> store.Contents() == old(store.Contents())
      ensures remote.id == id ==>
          Copy(id) == OnResync(old(Copy(id)), remote) || (!store.wal.Usable() && Copy(id) == old(Copy(id)))
      ensures
        var heard := remote.id == id && old(Copy(id)).Some? && JobAdvances(old(Copy(id)).value, remote);
        claims == if heard && Copy(id).value.owner != self then old(claims) - {id} else old(claims)
      ensures forall other :: other != id ==> Copy(other) == old(Copy(other))
    {
      if remote.id != id || id !in store.jobs || !JobAdvances(store.jobs[id], remote) { return; }
      assert RecordFits(ReplicateRec(remote));
      hide RecordFits, JobFits, QueueNode.Valid, Apply, Transition, AllListed;
      ghost var t := store.Contents();
      Adopted(store.jobs[id], remote);
      var _ := Log(ReplicateRec(remote));
      ApplyFinds(t, ReplicateRec(remote));
      AfterOwnershipChange(id);
      if old(Listed()) {
        StillListed(t, store.Contents(), self, old(ready), ready, old(claims).Keys, claims.Keys, id);
      }
    }

    /** A replica confirmed its copy; when all have, nothing is left to repair. */
    method MarkReplicaOk(id: JobId, slot: nat)
      modifies this`repair
      ensures Entry(id) == MarkOk(old(Entry(id)), PeerSlots(Copy(id), self), slot)
               && repair - {id} == old(repair) - {id}
    {
      if id !in repair { return; }
      repair := repair[id := repair[id] + {slot}];
      var want: set<nat> := {};
      if id in store.jobs {
        var replicas := store.jobs[id].replicas;
        for s := 0 to |replicas|
          invariant want == set k | 0 <= k < s && IsPeer(replicas[k], self)
        {
          if IsPeer(replicas[s], self) { want := want + {s}; }
        }
      }
      if want <= repair[id] { repair := repair - {id}; }
    }

    /** This node first, then the first live others, when the ring does not put it first. */
    method Fallback(alive: seq<Endpoint>) returns (out: seq<Endpoint>)
      ensures out == FirstThree([self] + Without(alive, self))
    {
      out := [self, NO_ENDPOINT, NO_ENDPOINT];
      var slot, i := 1, 0;
      assert alive[..0] == [];
      while i < |alive| && slot < 3
        invariant 0 <= i <= |alive| && slot == 1 + |Without(alive[..i], self)| <= 3
        invariant out == FirstThree([self] + Without(alive[..i], self))
      {
        assert alive[..i + 1] == alive[..i] + [alive[i]];
        WithoutConcat(alive[..i], [alive[i]], self);
        assert Without([alive[i]], self) == if alive[i] == self then []
            else [alive[i]] by { assert [alive[i]][1..] == []; }
        if alive[i] != self { out, slot := out[slot := alive[i]], slot + 1; }
        i := i + 1;
      }
      assert alive == alive[..i] + alive[i..];
      WithoutConcat(alive[..i], alive[i..], self);
    }

    /** A submit at the key's owner. A known key is answered with the id it already has, even while
        draining; a new one is minted only if its record reaches the log. placed is the ring's
        choice among the live nodes. */
    method OwnerSubmit(job: Job, placed: seq<Endpoint>, alive: seq<Endpoint>) returns (reply: Status, id: Option<JobId>)
      requires Valid() && |placed| == 3 && JobFits(job)
      requires FitsWire(self)
               && (forall k :: 0 <= k < 3 ==> FitsWire(placed[k])) && (forall k :: 0 <= k < |alive| ==>
                   FitsWire(alive[k]))
      modifies this`ready, this`repair, store, store.wal, store.wal.dev
      ensures Valid() && (old(Listed()) ==> Listed())
      ensures
        var known := old(FindByIdem(store.Contents(), job.idemKey));
        && (known.Some? ==> reply == Duplicate && id == Some(known.value.id))
        && (known.None? && draining ==> reply == NoQuorum)
        && (known.None? && !draining ==> reply == Created || !store.wal.Usable())
        && (known.None? ==> reply == NoQuorum || (reply == Created && id == Some(job.id)))
      ensures reply != Created ==> store.Contents() == old(store.Contents()) && (reply == NoQuorum ==> id.None?)
                                   && ready == old(ready) && repair == old(repair)
      ensures reply == Created ==>
                && store.Contents() ==
                   Apply(old(store.Contents()), SubmitRec(Minted(job, Placement(placed, alive, self), self)))
                && ready == old(ready) + [job.id] && repair == old(repair)[job.id := {}]
                && Copy(job.id) == Some(Minted(job, Placement(placed, alive, self), self))
                && Copy(job.id) == Some(job.(replicas := Placement(placed, alive, self), owner := self, state := Ready,
                                             epoch := 1, leaseSeq := 0, attempts := 0))
                && FindByIdem(store.Contents(), job.idemKey) == Copy(job.id) && job.id in ready
    {
      NoneFits();
      PlacementFits(placed, alive, self);
      hide JobFits, QueueNode.Valid, FitsWire, FirstThree, Without, QueueNode.Listed, Apply;
      var known := FindByIdem(store.Contents(), job.idemKey);
      if known.Some? { return Duplicate, Some(known.value.id); }
      if draining { return NoQuorum, None; }
      var replicas := placed;
      if placed[0] != self { replicas := Fallback(alive); }
      MintFits(job, replicas, self);
      var ok := Mint(Minted(job, replicas, self));
      if !ok { return NoQuorum, None; }
      return Created, Some(job.id);
    }

    method Mint(j: Job) returns (ok: bool)
      requires Valid() && RecordFits(SubmitRec(j))
      modifies this`ready, this`repair, store, store.wal, store.wal.dev
      ensures Valid() && (ok || !store.wal.Usable()) && (old(Listed()) ==> Listed())
      ensures !ok ==> store.Contents() == old(store.Contents()) && ready == old(ready) && repair == old(repair)
      ensures ok ==> Copy(j.id) == Some(j) && FindByIdem(store.Contents(), j.idemKey) == Some(j)
      ensures ok ==> store.Contents() == Apply(old(store.Contents()), SubmitRec(j))
                     && ready == old(ready) + [j.id] && repair == old(repair)[j.id := {}]
    {
      hide RecordFits, QueueNode.Valid, Apply, AllListed;
      ghost var t := store.Contents();
      ok := Log(SubmitRec(j));
      if !ok { return; }
      SubmitFinds(t, j);
      ready, repair := ready + [j.id], repair[j.id := {}];
      ApplyFinds(t, SubmitRec(j));
      if old(Listed()) { QueuedListed(t, store.Contents(), self, old(ready), claims.Keys, j.id); }
    }
  }

  /** What a worker gets: the delivery, and the token to acknowledge it with. */
  datatype LeaseGrant = LeaseGrant(id: JobId, url: seq<byte>, body: seq<byte>, idemKey: seq<byte>, token: (nat, nat),
    visibilityMs: nat, attempt: nat)

  function GrantOf(id: JobId, j: Job): LeaseGrant {
    LeaseGrant(id, j.url, j.body, j.idemKey, Token(j), j.visibilityMs, j.attempts)
  }

  /** The ring's choice if it puts this node first, otherwise this node and the first live others. */
  function Placement(placed: seq<Endpoint>, alive: seq<Endpoint>, self: Endpoint): seq<Endpoint>
    requires |placed| == 3
  {
    if placed[0] == self then placed else FirstThree([self] + Without(alive, self))
  }

  lemma PlacementFits(placed: seq<Endpoint>, alive: seq<Endpoint>, self: Endpoint)
    requires |placed| == 3 && FitsWire(self) && FitsWire(NO_ENDPOINT)
    requires (forall k :: 0 <= k < 3 ==> FitsWire(placed[k])) && (forall k :: 0 <= k < |alive| ==> FitsWire(alive[k]))
    ensures |Placement(placed, alive, self)| == 3
    ensures forall k :: 0 <= k < 3 ==> FitsWire(Placement(placed, alive, self)[k])
  {
    hide FitsWire, Without;
    WithoutApart(alive, self);
    var w := [self] + Without(alive, self);
    forall k | 0 <= k < |w| ensures FitsWire(w[k]) {
      if k > 0 { assert w[k] in Without(alive, self); }
    }
  }

  /** A minted job is one the cluster starts from: this node owns it, and no node has two slots. */
  lemma MintedFresh(job: Job, placed: seq<Endpoint>, alive: seq<Endpoint>, self: Endpoint)
    requires |placed| == 3 && Apart(placed) && Distinct(alive) && self != NO_ENDPOINT
    ensures FreshJob(Minted(job, Placement(placed, alive, self), self))
  {
    WithoutApart(alive, self);
    FirstThreeApart([self] + Without(alive, self));
    var es := Placement(placed, alive, self);
    assert es[0] == self;
    SlotsAndMembers(es);
  }

  lemma {:induction false} SlotsAndMembers(es: seq<Endpoint>)
    requires Apart(es)
    ensures SetSize(es) == |set e | e in es && e != NO_ENDPOINT|
  {
    if es != [] {
      assert forall k :: 0 <= k < |es| - 1 ==> es[1..][k] == es[k + 1];
      SlotsAndMembers(es[1..]);
      var all, rest := set e | e in es && e != NO_ENDPOINT, set e | e in es[1..] && e != NO_ENDPOINT;
      if es[0] == NO_ENDPOINT {
        assert all == rest;
      } else {
        assert es[0] !in rest;
        assert all == rest + {es[0]};
      }
    }
  }

  /** A submitted job as its owner first writes it. */
  function Minted(job: Job, replicas: seq<Endpoint>, self: Endpoint): Job {
    job.(replicas := replicas, owner := self, state := Ready, epoch := 1, leaseSeq := 0, attempts := 0)
  }

  /** Four bytes of address, two of port. */
  predicate FitsWire(e: Endpoint) { e.addr < Pow256(4) && e.port < Pow256(2) }

  lemma NoneFits()
    ensures FitsWire(NO_ENDPOINT)
  {
  }

  lemma MintFits(job: Job, replicas: seq<Endpoint>, self: Endpoint)
    requires JobFits(job) && |replicas| == 3 && FitsWire(self) && forall k :: 0 <= k < 3 ==> FitsWire(replicas[k])
    ensures RecordFits(SubmitRec(Minted(job, replicas, self)))
  {
    Small();
    TailFits(job);
    TailFits(Minted(job, replicas, self));
  }

  lemma SubmitFinds(t: Table, j: Job)
    ensures
      var t' := Apply(t, SubmitRec(j));
      Find(t', j.id) == Some(j) && FindByIdem(t', j.idemKey) == Some(j)
  {
  }

  lemma MergedAtEpoch(known: Option<Job>, j: Job)
    requires known.Some? ==> known.value.epoch <= j.epoch
    ensures
      var after := if known.None? || JobAdvances(known.value, j) then j else known.value;
      Transition(known, ReplicateRec(j)) == Some(after)
    ensures Transition(known, ReplicateRec(j)).value.epoch == j.epoch
  {
  }

  lemma Adopted(local: Job, remote: Job)
    requires JobAdvances(local, remote)
    ensures Transition(Some(local), ReplicateRec(remote)) == Some(remote) && !JobAdvances(remote, remote)
  {
  }

  lemma TakeoverMoves(j: Job, c: Record)
    requires c.TakeoverRec? && c.newEpoch > j.epoch
    ensures Transition(Some(j), c) == Some(j.(epoch := c.newEpoch, owner := c.newOwner)) != Some(j)
  {
  }

  lemma DoneNow(t: Table, id: JobId, r: Record)
    requires Find(t, id).Some? && r.DoneRec? && r.id == id && r.epoch >= Find(t, id).value.epoch
    ensures
      var copy := Find(Apply(t, r), id);
      copy.Some? && copy.value.state.Done? && copy.value.replicas == Find(t, id).value.replicas
  {
  }

  // ---- The queue misses no job ---------------------------------------------------------------------------

  predicate Owned(copy: Option<Job>, self: Endpoint) { copy.Some? && copy.value.owner == self }

  /** Ready, and this node's to grant. */
  predicate Awaits(copy: Option<Job>, self: Endpoint) {
    copy.Some? && copy.value.state.Ready? && copy.value.owner == self
  }

  ghost predicate AllListed(t: Table, self: Endpoint, ready: seq<JobId>, open: set<JobId>) {
    forall id :: Awaits(Find(t, id), self) ==> id in ready || id in open
  }

  /** One job changes; unless it now waits it may leave, all others stay. */
  lemma StillListed(t: Table, t': Table, self: Endpoint, ready: seq<JobId>, ready': seq<JobId>,
      open: set<JobId>, open': set<JobId>, id: JobId)
    requires AllListed(t, self, ready, open) && forall other :: other != id ==> Find(t', other) == Find(t, other)
    requires forall x :: x != id && (x in ready || x in open) ==> x in ready' || x in open'
    requires Awaits(Find(t', id), self) ==> id in ready' || id in open' || Find(t', id) == Find(t, id)
    requires id in ready || id in open ==> id in ready' || id in open' || !Awaits(Find(t', id), self)
    ensures AllListed(t', self, ready', open')
  {
    hide Awaits;
  }

  lemma TailOf(q: seq<JobId>, i: nat, back: seq<JobId>)
    requires i < |q|
    ensures (q[i..] + back)[0] == q[i] && (q[i..] + back)[1..] == q[i + 1..] + back
  {
  }

  lemma Kept(q: seq<JobId>, i: nat, back: seq<JobId>, k: nat)
    requires 0 < i <= |q| && k < |q| && (k < i - 1 ==> q[k] in back)
    ensures q[k] in q[i..] + back || k == i - 1
  {
    if k >= i { assert (q[i..] + back)[k - i] == q[k]; }
  }

  lemma KeepsOwner(j: Option<Job>, r: Record)
    requires j.Some? && !r.SubmitRec? && !r.ReplicateRec? && !r.TakeoverRec?
    ensures Transition(j, r).Some? && Transition(j, r).value.owner == j.value.owner
    ensures forall self :: j.value.owner != self ==> !Awaits(Transition(j, r), self)
  {
  }

  lemma Foreign(j: Job, self: Endpoint)
    requires j.owner != self
    ensures !Awaits(Some(j), self)
  {
  }

  lemma PickedListed(t: Table, self: Endpoint, ready: seq<JobId>, ready': seq<JobId>, open: set<JobId>,
      pick: Option<JobId>)
    requires AllListed(t, self, ready, open)
    requires forall id :: id in ready && Awaits(Find(t, id), self) ==> id in ready' || pick == Some(id)
    ensures pick.None? ==> AllListed(t, self, ready', open)
    ensures pick.Some? ==> AllListed(t, self, ready', open + {pick.value})
    ensures pick.Some? ==> AllListed(t, self, [pick.value] + ready', open)
  {
    hide Awaits;
  }

  lemma LeasedListed(t: Table, j: Job, worker: nat, self: Endpoint, ready: seq<JobId>, open: set<JobId>)
    requires Find(t, j.id) == Some(j) && AllListed(t, self, ready, open + {j.id}) && j.state.Ready?
    ensures AllListed(Apply(t, LeaseDecision(j, worker)), self, ready, open)
  {
    ApplyFinds(t, LeaseDecision(j, worker));
    assert !Awaits(Transition(Some(j), LeaseDecision(j, worker)), self);
    hide Apply, Transition, LeaseDecision;
    StillListed(t, Apply(t, LeaseDecision(j, worker)), self, ready, ready, open + {j.id}, open, j.id);
  }

  lemma DoneListed(t: Table, j: Job, self: Endpoint, ready: seq<JobId>, open: set<JobId>)
    requires Find(t, j.id) == Some(j) && AllListed(t, self, ready, open)
    ensures AllListed(Apply(t, DoneRec(j.id, j.epoch, j.leaseSeq)), self, ready, open)
  {
    var r := DoneRec(j.id, j.epoch, j.leaseSeq);
    ApplyFinds(t, r);
    assert !Awaits(Transition(Some(j), r), self);
    hide Apply, Transition;
    StillListed(t, Apply(t, r), self, ready, ready, open, open, j.id);
  }

  lemma QueuedListed(t: Table, t': Table, self: Endpoint, ready: seq<JobId>, open: set<JobId>, id: JobId)
    requires AllListed(t, self, ready, open) && forall other :: other != id ==> Find(t', other) == Find(t, other)
    ensures AllListed(t', self, ready + [id], open)
  {
    StillListed(t, t', self, ready, ready + [id], open, open, id);
  }

  predicate IsPeer(e: Endpoint, self: Endpoint) { e != NO_ENDPOINT && e != self }

  function PeerSlots(copy: Option<Job>, self: Endpoint): set<nat> {
    if copy.None? then {} else set k | 0 <= k < |copy.value.replicas| && IsPeer(copy.value.replicas[k], self)
  }

  /** The status query: of all the copies the targets answer with, one that none of them advances. */
  method BestOf(id: JobId, answers: seq<Option<Job>>) returns (best: Option<Job>)
    ensures best.None? <==> forall k :: 0 <= k < |answers| ==> answers[k].None? || answers[k].value.id != id
    ensures best.Some? ==> best in answers && best.value.id == id
    ensures best.Some? ==> forall k :: 0 <= k < |answers| && answers[k].Some? && answers[k].value.id == id ==>
        !JobAdvances(best.value, answers[k].value)
  {
    best := None;
    for i := 0 to |answers|
      invariant best.None? <==> forall k :: 0 <= k < i ==> answers[k].None? || answers[k].value.id != id
      invariant best.Some? ==> best in answers && best.value.id == id
      invariant best.Some? ==> forall k :: 0 <= k < i && answers[k].Some? && answers[k].value.id == id ==>
          !JobAdvances(best.value, answers[k].value)
    {
      hide JobAdvances;
      var a := answers[i];
      if a.Some? && a.value.id == id {
        if best.None? || JobAdvances(best.value, a.value) {
          ghost var was := best;
          best := a;
          StrictWeakOrder(a.value, a.value, a.value);
          if was.Some? {
            forall k | 0 <= k < i && answers[k].Some? && answers[k].value.id == id
              ensures !JobAdvances(a.value, answers[k].value)
            {
              StrictWeakOrder(was.value, a.value, answers[k].value);
            }
          }
        }
      }
    }
  }

  /** One grant, slot by slot; a repeated grant does not count again. */
  method CountOne(c: ClaimState, replicas: seq<Endpoint>, g: Grant) returns (c': ClaimState)
    ensures c' == CountGrant(c, replicas, g) && c'.bestSeq == if g.seq_ > c.bestSeq then g.seq_ else c.bestSeq
  {
    var pinned := false;
    for s := 0 to |replicas|
      invariant pinned <==> g.from in replicas[..s]
    {
      assert replicas[..s + 1] == replicas[..s] + [replicas[s]];
      if replicas[s] == g.from { pinned := true; }
    }
    assert replicas[..|replicas|] == replicas;
    c' := c;
    if !pinned || g.from !in c.acked {
      c' := c'.(acks := c'.acks + 1);
      if pinned { c' := c'.(acked := c'.acked + {g.from}); }
    } else {
      assert c.acked + {g.from} == c.acked;
    }
    if g.seq_ > c'.bestSeq { c' := c'.(bestSeq := g.seq_); }
    if StateRank(g.state) > StateRank(c'.bestState) { c' := c'.(bestState := g.state); }
  }

  predicate Expirable(copy: Option<Job>, self: Endpoint) {
    copy.Some? && copy.value.state.Leased? && copy.value.owner == self
  }

  /** What expiry makes of a copy. */
  function Expired(copy: Option<Job>, self: Endpoint): Option<Job> {
    if Expirable(copy, self) then Transition(copy, ExpiryDecision(copy.value)) else copy
  }

  /** The copies of these ids have expired; no other copy changed. */
  ghost predicate AllExpired(t0: Table, t: Table, ids: set<JobId>, self: Endpoint) {
    forall id :: Find(t, id) == if id in ids then Expired(Find(t0, id), self) else Find(t0, id)
  }

  /** The explicit reading, and nothing about the other jobs. */
  lemma ExpiredExactly(t0: Table, t: Table, ids: set<JobId>, self: Endpoint)
    requires AllExpired(t0, t, ids, self)
    ensures forall id :: id in ids && Expirable(Find(t0, id), self) ==>
                var j := Find(t0, id).value;
                Find(t, id) == Some(j.(state := if j.leaseSeq < j.maxAttempts then Ready else DeadLetter))
  {
    hide Transition, ExpiryDecision;
    forall id | id in ids && Expirable(Find(t0, id), self)
      ensures
        var j := Find(t0, id).value;
        Find(t, id) == Some(j.(state := if j.leaseSeq < j.maxAttempts then Ready else DeadLetter))
    {
      ExpiryKeepsTheJob(Find(t0, id).value);
    }
  }

  /** Only copies of these ids may differ. */
  ghost predicate SameBut(t0: Table, t: Table, ids: set<JobId>) {
    forall id :: id !in ids ==> Find(t, id) == Find(t0, id)
  }

  lemma Same(t: Table, id: JobId)
    ensures SameBut(t, t, {id})
  {
  }

  lemma OneMore(t0: Table, t1: Table, t: Table, ids: set<JobId>, id: JobId)
    requires SameBut(t0, t1, ids) && SameBut(t1, t, {id})
    ensures SameBut(t0, t, ids + {id}) && (id !in ids ==> Find(t1, id) == Find(t0, id))
  {
  }

  /** A lease that is due ends in another attempt. */
  predicate Retries(copy: Option<Job>, self: Endpoint) {
    Expirable(copy, self) && copy.value.leaseSeq < copy.value.maxAttempts
  }

  /** Of these ids, exactly the jobs with attempts left are queued again, to be leased from now on. */
  ghost predicate Requeued(t0: Table, ids: set<JobId>, self: Endpoint, now: nat, ready0: seq<JobId>,
      wait0: map<JobId, nat>, ready: seq<JobId>, wait: map<JobId, nat>)
  {
    && ready0 <= ready
    && (forall id :: id in ready[|ready0|..] <==> id in ids && Retries(Find(t0, id), self))
    && (forall id :: id in ids && Retries(Find(t0, id), self) ==> id in wait && wait[id] == now)
    && (forall id :: !(id in ids && Retries(Find(t0, id), self)) ==>
          (id in wait <==> id in wait0) && (id in wait0 ==> wait[id] == wait0[id]))
  }

  lemma NotRequeued(t: Table, self: Endpoint, now: nat, ready: seq<JobId>, wait: map<JobId, nat>)
    ensures Requeued(t, {}, self, now, ready, wait, ready, wait)
  {
  }

  lemma RequeuedMore(t0: Table, ids: set<JobId>, id: JobId, self: Endpoint, now: nat, ready0: seq<JobId>,
      wait0: map<JobId, nat>, ready1: seq<JobId>, wait1: map<JobId, nat>, ready: seq<JobId>, wait: map<JobId, nat>)
    requires id !in ids && Requeued(t0, ids, self, now, ready0, wait0, ready1, wait1)
    requires ready == ready1 + (if Retries(Find(t0, id), self) then [id] else [])
    requires wait == if Retries(Find(t0, id), self) then wait1[id := now] else wait1
    ensures Requeued(t0, ids + {id}, self, now, ready0, wait0, ready, wait)
  {
    hide Retries;
    assert ready[|ready0|..] == ready1[|ready0|..] + (if Retries(Find(t0, id), self) then [id] else []);
  }

  lemma ExpiredListed(t: Table, t': Table, j: Job, self: Endpoint, ready: seq<JobId>, open: set<JobId>)
    requires AllListed(t, self, ready, open) && Find(t, j.id) == Some(j) && j.state.Leased?
    requires t' == t || t' == Apply(t, ExpiryDecision(j))
    ensures AllListed(t', self, if j.leaseSeq < j.maxAttempts then ready + [j.id] else ready, open)
  {
    ApplyFinds(t, ExpiryDecision(j));
    ExpiryKeepsTheJob(j);
    hide Apply, Transition;
    var ready' := if j.leaseSeq < j.maxAttempts then ready + [j.id] else ready;
    StillListed(t, t', self, ready, ready', open, open, j.id);
  }

  ghost predicate ExpiredAt(t0: Table, t: Table, id: JobId, self: Endpoint) {
    Find(t, id) == Expired(Find(t0, id), self) && forall other :: other != id ==> Find(t, other) == Find(t0, other)
  }

  lemma Unexpired(t: Table, self: Endpoint)
    ensures AllExpired(t, t, {}, self) && SameBut(t, t, {})
  {
  }

  lemma OneExpired(t0: Table, t1: Table, t: Table, ids: set<JobId>, id: JobId, self: Endpoint)
    requires AllExpired(t0, t1, ids, self) && id !in ids
    requires ExpiredAt(t1, t, id, self)
    ensures AllExpired(t0, t, ids + {id}, self)
  {
    hide Expired;
  }

  function Due(deadlines: map<JobId, nat>, now: nat): set<JobId> { set id | id in deadlines && now >= deadlines[id] }

  /** The members of a pinned set. */
  method CountMembers(replicas: seq<Endpoint>) returns (n: nat)
    ensures n == SetSize(replicas)
  {
    n := 0;
    var s := |replicas|;
    while s > 0
      invariant 0 <= s <= |replicas| && n == SetSize(replicas[s..])
    {
      s := s - 1;
      assert replicas[s..][1..] == replicas[s + 1..];
      if replicas[s] != NO_ENDPOINT { n := n + 1; }
    }
    assert replicas[0..] == replicas;
  }

  function Taken(id: JobId, j: Job, self: Endpoint): Job {
    Transition(Some(j), TakeoverRec(id, Proposal(j), self)).value
  }

  lemma TakenFacts(id: JobId, j: Job, self: Endpoint)
    ensures Transition(Some(j), TakeoverRec(id, Proposal(j), self)) == Some(Taken(id, j, self))
  {
  }

  /** A granter knew of a lease that this copy does not rule out: the job is completed or parked by the
      round, or the lease is taken over. */
  predicate Inherits(j: Job, c: ClaimState) {
    && (c.bestState.Leased? || c.bestSeq > j.leaseSeq)
    && !(c.bestState.Done? && !j.state.Done?) && !(c.bestState.DeadLetter? && !Terminal(j.state))
  }

  /** The deadlines once a round of this node is won: a lease it inherits, and one without a deadline,
      has a full window from now; nothing else changes. */
  function Windows(deadlines: map<JobId, nat>, id: JobId, was: Option<Job>, c: ClaimState, copy: Option<Job>,
      self: Endpoint, now: nat): map<JobId, nat>
  {
    if was.Some? && was.value.owner == self
       && (Inherits(was.value, c) || (copy.Some? && copy.value.state.Leased? && id !in deadlines))
    then deadlines[id := now + was.value.visibilityMs] else deadlines
  }

  lemma FinalizedMeans(j: Job, c: ClaimState)
    ensures Finalized(j, c).owner == j.owner && Finalized(j, c).visibilityMs == j.visibilityMs
    ensures FinalRecord(j, c).Some? ==>
        Transition(Some(j), FinalRecord(j, c).value) == Some(Finalized(j, c)) && RecId(FinalRecord(j, c).value) == j.id
    ensures FinalRecord(j, c).None? ==> Finalized(j, c) == j
  {
  }

  /** 1 s doubling per attempt, at most 60 s. */
  function NackBackoff(attempt: nat): (ms: nat)
    ensures 1000 <= ms <= 60000
  {
    var shift := if attempt > 6 then 6 else if attempt > 0 then attempt - 1 else 0;
    var ms := 1000 * [1, 2, 4, 8, 16, 32, 64][shift];
    if ms < 60000 then ms else 60000
  }

  /** Twice as long after each failed attempt, up to a minute. */
  lemma BackoffDoubles(attempt: nat)
    requires attempt >= 1
    ensures NackBackoff(0) == NackBackoff(1) == 1000
    ensures NackBackoff(attempt + 1) == if 2 * NackBackoff(attempt) < 60000 then 2 * NackBackoff(attempt) else 60000
  {
  }

  function FanOut(replicas: seq<Endpoint>, self: Endpoint, rec: Record): seq<(Endpoint, Record)> {
    if replicas == [] then []
    else
      var front, last := FanOut(replicas[..|replicas| - 1], self, rec), replicas[|replicas| - 1];
      if IsPeer(last, self) then front + [(last, rec)] else front
  }

  /** One request per peer slot. */
  lemma {:induction false} FanOutSize(replicas: seq<Endpoint>, self: Endpoint, rec: Record)
    ensures |FanOut(replicas, self, rec)| == |set k | 0 <= k < |replicas| && IsPeer(replicas[k], self)|
  {
    if replicas != [] {
      var n := |replicas| - 1;
      var front := replicas[..n];
      FanOutSize(front, self, rec);
      var few := set k | 0 <= k < n && IsPeer(front[k], self);
      var all := set k | 0 <= k < |replicas| && IsPeer(replicas[k], self);
      assert forall k :: 0 <= k < n ==> front[k] == replicas[k];
      assert all == if IsPeer(replicas[n], self) then few + {n} else few;
    }
  }

  /** Every peer is addressed, and nobody else. */
  lemma {:induction false} FanOutIsPeers(replicas: seq<Endpoint>, self: Endpoint, rec: Record)
    ensures (set m | m in FanOut(replicas, self, rec) :: m.0) == Peers(replicas, self)
  {
    if replicas != [] {
      var n := |replicas| - 1;
      FanOutIsPeers(replicas[..n], self, rec);
      var front := FanOut(replicas[..n], self, rec);
      assert replicas == replicas[..n] + [replicas[n]];
      var all := FanOut(replicas, self, rec);
      var last := replicas[n];
      assert forall m :: m in all <==> m in front || (IsPeer(last, self) && m == (last, rec));
      assert (set m | m in all :: m.0) == (set m | m in front :: m.0) + (if IsPeer(last, self) then {last} else {});
    }
  }

  lemma KeepsSlots(cur: Option<Job>, r: Record)
    requires cur.Some? && !r.SubmitRec? && !r.ReplicateRec?
    ensures Transition(cur, r).Some? && Transition(cur, r).value.replicas == cur.value.replicas
  {
  }

  /** The claim a request carries, written as the record it will become. */
  function ClaimOf(body: seq<byte>): (c: Option<Record>)
    ensures c.Some? ==> c.value.TakeoverRec?
  {
    Layouts();
    if |body| < 26 then None
    else var f := GetFields(body, TAKEOVER()); Some(TakeoverRec(JobId(f[0], f[1]), f[2], Endpoint(f[3], f[4])))
  }

  /** A claim is read as it was sent: the job, the epoch asked for, the claimant. */
  lemma ClaimReadBack(id: JobId, proposed: nat, claimant: Endpoint, rest: seq<byte>)
    requires RecordFits(TakeoverRec(id, proposed, claimant))
    ensures
      var sent := PutFields(TAKEOVER(), [id.origin, id.nonce, proposed, claimant.addr, claimant.port]);
      ClaimOf(sent + rest) == Some(TakeoverRec(id, proposed, claimant))
  {
    hide Total, TAKEOVER, PutFields, GetFields, FieldsFit;
    Layouts();
    var values := [id.origin, id.nonce, proposed, claimant.addr, claimant.port];
    FieldsRoundTrip(TAKEOVER(), values, rest);
  }

  lemma ClaimFits(body: seq<byte>)
    requires ClaimOf(body).Some?
    ensures RecordFits(ClaimOf(body).value)
  {
    Layouts();
    FieldsCanonical(body, TAKEOVER());
    FieldList(GetFields(body, TAKEOVER()));
  }

  lemma CanonicalFits(body: seq<byte>)
    requires GetJob(body).Some?
    ensures RecordFits(ReplicateRec(GetJob(body).value.0))
  {
    JobCanonical(body);
  }

  /** An acknowledged copy is not ahead of what the peer then holds. */
  lemma MergedAtLeast(cur: Option<Job>, j: Job)
    ensures Transition(cur, ReplicateRec(j)).Some? && !JobAdvances(Transition(cur, ReplicateRec(j)).value, j)
  {
    StrictWeakOrder(j, j, j);
  }
}
