/** The job store: the table in memory, the log beneath it, and the promise between the two
    (src/store.cc). */
module JobStores {
  import opened Options
  import opened Bytes
  import opened Jobs
  import opened Store
  import opened Records
  import opened Frames
  import opened Disk
  import opened Recovery
  import opened CrashSafety
  import opened LogSteps
  import opened OpenSteps
  import opened WriteAheadLog
  import opened CompactSteps
  import opened Persistence
  import opened Snapshots
  import opened Leftovers

  class JobStore {
    const wal: Wal
    var jobs: map<JobId, Job>
    var byIdem: map<seq<byte>, JobId>

    /** The records the table is the fold of, and a record that a failed commit may have left in
        the log; how many leading bodies of the log stand for how many of those records. */
    ghost var history: seq<Record>
    ghost var pending: seq<Record>
    ghost var snap: nat
    ghost var base: nat
    ghost var promised: nat

    constructor (wal: Wal)
      ensures this.wal == wal && Contents() == EMPTY
    {
      this.wal := wal;
      jobs, byIdem, history, pending, snap, base, promised := map[], map[], [], [], 0, 0, 0;
    }

    function Contents(): Table
      reads this
    {
      Table(jobs, byIdem)
    }

    ghost function From(): Origin
      reads this, wal
    {
      Origin(wal.log, wal.durable, wal.alt, snap, base)
    }

    /** The log beneath stands for the history. */
    ghost predicate Backed()
      reads this, wal, wal.dev
    {
      && wal.Valid() && StandsFor(From(), history + pending, promised) && promised <= |history|
      && |pending| <= 1 && (wal.Usable() || wal.alt.Some? ==> pending == [])
    }

    ghost predicate Valid()
      reads this, wal, wal.dev
    {
      Backed() && Contents() == ApplyAll(EMPTY, history)
    }

    lemma BackedFacts()
      requires Backed()
      ensures promised <= |history| && |pending| <= 1
      ensures Left(wal.crc, wal.dev.st, history + pending, promised)
    {
      wal.Facts();
      assert LeftBy(wal.crc, wal.dev.st, history + pending, promised, From());
    }

    lemma Facts()
      requires Valid()
      ensures promised <= |history| && |pending| <= 1 && Contents() == ApplyAll(EMPTY, history)
    {
    }

    /** What a handler may count on in the table. */
    lemma TableFacts()
      requires Valid()
      ensures TableFits(Contents()) && KeyedById(Contents())
    {
      SaneParts(history, pending, From(), promised);
      HistoryKeeps(history);
    }

    /** The record a log holds in place k was written with number k: numbers are given once, in order,
        through every commit, compaction and reopening. */
    lemma LogNumbered(k: nat)
      requires Backed() && k < |wal.log|
      ensures DecodeRecord(wal.log[k]).Some? && DecodeRecord(wal.log[k]).value.1 == k % Pow256(8)
    {
      hide DecodeRecord, Pow256, Wal.Valid, Represents, Sane;
    }

    /** One record, in place. */
    method ApplyRecord(r: Record)
      modifies this`jobs, this`byIdem
      ensures Contents() == Apply(old(Contents()), r)
    {
      var id := RecId(r);
      match r
      case SubmitRec(j) =>
        jobs := jobs[id := j];
        byIdem := byIdem[j.idemKey := id];
      case ReplicateRec(j) =>
        if id !in jobs || JobAdvances(jobs[id], j) { jobs := jobs[id := j]; }
        else { assert jobs[id := jobs[id]] == jobs; }
        byIdem := byIdem[j.idemKey := id];
      case LeaseRec(_, e, s, _) =>
        if id in jobs {
          var j := jobs[id];
          assert jobs[id := j] == jobs;
          if e >= j.epoch && !j.state.Done? && !j.state.DeadLetter? {
            jobs := jobs[id := j.(state := Leased, epoch := e, leaseSeq := s, attempts := s)];
          }
        }
      case DoneRec(_, e, _) =>
        if id in jobs {
          var j := jobs[id];
          assert jobs[id := j] == jobs;
          if e >= j.epoch && !j.state.Done? { jobs := jobs[id := j.(state := Done, epoch := e, body := [])]; }
        }
      case ExpireRec(_, e, s) =>
        if id in jobs {
          var j := jobs[id];
          assert jobs[id := j] == jobs;
          if e >= j.epoch && j.state.Leased? && j.leaseSeq == s { jobs := jobs[id := j.(state := Ready, epoch := e)]; }
        }
      case DeadLetterRec(_, e) =>
        if id in jobs {
          var j := jobs[id];
          assert jobs[id := j] == jobs;
          if e >= j.epoch && !j.state.Done? { jobs := jobs[id := j.(state := DeadLetter, epoch := e)]; }
        }
      case TakeoverRec(_, e, o) =>
        if id in jobs {
          var j := jobs[id];
          assert jobs[id := j] == jobs;
          if e > j.epoch { jobs := jobs[id := j.(epoch := e, owner := o)]; }
        }
    }

    /** Log first, then memory. A refused commit changes nothing the store shows; its record may
        still be in the log, and is then the last one ever to come back. */
    method Commit(r: Record, sync: bool) returns (ok: bool)
      requires Valid() && RecordFits(r)
      modifies this, wal, wal.dev
      ensures Valid() && old(promised) <= promised
      ensures ok ==>
          && old(wal.Usable()) && old(pending) == [] && history == old(history) + [r] && pending == []
          && (sync ==> promised == |history|)
      ensures ok ==> wal.Usable() && Contents() == Apply(old(Contents()), r)
      ensures !ok ==> !wal.Usable() && history == old(history) && Contents() == old(Contents())
      ensures !old(wal.Usable()) ==> !wal.Usable()
      ensures wal.dev.reliable && old(wal.Usable()) ==> ok
      ensures !ok ==> pending == old(pending) || (old(pending) == [] && pending == [r])
      ensures old(pending) == [] ==>
          LeftSince(wal.crc, old(wal.dev.seen), wal.dev.seen, old(history) + [r], old(promised))
      ensures old(pending) != [] ==> wal.dev.seen == old(wal.dev.seen)
    {
      hide StandsFor, Sound, SoundSince, LeftSince, RecordFits, EncodeRecord, ApplyAll, Apply, Wal.Valid, Stamped;
      FitsEncodable(r);
      ghost var o, first, p := From(), wal.dev.seen, promised;
      LeftNone(wal.crc, first, history + [r], p);
      var body := EncodeRecord(r, wal.nextLsn);
      wal.Facts();
      ok := wal.Append(body, sync);
      wal.Facts();
      if old(wal.Usable()) {
        assert history + pending == history;
        CommitStands(o, history, p, r, old(wal.nextLsn));
        SinceLeft(wal.crc, first, wal.dev.seen, history + [r], p, o.(log := o.log + [body]));
        if !ok { PromiseMore(o, history, p, wal.durable); }
        if wal.log != o.log {
          PromiseMore(o.(log := o.log + [body]), history + [r], p, wal.durable);
          if !ok { pending := [r]; }
        }
        promised := p + (wal.durable - o.min);
      }
      if !ok { return; }
      ApplyRecord(r);
      AppliedMore(history, r);
      history := history + [r];
      assert history + [] == history;
    }

    /** One full-copy body per retained job. */
    method Snapshot() returns (bodies: seq<Body>)
      requires Sane(history) && Contents() == ApplyAll(EMPTY, history)
      ensures BodiesOk(bodies) && (Rebuilt(bodies) == ApplyAll(EMPTY, history) <==> IndexExact(Contents()))
      ensures Stamped(bodies)
    {
      hide Sane, ApplyAll, EncodeRecord, Rebuilt, JobFits, Stamped, RecordFits;
      HistoryKeeps(history);
      var xs := Collect(Contents());
      xs := Sorted(Contents(), xs);
      ThreeSlots(Contents(), xs);
      bodies := [];
      StampedNone();
      for i := 0 to |xs|
        invariant bodies == SnapshotBodies(xs, i) && Stamped(bodies)
      {
        assert xs[i] in xs;
        CopyFits(Contents(), xs[i]);
        StampedMore(bodies, ReplicateRec(xs[i]));
        bodies := bodies + [EncodeRecord(ReplicateRec(xs[i]), i)];
      }
      SnapshotRebuilds(history, xs);
    }

    /** Rewrites the log as a snapshot. The table does not change, and, if its index is exact, neither
        does what any crash, at any point of it, brings back. */
    method Compact() returns (ok: bool)
      requires Valid()
      modifies this, wal, wal.dev
      ensures Contents() == old(Contents()) && history == old(history) && pending == old(pending)
      ensures !old(wal.Usable()) ==> !ok && !wal.Usable()
      ensures wal.dev.reliable && old(wal.Usable()) ==> wal.Usable() && (ok || NamesUsedUp(wal.dev.st))
      ensures old(IndexExact(Contents())) ==>
                && Valid() && old(promised) <= promised && (ok ==> promised == |history|)
                && LeftSince(wal.crc, old(wal.dev.seen), wal.dev.seen, history + pending, old(promised))
    {
      hide StandsFor, Sound, SoundSince, LeftSince, ApplyAll, Wal.Valid, Rebuilt, BodiesOk, IndexExact, NamesUsedUp;
      hide Stamped;
      ghost var o, first, p := From(), wal.dev.seen, promised;
      LeftNone(wal.crc, first, history + pending, p);
      SaneParts(history, pending, o, p);
      var bodies := Snapshot();
      wal.Facts();
      ok := wal.Compact(bodies);
      wal.Facts();
      if old(wal.Usable() && IndexExact(Contents())) {
        assert history + pending == history;
        SnapshotBeside(o, history, p, bodies);
        SinceLeft(wal.crc, first, wal.dev.seen, history, p, o.(alt := Some(bodies)));
        if wal.log == bodies && wal.durable == |bodies| && wal.alt.None? {
          SnapshotStands(history, bodies);
          PromisedAtMost(o, history, p);
          snap, base, promised := |bodies|, |history|, |history|;
        } else {
          PromiseMore(o, history, p, wal.durable);
          promised := p + (wal.durable - o.min);
          SnapshotBeside(o.(min := wal.durable), history, promised, bodies);
        }
      }
    }

    /** Replays whatever image it finds. If some store left it behind, one with history h of which p
        records were promised, and nothing was in flight, then nothing promised is missing and
        nothing else has appeared. */
    method Open(ghost h: seq<Record>, ghost p: nat) returns (ok: bool)
      requires !wal.fdOpen && 0 in wal.dev.st.dirs && Contents() == EMPTY
      modifies this, wal, wal.dev
      ensures ok ==> wal.Usable() && Opened(wal.crc, old(wal.dev.st)).Some?
      ensures ok ==> Contents() == Rebuilt(Opened(wal.crc, old(wal.dev.st)).value)
      ensures wal.dev.reliable && Opened(wal.crc, old(wal.dev.st)).Some? ==> ok
      ensures Opened(wal.crc, old(wal.dev.st)).None? ==> wal.dev.st == old(wal.dev.st)
      ensures old(Reusable(wal.crc, wal.dev.st, h, p)) ==>
                && Backed() && history <= h && p <= promised && pending == [] && (ok ==> Valid())
                && ApplyAll(EMPTY, history) == Rebuilt(Opened(wal.crc, old(wal.dev.st)).value)
                && LeftSince(wal.crc, old(wal.dev.seen), wal.dev.seen, history, promised)
    {
      hide StandsFor, Sound, SoundSince, LeftSince, ApplyAll, Wal.Valid, Rebuilt, Opened, Clean, Owed;
      ghost var o: Origin, found := Origin([], 0, None, 0, 0), Reusable(wal.crc, wal.dev.st, h, p);
      if found { o :| LeftBy(wal.crc, wal.dev.st, h, p, o); }
      var bodies;
      ok, bodies := wal.Open(o.log, o.min, o.alt);
      ReplayBodies(bodies);
      if found {
        wal.Facts();
        ghost var o', k, p' := OpenStands(o, h, p, wal.log, wal.durable);
        history, pending, snap, base, promised := h[..k], [], o'.snap, o'.base, p';
        assert history + [] == history;
        PromisedAtMost(o', history, p');
        SinceLeft(wal.crc, old(wal.dev.seen), wal.dev.seen, history, p', o');
      }
    }

    /** The replay callback, once per body. */
    method ReplayBodies(bodies: seq<Body>)
      requires Contents() == EMPTY
      modifies this`jobs, this`byIdem
      ensures Contents() == Rebuilt(bodies)
    {
      hide DecodeRecord, Apply;
      for i := 0 to |bodies|
        invariant Contents() == Rebuilt(bodies[..i])
      {
        RebuiltOne(bodies[..i], bodies[i]);
        assert bodies[..i + 1] == bodies[..i] + [bodies[i]];
        var r := DecodeRecord(bodies[i]);
        if r.Some? { ApplyRecord(r.value.0); }
      }
      assert bodies[..|bodies|] == bodies;
    }
  }

  lemma StampedNone()
    ensures Stamped([])
  {
  }

  lemma CopyFits(t: Table, j: Job)
    requires TableFits(t) && j.id in t.jobs && t.jobs[j.id] == j
    ensures RecordFits(ReplicateRec(j)) && Encodable(ReplicateRec(j))
  {
    assert JobFits(t.jobs[j.id]);
  }

  lemma ThreeSlots(t: Table, xs: seq<Job>)
    requires TableFits(t) && forall j :: j in xs ==> j.id in t.jobs && t.jobs[j.id] == j
    ensures forall j :: j in xs ==> |j.replicas| == 3
  {
    forall j | j in xs ensures |j.replicas| == 3 { assert JobFits(t.jobs[j.id]); }
  }

  lemma SaneParts(history: seq<Record>, pending: seq<Record>, o: Origin, p: nat)
    requires StandsFor(o, history + pending, p)
    ensures Sane(history)
  {
    SanePart(history + pending, |history|);
    assert (history + pending)[..|history|] == history;
  }

  lemma PromisedAtMost(o: Origin, h: seq<Record>, p: nat)
    requires StandsFor(o, h, p)
    ensures p <= |h|
  {
  }

  lemma FitsEncodable(r: Record)
    requires RecordFits(r)
    ensures Encodable(r)
  {
  }
}
