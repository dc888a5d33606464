/** Whole runs of a store: any script of commits and compactions, with power losses at any image
    any of them goes through, reopening after each (src/store.cc over src/wal.cc). */
module CrashRuns {
  import opened Options
  import opened Jobs
  import opened Store
  import opened Records
  import opened Frames
  import opened Disk
  import opened CrashSafety
  import opened Devices
  import opened OpenSteps
  import opened CompactSteps
  import opened WriteAheadLog
  import opened Persistence
  import opened Leftovers
  import opened JobStores
  import opened Histories
  import opened Bytes

  ghost predicate Proper(act: Act, keyOf: JobId -> seq<byte>) {
    act.DoCommit? ==> RecordFits(act.r) && KeysFixed([act.r], keyOf)
  }

  ghost function State(store: JobStore): Abs
    reads store
  {
    Abs(store.history, store.promised, store.pending)
  }

  /** The store is backed by its log; when it is up, its table is the fold of its history. */
  ghost predicate Running(store: JobStore, up: bool)
    reads store, store.wal, store.wal.dev
  {
    && store.Backed() && (up ==> store.Valid())
    && (store.wal.dev.reliable ==> up && store.wal.Usable())
  }

  ghost predicate LeftFrom(store: JobStore, mark: nat, h: seq<Record>, p: nat)
    reads store, store.wal, store.wal.dev
  {
    forall i :: mark <= i < |store.wal.dev.seen| ==> Left(store.wal.crc, store.wal.dev.seen[i], h, p)
  }

  ghost predicate SameSetting(a: JobStore, b: JobStore)
    reads a, b, a.wal, b.wal
  {
    && a.wal.crc == b.wal.crc && a.wal.segmentBytes == b.wal.segmentBytes
    && a.wal.dev.reliable == b.wal.dev.reliable
  }

  /** A restart on what a power loss left of an image. */
  method Restart(crc: Crc, segmentBytes: nat, reliable: bool, ghost d: Image, d': Image, ghost h: seq<Record>,
      ghost p: nat)
    returns (store: JobStore, up: bool)
    requires Left(crc, d, h, p) && Survives(d, d')
    ensures fresh(store) && fresh(store.wal) && fresh(store.wal.dev)
    ensures store.wal.crc == crc && store.wal.segmentBytes == segmentBytes && store.wal.dev.reliable == reliable
    ensures Running(store, up) && ReplaysTo(crc, d', store.history)
    ensures store.pending == [] && p <= store.promised == |store.history| && store.history <= h
    ensures LeftFrom(store, 0, store.history, store.promised) && [d'] <= store.wal.dev.seen
  {
    hide Left, Survives, Opened, Clean, JobStore.Backed, Rebuilt, ApplyAll;
    ghost var k := LeftReopens(crc, d, h, p, d');
    var dev := new Device(d', reliable);
    var wal := new Wal(dev, crc, segmentBytes);
    store := new JobStore(wal);
    up := store.Open(h[..k], k);
    store.BackedFacts();
    assert store.history == h[..k];
  }

  /** The image a power loss strikes at: one of the window that began at mark, or the current one. */
  function Target(seen: seq<Image>, st: Image, mark: nat, crash: Option<(nat, Image)>): Option<Image> {
    if crash.None? || crash.value.0 < mark || crash.value.0 > |seen| then None
    else Some(if crash.value.0 < |seen| then seen[crash.value.0] else st)
  }

  /** Whether the power loss the script has here is possible. */
  predicate Hits(seen: seq<Image>, st: Image, mark: nat, crash: Option<(nat, Image)>) {
    Target(seen, st, mark, crash).Some? && Survives(Target(seen, st, mark, crash).value, crash.value.1)
  }

  /** A power loss, if the script has a possible one here. h is all it can bring back. */
  method Strike(store: JobStore, up: bool, mark: nat, crash: Option<(nat, Image)>, ghost h: seq<Record>, ghost p: nat)
    returns (struck: bool, store': JobStore, up': bool)
    requires Running(store, up) && LeftFrom(store, mark, h, p)
    requires store.history + store.pending <= h && p <= store.promised
    ensures struck <==> Hits(store.wal.dev.seen, store.wal.dev.st, mark, crash)
    ensures !struck ==> store' == store && up' == up
    ensures struck ==> fresh(store') && fresh(store'.wal) && fresh(store'.wal.dev) && SameSetting(store, store')
    ensures struck ==> Running(store', up') && ReplaysTo(store.wal.crc, crash.value.1, store'.history)
    ensures struck ==> store'.pending == [] && p <= store'.promised == |store'.history| && store'.history <= h
    ensures struck ==> LeftFrom(store', 0, store'.history, store'.promised) && [crash.value.1] <= store'.wal.dev.seen
  {
    hide Left, Survives, JobStore.Backed, JobStore.Valid, ReplaysTo;
    var target := Target(store.wal.dev.seen, store.wal.dev.st, mark, crash);
    if target.None? || !Survives(target.value, crash.value.1) { return false, store, up; }
    ghost var h0, p0 := h, p;
    if crash.value.0 == |store.wal.dev.seen| {
      store.BackedFacts();
      h0, p0 := store.history + store.pending, store.promised;
    }
    store', up' :=
        Restart(store.wal.crc, store.wal.segmentBytes, store.wal.dev.reliable, target.value, crash.value.1, h0, p0);
    return true, store', up';
  }

  /** A commit; the reply gets out only if no power loss strikes. */
  method CommitStep(store: JobStore, up: bool, mark: nat, r: Record, sync: bool, crash: Option<(nat, Image)>)
    returns (store': JobStore, up': bool, mark': nat, out: Outcome)
    requires Running(store, up) && RecordFits(r) && mark <= |store.wal.dev.seen|
    requires LeftFrom(store, mark, store.history + store.pending, store.promised)
    modifies store, store.wal, store.wal.dev
    ensures store' == store || (fresh(store') && fresh(store'.wal) && fresh(store'.wal.dev))
    ensures SameSetting(store, store')
    ensures Running(store', up') && LeftFrom(store', mark', store'.history + store'.pending, store'.promised)
    ensures StepOk(store.wal.crc, Op(DoCommit(r, sync), crash), out, old(State(store)), State(store'))
    ensures store.wal.dev.reliable && !out.Struck? ==> out == Replied(true)
    ensures old(store.wal.dev.seen) <= store.wal.dev.seen && mark' <= |store'.wal.dev.seen|
    ensures if out.Struck? then crash.Some? && [crash.value.1] <= store'.wal.dev.seen else store' == store
    ensures out.Struck? <==>
        Hits(store.wal.dev.seen, store.wal.dev.st, if up then old(|store.wal.dev.seen|) else mark, crash)
  {
    hide Left, Survives, JobStore.Backed, JobStore.Contents, RecordFits, ReplaysTo;
    store.BackedFacts();
    ghost var a := State(store);
    ghost var h := a.h + a.pending;
    var reply := false;
    mark' := mark;
    if up {
      mark' := |store.wal.dev.seen|;
      reply := store.Commit(r, sync);
      h := Held(a, DoCommit(r, sync));
      store.BackedFacts();
    }
    var struck;
    struck, store', up' := Strike(store, up, mark', crash, h, a.p);
    out := if struck then Struck else Replied(reply);
    if struck {
      mark' := 0;
      assert store'.history + store'.pending == store'.history;
    } else if up {
      mark' := |store.wal.dev.seen|;
    }
  }

  /** A compaction, or a pause. */
  method QuietStep(store: JobStore, up: bool, mark: nat, compact: bool, crash: Option<(nat, Image)>)
    returns (store': JobStore, up': bool, mark': nat, out: Outcome)
    requires Running(store, up) && IndexExact(ApplyAll(EMPTY, store.history))
    requires LeftFrom(store, mark, store.history + store.pending, store.promised) && mark <= |store.wal.dev.seen|
    modifies store, store.wal, store.wal.dev
    ensures store' == store || (fresh(store') && fresh(store'.wal) && fresh(store'.wal.dev))
    ensures SameSetting(store, store')
    ensures Running(store', up') && LeftFrom(store', mark', store'.history + store'.pending, store'.promised)
    ensures StepOk(store.wal.crc, Op(if compact then DoCompact else DoNothing, crash), out, old(State(store)),
        State(store'))
    ensures old(store.wal.dev.seen) <= store.wal.dev.seen && mark' <= |store'.wal.dev.seen|
    ensures if out.Struck? then crash.Some? && [crash.value.1] <= store'.wal.dev.seen else store' == store
    ensures out.Struck? <==>
        Hits(store.wal.dev.seen, store.wal.dev.st, if compact && up then old(|store.wal.dev.seen|) else mark, crash)
  {
    hide Left, Survives, JobStore.Backed, JobStore.Contents, ReplaysTo, IndexExact, ApplyAll, NamesUsedUp;
    store.BackedFacts();
    ghost var a := State(store);
    var reply := false;
    mark' := mark;
    if compact && up {
      mark' := |store.wal.dev.seen|;
      reply := store.Compact();
      store.BackedFacts();
    }
    var struck;
    struck, store', up' := Strike(store, up, mark', crash, a.h + a.pending, a.p);
    out := if struck then Struck else Replied(reply);
    if struck {
      mark' := 0;
      assert store'.history + store'.pending == store'.history;
    } else if compact && up {
      mark' := |store.wal.dev.seen|;
    }
  }

  /** The keys of a history stay fixed, so its index stays exact. */
  lemma KeysKept(crc: Crc, op: Op, out: Outcome, a: Abs, b: Abs, keyOf: JobId -> seq<byte>)
    requires KeysFixed(a.h + a.pending, keyOf) && Proper(op.act, keyOf) && StepOk(crc, op, out, a, b)
    ensures KeysFixed(b.h + b.pending, keyOf)
  {
    hide RecordFits, ReplaysTo;
    var all := a.h + a.pending;
    forall k | 0 <= k < |b.h + b.pending| && ((b.h + b.pending)[k].SubmitRec? || (b.h + b.pending)[k].ReplicateRec?)
      ensures (b.h + b.pending)[k].job.idemKey == keyOf((b.h + b.pending)[k].job.id)
    {
      var x := (b.h + b.pending)[k];
      if op.act.DoCommit? { assert [op.act.r][0] == op.act.r; }
      if k < |all| && all[k] == x {
      } else {
        assert op.act.DoCommit? && x == op.act.r;
      }
    }
  }

  lemma KeyedExact(h: seq<Record>, pending: seq<Record>, keyOf: JobId -> seq<byte>)
    requires KeysFixed(h + pending, keyOf)
    ensures IndexExact(ApplyAll(EMPTY, h))
  {
    assert forall k :: 0 <= k < |h| ==> (h + pending)[k] == h[k];
    IndexExactKept(EMPTY, h, keyOf);
  }

  /** One action of a script. */
  method Step(store: JobStore, up: bool, mark: nat, op: Op, ghost keyOf: JobId -> seq<byte>)
    returns (store': JobStore, up': bool, mark': nat, out: Outcome)
    requires Running(store, up) && Proper(op.act, keyOf) && KeysFixed(store.history + store.pending, keyOf)
    requires LeftFrom(store, mark, store.history + store.pending, store.promised) && mark <= |store.wal.dev.seen|
    modifies store, store.wal, store.wal.dev
    ensures store' == store || (fresh(store') && fresh(store'.wal) && fresh(store'.wal.dev))
    ensures SameSetting(store, store') && KeysFixed(store'.history + store'.pending, keyOf)
    ensures Running(store', up') && LeftFrom(store', mark', store'.history + store'.pending, store'.promised)
    ensures StepOk(store.wal.crc, op, out, old(State(store)), State(store'))
    ensures store.wal.dev.reliable && op.act.DoCommit? && !out.Struck? ==> out == Replied(true)
    ensures old(store.wal.dev.seen) <= store.wal.dev.seen && mark' <= |store'.wal.dev.seen|
    ensures if out.Struck? then op.crash.Some? && [op.crash.value.1] <= store'.wal.dev.seen else store' == store
    ensures
      var from := if up && !op.act.DoNothing? then old(|store.wal.dev.seen|) else mark;
      out.Struck? <==> Hits(store.wal.dev.seen, store.wal.dev.st, from, op.crash)
  {
    hide Hits, Left, LeftFrom, Running, Proper, KeysFixed, IndexExact, ApplyAll, StepOk;
    ghost var a := State(store);
    KeyedExact(store.history, store.pending, keyOf);
    if op.act.DoCommit? {
      ProperFits(op.act.r, op.act.sync, keyOf);
      store', up', mark', out := CommitStep(store, up, mark, op.act.r, op.act.sync, op.crash);
    } else {
      store', up', mark', out := QuietStep(store, up, mark, op.act.DoCompact?, op.crash);
    }
    KeysKept(store.wal.crc, op, out, a, State(store'), keyOf);
  }

  // ---- Power losses of a script ------------------------------------------------------------------------------

  /** What an action met: the images its device had gone through by the end of it, the present one, and
      where the window opens in which a power loss may strike. */
  datatype Look = Look(seen: seq<Image>, st: Image, from: nat)

  /** What a device shows before action n: it starts at the first image, goes on after a reply, and starts
      over at what a power loss left. */
  ghost predicate Shows(d0: Image, script: seq<Op>, outcomes: seq<Outcome>, looks: seq<Look>, n: nat, seen: seq<Image>)
    requires n <= |script| && n <= |outcomes| && n <= |looks|
  {
    if n == 0 then [d0] <= seen
    else if outcomes[n - 1].Struck? then script[n - 1].crash.Some? && [script[n - 1].crash.value.1] <= seen
    else looks[n - 1].seen == seen
  }

  /** Action i met what the device went on to show, the window holds at least the images of that action,
      and the power loss of the script struck exactly if it was possible. */
  ghost predicate LookOk(d0: Image, script: seq<Op>, outcomes: seq<Outcome>, looks: seq<Look>, i: nat)
    requires i < |script| && i < |outcomes| && i < |looks|
  {
    && (exists seen :: seen <= looks[i].seen && looks[i].from <= |seen| && Shows(d0, script, outcomes, looks, i, seen))
    && (outcomes[i].Struck? <==> Hits(looks[i].seen, looks[i].st, looks[i].from, script[i].crash))
  }

  ghost predicate Watched(d0: Image, script: seq<Op>, outcomes: seq<Outcome>, looks: seq<Look>) {
    && |looks| == |outcomes| <= |script|
    && forall i :: 0 <= i < |looks| ==> LookOk(d0, script, outcomes, looks, i)
  }

  lemma WatchMore(d0: Image, script: seq<Op>, outcomes: seq<Outcome>, looks: seq<Look>, out: Outcome, look: Look,
      before: seq<Image>)
    requires Watched(d0, script, outcomes, looks) && |looks| < |script|
    requires Shows(d0, script, outcomes, looks, |looks|, before) && before <= look.seen && look.from <= |before|
    requires out.Struck? <==> Hits(look.seen, look.st, look.from, script[|looks|].crash)
    ensures Watched(d0, script, outcomes + [out], looks + [look])
  {
    hide Hits;
    var outs, ls, n := outcomes + [out], looks + [look], |looks|;
    forall i | 0 <= i <= n ensures LookOk(d0, script, outs, ls, i) {
      if i < n {
        assert LookOk(d0, script, outcomes, looks, i);
        var seen :| seen <= looks[i].seen && looks[i].from <= |seen| && Shows(d0, script, outcomes, looks, i, seen);
        assert Shows(d0, script, outs, ls, i, seen);
      } else {
        assert Shows(d0, script, outs, ls, n, before);
      }
    }
  }

  /** End-to-end crash consistency: whatever the script, every action has an outcome, and the history of
      the store at the end is one a legal run with these outcomes has. A power loss of the script strikes
      exactly if it is possible where it comes. On a device whose calls succeed no commit is refused. */
  method Run(crc: Crc, segmentBytes: nat, reliable: bool, d0: Image, script: seq<Op>, ghost keyOf: JobId -> seq<byte>)
    returns (store: JobStore, up: bool, outcomes: seq<Outcome>, ghost trace: seq<Abs>, ghost looks: seq<Look>)
    requires 0 in d0.dirs && FreshAt(d0, 0)
    requires forall i :: 0 <= i < |script| ==> Proper(script[i].act, keyOf)
    ensures Running(store, up) && (reliable ==> up)
    ensures Legal(crc, script, outcomes, trace) && trace[|script|] == State(store)
    ensures |outcomes| == |looks| == |script| && Watched(d0, script, outcomes, looks)
    ensures Shows(d0, script, outcomes, looks, |script|, store.wal.dev.seen)
    ensures reliable ==>
        forall i :: 0 <= i < |script| && script[i].act.DoCommit? && !outcomes[i].Struck? ==>
            outcomes[i] == Replied(true)
  {
    hide Hits, Left, JobStore.Backed, JobStore.Valid, Proper, Opened, KeysFixed, ApplyAll, StepOk, Legal, LookOk;
    FirstLeft(crc, d0);
    var dev := new Device(d0, reliable);
    var wal := new Wal(dev, crc, segmentBytes);
    store := new JobStore(wal);
    up := store.Open([], 0);
    store.BackedFacts();
    var mark: nat := |store.wal.dev.seen|;
    outcomes, trace, looks := [], [State(store)], [];
    FirstKeys(crc, keyOf);
    for i := 0 to |script|
      invariant fresh(store) && fresh(store.wal) && fresh(store.wal.dev)
      invariant store.wal.crc == crc && store.wal.dev.reliable == reliable
      invariant Running(store, up) && LeftFrom(store, mark, store.history + store.pending, store.promised)
      invariant KeysFixed(store.history + store.pending, keyOf)
      invariant |outcomes| == |looks| == i && |trace| == i + 1 && trace[i] == State(store)
      invariant Watched(d0, script, outcomes, looks) && mark <= |store.wal.dev.seen|
      invariant Shows(d0, script, outcomes, looks, i, store.wal.dev.seen)
      invariant Legal(crc, script[..i], outcomes, trace)
      invariant reliable ==>
          forall j :: 0 <= j < i && script[j].act.DoCommit? && !outcomes[j].Struck? ==> outcomes[j] == Replied(true)
    {
      ghost var last, before := store, store.wal.dev.seen;
      ghost var from := if up && !script[i].act.DoNothing? then |before| else mark;
      var out;
      store, up, mark, out := Step(store, up, mark, script[i], keyOf);
      ghost var look := Look(last.wal.dev.seen, last.wal.dev.st, from);
      WatchMore(d0, script, outcomes, looks, out, look, before);
      looks := looks + [look];
      LegalMore(crc, script[..i], outcomes, trace, script[i], out, State(store));
      assert script[..i] + [script[i]] == script[..i + 1];
      outcomes, trace := outcomes + [out], trace + [State(store)];
    }
    assert script[..|script|] == script;
  }

  lemma ProperFits(r: Record, sync: bool, keyOf: JobId -> seq<byte>)
    requires Proper(DoCommit(r, sync), keyOf)
    ensures RecordFits(r)
  {
  }

  lemma FirstKeys(crc: Crc, keyOf: JobId -> seq<byte>)
    ensures KeysFixed([] + [], keyOf) && Legal(crc, [], [], [Abs([], 0, [])])
  {
  }

  lemma FirstLeft(crc: Crc, d0: Image)
    requires 0 in d0.dirs && FreshAt(d0, 0)
    ensures Reusable(crc, d0, [], 0) && Opened(crc, d0).Some?
  {
    hide Sound, StandsFor, Left, LeftBy, FreshAt, Opened, Clean;
    FreshSound(crc, d0, 0, []);
    FirstStands();
    StandsLeft(crc, d0, [], 0, Origin([], 0, None, 0, 0));
    FreshClean(crc, d0, 0);
  }

  lemma FreshClean(crc: Crc, d: Image, loc: nat)
    requires FreshAt(d, loc)
    ensures Clean(d) && Opened(crc, d) == Some([])
  {
  }

  lemma FirstStands()
    ensures StandsFor(Origin([], 0, None, 0, 0), [], 0)
  {
  }
}
