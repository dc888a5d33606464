/** The write-ahead log as it runs: one method per operation, one device call per system call
    (src/wal.cc). Every device call may fail; the process may be stopped after any of them. */
module WriteAheadLog {
  import opened Options
  import opened Frames
  import opened Disk
  import opened Recovery
  import opened LogOps
  import opened CrashSafety
  import opened Devices
  import opened LogSteps
  import opened OpenSteps
  import opened CompactSteps

  class Wal {
    const dev: Device
    const crc: Crc
    const segmentBytes: nat

    var generation: nat
    var fdOpen: bool
    var failed: bool
    var activeSize: nat
    var nextLsn: nat

    /** The records the log holds, how many of them are promised to be durable, and the shape of
        the active directory. */
    ghost var log: seq<Body>
    ghost var durable: nat
    ghost var sh: Shape
    ghost var alt: Option<seq<Body>>

    constructor (dev: Device, crc: Crc, segmentBytes: nat)
      ensures this.dev == dev && this.crc == crc && this.segmentBytes == segmentBytes && !fdOpen && !failed
    {
      this.dev, this.crc, this.segmentBytes := dev, crc, segmentBytes;
      generation, fdOpen, failed, activeSize, nextLsn := 0, false, false, 0, 0;
      log, durable, sh, alt := [], 0, Shape([], [], [0], 0), None;
    }

    predicate Usable()
      reads this
    {
      fdOpen && !failed
    }

    ghost predicate Valid()
      reads this, dev
    {
      && 0 in dev.st.dirs && durable <= |log|
      && (Usable() ==> alt.None? && InStep())
      && Sound(crc, dev.st, log, durable, alt)
    }

    /** What a usable log knows about its directory. */
    ghost predicate InStep()
      reads this, dev
    {
      && Ready(crc, dev.st, generation, sh)
      && log == LogOf(sh) && durable <= DurableCount(crc, dev.st.dirs[generation].segs, sh)
      && activeSize == |Last(dev.st, generation).data| && nextLsn == |log|
    }

    lemma Facts()
      requires Valid()
      ensures durable <= |log| && (Usable() ==> alt.None? && nextLsn == |log|) && Sound(crc, dev.st, log, durable, alt)
    {
    }

    /** Reads CURRENT and replays the directory it names; fails on an unreadable pointer, a missing
        directory, damage before the newest segment, or a read that fails. */
    method Load() returns (ok: bool, bodies: seq<Body>, clean: nat)
      modifies this`failed, this`generation
      ensures ok ==>
                && Opened(crc, dev.st) == Some(bodies) && generation == Location(dev.st.visible)
                    && generation in dev.st.dirs
                && (HasSegment(dev.st, generation) ==> clean == Scan(crc, Last(dev.st, generation).data).1)
      ensures dev.reliable && Opened(crc, dev.st).Some? ==> ok
      ensures !failed
    {
      failed, generation := false, 0;
      if dev.st.visible.Names? {
        if !dev.st.visible.whole { return false, [], 0; }
        generation := dev.st.visible.gen;
      }
      if generation !in dev.st.dirs { return false, [], 0; }
      ok := dev.Works();
      if !ok { return false, [], 0; }
      hide Scan, Replay;
      var r;
      r, clean := ReplayAll(crc, dev.st.dirs[generation].segs);
      if r.None? { return false, [], 0; }
      return true, r.value, clean;
    }

    /** Opens whatever image it finds, and fails only on damage or a device error. If the image is
        one an earlier log left behind, log0 with min promised records or alt0, and nothing was in
        flight, then the log from here on owes everything promised before. */
    method Open(ghost log0: seq<Body>, ghost min: nat, ghost alt0: Option<seq<Body>>)
        returns (ok: bool, bodies: seq<Body>)
      requires !fdOpen && 0 in dev.st.dirs
      modifies this, dev
      ensures ok ==> Usable() && Opened(crc, old(dev.st)) == Some(bodies) && nextLsn == |bodies|
      ensures dev.reliable && Opened(crc, old(dev.st)).Some? ==> ok
      ensures Opened(crc, old(dev.st)).None? ==> dev.st == old(dev.st)
      ensures Opened(crc, old(dev.st)).Some? && Clean(old(dev.st)) && Sound(crc, old(dev.st), log0, min, alt0) ==>
                && Valid() && alt.None? && log == Opened(crc, old(dev.st)).value
                && Owed(log, durable, log0, min, alt0)
                && SoundSince(crc, old(dev.seen), dev.seen, log, durable, None)
    {
      hide Sound, Scan, Ready, LogOf, SoundSince, DurableCount, Opened, Clean, Owed, Truncated, Created, SyncedDir;
      ghost var d0, first, good := dev.st, dev.seen, Reopenable(crc, dev.st, log0, min, alt0);
      if good {
        durable := OpenedNothing(crc, d0, first, log0, min, alt0);
        log, alt := Opened(crc, d0).value, None;
      }
      var clean;
      ok, bodies, clean := Load();
      if !ok { return; }
      nextLsn := |bodies|;
      if dev.st.dirs[generation].segs != [] {
        ScanWithin(crc, Last(dev.st, generation).data);
        ok := OpenNewest(clean);
        if good { sh, durable := OpenedNewest(crc, d0, first, log0, min, alt0, clean, dev.st, dev.seen); }
      } else {
        ok := OpenFirst();
        if good {
          sh := OpenedFirst(crc, d0, first, log0, min, alt0, dev.st, dev.seen);
          durable := 0;
        }
      }
    }

    /** Cuts a torn tail off the newest segment and opens it for appending. */
    method OpenNewest(clean: nat) returns (ok: bool)
      requires HasSegment(dev.st, generation) && clean <= |Last(dev.st, generation).data| && !fdOpen && !failed
      modifies this`fdOpen, this`activeSize, dev
      ensures ok == Usable() && (ok ==> activeSize == clean) && (dev.reliable ==> ok)
      ensures
        || (dev.st == old(dev.st) && dev.seen == old(dev.seen)
            && (ok ==> clean == |Last(old(dev.st), generation).data|))
        || (dev.st == Truncated(old(dev.st), generation, clean) && dev.seen == old(dev.seen) + [dev.st])
    {
      if clean != |Last(dev.st, generation).data| {
        ok := dev.Truncate(generation, clean);
        if !ok { return; }
      }
      fdOpen := dev.Works();
      activeSize := clean;
      return fdOpen;
    }

    /** Gives an empty directory its first segment, durably named. */
    method OpenFirst() returns (ok: bool)
      requires generation in dev.st.dirs && !fdOpen && !failed
      modifies this`fdOpen, this`failed, this`activeSize, dev
      ensures ok == Usable() && (ok ==> activeSize == 0) && (dev.reliable ==> ok)
      ensures
        var made := Created(old(dev.st), generation, 0);
        || (!ok && dev.st == old(dev.st) && dev.seen == old(dev.seen))
        || (!ok && dev.st == made && dev.seen == old(dev.seen) + [made])
        || (ok && dev.st == SyncedDir(made, generation) && dev.seen == old(dev.seen) + [made, dev.st])
    {
      ok := dev.Create(generation, 0);
      if !ok { return; }
      fdOpen, activeSize := true, 0;
      ok := dev.SyncDir(generation);
      if !ok { failed := true; }
    }

    /** Sync, then start a new segment named after the next record. */
    method Rotate() returns (ok: bool)
      requires Valid() && Usable() && activeSize > 0
      modifies this, dev
      ensures Valid() && log == old(log) && old(durable) <= durable && generation == old(generation) && alt.None?
      ensures ok ==> Usable() && durable == |log| && activeSize == 0
      ensures ok ==>
          var d1 := SyncedData(old(dev.st), generation);
          dev.seen == old(dev.seen) + [d1, Created(d1, generation, |log|), dev.st]
      ensures !ok ==> failed && !dev.reliable
      ensures SoundSince(crc, old(dev.seen), dev.seen, log, old(durable), None)
    {
      hide Sound, Holding, Ready, LogOf, SoundSince, DurableCount, SyncedData, SyncedDir, Created;
      ReadyHolds(crc, dev.st, generation, sh, durable);
      SoundNone(crc, dev.seen, log, durable, None);
      ghost var first, d0, min := dev.seen, dev.st, durable;
      ok := dev.SyncData(generation);
      if !ok { failed := true; return; }
      SyncStep(crc, d0, generation, sh, durable);
      durable := |log|;
      SoundMore(crc, first, first, dev.st, generation, sh, durable, log, min);
      ghost var d1, seen1 := dev.st, dev.seen;
      ok := dev.Create(generation, nextLsn);
      if !ok { failed, fdOpen := true, false; return; }
      CreateStep(crc, d1, generation, sh);
      sh := Shape(sh.front + [sh.chunk], [], sh.body, 0);
      SoundMore(crc, first, seen1, dev.st, generation, sh, durable, log, min);
      activeSize := 0;
      ghost var d2, seen2 := dev.st, dev.seen;
      ok := dev.SyncDir(generation);
      if !ok { failed := true; return; }
      DirStep(crc, d2, generation, sh, durable);
      SoundMore(crc, first, seen2, dev.st, generation, sh, durable, log, min);
      HoldingReady(crc, dev.st, generation, sh, durable);
    }

    /** The frame of one record; a failed write stops the log for good. */
    method WriteFrame(body: Body) returns (ok: bool)
      requires Valid() && Usable() && BodyOk(body)
      modifies this, dev
      ensures Valid() && generation == old(generation) && durable == old(durable) && alt.None?
      ensures ok ==> Usable() && log == old(log) + [body] && activeSize == old(activeSize) + HEADER + |body|
      ensures !ok ==> failed && log == old(log) && !dev.reliable
      ensures SoundSince(crc, old(dev.seen), dev.seen, old(log) + [body], old(durable), None)
    {
      hide Sound, Holding, Ready, LogOf, SoundSince, DurableCount, Frame, Wrote, AllParts, Torn;
      ReadyHolds(crc, dev.st, generation, sh, durable);
      FrameSize(crc, body);
      ghost var d0, first := dev.st, dev.seen;
      ok := dev.WriteFully(generation, Frame(crc, body));
      PartsSound(crc, d0, generation, sh, durable, body, first, dev.seen);
      if !ok {
        TornSound(crc, d0, generation, sh, durable, body, dev.st);
        failed := true;
        return;
      }
      sh := FrameStep(crc, d0, generation, sh, durable, body);
      log := log + [body];
      activeSize, nextLsn := activeSize + HEADER + |body|, nextLsn + 1;
      HoldingSound(crc, dev.st, generation, sh, durable, log);
      HoldingReady(crc, dev.st, generation, sh, durable);
    }

    method Sync() returns (ok: bool)
      requires Valid()
      modifies this, dev
      ensures Valid() && log == old(log) && generation == old(generation) && old(durable) <= durable
      ensures ok ==> old(Usable()) && Usable() && durable == |log| && activeSize == old(activeSize)
      ensures !ok && old(Usable()) ==> failed && !dev.reliable
      ensures !ok ==> durable == old(durable) && dev.st == old(dev.st)
      ensures alt == old(alt) && SoundSince(crc, old(dev.seen), dev.seen, log, old(durable), alt)
    {
      hide Sound, Holding, Ready, LogOf, SoundSince, DurableCount, SyncedData, SyncedDir, Created;
      SoundNone(crc, dev.seen, log, durable, alt);
      if !fdOpen || failed { return false; }
      ReadyHolds(crc, dev.st, generation, sh, durable);
      ghost var d0, min, first := dev.st, durable, dev.seen;
      ok := dev.SyncData(generation);
      if !ok { failed := true; return; }
      SyncStep(crc, d0, generation, sh, durable);
      durable := |log|;
      SoundMore(crc, first, first, dev.st, generation, sh, durable, log, min);
      HoldingReady(crc, dev.st, generation, sh, durable);
    }

    /** One record: rotate if the segment is full, write the frame, sync. It is promised durable
        only when this returns true with doSync; after a failure the log takes no more. */
    method Append(body: Body, doSync: bool) returns (ok: bool)
      requires Valid()
      modifies this, dev
      ensures Valid() && old(durable) <= durable && alt == old(alt)
      ensures ok ==> old(Usable()) && Usable() && log == old(log) + [body] && (doSync ==> durable == |log|)
      ensures ok ==> activeSize <= segmentBytes || activeSize == HEADER + |body|
      ensures ok ==>
                var full := old(activeSize) > 0 && old(activeSize) + HEADER + |body| > segmentBytes;
                activeSize == (if full then 0 else old(activeSize)) + HEADER + |body|
      ensures !ok ==> log == old(log) || (log == old(log) + [body] && failed)
      ensures !ok ==> durable <= |old(log)|
      ensures !ok ==> !Usable() || (!BodyOk(body) && dev.st == old(dev.st))
      ensures dev.reliable && old(Usable()) && BodyOk(body) ==> ok
      ensures dev.reliable && old(Usable()) ==> Usable()
      ensures old(Usable()) ==> SoundSince(crc, old(dev.seen), dev.seen, old(log) + [body], old(durable), None)
      ensures !old(Usable()) ==>
          !ok && !Usable() && dev.st == old(dev.st) && dev.seen == old(dev.seen) && log == old(log)
              && durable == old(durable)
    {
      hide Sound, Ready, LogOf, InStep, SoundSince;
      ghost var first, log' := dev.seen, log + [body];
      SoundNone(crc, first, log', durable, None);
      if !fdOpen || failed || body == [] || |body| > MAX_BODY { return false; }
      if activeSize > 0 && activeSize + HEADER + |body| > segmentBytes {
        var rotated := Rotate();
        SoundLonger(crc, first, dev.seen, old(log), body, old(durable));
        if !rotated { return false; }
      }
      ghost var seen1, min1 := dev.seen, durable;
      ok := WriteFrame(body);
      SoundJoined(crc, first, seen1, dev.seen, log', old(durable), min1, None);
      if !ok || !doSync { return; }
      ghost var seen2, min2 := dev.seen, durable;
      ok := Sync();
      SoundJoined(crc, first, seen2, dev.seen, log', old(durable), min2, None);
    }

    /** The next segment of a draft, once the one before is synced. */
    method DraftSegment(g: nat, lsn: nat, ghost sh0: Shape, ghost d0: Image) returns (ok: bool, out: bool)
      requires Drafted(crc, dev.st, g, sh0, 0) && |Last(dev.st, g).data| > 0 && lsn == |LogOf(sh0)|
      requires g != generation && Aside(d0, dev.st, generation)
      modifies dev
      ensures Aside(d0, dev.st, generation) && AsideSince(d0, old(dev.seen), dev.seen, generation)
              && HasSegment(dev.st, g)
      ensures dev.reliable ==> ok
      ensures ok ==> out && Drafted(crc, dev.st, g, Shape(sh0.front + [sh0.chunk], [], sh0.body, 0), 0)
      ensures ok ==> LogOf(Shape(sh0.front + [sh0.chunk], [], sh0.body, 0)) == LogOf(sh0) && Last(dev.st, g).data == []
    {
      ghost var first, d1 := dev.seen, dev.st;
      AsideNone(d0, first, generation);
      hide Aside, AsideSince, Holding, LogOf, SyncedData, Created, SyncedDir;
      DraftThere(crc, dev.st, g, sh0, 0);
      DraftAside(d0, dev.st, g, generation);
      ok := dev.SyncData(g);
      if !ok { return false, true; }
      DraftSync(crc, d1, g, sh0, 0);
      AsideMore(d0, first, first, generation, dev.st);
      DraftThere(crc, dev.st, g, sh0, lsn);
      ghost var seen1, d2 := dev.seen, dev.st;
      DraftAside(d0, dev.st, g, generation);
      ok := dev.Create(g, lsn);
      out := ok;
      if !ok { return; }
      DraftRotate(crc, d2, g, sh0);
      AsideMore(d0, first, seen1, generation, dev.st);
      DraftLess(crc, dev.st, g, Shape(sh0.front + [sh0.chunk], [], sh0.body, 0), lsn);
    }

    /** One record of a draft. */
    method DraftRecord(g: nat, body: Body, ghost sh0: Shape, ghost d0: Image) returns (ok: bool, ghost sh': Shape)
      requires Drafted(crc, dev.st, g, sh0, 0) && BodyOk(body)
      requires g != generation && Aside(d0, dev.st, generation)
      modifies dev
      ensures Aside(d0, dev.st, generation) && AsideSince(d0, old(dev.seen), dev.seen, generation)
              && HasSegment(dev.st, g)
      ensures dev.reliable ==> ok
      ensures ok ==> Drafted(crc, dev.st, g, sh', 0) && LogOf(sh') == LogOf(sh0) + [body]
      ensures ok ==> |Last(dev.st, g).data| == old(|Last(dev.st, g).data|) + HEADER + |body|
    {
      ghost var first, d1 := dev.seen, dev.st;
      AsideNone(d0, first, generation);
      hide Aside, AsideSince, Holding, LogOf, Frame, Wrote, AllParts, Torn;
      FrameSize(crc, body);
      DraftThere(crc, dev.st, g, sh0, 0);
      sh' := DraftFrame(crc, d1, g, sh0, 0, body);
      ok := dev.WriteFully(g, Frame(crc, body));
      PartsAside(d0, d1, g, generation, Frame(crc, body), first, first, dev.seen);
      if !ok {
        TornAside(d0, d1, g, generation, Frame(crc, body), dev.st);
        return;
      }
      DraftAside(d0, d1, g, generation);
    }

    /** One record of a draft, in a new segment when the current one is full. */
    method DraftNext(g: nat, body: Body, lsn: nat, size: nat, ghost sh0: Shape, ghost d0: Image)
        returns (ok: bool, out: bool, size': nat, ghost sh': Shape)
      requires Drafted(crc, dev.st, g, sh0, 0) && BodyOk(body) && size == |Last(dev.st, g).data| && lsn == |LogOf(sh0)|
      requires g != generation && Aside(d0, dev.st, generation)
      modifies dev
      ensures Aside(d0, dev.st, generation) && AsideSince(d0, old(dev.seen), dev.seen, generation)
              && HasSegment(dev.st, g)
      ensures dev.reliable ==> ok
      ensures ok ==>
          out && Drafted(crc, dev.st, g, sh', 0) && LogOf(sh') == LogOf(sh0) + [body] && size' == |Last(dev.st, g).data|
    {
      ghost var first := dev.seen;
      AsideNone(d0, first, generation);
      hide Aside, AsideSince, Drafted, Holding, LogOf;
      DraftThere(crc, dev.st, g, sh0, 0);
      ok, out, size', sh' := true, true, size, sh0;
      if size > 0 && size + HEADER + |body| > segmentBytes {
        ok, out := DraftSegment(g, lsn, sh0, d0);
        if !ok { return; }
        sh', size' := Shape(sh0.front + [sh0.chunk], [], sh0.body, 0), 0;
      }
      ghost var seen1 := dev.seen;
      ok, sh' := DraftRecord(g, body, sh', d0);
      AsideJoined(d0, first, seen1, dev.seen, generation);
      size' := size' + HEADER + |body|;
    }

    /** The records of a snapshot, one after the other, up to the first failure. */
    method DraftAll(g: nat, snapshot: seq<Body>, ghost sh0: Shape, ghost d0: Image)
        returns (ok: bool, out: bool, ghost sh': Shape)
      requires Drafted(crc, dev.st, g, sh0, 0) && LogOf(sh0) == [] && Last(dev.st, g).data == [] && BodiesOk(snapshot)
      requires g != generation && Aside(d0, dev.st, generation)
      modifies dev
      ensures Aside(d0, dev.st, generation) && AsideSince(d0, old(dev.seen), dev.seen, generation)
              && HasSegment(dev.st, g)
      ensures dev.reliable ==> ok
      ensures ok ==> out && Drafted(crc, dev.st, g, sh', 0) && LogOf(sh') == snapshot
    {
      ghost var first := dev.seen;
      AsideNone(d0, first, generation);
      hide Aside, AsideSince, Drafted, Holding, LogOf;
      DraftThere(crc, dev.st, g, sh0, 0);
      sh' := sh0;
      var size, lsn := 0, 0;
      ghost var done: seq<Body> := [];
      while lsn < |snapshot|
        invariant 0 <= lsn <= |snapshot| && HasSegment(dev.st, g) && size == |Last(dev.st, g).data|
        invariant Drafted(crc, dev.st, g, sh', 0) && LogOf(sh') == done && done == snapshot[..lsn]
        invariant Aside(d0, dev.st, generation) && AsideSince(d0, first, dev.seen, generation)
      {
        ghost var seen0 := dev.seen;
        ok, out, size, sh' := DraftNext(g, snapshot[lsn], lsn, size, sh', d0);
        AsideJoined(d0, first, seen0, dev.seen, generation);
        if !ok { return; }
        done, lsn := done + [snapshot[lsn]], lsn + 1;
      }
      return true, true, sh';
    }

    /** The whole snapshot into the empty directory g, rotating as append would, then synced. */
    method Draft(g: nat, snapshot: seq<Body>) returns (ok: bool, ghost sh': Shape)
      requires 1 <= g && g in dev.st.dirs && dev.st.dirs[g].segs == [] && BodiesOk(snapshot)
      requires g != generation && generation in dev.st.dirs && 0 in dev.st.dirs
      modifies dev
      ensures Aside(old(dev.st), dev.st, generation) && AsideSince(old(dev.st), old(dev.seen), dev.seen, generation)
      ensures dev.reliable ==> ok
      ensures ok ==> Drafted(crc, dev.st, g, sh', |snapshot|) && LogOf(sh') == snapshot
    {
      ghost var first, d0 := dev.seen, dev.st;
      sh' := Shape([], [], [0], 0);
      AsideNone(d0, first, generation);
      DraftAside(d0, d0, g, generation);
      DraftFirst(crc, d0, g);
      assert Aside(d0, d0, generation);
      hide Aside, AsideSince, Drafted, Holding, LogOf, SyncedData, Created;
      ok := dev.Create(g, 0);
      if !ok { return; }
      AsideMore(d0, first, first, generation, dev.st);
      DraftThere(crc, dev.st, g, sh', 0);
      ghost var seen1 := dev.seen;
      var out;
      ok, out, sh' := DraftAll(g, snapshot, sh', d0);
      AsideJoined(d0, first, seen1, dev.seen, generation);
      if !out { return false, sh'; }
      ghost var d2, seen2 := dev.st, dev.seen;
      DraftAside(d0, d2, g, generation);
      var synced := dev.SyncData(g);
      if !synced { return false, sh'; }
      AsideMore(d0, first, seen2, generation, dev.st);
      if ok { DraftSync(crc, d2, g, sh', 0); }
    }

    /** Makes the directory of the first free generation. A name left by an interrupted attempt is
        skipped; any other error ends the search, and so does the last name there is. */
    method MakeGeneration() returns (ok: bool, g: nat)
      modifies dev
      ensures ok ==> generation < g && g !in old(dev.st).dirs
      ensures ok ==> forall x :: generation < x < g ==> x in old(dev.st).dirs
      ensures ok ==> dev.st == MadeDir(old(dev.st), g) && dev.seen == old(dev.seen) + [dev.st]
      ensures !ok ==> dev.st == old(dev.st) && dev.seen == old(dev.seen)
      ensures dev.reliable && !ok ==> NamesUsedUp(dev.st)
    {
      g := generation + 1;
      while g in dev.st.dirs
        invariant dev.st == old(dev.st) && dev.seen == old(dev.seen)
        invariant g > generation && forall x :: generation < x < g ==> x in dev.st.dirs
        decreases MAX_GENERATION - g
      {
        ok := dev.Works();
        if !ok || g >= MAX_GENERATION { return false, g; }
        g := g + 1;
      }
      ok := dev.MakeDir(g);
    }

    lemma Placed()
      requires Valid() && Usable()
      ensures InPlace(crc, dev.st, generation, sh, durable, activeSize) && log == LogOf(sh) && nextLsn == |log|
              && alt.None?
    {
      ReadyHolds(crc, dev.st, generation, sh, durable);
    }

    lemma Replaced()
      requires InPlace(crc, dev.st, generation, sh, durable, activeSize)
      requires log == LogOf(sh) && nextLsn == |log| && durable <= |log| && alt.None?
      ensures Valid()
    {
      HoldingSound(crc, dev.st, generation, sh, durable, log);
      HoldingReady(crc, dev.st, generation, sh, durable);
    }

    /** Writes the snapshot aside and makes it durable. The log itself does not change. */
    method Prepare(snapshot: seq<Body>) returns (ok: bool, g: nat, ghost sh': Shape)
      requires BodiesOk(snapshot) && InPlace(crc, dev.st, generation, sh, durable, activeSize)
      modifies dev
      ensures InPlace(crc, dev.st, generation, sh, durable, activeSize)
      ensures SoundSince(crc, old(dev.seen), dev.seen, LogOf(sh), durable, None)
      ensures ok ==> Prepared(crc, dev.st, generation, sh, durable, activeSize, g, sh', snapshot)
      ensures dev.reliable && !ok ==> NamesUsedUp(dev.st)
    {
      hide SoundSince, Aside, AsideSince, InPlace, Prepared, Drafted, LogOf, MadeDir, NamesUsedUp;
      ghost var first, d0 := dev.seen, dev.st;
      SoundNone(crc, first, LogOf(sh), durable, None);
      sh' := sh;
      ok, g := MakeGeneration();
      if !ok { return; }
      MadeAside(crc, d0, g, generation, sh, durable, activeSize);
      MadeEmpty(d0, g);
      PlaceSound(crc, first, first, dev.st, generation, sh, durable, activeSize);
      ghost var d1, seen1 := dev.st, dev.seen;
      ok, sh' := Draft(g, snapshot);
      AsideInPlace(crc, d1, dev.st, generation, sh, durable, activeSize);
      PlaceAside(crc, first, seen1, dev.seen, d1, generation, sh, durable, activeSize);
      if !ok { return; }
      ok := Publish(g, snapshot, sh', first);
    }

    /** Syncs the new directory and the data directory. */
    method Publish(g: nat, snapshot: seq<Body>, ghost sh': Shape, ghost first: seq<Image>) returns (ok: bool)
      requires InPlace(crc, dev.st, generation, sh, durable, activeSize) && g != generation
      requires Drafted(crc, dev.st, g, sh', |snapshot|) && LogOf(sh') == snapshot
      requires SoundSince(crc, first, dev.seen, LogOf(sh), durable, None)
      modifies dev
      ensures InPlace(crc, dev.st, generation, sh, durable, activeSize)
      ensures SoundSince(crc, first, dev.seen, LogOf(sh), durable, None)
      ensures ok ==> Prepared(crc, dev.st, generation, sh, durable, activeSize, g, sh', snapshot)
      ensures dev.reliable ==> ok
    {
      hide SoundSince, InPlace, Prepared, Drafted, LogOf, SyncedDir;
      ghost var seen0 := dev.seen;
      DraftDone(crc, dev.st, generation, sh, durable, activeSize, g, sh', snapshot);
      ok := dev.SyncDir(g);
      if !ok { return; }
      PlaceSound(crc, first, seen0, dev.st, generation, sh, durable, activeSize);
      ghost var seen1 := dev.seen;
      ok := dev.SyncDir(0);
      if !ok { return; }
      PreparedPlace(crc, dev.st, generation, sh, durable, activeSize, g, sh', snapshot);
      PlaceSound(crc, first, seen1, dev.st, generation, sh, durable, activeSize);
    }

    /** Writes CURRENT.tmp and renames it over CURRENT. */
    method Point(g: nat, snapshot: seq<Body>, ghost sh': Shape) returns (ok: bool, ghost d0: Image)
      requires Prepared(crc, dev.st, generation, sh, durable, activeSize, g, sh', snapshot)
      modifies dev
      ensures Prepared(crc, d0, generation, sh, durable, activeSize, g, sh', snapshot)
      ensures !ok ==> dev.st == d0 && !dev.reliable
      ensures ok ==> d0.tmp == Names(g, true) && dev.st == Renamed(d0) && dev.st in dev.seen
      ensures SoundSince(crc, old(dev.seen), dev.seen, LogOf(sh), durable, Some(snapshot))
    {
      hide SoundSince, InPlace, Prepared, LogOf, Sound;
      ghost var first, d1 := dev.seen, dev.st;
      SoundNone(crc, first, LogOf(sh), durable, Some(snapshot));
      TmpStep(crc, d1, generation, sh, durable, activeSize, g, sh', snapshot, Names(g, false));
      TmpStep(crc, d1, generation, sh, durable, activeSize, g, sh', snapshot, Names(g, true));
      ok := dev.WriteTmp(g);
      d0 := dev.st;
      PreparedSound(crc, first, dev.seen, d1, generation, sh, durable, activeSize, g, sh', snapshot);
      if !ok { return; }
      ghost var seen1 := dev.seen;
      ok := dev.Rename();
      if !ok { return; }
      RenameStep(crc, d0, generation, sh, durable, activeSize, g, sh', snapshot);
      SoundNext(crc, first, seen1, dev.st, LogOf(sh), durable, Some(snapshot));
    }

    /** The image between the rename of CURRENT and its sync is one of those the device went through. */
    ghost predicate RenamePassed(loc: nat, sh0: Shape, min: nat, size: nat, g: nat, sh': Shape, snapshot: seq<Body>)
      reads this, dev
    {
      exists d0 ::
        Prepared(crc, d0, loc, sh0, min, size, g, sh', snapshot) && d0.tmp == Names(g, true) && Renamed(d0) in dev.seen
    }

    /** Moves CURRENT to generation g. Between the rename and the sync of the data directory the
        log refuses work: nothing may be promised while either generation can come back. */
    method Install(g: nat, snapshot: seq<Body>, ghost sh': Shape) returns (ok: bool)
      requires Valid() && Usable() && Prepared(crc, dev.st, generation, sh, durable, activeSize, g, sh', snapshot)
      modifies this, dev
      ensures Valid()
      ensures SoundSince(crc, old(dev.seen), dev.seen, old(log), old(durable), Some(snapshot))
      ensures ok ==> Usable() && generation == g != 0 && log == snapshot && durable == |snapshot|
      ensures ok ==> RenamePassed(old(generation), old(sh), old(durable), old(activeSize), g, sh', snapshot)
      ensures dev.reliable ==> ok
      ensures !ok ==> || (log == old(log) && durable == old(durable) && (Usable() || (failed && alt == Some(snapshot))))
                      || (log == snapshot && durable == |snapshot| && failed && alt.None?)
    {
      hide SoundSince, InPlace, Prepared, LogOf, SyncedDir, Sound, Ready, DurableCount, Renamed;
      Placed();
      ghost var first := dev.seen;
      ghost var d0;
      ok, d0 := Point(g, snapshot, sh');
      PreparedPlace(crc, d0, generation, sh, durable, activeSize, g, sh', snapshot);
      if !ok { Replaced(); return; }
      failed, alt := true, Some(snapshot);
      RenameStep(crc, d0, generation, sh, durable, activeSize, g, sh', snapshot);
      RenamedHas(d0);
      ghost var seen1 := dev.seen;
      ok := dev.SyncDir(0);
      if !ok { return; }
      SettleStep(crc, d0, generation, sh, durable, activeSize, g, sh', snapshot);
      PlaceInstalled(crc, first, seen1, dev.st, g, sh', |Last(d0, g).data|, snapshot, log, durable);
      generation, sh, log, durable, alt, nextLsn := g, sh', snapshot, |snapshot|, None, |snapshot|;
      fdOpen := dev.Works();
      activeSize := |Last(dev.st, g).data|;
      if fdOpen { failed := false; }
      Replaced();
      return fdOpen;
    }

    /** Removes everything CURRENT no longer reaches; the log is already usable. */
    method Cleanup() returns (ok: bool)
      requires Valid() && Usable() && generation != 0
      modifies dev
      ensures Valid() && AsideSince(old(dev.st), old(dev.seen), dev.seen, generation)
      ensures ok ==> OnlyGeneration(dev.st, generation)
      ensures dev.reliable ==> ok
    {
      hide SoundSince, InPlace, LogOf, SyncedDir, Sound, Ready, DurableCount, Aside, AsideSince, Removed, RestOnly,
          OnlyGeneration;
      Placed();
      ghost var first, d0 := dev.seen, dev.st;
      AsideNone(d0, first, generation);
      AsideSelf(crc, d0, generation, sh, durable, activeSize);
      var rest := dev.st.dirs.Keys - {generation};
      RestAll(dev.st, generation);
      while rest != {}
        invariant rest <= dev.st.dirs.Keys - {generation} && RestOnly(dev.st, generation, rest)
        invariant Aside(d0, dev.st, generation) && AsideSince(d0, first, dev.seen, generation)
      {
        ghost var d1, seen1 := dev.st, dev.seen;
        var x :| x in rest;
        RemoveAside(d0, d1, x, generation);
        ok := dev.Remove(x);
        if !ok {
          AsideInPlace(crc, d0, dev.st, generation, sh, durable, activeSize);
          Replaced();
          return;
        }
        RemoveKeys(d1, x);
        RestRemoved(d1, generation, rest, x);
        AsideMore(d0, first, seen1, generation, dev.st);
        rest := rest - {x};
      }
      ghost var seen2 := dev.seen;
      RootAside(crc, d0, dev.st, generation, sh, durable, activeSize);
      RestNone(dev.st, generation);
      ok := dev.SyncDir(0);
      if ok { AsideMore(d0, first, seen2, generation, dev.st); }
      AsideInPlace(crc, d0, dev.st, generation, sh, durable, activeSize);
      Replaced();
    }

    /** Replaces the log by the snapshot. Whatever stops it, the next open finds one or the other. */
    method Compact(snapshot: seq<Body>) returns (ok: bool)
      requires Valid()
      modifies this, dev
      ensures Valid()
      ensures ok ==>
          old(Usable()) && Usable() && log == snapshot && durable == |log| && OnlyGeneration(dev.st, generation)
      ensures !ok ==>
          || (log == old(log) && old(durable) <= durable && (alt == old(alt) || (failed && alt == Some(snapshot))))
                      || (log == snapshot && durable == |log| && alt.None?)
      ensures dev.reliable && old(Usable()) ==> Usable() && (ok || !BodiesOk(snapshot) || NamesUsedUp(dev.st))
      ensures old(Usable()) ==> SoundSince(crc, old(dev.seen), dev.seen, old(log), old(durable), Some(snapshot))
      ensures !old(Usable()) ==>
          !ok && !Usable() && dev.st == old(dev.st) && dev.seen == old(dev.seen) && log == old(log)
              && durable == old(durable) && alt == old(alt)
    {
      hide SoundSince, InPlace, Prepared, LogOf, Sound, InStep, AsideSince, NamesUsedUp;
      ghost var first, alt' := dev.seen, Some(snapshot);
      SoundNone(crc, first, log, durable, alt');
      if !fdOpen || failed { return false; }
      for i := 0 to |snapshot|
        invariant forall j :: 0 <= j < i ==> BodyOk(snapshot[j])
      {
        if snapshot[i] == [] || |snapshot[i]| > MAX_BODY { return false; }
      }
      ok := Sync();
      SoundEither(crc, first, dev.seen, log, old(durable), alt');
      if !ok { return; }
      ghost var seen1 := dev.seen;
      Placed();
      var g;
      ghost var sh';
      ok, g, sh' := Prepare(snapshot);
      Replaced();
      SoundEither(crc, seen1, dev.seen, log, durable, alt');
      SoundJoined(crc, first, seen1, dev.seen, log, old(durable), durable, alt');
      if !ok { return; }
      ghost var seen2, min2 := dev.seen, durable;
      ok := Install(g, snapshot, sh');
      SoundJoined(crc, first, seen2, dev.seen, old(log), old(durable), min2, alt');
      if !ok { return; }
      ghost var seen3, d3 := dev.seen, dev.st;
      Placed();
      ok := Cleanup();
      InstalledAside(crc, first, seen3, dev.seen, d3, generation, sh, activeSize, snapshot, old(log), old(durable));
    }
  }
}
