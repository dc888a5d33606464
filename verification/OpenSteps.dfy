/** Opening a log: replay of every segment, and the repairs open makes to the newest one. */
module OpenSteps {
  import opened Bytes
  import opened Options
  import opened Frames
  import opened Disk
  import opened Recovery
  import opened LogOps
  import opened CrashSafety
  import opened LogSteps

  /** The replay loop over the sorted segments, and where the newest one stops being clean. */
  method ReplayAll(crc: Crc, segs: seq<Segment>) returns (r: Option<seq<Body>>, clean: nat)
    ensures r == Replay(crc, segs)
    ensures r.Some? && segs != [] ==> clean == Scan(crc, segs[|segs| - 1].data).1
  {
    var bodies, i := [], 0;
    clean := 0;
    assert segs[0..] == segs;
    PrependedNothing(Replay(crc, segs));
    while i < |segs|
      invariant 0 <= i <= |segs|
      invariant Replay(crc, segs) == Prepended(bodies, Replay(crc, segs[i..]))
      invariant i == |segs| > 0 ==> clean == Scan(crc, segs[i - 1].data).1
    {
      hide Scan;
      var more;
      more, clean := ScanFrames(crc, segs[i].data);
      ReplayStep(crc, segs, i, bodies);
      if clean != |segs[i].data| && i + 1 != |segs| { return None, clean; }
      bodies := bodies + more;
      i := i + 1;
    }
    assert segs[i..] == [] && bodies + [] == bodies;
    return Some(bodies), clean;
  }

  function Prepended(bodies: seq<Body>, rest: Option<seq<Body>>): Option<seq<Body>> {
    if rest.None? then None else Some(bodies + rest.value)
  }

  lemma PrependedNothing(rest: Option<seq<Body>>)
    ensures Prepended([], rest) == rest
  {
    if rest.Some? { assert [] + rest.value == rest.value; }
  }

  lemma ReplayStep(crc: Crc, segs: seq<Segment>, i: nat, bodies: seq<Body>)
    requires i < |segs|
    ensures
      var (more, end) := Scan(crc, segs[i].data);
      Prepended(bodies, Replay(crc, segs[i..]))
        == if end != |segs[i].data| && i + 1 != |segs| then None
            else Prepended(bodies + more, Replay(crc, segs[i + 1..]))
  {
    hide Scan;
    assert segs[i..][1..] == segs[i + 1..];
    var rest := Replay(crc, segs[i + 1..]);
    if rest.Some? {
      var more := Scan(crc, segs[i].data).0;
      assert bodies + (more + rest.value) == bodies + more + rest.value;
    }
  }

  /** Nothing in flight: CURRENT and every segment name of its directory are durable. A power loss
      always leaves such an image; a process that merely stops may not. */
  predicate Clean(d: Image) {
    && d.visible == d.durable
    && (Location(d.visible) in d.dirs ==> forall i :: 0 <= i < |d.dirs[Location(d.visible)].segs| ==>
        d.dirs[Location(d.visible)].segs[i].linked)
  }

  /** What a reopened log of which n records are durable owes to a log with min promised ones. */
  predicate Owed(log: seq<Body>, n: nat, log0: seq<Body>, min: nat, alt: Option<seq<Body>>) {
    (alt == Some(log) && n == |log|) || (log <= log0 && min <= n)
  }

  /** What open finds in a sound, clean image. */
  lemma FoundBy(crc: Crc, d: Image, log0: seq<Body>, min: nat, alt: Option<seq<Body>>) returns (w: Witness)
    requires Clean(d) && Sound(crc, d, log0, min, alt)
    ensures w.Fresh? || w.Plain?
    ensures w.loc == Location(d.visible) && Settled(d, w.loc)
    ensures w.Plain? <==> HasSegment(d, w.loc)
    ensures w.Fresh? ==> FreshAt(d, w.loc) && Opened(crc, d) == Some([]) && Owed([], 0, log0, min, alt)
    ensures w.Plain? ==>
        At(crc, d, w.loc, w.sh) && (Keeps(crc, d, w.loc, w.sh, log0, min) || KeepsAll(crc, d, w.loc, w.sh, alt))
  {
    w :| SoundBy(crc, d, log0, min, alt, w);
    hide Keeps, KeepsAll, At;
    if w.Switching? {
      KeptAt(crc, d, w.next, w.sh', alt);
      w := Plain(w.next, w.sh');
    } else if w.Fresh? {
      assert Replay(crc, []) == Some([]);
    } else if w.Plain? {
      assert Keeps(crc, d, w.loc, w.sh, log0, min) || KeepsAll(crc, d, w.loc, w.sh, alt);
      PlainAt(crc, d, w.loc, w.sh, log0, min, alt);
    }
  }

  lemma KeptAt(crc: Crc, d: Image, loc: nat, sh: Shape, alt: Option<seq<Body>>)
    requires KeepsAll(crc, d, loc, sh, alt)
    ensures At(crc, d, loc, sh) && HasSegment(d, loc)
  {
  }

  lemma PlainAt(crc: Crc, d: Image, loc: nat, sh: Shape, log0: seq<Body>, min: nat, alt: Option<seq<Body>>)
    requires Keeps(crc, d, loc, sh, log0, min) || KeepsAll(crc, d, loc, sh, alt)
    ensures At(crc, d, loc, sh) && HasSegment(d, loc)
  {
  }

  lemma FoundPlain(crc: Crc, d: Image, loc: nat, sh: Shape, log0: seq<Body>, min: nat, alt: Option<seq<Body>>)
    requires 0 in d.dirs && Clean(d) && Settled(d, loc) && At(crc, d, loc, sh)
    requires Keeps(crc, d, loc, sh, log0, min) || KeepsAll(crc, d, loc, sh, alt)
    ensures HasSegment(d, loc) && Last(d, loc).linked
    ensures Holding(crc, d, loc, sh, DurableCount(crc, d.dirs[loc].segs, sh))
    ensures Opened(crc, d) == Some(LogOf(sh)) && Scan(crc, Last(d, loc).data).1 == |FramesOf(crc, sh.chunk)|
    ensures Owed(LogOf(sh), DurableCount(crc, d.dirs[loc].segs, sh), log0, min, alt)
    ensures DurableCount(crc, d.dirs[loc].segs, sh) <= |LogOf(sh)|
  {
    hide Replay, Scan, FramesOf, Whole, LogOf;
    LastOf(crc, d, loc, sh);
    ReplayShape(crc, d.dirs[loc].segs, sh);
    DurableAtMost(crc, d.dirs[loc].segs, sh);
  }

  lemma DurableAtMost(crc: Crc, segs: seq<Segment>, sh: Shape)
    requires segs != []
    ensures DurableCount(crc, segs, sh) <= |LogOf(sh)|
  {
  }

  /** The torn tail is cut off: no record is lost. */
  lemma TruncStep(crc: Crc, d: Image, loc: nat, sh: Shape, min: nat)
    requires Holding(crc, d, loc, sh, min) && HasSegment(d, loc) && Last(d, loc).linked
    ensures |FramesOf(crc, sh.chunk)| <= |Last(d, loc).data|
    ensures
      var d' := Truncated(d, loc, |FramesOf(crc, sh.chunk)|);
      && Holding(crc, d', loc, sh.(m := 0), min) && HasSegment(d', loc) && Last(d', loc).linked
      && |Last(d', loc).data| == |FramesOf(crc, sh.chunk)| && LogOf(sh.(m := 0)) == LogOf(sh)
  {
    LastOf(crc, d, loc, sh);
    var s, n := Last(d, loc), |FramesOf(crc, sh.chunk)|;
    hide FramesOf, Whole, Closed;
    assert Frame(crc, sh.body)[..0] == [] && s.data[..n] == FramesOf(crc, sh.chunk);
    assert s.data[..n] == FramesOf(crc, sh.chunk) + [];
    SetLastShape(crc, d, loc, sh, s.(data := s.data[..n], synced := if s.synced < n then s.synced else n), sh.(m := 0));
    if s.synced >= n {
      WholeAll(crc, sh.chunk, s.synced);
      WholeAll(crc, sh.chunk, n);
    }
  }

  /** Nothing to cut off. */
  lemma NoTail(crc: Crc, d: Image, loc: nat, sh: Shape, min: nat)
    requires Holding(crc, d, loc, sh, min) && HasSegment(d, loc) && |FramesOf(crc, sh.chunk)| == |Last(d, loc).data|
    ensures sh.m == 0
  {
    LastOf(crc, d, loc, sh);
  }

  /** The first segment of an empty directory. */
  lemma FirstStep(crc: Crc, d: Image, loc: nat)
    requires 0 in d.dirs && FreshAt(d, loc)
    ensures
      var d', sh := Created(d, loc, 0), Shape([], [], [0], 0);
      Holding(crc, d', loc, sh, 0) && HasSegment(d', loc) && Last(d', loc).data == [] && LogOf(sh) == []
  {
    var d', sh := Created(d, loc, 0), Shape([], [], [0], 0);
    assert d'.dirs[loc].segs == [Segment(0, [], 0, false)];
    assert Frame(crc, [0])[..0] == [] && FramesOf(crc, []) == [];
    assert Closed(crc, d'.dirs[loc].segs[..0], []);
  }

  lemma FreshSound(crc: Crc, d: Image, loc: nat, log: seq<Body>)
    requires 0 in d.dirs && FreshAt(d, loc)
    ensures Sound(crc, d, log, 0, None)
  {
    assert SoundBy(crc, d, log, 0, None, Fresh(loc));
  }

  /** A power loss leaves nothing in flight. */
  lemma SurvivorClean(crc: Crc, d: Image, log: seq<Body>, min: nat, alt: Option<seq<Body>>, d': Image)
    requires Sound(crc, d, log, min, alt) && Survives(d, d')
    ensures Clean(d')
  {
    var w :| SoundBy(crc, d, log, min, alt, w);
    if w.Fresh? {
      FreshOpens(crc, d, d', w.loc);
    } else {
      var (loc, sh) := Chosen(d, d', w);
      hide SoundBy;
      ChosenHolds(crc, d, d', log, min, alt, w);
      FrontIsLinked(crc, d.dirs[loc].segs, sh);
    }
  }

  // ---- A whole open, on values ----------------------------------------------------------------------------

  /** An image some earlier log left behind, with nothing in flight. */
  ghost predicate Reopenable(crc: Crc, d: Image, log0: seq<Body>, min: nat, alt: Option<seq<Body>>) {
    Opened(crc, d).Some? && Clean(d) && Sound(crc, d, log0, min, alt)
  }

  lemma ScanWithin(crc: Crc, data: seq<byte>)
    ensures Scan(crc, data).1 <= |data|
  {
  }

  /** An open that fails before it touches anything. */
  lemma OpenedNothing(crc: Crc, d: Image, first: seq<Image>, log0: seq<Body>, min: nat, alt: Option<seq<Body>>)
      returns (n: nat)
    requires Reopenable(crc, d, log0, min, alt)
    ensures
      var log := Opened(crc, d).value;
      && n <= |log| && Owed(log, n, log0, min, alt) && Sound(crc, d, log, n, None) && 0 in d.dirs
      && SoundSince(crc, first, first, log, n, None)
  {
    var w := FoundBy(crc, d, log0, min, alt);
    SoundNone(crc, first, Opened(crc, d).value, 0, None);
    hide Sound, At, Keeps, KeepsAll, LogOf, Opened, Holding, DurableCount, Owed;
    assert 0 in d.dirs by { SoundHas(crc, d, log0, min, alt); }
    if w.Plain? {
      FoundPlain(crc, d, w.loc, w.sh, log0, min, alt);
      n := DurableCount(crc, d.dirs[w.loc].segs, w.sh);
      HoldingSound(crc, d, w.loc, w.sh, n, LogOf(w.sh));
      SoundNone(crc, first, LogOf(w.sh), n, None);
    } else {
      n := 0;
      FreshSound(crc, d, w.loc, []);
    }
  }

  lemma SoundHas(crc: Crc, d: Image, log: seq<Body>, min: nat, alt: Option<seq<Body>>)
    requires Sound(crc, d, log, min, alt)
    ensures 0 in d.dirs
  {
  }

  /** The newest segment, cut back if it was torn. */
  lemma OpenedNewest(crc: Crc, d0: Image, first: seq<Image>, log0: seq<Body>, min: nat, alt: Option<seq<Body>>,
      clean: nat, d: Image, seen: seq<Image>) returns (sh: Shape, n: nat)
    requires Reopenable(crc, d0, log0, min, alt) && HasSegment(d0, Location(d0.visible))
    requires clean == Scan(crc, Last(d0, Location(d0.visible)).data).1 <= |Last(d0, Location(d0.visible)).data|
    requires
      || (d == d0 && seen == first)
      || (d == Truncated(d0, Location(d0.visible), clean) && seen == first + [d])
    ensures
      var loc, log := Location(d0.visible), Opened(crc, d0).value;
      && LogOf(sh) == log && n <= |log| && Owed(log, n, log0, min, alt) && 0 in d.dirs
      && Sound(crc, d, log, n, None) && SoundSince(crc, first, seen, log, n, None)
      && (seen != first || clean == |Last(d0, loc).data| ==>
            HasSegment(d, loc) && Ready(crc, d, loc, sh) && n <= DurableCount(crc, d.dirs[loc].segs, sh)
            && |Last(d, loc).data| == clean)
  {
    var loc, log := Location(d0.visible), Opened(crc, d0).value;
    var w := FoundBy(crc, d0, log0, min, alt);
    assert 0 in d0.dirs by { SoundHas(crc, d0, log0, min, alt); }
    hide Sound, At, Keeps, KeepsAll, LogOf, Opened, Holding, DurableCount, Owed, Truncated, FramesOf, Scan, Ready,
        SoundSince;
    FoundPlain(crc, d0, loc, w.sh, log0, min, alt);
    sh, n := w.sh, DurableCount(crc, d0.dirs[loc].segs, w.sh);
    SoundNone(crc, first, log, n, None);
    HoldingSound(crc, d0, loc, sh, n, log);
    TruncStep(crc, d0, loc, sh, n);
    if seen != first {
      sh := sh.(m := 0);
      SoundMore(crc, first, first, d, loc, sh, n, log, n);
      SegmentThere(crc, d, loc, sh, n);
      HoldingReady(crc, d, loc, sh, n);
    } else if clean == |Last(d0, loc).data| {
      NoTail(crc, d0, loc, sh, n);
      HoldingReady(crc, d0, loc, sh, n);
    }
  }

  /** An empty directory that is given its first segment. */
  lemma OpenedFirst(crc: Crc, d0: Image, first: seq<Image>, log0: seq<Body>, min: nat, alt: Option<seq<Body>>,
      d: Image, seen: seq<Image>) returns (sh: Shape)
    requires Reopenable(crc, d0, log0, min, alt) && Location(d0.visible) in d0.dirs
             && !HasSegment(d0, Location(d0.visible))
    requires
      var loc := Location(d0.visible);
      var made := Created(d0, loc, 0);
      || (d == d0 && seen == first)
      || (d == made && seen == first + [d])
      || (d == SyncedDir(made, loc) && seen == first + [made, d])
    ensures
      var loc := Location(d0.visible);
      && Opened(crc, d0) == Some([]) && LogOf(sh) == [] && Owed([], 0, log0, min, alt) && 0 in d.dirs
      && Sound(crc, d, [], 0, None) && SoundSince(crc, first, seen, [], 0, None)
      && (|seen| == |first| + 2 ==> HasSegment(d, loc) && Ready(crc, d, loc, sh) && Last(d, loc).data == [])
  {
    var loc := Location(d0.visible);
    var made := Created(d0, loc, 0);
    var w := FoundBy(crc, d0, log0, min, alt);
    assert 0 in d0.dirs by { SoundHas(crc, d0, log0, min, alt); }
    sh := Shape([], [], [0], 0);
    hide Sound, At, Keeps, KeepsAll, LogOf, Opened, Holding, DurableCount, Owed, Created, SyncedDir, Ready, SoundSince;
    SoundNone(crc, first, [], 0, None);
    FreshSound(crc, d0, loc, []);
    FirstStep(crc, d0, loc);
    if seen != first {
      SoundMore(crc, first, first, made, loc, sh, 0, [], 0);
      SegmentThere(crc, made, loc, sh, 0);
      DirStep(crc, made, loc, sh, 0);
      SoundMore(crc, first, first + [made], SyncedDir(made, loc), loc, sh, 0, [], 0);
      SegmentThere(crc, SyncedDir(made, loc), loc, sh, 0);
      HoldingReady(crc, SyncedDir(made, loc), loc, sh, 0);
      assert first + [made] + [d] == first + [made, d];
    }
  }
}
