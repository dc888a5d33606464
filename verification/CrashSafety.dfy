/** Crash safety of a disk image: what it promises whenever the machine or the process stops. */
module CrashSafety {
  import opened Options
  import opened Frames
  import opened Disk
  import opened Recovery
  import opened LogOps

  /** How an image is sound: no segment yet, one settled log, or CURRENT renamed from prev to
      next but not yet synced. */
  datatype Witness =
    | Fresh(loc: nat)
    | Plain(loc: nat, sh: Shape)
    | Switching(prev: nat, sh: Shape, next: nat, sh': Shape)

  /** The log a shape holds is log with perhaps some undurable records missing at the end. */
  predicate Keeps(crc: Crc, d: Image, loc: nat, sh: Shape, log: seq<Body>, min: nat) {
    At(crc, d, loc, sh) && LogOf(sh) <= log && min <= DurableCount(crc, d.dirs[loc].segs, sh)
  }

  /** The shape holds exactly alt, durably. */
  predicate KeepsAll(crc: Crc, d: Image, loc: nat, sh: Shape, alt: Option<seq<Body>>) {
    At(crc, d, loc, sh) && alt == Some(LogOf(sh)) && DurableCount(crc, d.dirs[loc].segs, sh) == |LogOf(sh)|
  }

  predicate FreshAt(d: Image, loc: nat) {
    Settled(d, loc) && loc in d.dirs && d.dirs[loc].linked && d.dirs[loc].segs == []
  }

  predicate SoundBy(crc: Crc, d: Image, log: seq<Body>, min: nat, alt: Option<seq<Body>>, w: Witness) {
    match w
    case Fresh(loc) => FreshAt(d, loc) && min == 0
    case Plain(loc, sh) => Settled(d, loc) && (Keeps(crc, d, loc, sh, log, min) || KeepsAll(crc, d, loc, sh, alt))
    case Switching(prev, sh, next, sh') =>
      && WholePointer(d.visible) && WholePointer(d.durable)
      && Location(d.durable) == prev && Location(d.visible) == next
      && Keeps(crc, d, prev, sh, log, min) && KeepsAll(crc, d, next, sh', alt)
  }

  ghost predicate Sound(crc: Crc, d: Image, log: seq<Body>, min: nat, alt: Option<seq<Body>>) {
    0 in d.dirs && exists w :: SoundBy(crc, d, log, min, alt, w)
  }

  lemma CutOfPrefix(r: seq<Body>, part: seq<Body>, log: seq<Body>, n: nat, min: nat)
    requires IsCut(r, part, n) && part <= log && min <= n
    ensures IsCut(r, log, min)
  {
    assert part[..|r|] == log[..|r|];
  }

  /** A sound image recovers, whatever a power loss does to it. */
  lemma SoundRecovers(crc: Crc, d: Image, log: seq<Body>, min: nat, alt: Option<seq<Body>>)
    requires Sound(crc, d, log, min, alt)
    ensures Recovers(crc, d, log, min, alt)
  {
    var w :| SoundBy(crc, d, log, min, alt, w);
    forall d' | Survives(d, d')
      ensures Opened(crc, d').Some?
      ensures Some(Opened(crc, d').value) == alt || IsCut(Opened(crc, d').value, log, min)
    {
      if w.Fresh? {
        FreshOpens(crc, d, d', w.loc);
      } else {
        var (loc, sh) := Chosen(d, d', w);
        hide Survives;
        ChosenHolds(crc, d, d', log, min, alt, w);
        OpenedAt(crc, d, d', loc, sh);
        ChosenCut(crc, d, Opened(crc, d').value, loc, sh, log, min, alt);
      }
    }
  }

  lemma FreshOpens(crc: Crc, d: Image, d': Image, loc: nat)
    requires FreshAt(d, loc) && Survives(d, d')
    ensures Opened(crc, d') == Some([]) && FreshAt(d', loc)
  {
  }

  /** The directory, and the shape it had, that CURRENT names after the power loss. */
  function Chosen(d: Image, d': Image, w: Witness): (nat, Shape)
    requires w.Plain? || w.Switching?
  {
    if w.Plain? then (w.loc, w.sh)
    else if d'.visible == d.visible then (w.next, w.sh') else (w.prev, w.sh)
  }

  lemma ChosenHolds(crc: Crc, d: Image, d': Image, log: seq<Body>, min: nat, alt: Option<seq<Body>>, w: Witness)
    requires SoundBy(crc, d, log, min, alt, w) && !w.Fresh? && Survives(d, d')
    ensures
      var (loc, sh) := Chosen(d, d', w);
      && WholePointer(d'.visible) && Location(d'.visible) == loc && Settled(d', loc)
      && (Keeps(crc, d, loc, sh, log, min) || KeepsAll(crc, d, loc, sh, alt))
  {
  }

  lemma ChosenCut(crc: Crc, d: Image, r: seq<Body>, loc: nat, sh: Shape, log: seq<Body>, min: nat,
      alt: Option<seq<Body>>)
    requires Keeps(crc, d, loc, sh, log, min) || KeepsAll(crc, d, loc, sh, alt)
    requires IsCut(r, LogOf(sh), DurableCount(crc, d.dirs[loc].segs, sh))
    ensures Some(r) == alt || IsCut(r, log, min)
  {
    if Keeps(crc, d, loc, sh, log, min) {
      CutOfPrefix(r, LogOf(sh), log, DurableCount(crc, d.dirs[loc].segs, sh), min);
    } else {
      WholeCut(r, LogOf(sh));
    }
  }

  // ---- What survives is again a log -------------------------------------------------------------------

  /** The surviving directory's shape: its cut of the chunk, torn inside the next frame. */
  function CutShape(crc: Crc, sh: Shape, n: nat): Shape
  {
    var all := sh.chunk + [sh.body];
    var k := Whole(crc, all, n);
    if k >= |all| then sh
    else
      var used := |FramesOf(crc, all[..k])|;
      Shape(sh.front, sh.chunk[..if k <= |sh.chunk| then k else 0], all[k], if n >= used then n - used else 0)
  }

  lemma {:induction false} WholeStops(crc: Crc, bodies: seq<Body>, n: nat)
    ensures
      var k := Whole(crc, bodies, n);
      k < |bodies| ==> n < |FramesOf(crc, bodies[..k])| + |Frame(crc, bodies[k])|
    decreases bodies
  {
    var k := Whole(crc, bodies, n);
    if 0 < k < |bodies| {
      WholeStops(crc, bodies[1..], n - |Frame(crc, bodies[0])|);
      assert bodies[..k][1..] == bodies[1..][..k - 1];
    }
  }

  /** A cut of the active segment is an active segment. */
  lemma ActiveCutShape(crc: Crc, s: Segment, b: Segment, sh: Shape)
    requires ActiveSegment(crc, s, sh.chunk, sh.body, sh.m) && SegmentSurvives(s, b)
    ensures
      var sh' := CutShape(crc, sh, |b.data|);
      && ActiveSegment(crc, b, sh'.chunk, sh'.body, sh'.m) && sh'.front == sh.front
      && Scan(crc, b.data).0 == sh'.chunk
  {
    var n, all := |b.data|, sh.chunk + [sh.body];
    ActiveCut(crc, s, sh.chunk, sh.body, sh.m, n);
    FramesAppend(crc, sh.chunk, sh.body);
    var k := Whole(crc, all, n);
    hide FramesOf, Whole, Scan, Frame;
    WholeFits(crc, all, n);
    WholeStops(crc, all, n);
    CutBytes(crc, all, k, n);
    assert all[..k] == sh.chunk[..k];
    assert b.data == FramesOf(crc, all)[..n];
  }

  lemma CutBytes(crc: Crc, all: seq<Body>, k: nat, n: nat)
    requires k < |all| && |FramesOf(crc, all[..k])| <= n < |FramesOf(crc, all[..k])| + |Frame(crc, all[k])|
    ensures n <= |FramesOf(crc, all)|
    ensures FramesOf(crc, all)[..n] == FramesOf(crc, all[..k]) + Frame(crc, all[k])[..n - |FramesOf(crc, all[..k])|]
  {
    hide Frame, FramesOf;
    FramesAppend(crc, all[..k], all[k]);
    assert all[..k] + [all[k]] == all[..k + 1];
    FramesConcat(crc, all[..k + 1], all[k + 1..]);
    assert all == all[..k + 1] + all[k + 1..];
  }

  lemma ClosedStays(crc: Crc, segs: seq<Segment>, chunks: seq<seq<Body>>, b: seq<Segment>)
    requires Closed(crc, segs, chunks) && |b| <= |segs| && forall i :: 0 <= i < |b| ==> SegmentSurvives(segs[i], b[i])
    ensures Closed(crc, b, chunks[..|b|])
  {
    var cs := chunks[..|b|];
    forall i | 0 <= i < |b| ensures ClosedSegment(crc, b[i], cs[i]) && b[i].start == |Flatten(cs[..i])| {
      assert SegmentSurvives(segs[i], b[i]) && ClosedSegment(crc, segs[i], chunks[i]);
      assert segs[i].data[..|segs[i].data|] == segs[i].data;
      assert cs[..i] == chunks[..i];
    }
  }

  /** The newest of some closed segments serves as the active one. */
  lemma ReopenClosed(crc: Crc, b: seq<Segment>, chunks: seq<seq<Body>>, body: Body)
    requires Closed(crc, b, chunks) && b != [] && BodyOk(body)
    ensures
      var n := |b| - 1;
      Holds(crc, b, Shape(chunks[..n], chunks[n], body, 0))
  {
    var n := |b| - 1;
    assert ClosedSegment(crc, b[n], chunks[n]);
    assert Frame(crc, body)[..0] == [];
    var front, cs := b[..n], chunks[..n];
    forall i | 0 <= i < n ensures ClosedSegment(crc, front[i], cs[i]) && front[i].start == |Flatten(cs[..i])| {
      assert ClosedSegment(crc, b[i], chunks[i]) && cs[..i] == chunks[..i];
    }
  }

  lemma ClosedOnly(crc: Crc, segs: seq<Segment>, sh: Shape, b: seq<Segment>)
    requires Holds(crc, segs, sh) && |b| >= |segs| - 1 && forall i :: 0 <= i < |segs| - 1 ==>
        SegmentSurvives(segs[i], b[i])
    ensures Closed(crc, b[..|segs| - 1], sh.front)
  {
    hide ClosedSegment, SegmentSurvives;
    var n := |segs| - 1;
    ClosedStays(crc, segs[..n], sh.front, b[..n]);
    assert sh.front[..n] == sh.front;
  }

  /** What is left of a log directory is again a log directory, or an empty one, and holds
      exactly what it replays. */
  lemma ShapeSurvives(crc: Crc, a: Dir, sh: Shape, b: Dir) returns (r: Option<Shape>)
    requires a.linked && Holds(crc, a.segs, sh) && DirSurvives(a, b)
    ensures b.linked
    ensures r.None? ==> b.segs == []
    ensures r.Some? ==> Holds(crc, b.segs, r.value)
  {
    var n := |a.segs| - 1;
    FrontIsLinked(crc, a.segs, sh);
    ClosedOnly(crc, a.segs, sh, b.segs);
    hide Closed, SegmentSurvives, ActiveSegment;
    if |b.segs| == n {
      assert b.segs[..n] == b.segs;
      if b.segs == [] { return None; }
      ActiveBody(crc, a.segs[n], sh);
      ReopenClosed(crc, b.segs, sh.front, sh.body);
      r := Some(Shape(sh.front[..n - 1], sh.front[n - 1], sh.body, 0));
    } else {
      ActiveCutShape(crc, a.segs[n], b.segs[n], sh);
      SameStart(a.segs[n], b.segs[n]);
      r := Some(CutShape(crc, sh, |b.segs[n].data|));
    }
  }

  lemma ActiveBody(crc: Crc, s: Segment, sh: Shape)
    requires ActiveSegment(crc, s, sh.chunk, sh.body, sh.m)
    ensures BodyOk(sh.body)
  {
  }

  lemma SameStart(a: Segment, b: Segment)
    requires SegmentSurvives(a, b)
    ensures a.start == b.start
  {
  }

  lemma ScanActive(crc: Crc, s: Segment, sh: Shape)
    requires ActiveSegment(crc, s, sh.chunk, sh.body, sh.m)
    ensures Scan(crc, s.data) == (sh.chunk, |FramesOf(crc, sh.chunk)|)
  {
    hide Scan, FramesOf, Frame;
    TornFrame(crc, sh.body, sh.m);
    ScanExact(crc, sh.chunk, Frame(crc, sh.body)[..sh.m]);
  }

  lemma ClosedFrames(crc: Crc, segs: seq<Segment>, chunks: seq<seq<Body>>)
    requires Closed(crc, segs, chunks)
    ensures |segs| == |chunks| && forall i :: 0 <= i < |segs| ==>
        BodiesOk(chunks[i]) && segs[i].data == FramesOf(crc, chunks[i])
  {
    forall i | 0 <= i < |segs| ensures BodiesOk(chunks[i]) && segs[i].data == FramesOf(crc, chunks[i]) {
      assert ClosedSegment(crc, segs[i], chunks[i]);
    }
  }

  /** A shape replays its log. */
  lemma ReplayShape(crc: Crc, segs: seq<Segment>, sh: Shape)
    requires Holds(crc, segs, sh)
    ensures Replay(crc, segs) == Some(LogOf(sh))
    ensures Scan(crc, segs[|segs| - 1].data) == (sh.chunk, |FramesOf(crc, sh.chunk)|)
  {
    hide Closed, ActiveSegment, Scan, FramesOf, BodiesOk, Replay;
    var n := |segs| - 1;
    ScanActive(crc, segs[n], sh);
    ReplayOne(crc, segs[n]);
    ClosedFrames(crc, segs[..n], sh.front);
    ReplayClosed(crc, segs[..n], sh.front, [segs[n]]);
    assert segs[..n] + [segs[n]] == segs;
  }

  /** After a power loss everything that is left is durable: the image is sound for exactly what
      it opens to. */
  lemma SoundSurvives(crc: Crc, d: Image, log: seq<Body>, min: nat, alt: Option<seq<Body>>, d': Image)
    requires Sound(crc, d, log, min, alt) && Survives(d, d')
    ensures Opened(crc, d').Some? && Sound(crc, d', Opened(crc, d').value, |Opened(crc, d').value|, None)
  {
    var w :| SoundBy(crc, d, log, min, alt, w);
    hide Opened;
    if w.Fresh? {
      FreshOpens(crc, d, d', w.loc);
      assert SoundBy(crc, d', [], 0, None, Fresh(w.loc));
    } else {
      var (loc, sh) := Chosen(d, d', w);
      hide SoundBy, Survives;
      ChosenHolds(crc, d, d', log, min, alt, w);
      ChosenSurvives(crc, d, d', loc, sh);
    }
  }

  lemma ChosenSurvives(crc: Crc, d: Image, d': Image, loc: nat, sh: Shape)
    requires Survives(d, d') && Settled(d', loc) && At(crc, d, loc, sh)
    ensures Opened(crc, d').Some? && Sound(crc, d', Opened(crc, d').value, |Opened(crc, d').value|, None)
  {
    assert DirSurvives(d.dirs[loc], d'.dirs[loc]);
    hide Holds, DirSurvives;
    var r := ShapeSurvives(crc, d.dirs[loc], sh, d'.dirs[loc]);
    if r.None? {
      assert SoundBy(crc, d', [], 0, None, Fresh(loc));
    } else {
      AllSynced(crc, d.dirs[loc], sh, d'.dirs[loc]) by { HoldsSome(crc, d'.dirs[loc].segs, r.value); }
      HoldsSome(crc, d'.dirs[loc].segs, r.value);
      PlainSound(crc, d', loc, r.value);
    }
  }

  lemma HoldsSome(crc: Crc, segs: seq<Segment>, sh: Shape)
    requires Holds(crc, segs, sh)
    ensures segs != []
  {
  }

  lemma AllSynced(crc: Crc, a: Dir, sh: Shape, b: Dir)
    requires a.linked && Holds(crc, a.segs, sh) && DirSurvives(a, b) && b.segs != []
    ensures b.segs[|b.segs| - 1].synced == |b.segs[|b.segs| - 1].data|
  {
    FrontIsLinked(crc, a.segs, sh);
  }

  lemma PlainSound(crc: Crc, d: Image, loc: nat, sh: Shape)
    requires 0 in d.dirs && Settled(d, loc) && At(crc, d, loc, sh) && Last(d, loc).synced == |Last(d, loc).data|
    ensures Opened(crc, d) == Some(LogOf(sh)) && Sound(crc, d, LogOf(sh), |LogOf(sh)|, None)
  {
    hide Replay, FramesOf, Whole, Scan;
    ReplayShape(crc, d.dirs[loc].segs, sh);
    LastOf(crc, d, loc, sh);
    WholeAll(crc, sh.chunk, |Last(d, loc).data|);
    assert SoundBy(crc, d, LogOf(sh), |LogOf(sh)|, None, Plain(loc, sh));
  }
}
