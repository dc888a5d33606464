/** A process that stops and is started again without a power loss finds its image as it left it.
    This module says exactly when such a reopened log keeps its promises (src/wal.cc:128-197). */
module Reopen {
  import opened Options
  import opened Frames
  import opened Disk
  import opened Recovery
  import opened LogOps
  import opened CrashSafety
  import opened LogSteps
  import opened OpenSteps
  import opened CompactSteps

  /** The image when append(body) with sync has been acknowledged after a reopen. */
  function Acked(crc: Crc, d: Image, loc: nat, body: Body): Image
    requires HasSegment(d, loc)
  {
    SyncedData(Wrote(d, loc, Frame(crc, body)), loc)
  }

  /** Every acknowledged append survives every power loss. */
  ghost predicate Trustworthy(crc: Crc, d: Image, loc: nat, log: seq<Body>)
    requires HasSegment(d, loc)
  {
    forall body :: BodyOk(body) ==> Recovers(crc, Acked(crc, d, loc, body), log + [body], |log| + 1, None)
  }

  /** A reopened log can be trusted if and only if CURRENT and the name of its newest segment were
      durable when it was opened; open itself syncs neither. */
  lemma TrustworthyIffClean(crc: Crc, d: Image, sh: Shape, sh0: Shape)
    requires 0 in d.dirs && WholePointer(d.visible) && WholePointer(d.durable)
    requires At(crc, d, Location(d.visible), sh) && sh.m == 0 && At(crc, d, Location(d.durable), sh0)
    ensures HasSegment(d, Location(d.visible))
    ensures Clean(d) <==> Trustworthy(crc, d, Location(d.visible), LogOf(sh))
  {
    var loc := Location(d.visible);
    hide Recovers, Acked, LogOf, Holds;
    LastOf(crc, d, loc, sh);
    CleanMeans(crc, d, sh);
    if Clean(d) {
      forall body | BodyOk(body)
        ensures Recovers(crc, Acked(crc, d, loc, body), LogOf(sh) + [body], |LogOf(sh)| + 1, None)
      {
        CleanKeeps(crc, d, sh, body);
      }
    } else if d.visible != d.durable {
      UnsettledLoses(crc, d, sh, sh0);
    } else {
      UnlinkedLoses(crc, d, sh, [0]);
      assert BodyOk([0]);
    }
  }

  lemma CleanMeans(crc: Crc, d: Image, sh: Shape)
    requires At(crc, d, Location(d.visible), sh)
    ensures HasSegment(d, Location(d.visible))
    ensures Clean(d) <==> d.visible == d.durable && Last(d, Location(d.visible)).linked
  {
    FrontIsLinked(crc, d.dirs[Location(d.visible)].segs, sh);
  }

  lemma CleanKeeps(crc: Crc, d: Image, sh: Shape, body: Body)
    requires 0 in d.dirs && WholePointer(d.visible) && d.visible == d.durable
    requires At(crc, d, Location(d.visible), sh) && sh.m == 0 && BodyOk(body)
    requires HasSegment(d, Location(d.visible)) && Last(d, Location(d.visible)).linked
    ensures Recovers(crc, Acked(crc, d, Location(d.visible), body), LogOf(sh) + [body], |LogOf(sh)| + 1, None)
  {
    var loc := Location(d.visible);
    assert Holding(crc, d, loc, sh, 0);
    hide Holding, LogOf, Recovers, Sound, Wrote, SyncedData, Frame;
    var sh' := FrameStep(crc, d, loc, sh, 0, body);
    SyncStep(crc, Wrote(d, loc, Frame(crc, body)), loc, sh', 0);
    HoldingSound(crc, Acked(crc, d, loc, body), loc, sh', |LogOf(sh')|, LogOf(sh'));
    SoundRecovers(crc, Acked(crc, d, loc, body), LogOf(sh'), |LogOf(sh')|, None);
  }

  // ---- Losing outcomes ---------------------------------------------------------------------------------

  function Hardened(s: Segment): Segment { s.(synced := |s.data|, linked := true) }

  function HardenAll(segs: seq<Segment>): (r: seq<Segment>)
    ensures |r| == |segs| && forall i :: 0 <= i < |segs| ==> r[i] == Hardened(segs[i])
  {
    seq(|segs|, i requires 0 <= i < |segs| => Hardened(segs[i]))
  }

  /** The power loss that keeps every byte of the first n segments of loc, with CURRENT at p. */
  function Outcome(d: Image, p: Pointer, loc: nat, n: nat): Image
    requires loc in d.dirs && n <= |d.dirs[loc].segs|
  {
    Image(d.dirs[loc := Dir(HardenAll(d.dirs[loc].segs[..n]), true)], p, p, Absent)
  }

  lemma SegmentsFit(crc: Crc, segs: seq<Segment>, sh: Shape, i: nat)
    requires Holds(crc, segs, sh) && i < |segs|
    ensures SegmentSurvives(segs[i], Hardened(segs[i]))
  {
    assert segs[i].data[..|segs[i].data|] == segs[i].data;
    if i < |segs| - 1 {
      assert segs[..|segs| - 1][i] == segs[i] && ClosedSegment(crc, segs[..|segs| - 1][i], sh.front[i]);
    }
  }

  lemma OutcomeSurvives(crc: Crc, d: Image, p: Pointer, loc: nat, sh: Shape)
    requires 0 in d.dirs && At(crc, d, loc, sh) && Location(p) == loc && PointerSurvives(d, p)
    ensures Survives(d, Outcome(d, p, loc, |d.dirs[loc].segs|))
  {
    var segs := d.dirs[loc].segs;
    assert segs[..|segs|] == segs;
    forall i | 0 <= i < |segs| ensures SegmentSurvives(segs[i], HardenAll(segs)[i]) { SegmentsFit(crc, segs, sh, i); }
  }

  /** CURRENT falls back to the old generation, which knows nothing of the new record. */
  lemma UnsettledLoses(crc: Crc, d: Image, sh: Shape, sh0: Shape)
    requires 0 in d.dirs && WholePointer(d.visible) && WholePointer(d.durable) && d.visible != d.durable
    requires At(crc, d, Location(d.visible), sh) && At(crc, d, Location(d.durable), sh0)
    requires HasSegment(d, Location(d.visible))
    ensures !Trustworthy(crc, d, Location(d.visible), LogOf(sh))
  {
    var loc, prev := Location(d.visible), Location(d.durable);
    TwoRecords(LogOf(sh));
    hide LogOf, Holds, Replay;
    if Trustworthy(crc, d, loc, LogOf(sh)) {
      FallsBack(crc, d, loc, prev, sh0, LogOf(sh), [0]);
      FallsBack(crc, d, loc, prev, sh0, LogOf(sh), [1]);
    }
  }

  lemma TwoRecords(log: seq<Body>)
    ensures log + [[0]] != log + [[1]]
  {
    assert (log + [[0]])[|log|] != (log + [[1]])[|log|];
  }

  lemma FallsBack(crc: Crc, d: Image, loc: nat, prev: nat, sh0: Shape, log: seq<Body>, body: Body)
    requires 0 in d.dirs && WholePointer(d.durable) && loc != prev && Location(d.durable) == prev
    requires HasSegment(d, loc) && At(crc, d, prev, sh0) && BodyOk(body)
    requires Trustworthy(crc, d, loc, log)
    ensures Replay(crc, HardenAll(d.dirs[prev].segs)) == Some(log + [body])
  {
    var d1 := Acked(crc, d, loc, body);
    assert d1.dirs[prev] == d.dirs[prev];
    hide Holds, Replay, Frame, Survives;
    var n := |d.dirs[prev].segs|;
    OutcomeSurvives(crc, d1, d.durable, prev, sh0);
    var d2 := Outcome(d1, d.durable, prev, n);
    assert d.dirs[prev].segs[..n] == d.dirs[prev].segs;
    assert Recovers(crc, d1, log + [body], |log| + 1, None);
    assert Survives(d1, d2);
    assert IsCut(Opened(crc, d2).value, log + [body], |log| + 1);
    WholeCut(Opened(crc, d2).value, log + [body]);
  }

  /** The newest segment's name was never durable: the segment may vanish, record and all. */
  lemma UnlinkedLoses(crc: Crc, d: Image, sh: Shape, body: Body)
    requires 0 in d.dirs && WholePointer(d.visible)
    requires At(crc, d, Location(d.visible), sh) && HasSegment(d, Location(d.visible))
             && !Last(d, Location(d.visible)).linked
    ensures !Recovers(crc, Acked(crc, d, Location(d.visible), body), LogOf(sh) + [body], |LogOf(sh)| + 1, None)
  {
    var loc := Location(d.visible);
    var d1, n := Acked(crc, d, loc, body), |d.dirs[loc].segs| - 1;
    var d2 := Outcome(d1, d.visible, loc, n);
    Vanishes(crc, d, sh, body);
    VanishedTail(crc, Last(d, loc), sh);
    hide Holds, Replay, Frame, Survives, Acked, Outcome;
    assert Survives(d1, d2) && |Opened(crc, d2).value| == |LogOf(sh)|;
  }

  lemma Vanishes(crc: Crc, d: Image, sh: Shape, body: Body)
    requires 0 in d.dirs && WholePointer(d.visible)
    requires At(crc, d, Location(d.visible), sh) && HasSegment(d, Location(d.visible))
             && !Last(d, Location(d.visible)).linked
    ensures
      var loc := Location(d.visible);
      var d1, n := Acked(crc, d, loc, body), |d.dirs[loc].segs| - 1;
      && n <= |d1.dirs[loc].segs|
      && Survives(d1, Outcome(d1, d.visible, loc, n))
      && Opened(crc, Outcome(d1, d.visible, loc, n)) == Some(Flatten(sh.front))
  {
    var loc := Location(d.visible);
    var segs, d1, n := d.dirs[loc].segs, Acked(crc, d, loc, body), |d.dirs[loc].segs| - 1;
    var front := HardenAll(d1.dirs[loc].segs[..n]);
    assert d1.dirs[loc].segs[..n] == segs[..n];
    forall i | 0 <= i < n
      ensures SegmentSurvives(segs[i], front[i]) && d1.dirs[loc].segs[i] == segs[i]
    {
      SegmentsFit(crc, segs, sh, i);
    }
    ClosedSurvive(crc, segs[..n], sh.front, front);
    ReplayClosed(crc, front, sh.front, []);
    assert front + [] == front && Flatten(sh.front) + [] == Flatten(sh.front);
  }

  // ---- Images of this kind that the log goes through ---------------------------------------------------------

  /** Rotation, between the new segment and the sync of its directory: a log reopened there acknowledges
      records that a power loss takes back. */
  lemma RotationUntrusted(crc: Crc, d: Image, loc: nat, sh: Shape)
    requires Holding(crc, d, loc, sh, |LogOf(sh)|) && sh.m == 0 && |Last(d, loc).data| > 0
    requires Last(d, loc).linked && Last(d, loc).synced == |Last(d, loc).data|
    ensures
      var d' := Created(d, loc, |LogOf(sh)|);
      && HasSegment(d', loc) && Location(d'.visible) == loc && !Clean(d')
      && Opened(crc, d') == Some(LogOf(sh)) && !Trustworthy(crc, d', loc, LogOf(sh))
  {
    var d', sh' := Created(d, loc, |LogOf(sh)|), Shape(sh.front + [sh.chunk], [], sh.body, 0);
    CreateStep(crc, d, loc, sh);
    HoldingPointers(crc, d', loc, sh', |LogOf(sh)|);
    CleanMeans(crc, d', sh');
    hide Holding, LogOf, Trustworthy, Clean, Opened, Holds;
    assert !Last(d', loc).linked;
    TrustworthyIffClean(crc, d', sh', sh');
    HoldingOpens(crc, d', loc, sh', |LogOf(sh)|);
  }

  lemma HoldingPointers(crc: Crc, d: Image, loc: nat, sh: Shape, min: nat)
    requires Holding(crc, d, loc, sh, min)
    ensures 0 in d.dirs && WholePointer(d.visible) && d.visible == d.durable && Location(d.visible) == loc
             && At(crc, d, loc, sh)
  {
  }

  lemma HoldingOpens(crc: Crc, d: Image, loc: nat, sh: Shape, min: nat)
    requires Holding(crc, d, loc, sh, min)
    ensures Opened(crc, d) == Some(LogOf(sh))
  {
    ReplayShape(crc, d.dirs[loc].segs, sh);
  }

  /** Compaction, between the rename of CURRENT and the sync of the data directory. */
  lemma RenameUntrusted(crc: Crc, d: Image, loc: nat, sh: Shape, min: nat, size: nat, g: nat, sh': Shape,
      snapshot: seq<Body>)
    requires Prepared(crc, d, loc, sh, min, size, g, sh', snapshot) && d.tmp == Names(g, true)
    ensures
      var d' := Renamed(d);
      && HasSegment(d', g) && Location(d'.visible) == g && !Clean(d')
      && Opened(crc, d') == Some(snapshot) && !Trustworthy(crc, d', g, snapshot)
  {
    var d' := Renamed(d);
    assert WholePointer(d'.visible) && WholePointer(d'.durable) && Location(d'.visible) == g
        && Location(d'.durable) == loc;
    assert At(crc, d', g, sh') && At(crc, d', loc, sh);
    hide Prepared, LogOf, Trustworthy, Holds;
    TrustworthyIffClean(crc, d', sh', sh);
    ReplayShape(crc, d'.dirs[g].segs, sh');
  }
}
