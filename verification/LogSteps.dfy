/** One system call at a time: what each does to the shape a log directory holds, and why the
    image after it is sound. */
module LogSteps {
  import opened Options
  import opened Frames
  import opened Disk
  import opened Recovery
  import opened LogOps
  import opened CrashSafety
  import opened Devices

  /** Every image after the first ones is sound: stopping there loses nothing that was promised. */
  ghost predicate SoundSince(crc: Crc, first: seq<Image>, seen: seq<Image>, log: seq<Body>, min: nat,
      alt: Option<seq<Body>>) {
    first <= seen && forall i :: |first| <= i < |seen| ==> Sound(crc, seen[i], log, min, alt)
  }

  lemma SoundNone(crc: Crc, first: seq<Image>, log: seq<Body>, min: nat, alt: Option<seq<Body>>)
    ensures SoundSince(crc, first, first, log, min, alt)
  {
  }

  lemma KeptIsSound(crc: Crc, d: Image, loc: nat, sh: Shape, log: seq<Body>, min: nat, alt: Option<seq<Body>>)
    requires 0 in d.dirs && Settled(d, loc) && At(crc, d, loc, sh) && LogOf(sh) <= log
             && min <= DurableCount(crc, d.dirs[loc].segs, sh)
    ensures Sound(crc, d, log, min, alt)
  {
    assert SoundBy(crc, d, log, min, alt, Plain(loc, sh));
  }

  /** The settled directory loc holds sh, and stopping now loses nothing below min. */
  ghost predicate Holding(crc: Crc, d: Image, loc: nat, sh: Shape, min: nat) {
    && 0 in d.dirs && Settled(d, loc) && At(crc, d, loc, sh) && HasSegment(d, loc)
    && min <= DurableCount(crc, d.dirs[loc].segs, sh)
  }

  lemma HoldingSound(crc: Crc, d: Image, loc: nat, sh: Shape, min: nat, log: seq<Body>)
    requires Holding(crc, d, loc, sh, min) && LogOf(sh) <= log
    ensures Sound(crc, d, log, min, None)
  {
    KeptIsSound(crc, d, loc, sh, log, min, None);
  }

  /** One more image, holding a shape whose log may lack undurable records at its end. */
  lemma SoundMore(crc: Crc, first: seq<Image>, seen: seq<Image>, d: Image, loc: nat, sh: Shape, min: nat,
      log: seq<Body>, min': nat)
    requires Holding(crc, d, loc, sh, min) && LogOf(sh) <= log && min' <= min
    requires SoundSince(crc, first, seen, log, min', None)
    ensures Sound(crc, d, log, min, None) && SoundSince(crc, first, seen + [d], log, min', None)
  {
    HoldingSound(crc, d, loc, sh, min, log);
    KeptIsSound(crc, d, loc, sh, log, min', None);
  }

  lemma SyncStep(crc: Crc, d: Image, loc: nat, sh: Shape, min: nat)
    requires Holding(crc, d, loc, sh, min)
    ensures Holding(crc, SyncedData(d, loc), loc, sh, |LogOf(sh)|) && HasSegment(SyncedData(d, loc), loc)
    ensures Last(SyncedData(d, loc), loc) == Last(d, loc).(synced := |Last(d, loc).data|)
  {
    SyncShape(crc, d, loc, sh);
  }

  lemma CreateStep(crc: Crc, d: Image, loc: nat, sh: Shape)
    requires Holding(crc, d, loc, sh, |LogOf(sh)|) && sh.m == 0 && |Last(d, loc).data| > 0
    requires Last(d, loc).linked && Last(d, loc).synced == |Last(d, loc).data|
    ensures
      var d', sh' := Created(d, loc, |LogOf(sh)|), Shape(sh.front + [sh.chunk], [], sh.body, 0);
      && Holding(crc, d', loc, sh', |LogOf(sh)|) && LogOf(sh') == LogOf(sh) && HasSegment(d', loc)
          && Last(d', loc).data == []
  {
    LastOf(crc, d, loc, sh);
    assert sh.chunk != [];
    hide Holds, Flatten;
    CreateShape(crc, d, loc, sh);
  }

  lemma DirStep(crc: Crc, d: Image, loc: nat, sh: Shape, min: nat)
    requires Holding(crc, d, loc, sh, min)
    ensures Holding(crc, SyncedDir(d, loc), loc, sh, min) && HasSegment(SyncedDir(d, loc), loc)
    ensures Last(SyncedDir(d, loc), loc) == Last(d, loc).(linked := true)
  {
    SyncDirShape(crc, d, loc, sh);
  }

  /** Soundness for a log holds for the log with one more record. */
  lemma SoundLonger(crc: Crc, first: seq<Image>, seen: seq<Image>, log: seq<Body>, body: Body, min: nat)
    requires SoundSince(crc, first, seen, log, min, None)
    ensures SoundSince(crc, first, seen, log + [body], min, None)
  {
    forall i | |first| <= i < |seen| ensures Sound(crc, seen[i], log + [body], min, None) {
      assert Sound(crc, seen[i], log, min, None);
      var w :| SoundBy(crc, seen[i], log, min, None, w);
      assert SoundBy(crc, seen[i], log + [body], min, None, w);
    }
  }

  lemma SoundJoined(crc: Crc, first: seq<Image>, seen1: seq<Image>, seen2: seq<Image>, log: seq<Body>, min: nat,
      min': nat, alt: Option<seq<Body>>)
    requires SoundSince(crc, first, seen1, log, min, alt) && SoundSince(crc, seen1, seen2, log, min', alt)
             && min <= min'
    ensures SoundSince(crc, first, seen2, log, min, alt)
  {
    forall i | |first| <= i < |seen2| ensures Sound(crc, seen2[i], log, min, alt) {
      if i < |seen1| { assert seen2[i] == seen1[i]; }
      else {
        assert Sound(crc, seen2[i], log, min', alt);
        var w :| SoundBy(crc, seen2[i], log, min', alt, w);
        assert SoundBy(crc, seen2[i], log, min, alt, w);
      }
    }
  }

  lemma SoundEither(crc: Crc, first: seq<Image>, seen: seq<Image>, log: seq<Body>, min: nat, alt: Option<seq<Body>>)
    requires SoundSince(crc, first, seen, log, min, None)
    ensures SoundSince(crc, first, seen, log, min, alt)
  {
    forall i | |first| <= i < |seen| ensures Sound(crc, seen[i], log, min, alt) {
      assert Sound(crc, seen[i], log, min, None);
      var w :| SoundBy(crc, seen[i], log, min, None, w);
      assert SoundBy(crc, seen[i], log, min, alt, w);
    }
  }

  lemma ReadyHolds(crc: Crc, d: Image, loc: nat, sh: Shape, min: nat)
    requires 0 in d.dirs && Ready(crc, d, loc, sh) && min <= DurableCount(crc, d.dirs[loc].segs, sh)
    ensures Holding(crc, d, loc, sh, min) && HasSegment(d, loc) && sh.m == 0 && Last(d, loc).linked
            && min <= |LogOf(sh)|
  {
  }

  lemma HoldingReady(crc: Crc, d: Image, loc: nat, sh: Shape, min: nat)
    requires Holding(crc, d, loc, sh, min) && sh.m == 0 && HasSegment(d, loc) && Last(d, loc).linked
    ensures Ready(crc, d, loc, sh) && 0 in d.dirs && min <= DurableCount(crc, d.dirs[loc].segs, sh)
  {
  }

  function AfterWrite(crc: Crc, sh: Shape, k: nat): Shape {
    if sh.m + k < |Frame(crc, sh.body)| then sh.(m := sh.m + k) else Shape(sh.front, sh.chunk + [sh.body], sh.body, 0)
  }

  lemma WriteStep(crc: Crc, d: Image, loc: nat, sh: Shape, min: nat, k: nat)
    requires Holding(crc, d, loc, sh, min) && Last(d, loc).linked && 0 < k && sh.m + k <= |Frame(crc, sh.body)|
    ensures
      var d', sh' := Wrote(d, loc, Frame(crc, sh.body)[sh.m..sh.m + k]), AfterWrite(crc, sh, k);
      && Holding(crc, d', loc, sh', min) && Last(d', loc).linked && |Last(d', loc).data| == |Last(d, loc).data| + k
      && (sh.m + k < |Frame(crc, sh.body)| ==> LogOf(sh') == LogOf(sh))
      && (sh.m + k == |Frame(crc, sh.body)| ==> LogOf(sh') == LogOf(sh) + [sh.body])
  {
    hide Holds, Whole, FramesOf, Frame;
    if sh.m + k < |Frame(crc, sh.body)| {
      WritePart(crc, d, loc, sh, k);
    } else {
      assert Frame(crc, sh.body)[sh.m..sh.m + k] == Frame(crc, sh.body)[sh.m..];
      WriteRest(crc, d, loc, sh);
    }
  }

  lemma BodyStep(crc: Crc, d: Image, loc: nat, sh: Shape, min: nat, body: Body)
    requires Holding(crc, d, loc, sh, min) && sh.m == 0 && BodyOk(body)
    ensures Holding(crc, d, loc, sh.(body := body), min) && LogOf(sh.(body := body)) == LogOf(sh)
  {
    NextBody(crc, d, loc, sh, body);
  }

  /** k bytes of the frame of body after a clean log. */
  lemma PartHolds(crc: Crc, d: Image, loc: nat, sh: Shape, min: nat, body: Body, k: nat)
    requires Holding(crc, d, loc, sh, min) && sh.m == 0 && Last(d, loc).linked && BodyOk(body)
             && k <= |Frame(crc, body)|
    ensures
      var d', sh' := Wrote(d, loc, Frame(crc, body)[..k]), AfterWrite(crc, sh.(body := body), k);
      && Holding(crc, d', loc, sh', min) && HasSegment(d', loc) && Last(d', loc).linked
      && |Last(d', loc).data| == |Last(d, loc).data| + k
      && (k < |Frame(crc, body)| ==> LogOf(sh') == LogOf(sh))
      && (k == |Frame(crc, body)| ==> LogOf(sh') == LogOf(sh) + [body] && sh'.m == 0)
  {
    assert |Frame(crc, body)| == HEADER + |body|;
    hide Holding, LogOf, Frame;
    BodyStep(crc, d, loc, sh, min, body);
    if k == 0 {
      WroteNone(d, loc, Frame(crc, body));
      SegmentThere(crc, d, loc, sh, min);
    } else {
      WriteStep(crc, d, loc, sh.(body := body), min, k);
      assert Frame(crc, body)[0..0 + k] == Frame(crc, body)[..k];
    }
  }

  lemma SegmentThere(crc: Crc, d: Image, loc: nat, sh: Shape, min: nat)
    requires Holding(crc, d, loc, sh, min)
    ensures HasSegment(d, loc) && 0 in d.dirs
  {
  }

  lemma PartsSound(crc: Crc, d: Image, loc: nat, sh: Shape, min: nat, body: Body, first: seq<Image>, seen: seq<Image>)
    requires Holding(crc, d, loc, sh, min) && sh.m == 0 && HasSegment(d, loc) && Last(d, loc).linked && BodyOk(body)
    requires AllParts(d, first, seen, loc, Frame(crc, body))
    ensures SoundSince(crc, first, seen, LogOf(sh) + [body], min, None)
  {
    hide Holding, LogOf, Frame, Sound;
    forall i | |first| <= i < |seen| ensures Sound(crc, seen[i], LogOf(sh) + [body], min, None) {
      assert PartOf(d, seen[i], loc, Frame(crc, body));
      var k :| 0 < k <= |Frame(crc, body)| && seen[i] == Wrote(d, loc, Frame(crc, body)[..k]);
      PartHolds(crc, d, loc, sh, min, body, k);
      HoldingSound(crc, seen[i], loc, AfterWrite(crc, sh.(body := body), k), min, LogOf(sh) + [body]);
    }
  }

  lemma TornSound(crc: Crc, d: Image, loc: nat, sh: Shape, min: nat, body: Body, d': Image)
    requires Holding(crc, d, loc, sh, min) && sh.m == 0 && HasSegment(d, loc) && Last(d, loc).linked && BodyOk(body)
    requires Torn(d, d', loc, Frame(crc, body))
    ensures Sound(crc, d', LogOf(sh), min, None) && 0 in d'.dirs
  {
    hide Holding, LogOf, Frame, Sound;
    var k :| 0 <= k < |Frame(crc, body)| && d' == Wrote(d, loc, Frame(crc, body)[..k]);
    PartHolds(crc, d, loc, sh, min, body, k);
    HoldingSound(crc, d', loc, AfterWrite(crc, sh.(body := body), k), min, LogOf(sh));
    SegmentThere(crc, d', loc, AfterWrite(crc, sh.(body := body), k), min);
  }

  lemma FrameSize(crc: Crc, body: Body)
    ensures |Frame(crc, body)| == HEADER + |body|
  {
  }

  lemma FrameStep(crc: Crc, d: Image, loc: nat, sh: Shape, min: nat, body: Body) returns (sh': Shape)
    requires Holding(crc, d, loc, sh, min) && sh.m == 0 && HasSegment(d, loc) && Last(d, loc).linked && BodyOk(body)
    ensures
      var d' := Wrote(d, loc, Frame(crc, body));
      && Holding(crc, d', loc, sh', min) && HasSegment(d', loc) && Last(d', loc).linked && sh'.m == 0
      && |Last(d', loc).data| == |Last(d, loc).data| + HEADER + |body| && LogOf(sh') == LogOf(sh) + [body]
  {
    PartHolds(crc, d, loc, sh, min, body, |Frame(crc, body)|);
    assert Frame(crc, body)[..|Frame(crc, body)|] == Frame(crc, body);
    sh' := sh.(chunk := sh.chunk + [body], body := body);
  }
}
