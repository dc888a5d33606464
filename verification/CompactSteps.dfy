/** Compaction: a new generation is written aside, made durable, and CURRENT is moved to it. */
module CompactSteps {
  import opened Bytes
  import opened Options
  import opened Frames
  import opened Disk
  import opened Recovery
  import opened CrashSafety
  import opened Devices
  import opened LogSteps
  import opened OpenSteps

  const MAX_GENERATION: nat := 0xffff_ffff_ffff_ffff

  /** The directory of the last generation there is a name for already exists. */
  predicate NamesUsedUp(d: Image) {
    exists x :: x in d.dirs && x >= MAX_GENERATION
  }

  // ---- Work aside -------------------------------------------------------------------------------------

  /** Neither CURRENT nor directory loc differs. */
  predicate Aside(d: Image, d': Image, loc: nat) {
    && d'.visible == d.visible && d'.durable == d.durable
    && loc in d.dirs && loc in d'.dirs && d'.dirs[loc] == d.dirs[loc] && 0 in d'.dirs
  }

  predicate AsideSince(d: Image, first: seq<Image>, seen: seq<Image>, loc: nat) {
    first <= seen && forall i :: |first| <= i < |seen| ==> Aside(d, seen[i], loc)
  }

  lemma AsideNone(d: Image, first: seq<Image>, loc: nat)
    ensures AsideSince(d, first, first, loc)
  {
  }

  lemma AsideMore(d: Image, first: seq<Image>, seen: seq<Image>, loc: nat, d': Image)
    requires AsideSince(d, first, seen, loc) && Aside(d, d', loc)
    ensures AsideSince(d, first, seen + [d'], loc)
  {
  }

  lemma AsideHolding(crc: Crc, d: Image, d': Image, loc: nat, sh: Shape, min: nat)
    requires Holding(crc, d, loc, sh, min) && Aside(d, d', loc)
    ensures Holding(crc, d', loc, sh, min)
  {
  }

  lemma AsideSound(crc: Crc, d: Image, loc: nat, sh: Shape, min: nat, log: seq<Body>, first: seq<Image>,
      seen: seq<Image>)
    requires Holding(crc, d, loc, sh, min) && LogOf(sh) <= log && AsideSince(d, first, seen, loc)
    ensures SoundSince(crc, first, seen, log, min, None)
  {
    hide Holding, Sound, LogOf, Aside;
    forall i | |first| <= i < |seen| ensures Sound(crc, seen[i], log, min, None) {
      AsideHolding(crc, d, seen[i], loc, sh, min);
      HoldingSound(crc, seen[i], loc, sh, min, log);
    }
  }

  lemma AsideJoined(d: Image, first: seq<Image>, seen1: seq<Image>, seen2: seq<Image>, loc: nat)
    requires AsideSince(d, first, seen1, loc) && AsideSince(d, seen1, seen2, loc)
    ensures AsideSince(d, first, seen2, loc)
  {
    forall i | |first| <= i < |seen2| ensures Aside(d, seen2[i], loc) {
      if i < |seen1| { assert seen2[i] == seen1[i]; }
    }
  }

  // ---- The draft of a generation ----------------------------------------------------------------------

  /** Directory g as it will be once its entries are synced. */
  function DraftView(d: Image, g: nat): Image
    requires g in d.dirs
  {
    Image(map[0 := Dir([], true), g := Dir(LinkAll(d.dirs[g].segs), true)], Names(g, true), Names(g, true), Absent)
  }

  /** Directory g holds the records of sh; min of them are synced. */
  ghost predicate Drafted(crc: Crc, d: Image, g: nat, sh: Shape, min: nat) {
    && 1 <= g && HasSegment(d, g) && sh.m == 0
    && Holding(crc, DraftView(d, g), g, sh, min)
  }

  lemma ViewLast(d: Image, g: nat)
    requires HasSegment(d, g)
    ensures HasSegment(DraftView(d, g), g) && Last(DraftView(d, g), g) == Last(d, g).(linked := true)
  {
  }

  lemma ViewSet(d: Image, g: nat, s: Segment)
    requires HasSegment(d, g)
    ensures HasSegment(DraftView(d, g), g)
    ensures DraftView(SetLast(d, g, s), g) == SetLast(DraftView(d, g), g, s.(linked := true))
  {
    var segs, v, w := d.dirs[g].segs, DraftView(SetLast(d, g, s), g), SetLast(DraftView(d, g), g, s.(linked := true));
    assert v.dirs[g].segs == w.dirs[g].segs;
    assert v.dirs == w.dirs;
  }

  lemma ViewWrote(d: Image, g: nat, bytes: seq<byte>)
    requires HasSegment(d, g)
    ensures HasSegment(DraftView(d, g), g) && DraftView(Wrote(d, g, bytes), g) == Wrote(DraftView(d, g), g, bytes)
  {
    ViewLast(d, g);
    ViewSet(d, g, Last(d, g).(data := Last(d, g).data + bytes));
  }

  lemma ViewSynced(d: Image, g: nat)
    requires HasSegment(d, g)
    ensures HasSegment(DraftView(d, g), g) && DraftView(SyncedData(d, g), g) == SyncedData(DraftView(d, g), g)
  {
    ViewLast(d, g);
    ViewSet(d, g, Last(d, g).(synced := |Last(d, g).data|));
  }

  lemma ViewCreated(d: Image, g: nat, start: nat)
    requires g in d.dirs && g != 0
    ensures DraftView(Created(d, g, start), g) == SyncedDir(Created(DraftView(d, g), g, start), g)
  {
    var v, w := DraftView(Created(d, g, start), g), SyncedDir(Created(DraftView(d, g), g, start), g);
    assert v.dirs[g].segs == w.dirs[g].segs;
    assert v.dirs == w.dirs;
  }

  lemma DraftThere(crc: Crc, d: Image, g: nat, sh: Shape, min: nat)
    requires Drafted(crc, d, g, sh, min)
    ensures HasSegment(d, g) && g != 0
  {
  }

  lemma DraftLess(crc: Crc, d: Image, g: nat, sh: Shape, min: nat)
    requires Drafted(crc, d, g, sh, min)
    ensures Drafted(crc, d, g, sh, 0)
  {
  }

  lemma DraftFirst(crc: Crc, d: Image, g: nat)
    requires g in d.dirs && 1 <= g && d.dirs[g].segs == []
    ensures
      var d', sh := Created(d, g, 0), Shape([], [], [0], 0);
      Drafted(crc, d', g, sh, 0) && Last(d', g).data == [] && LogOf(sh) == []
  {
    var d', sh := Created(d, g, 0), Shape([], [], [0], 0);
    hide Holding;
    FirstStep(crc, DraftView(d, g), g);
    DirStep(crc, Created(DraftView(d, g), g, 0), g, sh, 0);
    ViewCreated(d, g, 0);
  }

  lemma DraftFrame(crc: Crc, d: Image, g: nat, sh: Shape, min: nat, body: Body) returns (sh': Shape)
    requires Drafted(crc, d, g, sh, min) && BodyOk(body)
    ensures
      var d' := Wrote(d, g, Frame(crc, body));
      && Drafted(crc, d', g, sh', min) && LogOf(sh') == LogOf(sh) + [body]
      && |Last(d', g).data| == |Last(d, g).data| + HEADER + |body|
  {
    hide Holding, LogOf, DraftView, Wrote, Last, Frame;
    var d' := Wrote(d, g, Frame(crc, body));
    ViewLast(d, g);
    sh' := FrameStep(crc, DraftView(d, g), g, sh, min, body);
    ViewWrote(d, g, Frame(crc, body));
    WroteHas(d, g, Frame(crc, body));
    ViewLast(d', g);
  }

  lemma WroteHas(d: Image, g: nat, bytes: seq<byte>)
    requires HasSegment(d, g)
    ensures HasSegment(Wrote(d, g, bytes), g)
  {
  }

  lemma DraftSync(crc: Crc, d: Image, g: nat, sh: Shape, min: nat)
    requires Drafted(crc, d, g, sh, min)
    ensures
      var d' := SyncedData(d, g);
      Drafted(crc, d', g, sh, |LogOf(sh)|) && Last(d', g) == Last(d, g).(synced := |Last(d, g).data|)
  {
    hide Holding, LogOf, DraftView;
    ViewLast(d, g);
    SyncStep(crc, DraftView(d, g), g, sh, min);
    ViewSynced(d, g);
  }

  lemma DraftRotate(crc: Crc, d: Image, g: nat, sh: Shape)
    requires Drafted(crc, d, g, sh, |LogOf(sh)|) && |Last(d, g).data| > 0 && Last(d, g).synced == |Last(d, g).data|
    ensures
      var d', sh' := Created(d, g, |LogOf(sh)|), Shape(sh.front + [sh.chunk], [], sh.body, 0);
      Drafted(crc, d', g, sh', |LogOf(sh)|) && LogOf(sh') == LogOf(sh) && Last(d', g).data == []
  {
    hide Holding, LogOf, DraftView;
    var n, sh' := |LogOf(sh)|, Shape(sh.front + [sh.chunk], [], sh.body, 0);
    ViewLast(d, g);
    CreateStep(crc, DraftView(d, g), g, sh);
    DirStep(crc, Created(DraftView(d, g), g, n), g, sh', n);
    ViewCreated(d, g, n);
  }

  /** Everything aside from loc. */
  lemma DraftAside(d0: Image, d: Image, g: nat, loc: nat)
    requires Aside(d0, d, loc) && g in d.dirs && g != loc && g != 0
    ensures forall start :: Aside(d0, Created(d, g, start), loc)
    ensures HasSegment(d, g) ==> Aside(d0, SyncedData(d, g), loc)
    ensures forall bytes :: HasSegment(d, g) ==> Aside(d0, Wrote(d, g, bytes), loc)
    ensures Aside(d0, SyncedDir(d, g), loc)
  {
  }

  lemma PartsAside(d0: Image, d: Image, g: nat, loc: nat, bytes: seq<byte>, first: seq<Image>, seen: seq<Image>,
      seen': seq<Image>)
    requires Aside(d0, d, loc) && HasSegment(d, g) && g != loc && g != 0
    requires AsideSince(d0, first, seen, loc) && AllParts(d, seen, seen', g, bytes)
    ensures AsideSince(d0, first, seen', loc)
  {
    forall i | |first| <= i < |seen'| ensures Aside(d0, seen'[i], loc) {
      if i < |seen| { assert seen'[i] == seen[i]; }
      else {
        assert PartOf(d, seen'[i], g, bytes);
      }
    }
  }

  lemma TornAside(d0: Image, d: Image, g: nat, loc: nat, bytes: seq<byte>, d': Image)
    requires Aside(d0, d, loc) && HasSegment(d, g) && g != loc && g != 0 && Torn(d, d', g, bytes)
    ensures Aside(d0, d', loc) && HasSegment(d', g)
  {
  }

  // ---- Moving CURRENT ------------------------------------------------------------------------------------

  /** The running log, undisturbed. */
  ghost predicate InPlace(crc: Crc, d: Image, loc: nat, sh: Shape, min: nat, size: nat) {
    Holding(crc, d, loc, sh, min) && HasSegment(d, loc) && Last(d, loc).linked && |Last(d, loc).data| == size
        && sh.m == 0
  }

  lemma AsideInPlace(crc: Crc, d: Image, d': Image, loc: nat, sh: Shape, min: nat, size: nat)
    requires InPlace(crc, d, loc, sh, min, size) && Aside(d, d', loc)
    ensures InPlace(crc, d', loc, sh, min, size)
  {
  }

  lemma MadeAside(crc: Crc, d: Image, g: nat, loc: nat, sh: Shape, min: nat, size: nat)
    requires InPlace(crc, d, loc, sh, min, size) && g !in d.dirs
    ensures InPlace(crc, MadeDir(d, g), loc, sh, min, size) && loc != g && loc in MadeDir(d, g).dirs
            && 0 in MadeDir(d, g).dirs
  {
    assert Aside(d, MadeDir(d, g), loc);
  }

  lemma MadeEmpty(d: Image, g: nat)
    requires g !in d.dirs
    ensures g in MadeDir(d, g).dirs && MadeDir(d, g).dirs[g].segs == []
  {
  }

  lemma PlaceSound(crc: Crc, first: seq<Image>, seen: seq<Image>, d: Image, loc: nat, sh: Shape, min: nat, size: nat)
    requires InPlace(crc, d, loc, sh, min, size) && SoundSince(crc, first, seen, LogOf(sh), min, None)
    ensures SoundSince(crc, first, seen + [d], LogOf(sh), min, None)
  {
    hide Holding, LogOf, SoundSince;
    SoundMore(crc, first, seen, d, loc, sh, min, LogOf(sh), min);
  }

  lemma PlaceAside(crc: Crc, first: seq<Image>, seen: seq<Image>, seen': seq<Image>, d: Image, loc: nat, sh: Shape,
      min: nat, size: nat)
    requires InPlace(crc, d, loc, sh, min, size) && SoundSince(crc, first, seen, LogOf(sh), min, None)
             && AsideSince(d, seen, seen', loc)
    ensures SoundSince(crc, first, seen', LogOf(sh), min, None)
  {
    hide Holding, LogOf, SoundSince, AsideSince;
    AsideSound(crc, d, loc, sh, min, LogOf(sh), seen, seen');
    SoundJoined(crc, first, seen, seen', LogOf(sh), min, min, None);
  }

  /** Beside the running log, a durable generation g that holds exactly the snapshot. */
  ghost predicate Prepared(crc: Crc, d: Image, loc: nat, sh: Shape, min: nat, size: nat, g: nat, sh': Shape,
      snapshot: seq<Body>) {
    && InPlace(crc, d, loc, sh, min, size) && g != loc && 1 <= g
    && HasSegment(d, g) && At(crc, d, g, sh') && sh'.m == 0 && Last(d, g).linked
    && LogOf(sh') == snapshot && DurableCount(crc, d.dirs[g].segs, sh') == |snapshot|
  }

  lemma PreparedPlace(crc: Crc, d: Image, loc: nat, sh: Shape, min: nat, size: nat, g: nat, sh': Shape,
      snapshot: seq<Body>)
    requires Prepared(crc, d, loc, sh, min, size, g, sh', snapshot)
    ensures InPlace(crc, d, loc, sh, min, size) && 0 in d.dirs && g != loc && 1 <= g && LogOf(sh') == snapshot
            && sh'.m == 0
    ensures HasSegment(d, g) && Last(d, g).linked
  {
  }

  lemma RootStep(crc: Crc, d: Image, loc: nat, sh: Shape, min: nat, size: nat)
    requires InPlace(crc, d, loc, sh, min, size)
    ensures 0 in d.dirs && InPlace(crc, SyncedDir(d, 0), loc, sh, min, size)
  {
    if loc == 0 {
      hide Holds, DurableCount;
      DirStep(crc, d, loc, sh, min);
    } else {
      assert Aside(d, SyncedDir(d, 0), loc);
      hide Holding, Aside;
      AsideInPlace(crc, d, SyncedDir(d, 0), loc, sh, min, size);
    }
  }

  lemma DraftDone(crc: Crc, d: Image, loc: nat, sh: Shape, min: nat, size: nat, g: nat, sh': Shape, snapshot: seq<Body>)
    requires InPlace(crc, d, loc, sh, min, size) && g != loc
    requires Drafted(crc, d, g, sh', |snapshot|) && LogOf(sh') == snapshot
    ensures g in d.dirs && InPlace(crc, SyncedDir(d, g), loc, sh, min, size) && 0 in SyncedDir(d, g).dirs
    ensures
      var d' := SyncedDir(SyncedDir(d, g), 0);
      Prepared(crc, d', loc, sh, min, size, g, sh', snapshot) && Last(d', g).data == Last(d, g).data
  {
    var d1 := SyncedDir(d, g);
    var d' := SyncedDir(d1, 0);
    AsideInPlace(crc, d, d1, loc, sh, min, size);
    RootStep(crc, d1, loc, sh, min, size);
    assert d'.dirs[g] == DraftView(d, g).dirs[g];
    DurableAtMost(crc, d'.dirs[g].segs, sh');
    hide Holds, LogOf, Whole;
  }

  lemma TmpStep(crc: Crc, d: Image, loc: nat, sh: Shape, min: nat, size: nat, g: nat, sh': Shape,
      snapshot: seq<Body>, tmp: Pointer)
    requires Prepared(crc, d, loc, sh, min, size, g, sh', snapshot)
    ensures Prepared(crc, d.(tmp := tmp), loc, sh, min, size, g, sh', snapshot)
  {
  }

  /** CURRENT renamed, not yet durable: either generation may come back. */
  lemma RenameStep(crc: Crc, d: Image, loc: nat, sh: Shape, min: nat, size: nat, g: nat, sh': Shape,
      snapshot: seq<Body>)
    requires Prepared(crc, d, loc, sh, min, size, g, sh', snapshot) && d.tmp == Names(g, true)
    ensures Sound(crc, Renamed(d), LogOf(sh), min, Some(snapshot))
  {
    hide Holds, LogOf;
    assert SoundBy(crc, Renamed(d), LogOf(sh), min, Some(snapshot), Switching(loc, sh, g, sh'));
  }

  /** The rename made durable: the log is the snapshot. */
  lemma SettleStep(crc: Crc, d: Image, loc: nat, sh: Shape, min: nat, size: nat, g: nat, sh': Shape,
      snapshot: seq<Body>)
    requires Prepared(crc, d, loc, sh, min, size, g, sh', snapshot) && d.tmp == Names(g, true)
    ensures InPlace(crc, SyncedDir(Renamed(d), 0), g, sh', |snapshot|, |Last(d, g).data|)
  {
    hide Holds, LogOf, Whole;
    var d' := SyncedDir(Renamed(d), 0);
    assert d'.dirs[g] == d.dirs[g];
  }

  lemma InstalledSound(crc: Crc, d: Image, g: nat, sh: Shape, snapshot: seq<Body>, log: seq<Body>, min: nat)
    requires Holding(crc, d, g, sh, |snapshot|) && LogOf(sh) == snapshot
    ensures 0 in d.dirs && Sound(crc, d, log, min, Some(snapshot)) && Sound(crc, d, snapshot, |snapshot|, None)
  {
    DurableAtMost(crc, d.dirs[g].segs, sh);
    hide Holds, LogOf, Whole;
    assert SoundBy(crc, d, log, min, Some(snapshot), Plain(g, sh));
    KeptIsSound(crc, d, g, sh, snapshot, |snapshot|, None);
  }

  lemma AsideInstalled(crc: Crc, d: Image, g: nat, sh: Shape, snapshot: seq<Body>, log: seq<Body>, min: nat,
      first: seq<Image>, seen: seq<Image>)
    requires Holding(crc, d, g, sh, |snapshot|) && LogOf(sh) == snapshot && AsideSince(d, first, seen, g)
    ensures SoundSince(crc, first, seen, log, min, Some(snapshot))
  {
    hide Holding, Sound, LogOf, Aside;
    forall i | |first| <= i < |seen| ensures Sound(crc, seen[i], log, min, Some(snapshot)) {
      AsideHolding(crc, d, seen[i], g, sh, |snapshot|);
      InstalledSound(crc, seen[i], g, sh, snapshot, log, min);
    }
  }

  /** Old generations and old segments are unreachable from CURRENT. */
  lemma RemoveAside(d0: Image, d: Image, x: nat, loc: nat)
    requires Aside(d0, d, loc) && x in d.dirs && x != loc
    ensures Aside(d0, Removed(d, x), loc)
  {
  }

  lemma RootAside(crc: Crc, d0: Image, d: Image, loc: nat, sh: Shape, min: nat, size: nat)
    requires InPlace(crc, d0, loc, sh, min, size) && Aside(d0, d, loc) && loc != 0
    ensures 0 in d.dirs && Aside(d0, SyncedDir(d, 0), loc)
  {
  }

  /** Nothing is left but generation g, and the data directory without segments. */
  predicate OnlyGeneration(d: Image, g: nat) {
    forall x :: x in d.dirs ==> x == g || (x == 0 && d.dirs[x].segs == [])
  }

  predicate RestOnly(d: Image, g: nat, rest: set<nat>) {
    forall x :: x in d.dirs ==> x == g || x in rest || (x == 0 && d.dirs[x].segs == [])
  }

  lemma RestAll(d: Image, g: nat)
    ensures RestOnly(d, g, d.dirs.Keys - {g})
  {
  }

  lemma RestRemoved(d: Image, g: nat, rest: set<nat>, x: nat)
    requires RestOnly(d, g, rest) && x in d.dirs
    ensures RestOnly(Removed(d, x), g, rest - {x})
  {
  }

  /** Syncing the data directory removes nothing and adds nothing. */
  lemma RestNone(d: Image, g: nat)
    requires RestOnly(d, g, {}) && 0 in d.dirs
    ensures OnlyGeneration(SyncedDir(d, 0), g)
  {
  }

  lemma RemoveKeys(d: Image, x: nat)
    requires x in d.dirs
    ensures d.dirs.Keys - {x} <= Removed(d, x).dirs.Keys
  {
  }

  lemma RenamedHas(d: Image)
    ensures Renamed(d).dirs == d.dirs
  {
  }

  lemma AsideSelf(crc: Crc, d: Image, loc: nat, sh: Shape, min: nat, size: nat)
    requires InPlace(crc, d, loc, sh, min, size)
    ensures Aside(d, d, loc)
  {
  }

  lemma SoundNext(crc: Crc, first: seq<Image>, seen: seq<Image>, d: Image, log: seq<Body>, min: nat,
      alt: Option<seq<Body>>)
    requires SoundSince(crc, first, seen, log, min, alt) && Sound(crc, d, log, min, alt)
    ensures SoundSince(crc, first, seen + [d], log, min, alt)
  {
  }

  /** CURRENT.tmp itself promises nothing. */
  lemma PreparedSound(crc: Crc, first: seq<Image>, seen: seq<Image>, d: Image, loc: nat, sh: Shape, min: nat,
      size: nat, g: nat, sh': Shape, snapshot: seq<Body>)
    requires Prepared(crc, d, loc, sh, min, size, g, sh', snapshot)
    requires
      || seen == first
      || seen == first + [d.(tmp := Names(g, false))]
      || seen == first + [d.(tmp := Names(g, false)), d.(tmp := Names(g, true))]
    ensures SoundSince(crc, first, seen, LogOf(sh), min, Some(snapshot))
  {
    hide InPlace, LogOf, Sound;
    forall i | |first| <= i < |seen| ensures Sound(crc, seen[i], LogOf(sh), min, None) {
      var tmp := seen[i].tmp;
      assert seen[i] == d.(tmp := tmp);
      hide Prepared;
      TmpStep(crc, d, loc, sh, min, size, g, sh', snapshot, tmp);
      PreparedPlace(crc, seen[i], loc, sh, min, size, g, sh', snapshot);
      InPlaceHolds(crc, seen[i], loc, sh, min, size);
      HoldingSound(crc, seen[i], loc, sh, min, LogOf(sh));
    }
    SoundEither(crc, first, seen, LogOf(sh), min, Some(snapshot));
  }

  lemma InPlaceHolds(crc: Crc, d: Image, loc: nat, sh: Shape, min: nat, size: nat)
    requires InPlace(crc, d, loc, sh, min, size)
    ensures Holding(crc, d, loc, sh, min) && HasSegment(d, loc) && |Last(d, loc).data| == size
  {
  }

  lemma PlaceInstalled(crc: Crc, first: seq<Image>, seen: seq<Image>, d: Image, g: nat, sh: Shape, size: nat,
      snapshot: seq<Body>, log: seq<Body>, min: nat)
    requires SoundSince(crc, first, seen, log, min, Some(snapshot))
    requires InPlace(crc, d, g, sh, |snapshot|, size) && LogOf(sh) == snapshot
    ensures SoundSince(crc, first, seen + [d], log, min, Some(snapshot)) && HasSegment(d, g)
            && |Last(d, g).data| == size
  {
    hide Holding, Sound, LogOf;
    InstalledSound(crc, d, g, sh, snapshot, log, min);
  }

  lemma InstalledAside(crc: Crc, first: seq<Image>, seen: seq<Image>, seen': seq<Image>, d: Image, g: nat, sh: Shape,
      size: nat, snapshot: seq<Body>, log: seq<Body>, min: nat)
    requires SoundSince(crc, first, seen, log, min, Some(snapshot)) && AsideSince(d, seen, seen', g)
    requires InPlace(crc, d, g, sh, |snapshot|, size) && LogOf(sh) == snapshot
    ensures SoundSince(crc, first, seen', log, min, Some(snapshot))
  {
    hide Holding, Sound, LogOf, AsideSince, SoundSince;
    AsideInstalled(crc, d, g, sh, snapshot, log, min, seen, seen');
    SoundJoined(crc, first, seen, seen', log, min, min, Some(snapshot));
  }
}
