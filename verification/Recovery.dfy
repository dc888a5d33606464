/** What a reopened log contains after a power loss, for every shape the directory can be in. */
module Recovery {
  import opened Bytes
  import opened Options
  import opened Frames
  import opened Disk

  type Body = seq<byte>

  function Flatten(chunks: seq<seq<Body>>): seq<Body> {
    if chunks == [] then [] else chunks[0] + Flatten(chunks[1..])
  }

  lemma {:induction false} FlattenAppend(chunks: seq<seq<Body>>, c: seq<Body>)
    ensures Flatten(chunks + [c]) == Flatten(chunks) + c
  {
    if chunks == [] {
      assert [c][1..] == [] && Flatten([c]) == c + Flatten([]);
    } else {
      FlattenAppend(chunks[1..], c);
      assert (chunks + [c])[1..] == chunks[1..] + [c];
    }
  }

  // ---- The shape of a log directory --------------------------------------------------------------------

  /** A rotated-out segment: durable, and nothing but the frames of its chunk. */
  predicate ClosedSegment(crc: Crc, s: Segment, chunk: seq<Body>) {
    s.linked && s.synced == |s.data| && BodiesOk(chunk) && chunk != [] && s.data == FramesOf(crc, chunk)
  }

  predicate Closed(crc: Crc, segs: seq<Segment>, chunks: seq<seq<Body>>) {
    && |segs| == |chunks|
    && (forall i :: 0 <= i < |segs| ==>
        ClosedSegment(crc, segs[i], chunks[i]) && segs[i].start == |Flatten(chunks[..i])|)
  }

  /** The segment being written: frames of chunk, then the first m bytes of a frame of body. */
  predicate ActiveSegment(crc: Crc, s: Segment, chunk: seq<Body>, body: Body, m: nat) {
    && BodiesOk(chunk) && BodyOk(body) && m < |Frame(crc, body)|
    && s.data == FramesOf(crc, chunk) + Frame(crc, body)[..m]
    && s.synced <= |s.data| && (s.linked || s.data == [])
  }

  /** The directory holds the log front + chunk. */
  datatype Shape = Shape(front: seq<seq<Body>>, chunk: seq<Body>, body: Body, m: nat)

  function LogOf(sh: Shape): seq<Body> { Flatten(sh.front) + sh.chunk }

  predicate Holds(crc: Crc, segs: seq<Segment>, sh: Shape) {
    && segs != []
    && Closed(crc, segs[..|segs| - 1], sh.front)
    && ActiveSegment(crc, segs[|segs| - 1], sh.chunk, sh.body, sh.m)
    && segs[|segs| - 1].start == |Flatten(sh.front)|
  }

  /** How many of its records are sure to survive. */
  function DurableCount(crc: Crc, segs: seq<Segment>, sh: Shape): nat
    requires segs != []
  {
    |Flatten(sh.front)| + Whole(crc, sh.chunk, segs[|segs| - 1].synced)
  }

  /** Segment names ascend strictly, so sorting by name restores the order of creation. */
  lemma NamesAscend(crc: Crc, segs: seq<Segment>, sh: Shape, i: nat, j: nat)
    requires Holds(crc, segs, sh) && i < j < |segs|
    ensures segs[i].start < segs[j].start
  {
    var n := |segs| - 1;
    assert segs[..n][i] == segs[i];
    FlattenGrows(sh.front, i, j);
    if j < n { assert segs[..n][j] == segs[j]; } else { assert sh.front[..n] == sh.front; }
  }

  lemma {:induction false} FlattenGrows(chunks: seq<seq<Body>>, i: nat, j: nat)
    requires i < j <= |chunks| && forall k :: 0 <= k < |chunks| ==> chunks[k] != []
    ensures |Flatten(chunks[..i])| < |Flatten(chunks[..j])|
    decreases j
  {
    FlattenAppend(chunks[..j - 1], chunks[j - 1]);
    assert chunks[..j] == chunks[..j - 1] + [chunks[j - 1]];
    if i < j - 1 { FlattenGrows(chunks, i, j - 1); }
  }

  // ---- Replay of a shape ---------------------------------------------------------------------------------

  lemma CleanScan(crc: Crc, chunk: seq<Body>)
    requires BodiesOk(chunk)
    ensures Scan(crc, FramesOf(crc, chunk)) == (chunk, |FramesOf(crc, chunk)|)
  {
    ScanExact(crc, chunk, []);
    assert FramesOf(crc, chunk) + [] == FramesOf(crc, chunk);
  }

  lemma ReplayFirst(crc: Crc, s: Segment, chunk: seq<Body>, tail: seq<Segment>)
    requires BodiesOk(chunk) && s.data == FramesOf(crc, chunk) && Replay(crc, tail).Some?
    ensures Replay(crc, [s] + tail) == Some(chunk + Replay(crc, tail).value)
  {
    hide Scan, FramesOf, BodiesOk;
    CleanScan(crc, chunk);
    assert ([s] + tail)[1..] == tail;
  }

  /** Closed segments replay their chunks; the rest follows. */
  lemma {:induction false} ReplayClosed(crc: Crc, segs: seq<Segment>, chunks: seq<seq<Body>>, rest: seq<Segment>)
    requires |segs| == |chunks| && forall i :: 0 <= i < |segs| ==>
        BodiesOk(chunks[i]) && segs[i].data == FramesOf(crc, chunks[i])
    requires Replay(crc, rest).Some?
    ensures Replay(crc, segs + rest) == Some(Flatten(chunks) + Replay(crc, rest).value)
    decreases segs
  {
    hide Replay, FramesOf, BodiesOk;
    if segs == [] {
      assert segs + rest == rest;
      assert Flatten(chunks) + Replay(crc, rest).value == Replay(crc, rest).value;
    } else {
      ReplayClosed(crc, segs[1..], chunks[1..], rest);
      ReplayFirst(crc, segs[0], chunks[0], segs[1..] + rest);
      assert segs + rest == [segs[0]] + (segs[1..] + rest);
      assert chunks[0] + (Flatten(chunks[1..]) + Replay(crc, rest).value) == Flatten(chunks) + Replay(crc, rest).value;
    }
  }

  /** The whole frames of a cut really fit in it. */
  lemma {:induction false} WholeFits(crc: Crc, bodies: seq<Body>, n: nat)
    ensures |FramesOf(crc, bodies[..Whole(crc, bodies, n)])| <= n
    decreases bodies
  {
    var k := Whole(crc, bodies, n);
    if k > 0 {
      WholeFits(crc, bodies[1..], n - |Frame(crc, bodies[0])|);
      assert bodies[..k][1..] == bodies[1..][..k - 1];
    }
  }

  lemma CutCount(crc: Crc, chunk: seq<Body>, body: Body, synced: nat, n: nat)
    requires synced <= n < |FramesOf(crc, chunk + [body])|
    ensures Whole(crc, chunk, synced) <= Whole(crc, chunk + [body], n) <= |chunk|
  {
    hide FramesOf, Whole;
    var all := chunk + [body];
    WholeFits(crc, all, n);
    var k, k0 := Whole(crc, all, n), Whole(crc, chunk, synced);
    assert all[..|all|] == all;
    WholeFits(crc, chunk, synced);
    assert all[..k0] == chunk[..k0];
    WholeAtLeast(crc, all, k0, n);
  }

  /** Any cut of the active segment keeps a prefix of its chunk. */
  lemma ActiveCut(crc: Crc, s: Segment, chunk: seq<Body>, body: Body, m: nat, n: nat)
    requires ActiveSegment(crc, s, chunk, body, m) && s.synced <= n <= |s.data|
    ensures
      var k := Whole(crc, chunk + [body], n);
      && Whole(crc, chunk, s.synced) <= k <= |chunk|
      && Scan(crc, s.data[..n]).0 == chunk[..k]
  {
    hide FramesOf, Whole, Scan, Frame;
    var all := chunk + [body];
    FramesAppend(crc, chunk, body);
    CutCount(crc, chunk, body, s.synced, n);
    assert s.data[..n] == FramesOf(crc, all)[..n];
    CutExact(crc, all, n);
    assert all[..Whole(crc, all, n)] == chunk[..Whole(crc, all, n)];
  }

  lemma ReplayOne(crc: Crc, s: Segment)
    ensures Replay(crc, [s]) == Some(Scan(crc, s.data).0)
  {
    assert [s][1..] == [];
    assert Scan(crc, s.data).0 + [] == Scan(crc, s.data).0;
  }

  lemma ClosedSurvive(crc: Crc, segs: seq<Segment>, chunks: seq<seq<Body>>, b: seq<Segment>)
    requires Closed(crc, segs, chunks) && |b| == |segs| && forall i :: 0 <= i < |b| ==> SegmentSurvives(segs[i], b[i])
    ensures forall i :: 0 <= i < |b| ==> BodiesOk(chunks[i]) && b[i].data == FramesOf(crc, chunks[i])
  {
    forall i | 0 <= i < |b| ensures b[i].data == FramesOf(crc, chunks[i]) {
      assert SegmentSurvives(segs[i], b[i]) && ClosedSegment(crc, segs[i], chunks[i]);
      assert segs[i].data[..|segs[i].data|] == segs[i].data;
    }
  }

  /** A log directory after a power loss replays a prefix of its log that contains every
      durable record. */
  lemma ShapeRecovers(crc: Crc, a: Dir, sh: Shape, b: Dir)
    requires a.linked && Holds(crc, a.segs, sh) && DirSurvives(a, b)
    ensures
      var r := Replay(crc, b.segs);
      && r.Some? && |r.value| <= |LogOf(sh)| && r.value == LogOf(sh)[..|r.value|]
      && DurableCount(crc, a.segs, sh) <= |r.value|
  {
    var n := |a.segs| - 1;
    var front, last := a.segs[..n], a.segs[n];
    FrontIsLinked(crc, a.segs, sh);
    if |b.segs| == n {
      VanishedTail(crc, last, sh);
      ClosedSurvive(crc, front, sh.front, b.segs);
      ReplayClosed(crc, b.segs, sh.front, []);
      assert b.segs + [] == b.segs && Flatten(sh.front) + [] == Flatten(sh.front);
      assert LogOf(sh) == Flatten(sh.front);
    } else {
      ClosedSurvive(crc, front, sh.front, b.segs[..n]);
      assert SegmentSurvives(a.segs[n], b.segs[n]);
      ActiveCut(crc, last, sh.chunk, sh.body, sh.m, |b.segs[n].data|);
      ReplayOne(crc, b.segs[n]);
      ReplayClosed(crc, b.segs[..n], sh.front, [b.segs[n]]);
      assert b.segs[..n] + [b.segs[n]] == b.segs;
      var k := Whole(crc, sh.chunk + [sh.body], |b.segs[n].data|);
      assert LogOf(sh)[..|Flatten(sh.front)| + k] == Flatten(sh.front) + sh.chunk[..k];
    }
  }

  lemma FrontIsLinked(crc: Crc, segs: seq<Segment>, sh: Shape)
    requires Holds(crc, segs, sh)
    ensures FrontLinked(segs)
  {
    var front := segs[..|segs| - 1];
    forall i | 0 <= i < |segs| - 1
      ensures segs[i].linked
    {
      assert front[i] == segs[i] && ClosedSegment(crc, front[i], sh.front[i]);
    }
  }

  lemma VanishedTail(crc: Crc, s: Segment, sh: Shape)
    requires ActiveSegment(crc, s, sh.chunk, sh.body, sh.m) && !s.linked
    ensures sh.chunk == [] && Whole(crc, sh.chunk, s.synced) == 0
  {
    assert sh.chunk != [] ==> |FramesOf(crc, sh.chunk)| >= HEADER;
  }

  // ---- Whole images ----------------------------------------------------------------------------------------

  /** Every outcome of a power loss reopens to a prefix of log of at least min records, or to
      exactly alt. */
  ghost predicate Recovers(crc: Crc, d: Image, log: seq<Body>, min: nat, alt: Option<seq<Body>>) {
    forall d' :: Survives(d, d') ==>
      && Opened(crc, d').Some?
      && (Some(Opened(crc, d').value) == alt || IsCut(Opened(crc, d').value, log, min))
  }

  predicate IsCut(r: seq<Body>, log: seq<Body>, min: nat) {
    min <= |r| <= |log| && r == log[..|r|]
  }

  predicate At(crc: Crc, d: Image, loc: nat, sh: Shape) {
    loc in d.dirs && d.dirs[loc].linked && Holds(crc, d.dirs[loc].segs, sh)
  }

  predicate WholePointer(p: Pointer) { p.Names? ==> p.whole && p.gen >= 1 }

  /** CURRENT is settled on loc. */
  predicate Settled(d: Image, loc: nat) {
    d.visible == d.durable && Location(d.visible) == loc && WholePointer(d.visible)
  }

  /** The directory CURRENT names after the power loss replays a cut of its log. */
  lemma OpenedAt(crc: Crc, d: Image, d': Image, loc: nat, sh: Shape)
    requires Survives(d, d') && WholePointer(d'.visible) && Location(d'.visible) == loc && At(crc, d, loc, sh)
    ensures Opened(crc, d').Some? && IsCut(Opened(crc, d').value, LogOf(sh), DurableCount(crc, d.dirs[loc].segs, sh))
  {
    ShapeRecovers(crc, d.dirs[loc], sh, d'.dirs[loc]);
  }

  lemma WholeCut(r: seq<Body>, log: seq<Body>)
    requires IsCut(r, log, |log|)
    ensures r == log
  {
  }
}
