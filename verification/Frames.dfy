/** Log frames: u32 length, u32 checksum, body (src/wal.cc). The checksum is a parameter: only
    that it is a function of the body matters here. */
module Frames {
  import opened Bytes

  type u32 = x: nat | x < U32
  type Crc = seq<byte> -> u32

  const HEADER := 8
  const MAX_BODY := 0x1_0000

  predicate BodyOk(body: seq<byte>) { 0 < |body| <= MAX_BODY }

  predicate BodiesOk(bodies: seq<seq<byte>>) { forall i :: 0 <= i < |bodies| ==> BodyOk(bodies[i]) }

  function Frame(crc: Crc, body: seq<byte>): (s: seq<byte>)
    ensures |s| == HEADER + |body|
  {
    PutLE(|body|, 4) + PutLE(crc(body), 4) + body
  }

  function FramesOf(crc: Crc, bodies: seq<seq<byte>>): seq<byte> {
    if bodies == [] then [] else Frame(crc, bodies[0]) + FramesOf(crc, bodies[1..])
  }

  lemma {:induction false} FramesConcat(crc: Crc, xs: seq<seq<byte>>, ys: seq<seq<byte>>)
    ensures FramesOf(crc, xs + ys) == FramesOf(crc, xs) + FramesOf(crc, ys)
  {
    if xs == [] {
      assert xs + ys == ys;
    } else {
      FramesConcat(crc, xs[1..], ys);
      assert (xs + ys)[1..] == xs[1..] + ys;
      assert FramesOf(crc, xs + ys) == Frame(crc, xs[0]) + (FramesOf(crc, xs[1..]) + FramesOf(crc, ys));
    }
  }

  lemma FramesAppend(crc: Crc, xs: seq<seq<byte>>, body: seq<byte>)
    ensures FramesOf(crc, xs + [body]) == FramesOf(crc, xs) + Frame(crc, body)
  {
    FramesConcat(crc, xs, [body]);
    assert [body][1..] == [];
    assert FramesOf(crc, [body]) == Frame(crc, body) + [];
  }

  /** The length of the frame at the head of data, or 0 when there is none. */
  function HeadSize(crc: Crc, data: seq<byte>): (n: nat)
    ensures n == 0 || HEADER < n <= |data|
  {
    if |data| < HEADER then 0
    else
      var len := GetLE(data[..4]);
      if len == 0 || len > MAX_BODY || HEADER + len > |data| then 0
      else if crc(data[HEADER..HEADER + len]) != GetLE(data[4..8]) then 0
      else HEADER + len
  }

  /** What scanning yields: the bodies of the leading whole frames, and where they end. */
  function Scan(crc: Crc, data: seq<byte>): (r: (seq<seq<byte>>, nat))
    ensures r.1 <= |data|
    decreases |data|
  {
    var n := HeadSize(crc, data);
    if n == 0 then ([], 0)
    else
      var (bodies, end) := Scan(crc, data[n..]);
      ([data[HEADER..n]] + bodies, n + end)
  }

  lemma ScanStops(crc: Crc, data: seq<byte>)
    requires HeadSize(crc, data) == 0
    ensures Scan(crc, data).0 == [] && Scan(crc, data).1 == 0
  {
  }

  lemma ScanUnfold(crc: Crc, data: seq<byte>)
    requires HeadSize(crc, data) > 0
    ensures
      var n := HeadSize(crc, data);
      Scan(crc, data) == ([data[HEADER..n]] + Scan(crc, data[n..]).0, n + Scan(crc, data[n..]).1)
  {
    hide HeadSize;
  }

  /** The tests of the loop, read off the rest of the data. */
  lemma HeadAt(crc: Crc, data: seq<byte>, off: nat)
    requires off <= |data|
    ensures off + HEADER > |data| ==> HeadSize(crc, data[off..]) == 0
    ensures off + HEADER <= |data| ==>
      var len, sum := GetLE(data[off..off + 4]), GetLE(data[off + 4..off + 8]);
      HeadSize(crc, data[off..]) ==
        if len == 0 || len > MAX_BODY || off + HEADER + len > |data| then 0
        else if crc(data[off + HEADER..off + HEADER + len]) != sum then 0 else HEADER + len
  {
    hide GetLE;
    if off + HEADER <= |data| {
      var rest, len := data[off..], GetLE(data[off..off + 4]);
      assert data[off..off + 4] == rest[..4] && data[off + 4..off + 8] == rest[4..8];
      if off + HEADER + len <= |data| { assert data[off + HEADER..off + HEADER + len] == rest[HEADER..HEADER + len]; }
    }
  }

  lemma ScanStep(crc: Crc, data: seq<byte>, off: nat, before: seq<seq<byte>>)
    requires off <= |data| && HeadSize(crc, data[off..]) > 0
    ensures
      var n := HeadSize(crc, data[off..]);
      && Scan(crc, data[off..]).1 == n + Scan(crc, data[off + n..]).1
      && before + Scan(crc, data[off..]).0 == (before + [data[off + HEADER..off + n]]) + Scan(crc, data[off + n..]).0
  {
    hide HeadSize, Scan;
    var rest, n := data[off..], HeadSize(crc, data[off..]);
    ScanUnfold(crc, rest);
    assert rest[n..] == data[off + n..] && rest[HEADER..n] == data[off + HEADER..off + n];
    var more := Scan(crc, data[off + n..]).0;
    assert before + ([rest[HEADER..n]] + more) == (before + [rest[HEADER..n]]) + more;
  }

  /** scan_frames: the loop, with the replay callback collecting bodies. */
  method ScanFrames(crc: Crc, data: seq<byte>) returns (bodies: seq<seq<byte>>, off: nat)
    ensures bodies == Scan(crc, data).0 && off == Scan(crc, data).1
  {
    hide Scan, HeadSize, GetLE;
    bodies, off := [], 0;
    assert data[0..] == data;
    while off + HEADER <= |data|
      invariant off <= |data|
      invariant Scan(crc, data).0 == bodies + Scan(crc, data[off..]).0
      invariant Scan(crc, data).1 == off + Scan(crc, data[off..]).1
    {
      HeadAt(crc, data, off);
      var len := GetLE(data[off..off + 4]);
      var sum := GetLE(data[off + 4..off + 8]);
      if len == 0 || len > MAX_BODY || off + HEADER + len > |data| {
        ScanStops(crc, data[off..]);
        return;
      }
      var body := data[off + HEADER..off + HEADER + len];
      if crc(body) != sum {
        ScanStops(crc, data[off..]);
        return;
      }
      ScanStep(crc, data, off, bodies);
      bodies := bodies + [body];
      off := off + HEADER + len;
    }
    HeadAt(crc, data, off);
    ScanStops(crc, data[off..]);
  }

  lemma HeadOfFrame(crc: Crc, body: seq<byte>, rest: seq<byte>)
    requires BodyOk(body)
    ensures HeadSize(crc, Frame(crc, body) + rest) == HEADER + |body|
    ensures (Frame(crc, body) + rest)[HEADER..HEADER + |body|] == body
  {
    var s := Frame(crc, body) + rest;
    Widths();
    PutGetLE(|body|, 4);
    PutGetLE(crc(body), 4);
    assert s[..4] == PutLE(|body|, 4) && s[4..8] == PutLE(crc(body), 4);
    assert s[HEADER..HEADER + |body|] == body;
  }

  lemma ScanFirst(crc: Crc, body: seq<byte>, rest: seq<byte>)
    requires BodyOk(body)
    ensures Scan(crc, Frame(crc, body) + rest) == ([body] + Scan(crc, rest).0, |Frame(crc, body)| + Scan(crc, rest).1)
  {
    HeadOfFrame(crc, body, rest);
    var f := Frame(crc, body);
    assert |f| == HEADER + |body|;
    hide Scan, HeadSize, Frame;
    ScanUnfold(crc, f + rest);
    assert (f + rest)[|f|..] == rest;
  }

  lemma FramesFirst(crc: Crc, bodies: seq<seq<byte>>, tail: seq<byte>)
    requires bodies != []
    ensures FramesOf(crc, bodies) + tail == Frame(crc, bodies[0]) + (FramesOf(crc, bodies[1..]) + tail)
    ensures |FramesOf(crc, bodies)| == |Frame(crc, bodies[0])| + |FramesOf(crc, bodies[1..])|
  {
    hide Frame;
  }

  /** Frames are read back in order, and reading stops where the next frame is not whole. */
  lemma {:induction false} ScanExact(crc: Crc, bodies: seq<seq<byte>>, tail: seq<byte>)
    requires BodiesOk(bodies) && HeadSize(crc, tail) == 0
    ensures Scan(crc, FramesOf(crc, bodies) + tail) == (bodies, |FramesOf(crc, bodies)|)
    decreases bodies
  {
    if bodies == [] {
      assert FramesOf(crc, bodies) + tail == tail;
    } else {
      hide Scan, HeadSize, Frame, FramesOf;
      ScanExact(crc, bodies[1..], tail);
      FramesFirst(crc, bodies, tail);
      ScanFirst(crc, bodies[0], FramesOf(crc, bodies[1..]) + tail);
      assert bodies == [bodies[0]] + bodies[1..];
    }
  }

  /** A frame cut short is never taken for a frame. */
  lemma TornFrame(crc: Crc, body: seq<byte>, n: nat)
    requires BodyOk(body) && n < |Frame(crc, body)|
    ensures HeadSize(crc, Frame(crc, body)[..n]) == 0
  {
    var t := Frame(crc, body)[..n];
    if n >= HEADER {
      Widths();
      PutGetLE(|body|, 4);
      assert t[..4] == PutLE(|body|, 4);
    }
  }

  /** How many whole frames the first n bytes hold. */
  function Whole(crc: Crc, bodies: seq<seq<byte>>, n: nat): (k: nat)
    ensures k <= |bodies|
  {
    if bodies == [] || n < |Frame(crc, bodies[0])| then 0
    else 1 + Whole(crc, bodies[1..], n - |Frame(crc, bodies[0])|)
  }

  /** Any byte-prefix of a run of frames replays exactly its whole frames. */
  lemma {:induction false} CutExact(crc: Crc, bodies: seq<seq<byte>>, n: nat)
    requires BodiesOk(bodies) && n <= |FramesOf(crc, bodies)|
    ensures
      var k := Whole(crc, bodies, n);
      Scan(crc, FramesOf(crc, bodies)[..n]) == (bodies[..k], |FramesOf(crc, bodies[..k])|)
    decreases bodies
  {
    if bodies != [] {
      var f, rest := Frame(crc, bodies[0]), FramesOf(crc, bodies[1..]);
      if n < |f| {
        assert (f + rest)[..n] == f[..n];
        TornFrame(crc, bodies[0], n);
      } else {
        var m := n - |f|;
        CutExact(crc, bodies[1..], m);
        HeadOfFrame(crc, bodies[0], rest[..m]);
        assert (f + rest)[..n] == f + rest[..m];
        assert (f + rest[..m])[|f|..] == rest[..m];
        var k := Whole(crc, bodies[1..], m);
        assert bodies[..k + 1] == [bodies[0]] + bodies[1..][..k];
        assert bodies[..k + 1][1..] == bodies[1..][..k];
      }
    }
  }

  /** A cut no earlier than the end of the first k frames keeps them all. */
  lemma {:induction false} WholeAtLeast(crc: Crc, bodies: seq<seq<byte>>, k: nat, n: nat)
    requires k <= |bodies| && |FramesOf(crc, bodies[..k])| <= n
    ensures Whole(crc, bodies, n) >= k
    decreases bodies
  {
    if k > 0 {
      assert bodies[..k][1..] == bodies[1..][..k - 1];
      WholeAtLeast(crc, bodies[1..], k - 1, n - |Frame(crc, bodies[0])|);
    }
  }

  /** A frame that is accepted is the frame of its body. */
  lemma FrameBack(crc: Crc, data: seq<byte>)
    requires HeadSize(crc, data) > 0
    ensures
      var n := HeadSize(crc, data);
      n >= HEADER && BodyOk(data[HEADER..n]) && data[..n] == Frame(crc, data[HEADER..n])
  {
    var n := HeadSize(crc, data);
    var body := data[HEADER..n];
    GetPutLE(data[..4]);
    GetPutLE(data[4..8]);
    hide GetLE, PutLE;
    assert data[..n] == data[..4] + data[4..8] + body;
  }

  /** Scanning never invents a record: what it accepts is the frames of what it returns. */
  lemma {:induction false} ScanCanonical(crc: Crc, data: seq<byte>)
    ensures
      var (bodies, end) := Scan(crc, data);
      BodiesOk(bodies) && data[..end] == FramesOf(crc, bodies) && HeadSize(crc, data[end..]) == 0
    decreases |data|
  {
    var n := HeadSize(crc, data);
    if n == 0 {
      assert data[0..] == data;
    } else {
      FrameBack(crc, data);
      ScanCanonical(crc, data[n..]);
      ScanUnfold(crc, data);
      var (bodies, end) := Scan(crc, data[n..]);
      var body := data[HEADER..n];
      hide Scan, HeadSize, Frame;
      assert data[..n + end] == data[..n] + data[n..][..end];
      assert ([body] + bodies)[1..] == bodies;
      assert data[n..][end..] == data[n + end..];
    }
  }
}
