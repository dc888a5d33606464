/** How each system call of the log moves the shape of its directory. */
module LogOps {
  import opened Frames
  import opened Disk
  import opened Recovery

  /** A log that can be appended to: no torn bytes, and its newest segment durably named. */
  predicate Ready(crc: Crc, d: Image, loc: nat, sh: Shape) {
    Settled(d, loc) && At(crc, d, loc, sh) && sh.m == 0 && Last(d, loc).linked
  }

  lemma LastOf(crc: Crc, d: Image, loc: nat, sh: Shape)
    requires At(crc, d, loc, sh)
    ensures HasSegment(d, loc) && ActiveSegment(crc, Last(d, loc), sh.chunk, sh.body, sh.m)
    ensures Last(d, loc).start == |Flatten(sh.front)|
  {
  }

  /** Replacing the active segment by one that holds chunk', body', m'. */
  lemma SetLastShape(crc: Crc, d: Image, loc: nat, sh: Shape, s: Segment, sh': Shape)
    requires At(crc, d, loc, sh) && sh'.front == sh.front && s.start == Last(d, loc).start
    requires ActiveSegment(crc, s, sh'.chunk, sh'.body, sh'.m)
    ensures At(crc, SetLast(d, loc, s), loc, sh') && Last(SetLast(d, loc, s), loc) == s
  {
    var segs, segs' := d.dirs[loc].segs, SetLast(d, loc, s).dirs[loc].segs;
    assert segs'[..|segs'| - 1] == segs[..|segs| - 1];
  }

  /** With no torn bytes the next record may be any. */
  lemma NextBody(crc: Crc, d: Image, loc: nat, sh: Shape, body: Body)
    requires At(crc, d, loc, sh) && sh.m == 0 && BodyOk(body)
    ensures At(crc, d, loc, sh.(body := body))
    ensures DurableCount(crc, d.dirs[loc].segs, sh.(body := body)) == DurableCount(crc, d.dirs[loc].segs, sh)
  {
    assert Frame(crc, body)[..0] == Frame(crc, sh.body)[..0] == [];
  }

  /** Part of the frame is written. */
  lemma WritePart(crc: Crc, d: Image, loc: nat, sh: Shape, k: nat)
    requires At(crc, d, loc, sh) && Last(d, loc).linked && sh.m + k < |Frame(crc, sh.body)|
    ensures
      var d' := Wrote(d, loc, Frame(crc, sh.body)[sh.m..sh.m + k]);
      && At(crc, d', loc, sh.(m := sh.m + k)) && Last(d', loc).linked
      && Last(d', loc).data == Last(d, loc).data + Frame(crc, sh.body)[sh.m..sh.m + k]
      && DurableCount(crc, d'.dirs[loc].segs, sh.(m := sh.m + k)) == DurableCount(crc, d.dirs[loc].segs, sh)
  {
    var f, s := Frame(crc, sh.body), Last(d, loc);
    LastOf(crc, d, loc, sh);
    ActivePart(crc, s, sh, k);
    hide FramesOf, Whole, Frame, Holds, ActiveSegment;
    SetLastShape(crc, d, loc, sh, s.(data := s.data + f[sh.m..sh.m + k]), sh.(m := sh.m + k));
  }

  lemma ActivePart(crc: Crc, s: Segment, sh: Shape, k: nat)
    requires ActiveSegment(crc, s, sh.chunk, sh.body, sh.m) && s.linked && sh.m + k < |Frame(crc, sh.body)|
    ensures ActiveSegment(crc, s.(data := s.data + Frame(crc, sh.body)[sh.m..sh.m + k]), sh.chunk, sh.body, sh.m + k)
  {
    var f := Frame(crc, sh.body);
    hide FramesOf, Frame;
    assert f[..sh.m] + f[sh.m..sh.m + k] == f[..sh.m + k];
  }

  lemma ActiveRest(crc: Crc, s: Segment, sh: Shape)
    requires ActiveSegment(crc, s, sh.chunk, sh.body, sh.m) && s.linked
    ensures ActiveSegment(crc, s.(data := s.data + Frame(crc, sh.body)[sh.m..]), sh.chunk + [sh.body], sh.body, 0)
    ensures Whole(crc, sh.chunk, s.synced) <= Whole(crc, sh.chunk + [sh.body], s.synced)
  {
    hide FramesOf, Whole;
    var f := Frame(crc, sh.body);
    assert f[..sh.m] + f[sh.m..] == f && f[..0] == [];
    FramesAppend(crc, sh.chunk, sh.body);
    assert FramesOf(crc, sh.chunk + [sh.body]) + f[..0] == s.data + f[sh.m..];
    CutCount(crc, sh.chunk, sh.body, s.synced, s.synced);
  }

  /** The rest of the frame is written: the log has one more record. */
  lemma WriteRest(crc: Crc, d: Image, loc: nat, sh: Shape)
    requires At(crc, d, loc, sh) && Last(d, loc).linked
    ensures
      var d' := Wrote(d, loc, Frame(crc, sh.body)[sh.m..]);
      var sh' := Shape(sh.front, sh.chunk + [sh.body], sh.body, 0);
      && At(crc, d', loc, sh') && Last(d', loc).linked && LogOf(sh') == LogOf(sh) + [sh.body]
      && Last(d', loc).data == Last(d, loc).data + Frame(crc, sh.body)[sh.m..]
      && DurableCount(crc, d'.dirs[loc].segs, sh') >= DurableCount(crc, d.dirs[loc].segs, sh)
  {
    var f, s := Frame(crc, sh.body), Last(d, loc);
    LastOf(crc, d, loc, sh);
    var sh' := Shape(sh.front, sh.chunk + [sh.body], sh.body, 0);
    ActiveRest(crc, s, sh);
    hide FramesOf, Whole, Frame, Holds, ActiveSegment;
    SetLastShape(crc, d, loc, sh, s.(data := s.data + f[sh.m..]), sh');
    assert Flatten(sh.front) + (sh.chunk + [sh.body]) == Flatten(sh.front) + sh.chunk + [sh.body];
  }

  lemma {:induction false} WholeAll(crc: Crc, bodies: seq<Body>, n: nat)
    requires n >= |FramesOf(crc, bodies)|
    ensures Whole(crc, bodies, n) == |bodies|
    decreases bodies
  {
    WholeAtLeast(crc, bodies, |bodies|, n) by { assert bodies[..|bodies|] == bodies; }
  }

  /** A data sync makes every record durable. */
  lemma SyncShape(crc: Crc, d: Image, loc: nat, sh: Shape)
    requires At(crc, d, loc, sh)
    ensures
      var d' := SyncedData(d, loc);
      && At(crc, d', loc, sh) && Last(d', loc) == Last(d, loc).(synced := |Last(d, loc).data|)
      && DurableCount(crc, d'.dirs[loc].segs, sh) == |LogOf(sh)|
  {
    var s := Last(d, loc);
    LastOf(crc, d, loc, sh);
    SetLastShape(crc, d, loc, sh, s.(synced := |s.data|), sh);
    WholeAll(crc, sh.chunk, |s.data|);
  }

  /** A new segment is created after the old one was synced. */
  lemma CreateShape(crc: Crc, d: Image, loc: nat, sh: Shape)
    requires At(crc, d, loc, sh) && sh.m == 0 && sh.chunk != []
    requires Last(d, loc).linked && Last(d, loc).synced == |Last(d, loc).data|
    ensures
      var d' := Created(d, loc, |LogOf(sh)|);
      var sh' := Shape(sh.front + [sh.chunk], [], sh.body, 0);
      && At(crc, d', loc, sh') && Last(d', loc) == Segment(|LogOf(sh)|, [], 0, false)
      && LogOf(sh') == LogOf(sh) && DurableCount(crc, d'.dirs[loc].segs, sh') == |LogOf(sh)|
  {
    var segs, d' := d.dirs[loc].segs, Created(d, loc, |LogOf(sh)|);
    var segs', n := d'.dirs[loc].segs, |segs| - 1;
    LastOf(crc, d, loc, sh);
    assert Frame(crc, sh.body)[..0] == [] && FramesOf(crc, sh.chunk) + [] == FramesOf(crc, sh.chunk);
    FlattenAppend(sh.front, sh.chunk);
    ClosedMore(crc, segs[..n], sh.front, segs[n], sh.chunk);
    assert segs'[..|segs'| - 1] == segs[..n] + [segs[n]];
    assert Flatten(sh.front + [sh.chunk]) + [] == LogOf(sh);
  }

  lemma ClosedMore(crc: Crc, segs: seq<Segment>, chunks: seq<seq<Body>>, s: Segment, chunk: seq<Body>)
    requires Closed(crc, segs, chunks) && ClosedSegment(crc, s, chunk) && s.start == |Flatten(chunks)|
    ensures Closed(crc, segs + [s], chunks + [chunk])
  {
    var ss, cs := segs + [s], chunks + [chunk];
    forall i | 0 <= i < |ss| ensures ClosedSegment(crc, ss[i], cs[i]) && ss[i].start == |Flatten(cs[..i])| {
      if i < |segs| { assert cs[..i] == chunks[..i]; } else { assert cs[..i] == chunks; }
    }
  }

  /** A directory sync changes no contents. */
  lemma SyncDirShape(crc: Crc, d: Image, loc: nat, sh: Shape)
    requires At(crc, d, loc, sh)
    ensures
      var d' := SyncedDir(d, loc);
      && At(crc, d', loc, sh) && Last(d', loc) == Last(d, loc).(linked := true)
      && DurableCount(crc, d'.dirs[loc].segs, sh) == DurableCount(crc, d.dirs[loc].segs, sh)
  {
    var segs, n := d.dirs[loc].segs, |d.dirs[loc].segs| - 1;
    var segs' := LinkAll(segs);
    assert SyncedDir(d, loc).dirs[loc].segs == segs';
    forall i | 0 <= i < n
      ensures segs'[i] == segs[i]
    {
      assert segs[..n][i] == segs[i] && ClosedSegment(crc, segs[..n][i], sh.front[i]);
    }
    assert segs'[..n] == segs[..n];
  }
}
