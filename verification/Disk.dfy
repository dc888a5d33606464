/** The directory a log lives in, as far as the log can observe it, and what a power loss may
    leave of it. Location 0 is the data directory itself; location g >= 1 is its
    sub-directory for compaction generation g. */
module Disk {
  import opened Bytes
  import opened Options
  import opened Frames

  /** start names the segment; the first synced bytes are durable, and linked says that the
      directory entry is. */
  datatype Segment = Segment(start: nat, data: seq<byte>, synced: nat, linked: bool)

  /** Segments in name order; linked says that the directory's own entry is durable. */
  datatype Dir = Dir(segs: seq<Segment>, linked: bool)

  /** What CURRENT says. whole is false when its contents were never synced. */
  datatype Pointer = Absent | Names(gen: nat, whole: bool)

  /** visible is CURRENT as the running system sees it, durable as of the last sync of the data
      directory; tmp is CURRENT.tmp. */
  datatype Image = Image(dirs: map<nat, Dir>, visible: Pointer, durable: Pointer, tmp: Pointer)

  function Location(p: Pointer): nat { if p.Absent? then 0 else p.gen }

  // ---- System calls -------------------------------------------------------------------------------

  predicate HasSegment(d: Image, loc: nat) { loc in d.dirs && d.dirs[loc].segs != [] }

  function Last(d: Image, loc: nat): Segment
    requires HasSegment(d, loc)
  {
    d.dirs[loc].segs[|d.dirs[loc].segs| - 1]
  }

  function SetLast(d: Image, loc: nat, s: Segment): Image
    requires HasSegment(d, loc)
  {
    var segs := d.dirs[loc].segs;
    d.(dirs := d.dirs[loc := d.dirs[loc].(segs := segs[|segs| - 1 := s])])
  }

  function Wrote(d: Image, loc: nat, bytes: seq<byte>): Image
    requires HasSegment(d, loc)
  {
    SetLast(d, loc, Last(d, loc).(data := Last(d, loc).data + bytes))
  }

  function SyncedData(d: Image, loc: nat): Image
    requires HasSegment(d, loc)
  {
    SetLast(d, loc, Last(d, loc).(synced := |Last(d, loc).data|))
  }

  function Truncated(d: Image, loc: nat, n: nat): Image
    requires HasSegment(d, loc) && n <= |Last(d, loc).data|
  {
    var s := Last(d, loc);
    SetLast(d, loc, s.(data := s.data[..n], synced := if s.synced < n then s.synced else n))
  }

  function Created(d: Image, loc: nat, start: nat): Image
    requires loc in d.dirs
  {
    d.(dirs := d.dirs[loc := d.dirs[loc].(segs := d.dirs[loc].segs + [Segment(start, [], 0, false)])])
  }

  function LinkAll(segs: seq<Segment>): (r: seq<Segment>)
    ensures |r| == |segs| && forall i :: 0 <= i < |segs| ==> r[i] == segs[i].(linked := true)
  {
    seq(|segs|, i requires 0 <= i < |segs| => segs[i].(linked := true))
  }

  /** fsync of a directory makes its entries durable; for the data directory these include
      CURRENT and the generation directories. */
  function SyncedDir(d: Image, loc: nat): Image
    requires loc in d.dirs
  {
    var dirs := d.dirs[loc := d.dirs[loc].(segs := LinkAll(d.dirs[loc].segs))];
    if loc != 0 then d.(dirs := dirs)
    else d.(dirs := map g | g in dirs :: dirs[g].(linked := true), durable := d.visible)
  }

  function MadeDir(d: Image, g: nat): Image
    requires g !in d.dirs
  {
    d.(dirs := d.dirs[g := Dir([], false)])
  }

  function WroteTmp(d: Image, g: nat): Image { d.(tmp := Names(g, false)) }

  function SyncedTmp(d: Image): Image
    requires d.tmp.Names?
  {
    d.(tmp := d.tmp.(whole := true))
  }

  /** rename(2): atomic for every observer, durable only once the directory is synced. */
  function Renamed(d: Image): Image { d.(visible := d.tmp, tmp := Absent) }

  /** Old generations go; in the data directory only its own segments do. */
  function Removed(d: Image, g: nat): Image
    requires g in d.dirs
  {
    if g == 0 then d.(dirs := d.dirs[0 := d.dirs[0].(segs := [])]) else d.(dirs := d.dirs - {g})
  }

  // ---- Power loss -----------------------------------------------------------------------------------

  /** Any byte prefix that contains the synced part. */
  predicate SegmentSurvives(a: Segment, b: Segment) {
    && b.start == a.start && b.linked && b.synced == |b.data|
    && a.synced <= |b.data| <= |a.data| && b.data == a.data[..|b.data|]
  }

  predicate FrontLinked(segs: seq<Segment>) {
    forall i :: 0 <= i < |segs| - 1 ==> segs[i].linked
  }

  /** Nothing is promised unless every entry but the newest is durable; the newest may vanish
      when it is not. */
  predicate DirSurvives(a: Dir, b: Dir) {
    a.linked && FrontLinked(a.segs) ==>
      && b.linked
      && |a.segs| - 1 <= |b.segs| <= |a.segs|
      && (|b.segs| < |a.segs| ==> !a.segs[|a.segs| - 1].linked)
      && (forall i :: 0 <= i < |b.segs| ==> SegmentSurvives(a.segs[i], b.segs[i]))
  }

  /** An unsynced rename settles either way, and unsynced contents of CURRENT are lost. */
  predicate PointerSurvives(d: Image, p: Pointer) {
    p == d.durable || p == d.visible || (d.visible.Names? && !d.visible.whole)
  }

  /** Only the directory that CURRENT then names matters; any other may be in any state. */
  predicate Survives(d: Image, d': Image) {
    && PointerSurvives(d, d'.visible) && d'.durable == d'.visible && d'.tmp.Absent?
    && 0 in d'.dirs
    && (Location(d'.visible) in d.dirs && d.dirs[Location(d'.visible)].linked ==>
          Location(d'.visible) in d'.dirs && DirSurvives(d.dirs[Location(d'.visible)], d'.dirs[Location(d'.visible)]))
  }

  // ---- What open finds ---------------------------------------------------------------------------------

  /** Every segment but the last must be clean; the last one's torn tail is dropped. */
  function Replay(crc: Crc, segs: seq<Segment>): Option<seq<seq<byte>>> {
    if segs == [] then Some([])
    else
      var (bodies, end) := Scan(crc, segs[0].data);
      if |segs| > 1 && end != |segs[0].data| then None
      else
        var rest := Replay(crc, segs[1..]);
        if rest.None? then None else Some(bodies + rest.value)
  }

  /** The bodies handed to the replay callback, or None when open fails. */
  function Opened(crc: Crc, d: Image): Option<seq<seq<byte>>> {
    if d.visible.Names? && !d.visible.whole then None
    else if Location(d.visible) !in d.dirs then None
    else Replay(crc, d.dirs[Location(d.visible)].segs)
  }
}
