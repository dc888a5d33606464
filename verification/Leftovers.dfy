/** The images a store leaves behind, and what the next open makes of them. */
module Leftovers {
  import opened Bytes
  import opened Options
  import opened Store
  import opened Records
  import opened Frames
  import opened Disk
  import opened Recovery
  import opened CrashSafety
  import opened LogSteps
  import opened OpenSteps
  import opened Persistence
  import opened Snapshots

  /** A log, how much of it is promised, its alternative, and the history it stands for. */
  datatype Origin = Origin(log: seq<Body>, min: nat, alt: Option<seq<Body>>, snap: nat, base: nat)

  ghost predicate StandsFor(o: Origin, h: seq<Record>, p: nat) {
    && Represents(o.log, o.snap, h, o.base) && o.snap <= o.min <= |o.log| && p == o.base + o.min - o.snap
    && Equivalent(o.alt, h) && Sane(h) && Stamped(o.log) && (o.alt.Some? ==> Stamped(o.alt.value))
  }

  /** Every record of a log carries its place in it, as a u64. */
  ghost predicate Stamped(log: seq<Body>) {
    forall k :: 0 <= k < |log| ==> DecodeRecord(log[k]).Some? && DecodeRecord(log[k]).value.1 == k % Pow256(8)
  }

  lemma StampedMore(log: seq<Body>, r: Record)
    requires Stamped(log) && RecordFits(r) && Encodable(r)
    ensures Stamped(log + [EncodeRecord(r, |log|)])
  {
    hide EncodeRecord, DecodeRecord, RecordFits, Pow256;
    RecordReplays(r, |log|);
  }

  lemma StampedCut(log: seq<Body>, cut: seq<Body>)
    requires Stamped(log) && cut <= log
    ensures Stamped(cut)
  {
    hide DecodeRecord, Pow256;
    assert forall k :: 0 <= k < |cut| ==> cut[k] == log[k];
  }

  ghost predicate LeftBy(crc: Crc, d: Image, h: seq<Record>, p: nat, o: Origin) {
    Sound(crc, d, o.log, o.min, o.alt) && StandsFor(o, h, p)
  }

  /** d is an image of a store whose history is h, the first p records of it promised. */
  ghost predicate Left(crc: Crc, d: Image, h: seq<Record>, p: nat) {
    exists o :: LeftBy(crc, d, h, p, o)
  }

  /** Such an image, readable and with nothing in flight: what a power loss hands to the next open. */
  ghost predicate Reusable(crc: Crc, d: Image, h: seq<Record>, p: nat) {
    Opened(crc, d).Some? && Clean(d) && Left(crc, d, h, p)
  }

  ghost predicate LeftSince(crc: Crc, first: seq<Image>, seen: seq<Image>, h: seq<Record>, p: nat) {
    first <= seen && forall i :: |first| <= i < |seen| ==> Left(crc, seen[i], h, p)
  }

  lemma StandsLeft(crc: Crc, d: Image, h: seq<Record>, p: nat, o: Origin)
    requires Sound(crc, d, o.log, o.min, o.alt) && StandsFor(o, h, p)
    ensures Left(crc, d, h, p)
  {
    assert LeftBy(crc, d, h, p, o);
  }

  lemma SinceLeft(crc: Crc, first: seq<Image>, seen: seq<Image>, h: seq<Record>, p: nat,
      o: Origin)
    requires SoundSince(crc, first, seen, o.log, o.min, o.alt) && StandsFor(o, h, p)
    ensures LeftSince(crc, first, seen, h, p)
  {
    hide StandsFor, Sound;
    forall i | |first| <= i < |seen| ensures Left(crc, seen[i], h, p) { assert LeftBy(crc, seen[i], h, p, o); }
  }

  lemma LeftNone(crc: Crc, first: seq<Image>, h: seq<Record>, p: nat)
    ensures LeftSince(crc, first, first, h, p)
  {
  }

  /** Crash consistency: every power loss from such an image reopens to the history, with at most
      its unpromised end missing. */
  lemma LeftSurvivable(crc: Crc, d: Image, h: seq<Record>, p: nat)
    requires Left(crc, d, h, p)
    ensures Survivable(crc, d, h, p)
  {
    var o :| LeftBy(crc, d, h, p, o);
    SoundSurvivable(crc, d, o.log, o.min, o.alt, o.snap, h, o.base);
  }

  /** And what it reopens to is again an image of a store, all of it promised. */
  lemma LeftReopens(crc: Crc, d: Image, h: seq<Record>, p: nat, d': Image) returns (k: nat)
    requires Left(crc, d, h, p) && Survives(d, d')
    ensures Clean(d') && Opened(crc, d').Some? && 0 in d'.dirs
    ensures p <= k <= |h| && Left(crc, d', h[..k], k)
  {
    var o :| LeftBy(crc, d, h, p, o);
    assert StandsFor(o, h, p);
    SoundSurvives(crc, d, o.log, o.min, o.alt, d');
    SoundRecovers(crc, d, o.log, o.min, o.alt);
    SurvivorClean(crc, d, o.log, o.min, o.alt, d');
    var r := Opened(crc, d').value;
    hide Sound, Survives, Opened;
    k := ReopenedAs(crc, d', h, p, o, r);
  }

  lemma ReopenedAs(crc: Crc, d': Image, h: seq<Record>, p: nat, o: Origin, r: seq<Body>)
      returns (k: nat)
    requires StandsFor(o, h, p) && Sound(crc, d', r, |r|, None)
    requires Some(r) == o.alt || IsCut(r, o.log, o.min)
    ensures p <= k <= |h| && Left(crc, d', h[..k], k)
  {
    hide Sound, Rebuilt, ApplyAll, Sane, Stamped;
    if IsCut(r, o.log, o.min) {
      StampedCut(o.log, r);
      CutBounds(o.log, o.snap, h, o.base);
      k := o.base + |r| - o.snap;
      CutRepresents(o.log, o.snap, h, o.base, |r|);
      SanePart(h, k);
      assert LeftBy(crc, d', h[..k], k, Origin(r, |r|, None, o.snap, o.base));
    } else {
      k := |h|;
      assert h[..k] == h;
      RepresentsWhole(r, h);
      assert LeftBy(crc, d', h[..k], k, Origin(r, |r|, None, |r|, |h|));
    }
  }

  // ---- Steps of a store ------------------------------------------------------------------------------------

  lemma CommitStands(o: Origin, h: seq<Record>, p: nat, r: Record, lsn: nat)
    requires StandsFor(o, h, p) && o.alt.None? && RecordFits(r) && Encodable(r) && lsn == |o.log|
    ensures BodyOk(EncodeRecord(r, lsn)) && StandsFor(o.(log := o.log + [EncodeRecord(r, lsn)]), h + [r], p)
  {
    hide Represents, EncodeRecord, DecodeRecord, RecordFits, Stamped;
    StampedMore(o.log, r);
    RecordReplays(r, lsn);
    RecordSize(r, lsn);
    RepresentsMore(o.log, o.snap, h, o.base, EncodeRecord(r, lsn), r);
  }

  lemma RecordSize(r: Record, lsn: nat)
    requires RecordFits(r) && Encodable(r)
    ensures BodyOk(EncodeRecord(r, lsn))
  {
    Layouts();
  }

  /** More of the log became durable. */
  lemma PromiseMore(o: Origin, h: seq<Record>, p: nat, min: nat)
    requires StandsFor(o, h, p) && o.min <= min <= |o.log|
    ensures StandsFor(o.(min := min), h, p + (min - o.min)) && p + (min - o.min) <= |h|
    ensures min == |o.log| ==> p + (min - o.min) == |h|
  {
    hide Rebuilt, ApplyAll, DecodeRecord, Stamped;
  }

  /** The alternative log takes over. */
  lemma SnapshotStands(h: seq<Record>, bodies: seq<Body>)
    requires Rebuilt(bodies) == ApplyAll(EMPTY, h) && Sane(h) && Stamped(bodies)
    ensures StandsFor(Origin(bodies, |bodies|, None, |bodies|, |h|), h, |h|)
  {
    hide Rebuilt, ApplyAll, Sane, Stamped;
    RepresentsWhole(bodies, h);
  }

  lemma SnapshotBeside(o: Origin, h: seq<Record>, p: nat, bodies: seq<Body>)
    requires StandsFor(o, h, p) && Rebuilt(bodies) == ApplyAll(EMPTY, h) && Stamped(bodies)
    ensures StandsFor(o.(alt := Some(bodies)), h, p)
  {
  }

  /** What an open owes, read as a history. */
  lemma OpenStands(o: Origin, h: seq<Record>, p: nat, log: seq<Body>, n: nat)
      returns (o': Origin, k: nat, p': nat)
    requires StandsFor(o, h, p) && Owed(log, n, o.log, o.min, o.alt) && n <= |log|
    ensures k <= |h| && o'.log == log && o'.min == n && o'.alt.None? && StandsFor(o', h[..k], p')
    ensures p <= p' && Rebuilt(log) == ApplyAll(EMPTY, h[..k])
  {
    hide Rebuilt, ApplyAll, Sane, DecodeRecord, Stamped;
    if o.alt == Some(log) && n == |log| {
      k := |h|;
      assert h[..k] == h;
      RepresentsWhole(log, h);
      o', p' := Origin(log, n, None, |log|, |h|), |h|;
    } else {
      k := o.base + |log| - o.snap;
      assert log == o.log[..|log|];
      StampedCut(o.log, log);
      CutRebuilds(o.log, o.snap, h, o.base, |log|);
      CutRepresents(o.log, o.snap, h, o.base, |log|);
      SanePart(h, k);
      o', p' := Origin(log, n, None, o.snap, o.base), o.base + n - o.snap;
    }
  }
}
