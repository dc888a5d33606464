/** The snapshot compaction writes: every retained job, sorted, one full-copy record each
    (src/store.cc:26-49). */
module Snapshots {
  import opened Bytes
  import opened Options
  import opened Jobs
  import opened Store
  import opened Records
  import opened Frames
  import opened Recovery
  import opened Persistence

  // ---- What every committed record keeps ---------------------------------------------------------------

  /** Records within the limits. */
  ghost predicate Sane(history: seq<Record>) {
    forall i :: 0 <= i < |history| ==> RecordFits(history[i])
  }

  ghost predicate TableFits(t: Table) { forall id :: id in t.jobs ==> JobFits(t.jobs[id]) }

  function RecFields(r: Record): seq<nat> {
    match r
    case SubmitRec(_) => []
    case ReplicateRec(_) => []
    case LeaseRec(id, e, s, w) => [id.origin, id.nonce, e, s, w]
    case DoneRec(id, e, s) => [id.origin, id.nonce, e, s]
    case ExpireRec(id, e, s) => [id.origin, id.nonce, e, s]
    case DeadLetterRec(id, e) => [id.origin, id.nonce, e]
    case TakeoverRec(id, e, o) => [id.origin, id.nonce, e, o.addr, o.port]
  }

  lemma RecWidths(r: Record)
    requires RecordFits(r) && !r.SubmitRec? && !r.ReplicateRec?
    ensures RecFields(r)[2] < Pow256(4)
    ensures r.LeaseRec? ==> r.leaseSeq < Pow256(4)
    ensures r.TakeoverRec? ==> r.newOwner.addr < Pow256(4) && r.newOwner.port < Pow256(2)
  {
    var f := RecFields(r);
    assert r.LeaseRec? ==> f[2] < Pow256(LEASE()[2]) && f[3] < Pow256(LEASE()[3]);
    assert r.DoneRec? || r.ExpireRec? ==> f[2] < Pow256(FENCE()[2]);
    assert r.DeadLetterRec? ==> f[2] < Pow256(PARK()[2]);
    assert r.TakeoverRec? ==>
        f[2] < Pow256(TAKEOVER()[2]) && f[3] < Pow256(TAKEOVER()[3]) && f[4] < Pow256(TAKEOVER()[4]);
  }

  lemma TailFits(j: Job)
    requires |j.replicas| == 3
    ensures FieldsFit(TAIL(), TailValues(j)) <==>
      && j.visibilityMs < Pow256(4) && j.maxAttempts < Pow256(4)
      && (forall i :: 0 <= i < 3 ==> j.replicas[i].addr < Pow256(4) && j.replicas[i].port < Pow256(2))
      && j.owner.addr < Pow256(4) && j.owner.port < Pow256(2)
      && j.epoch < Pow256(4) && j.leaseSeq < Pow256(4) && j.attempts < Pow256(4)
  {
    var w, v := TAIL(), TailValues(j);
    if FieldsFit(w, v) {
      assert v[0] < Pow256(w[0]) && v[1] < Pow256(w[1]) && v[2] < Pow256(w[2]) && v[3] < Pow256(w[3])
          && v[4] < Pow256(w[4]);
      assert v[5] < Pow256(w[5]) && v[6] < Pow256(w[6]) && v[7] < Pow256(w[7]) && v[9] < Pow256(w[9])
          && v[10] < Pow256(w[10]);
      assert v[11] < Pow256(w[11]) && v[12] < Pow256(w[12]) && v[13] < Pow256(w[13]);
    } else {
      assert Pow256(1) == 256;
    }
  }

  lemma TransitionFits(cur: Option<Job>, r: Record)
    requires RecordFits(r) && (cur.Some? ==> JobFits(cur.value))
    ensures Transition(cur, r).Some? ==> JobFits(Transition(cur, r).value)
  {
    if cur.Some? && !r.SubmitRec? && !r.ReplicateRec? {
      RecWidths(r);
      TailFits(cur.value);
      TailFits(Transition(cur, r).value);
      hide FieldsFit, TailValues, Pow256;
    }
  }

  lemma {:induction false} HistoryFits(history: seq<Record>)
    requires Sane(history)
    ensures TableFits(ApplyAll(EMPTY, history))
  {
    if history != [] {
      var n := |history| - 1;
      assert forall k :: 0 <= k < n ==> history[..n][k] == history[k];
      HistoryFits(history[..n]);
      var t := ApplyAll(EMPTY, history[..n]);
      hide RecordFits, JobFits;
      TransitionFits(Find(t, RecId(history[n])), history[n]);
    }
  }

  /** What compaction relies on besides an exact index. */
  lemma HistoryKeeps(history: seq<Record>)
    requires Sane(history)
    ensures KeyedById(ApplyAll(EMPTY, history)) && TableFits(ApplyAll(EMPTY, history))
  {
    KeyedByIdKept(EMPTY, history);
    HistoryFits(history);
  }

  lemma SanePart(history: seq<Record>, k: nat)
    requires Sane(history) && k <= |history|
    ensures Sane(history[..k])
  {
  }

  // ---- Collecting and sorting the jobs -----------------------------------------------------------------

  /** The retained jobs in the iteration order of the hash map, whatever that is. */
  method Collect(t: Table) returns (xs: seq<Job>)
    requires KeyedById(t)
    ensures DistinctIds(xs)
    ensures forall j :: j in xs ==> j.id in t.jobs && t.jobs[j.id] == j
    ensures forall id :: id in t.jobs ==> t.jobs[id] in xs
  {
    xs := [];
    var rest := t.jobs.Keys;
    while rest != {}
      invariant rest <= t.jobs.Keys && DistinctIds(xs)
      invariant forall j :: j in xs ==> j.id in t.jobs && t.jobs[j.id] == j && j.id !in rest
      invariant forall id :: id in t.jobs ==> id in rest || t.jobs[id] in xs
    {
      var id :| id in rest;
      xs := xs + [t.jobs[id]];
      rest := rest - {id};
    }
  }

  /** Where x goes among sorted jobs. */
  method InsertSorted(t: Table, ys: seq<Job>, x: Job) returns (zs: seq<Job>)
    requires SnapshotSorted(t, ys) && forall j :: j in ys ==> j.id != x.id
    ensures SnapshotSorted(t, zs) && forall j :: j in zs <==> j == x || j in ys
  {
    var i := |ys|;
    while i > 0 && SnapshotBefore(t, x, ys[i - 1])
      invariant 0 <= i <= |ys| && forall k :: i <= k < |ys| ==> SnapshotBefore(t, x, ys[k])
    {
      i := i - 1;
    }
    zs := ys[..i] + [x] + ys[i..];
    if i > 0 { SnapshotOrder(t, x, ys[i - 1], x); }
    InsertedSorted(t, ys, x, i);
    forall j ensures j in zs <==> j == x || j in ys {
      assert ys == ys[..i] + ys[i..];
    }
  }

  lemma InsertedSorted(t: Table, ys: seq<Job>, x: Job, i: nat)
    requires SnapshotSorted(t, ys) && i <= |ys|
    requires i > 0 ==> SnapshotBefore(t, ys[i - 1], x)
    requires forall k :: i <= k < |ys| ==> SnapshotBefore(t, x, ys[k])
    ensures SnapshotSorted(t, ys[..i] + [x] + ys[i..])
  {
    hide SnapshotBefore;
    var zs := ys[..i] + [x] + ys[i..];
    forall a, b | 0 <= a < b < |zs| ensures SnapshotBefore(t, zs[a], zs[b]) {
      if b == i && a < i - 1 {
        assert SnapshotBefore(t, ys[a], ys[i - 1]);
        SnapshotOrder(t, ys[a], ys[i - 1], x);
      } else if a != i && b != i {
        assert SnapshotBefore(t, ys[if a < i then a else a - 1], ys[if b < i then b else b - 1]);
      }
    }
  }

  /** The sort: the same jobs in snapshot order. */
  method Sorted(t: Table, xs: seq<Job>) returns (ys: seq<Job>)
    requires DistinctIds(xs)
    ensures SnapshotSorted(t, ys) && forall j :: j in ys <==> j in xs
  {
    ys := [];
    for i := 0 to |xs|
      invariant SnapshotSorted(t, ys) && forall j :: j in ys <==> j in xs[..i]
    {
      hide SnapshotSorted;
      assert xs[..i + 1] == xs[..i] + [xs[i]];
      ys := InsertSorted(t, ys, xs[i]);
    }
    assert xs[..|xs|] == xs;
  }

  // ---- Encoding the snapshot -----------------------------------------------------------------------------

  function SnapshotBodies(xs: seq<Job>, n: nat): (bodies: seq<Body>)
    requires n <= |xs| && forall j :: j in xs ==> |j.replicas| == 3
    ensures |bodies| == n
  {
    seq(n, i requires 0 <= i < n => EncodeRecord(ReplicateRec(xs[i]), i))
  }

  lemma {:induction false} SnapshotDecodes(xs: seq<Job>, n: nat)
    requires n <= |xs| && forall j :: j in xs ==> JobFits(j) && |j.replicas| == 3
    ensures BodiesOk(SnapshotBodies(xs, n)) && Decoded(SnapshotBodies(xs, n)) == SnapshotRecords(xs)[..n]
    decreases n
  {
    hide DecodeRecord, EncodeRecord, JobFits, Encodable;
    if n > 0 {
      SnapshotDecodes(xs, n - 1);
      var all := SnapshotBodies(xs, n);
      assert xs[n - 1] in xs;
      OneDecodes(xs[n - 1], n - 1);
      assert all[..n - 1] == SnapshotBodies(xs, n - 1);
      assert SnapshotRecords(xs)[..n] == SnapshotRecords(xs)[..n - 1] + [ReplicateRec(xs[n - 1])];
    }
  }

  lemma OneDecodes(j: Job, lsn: nat)
    requires JobFits(j)
    ensures
      && Encodable(ReplicateRec(j)) && BodyOk(EncodeRecord(ReplicateRec(j), lsn))
      && DecodeRecord(EncodeRecord(ReplicateRec(j), lsn)).Some?
      && DecodeRecord(EncodeRecord(ReplicateRec(j), lsn)).value.0 == ReplicateRec(j)
  {
    RecordReplays(ReplicateRec(j), lsn);
    SizeBudget(ReplicateRec(j), lsn, j, [], [], []);
  }

  /** The snapshot of a store rebuilds the store: jobs, index and the winner of every key, if and
      only if the index is exact. */
  lemma SnapshotRebuilds(history: seq<Record>, xs: seq<Job>)
    requires Sane(history) && IsSnapshot(ApplyAll(EMPTY, history), xs)
    requires forall j :: j in xs ==> |j.replicas| == 3
    ensures BodiesOk(SnapshotBodies(xs, |xs|))
    ensures Rebuilt(SnapshotBodies(xs, |xs|)) == ApplyAll(EMPTY, history) <==> IndexExact(ApplyAll(EMPTY, history))
  {
    var t := ApplyAll(EMPTY, history);
    HistoryKeeps(history);
    forall j | j in xs ensures JobFits(j) { assert j.id in t.jobs; }
    SnapshotDecodes(xs, |xs|);
    assert SnapshotRecords(xs)[..|xs|] == SnapshotRecords(xs);
    CompactionPreserves(t, xs);
  }
}
