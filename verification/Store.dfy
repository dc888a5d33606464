/** Log records, the transition each one makes on a job, and the job table as a fold of
    records (src/records.h, src/store.cc). */
module Store {
  import opened Bytes
  import opened Options
  import opened Jobs

  datatype Record =
    | SubmitRec(job: Job)
    | ReplicateRec(job: Job)
    | LeaseRec(id: JobId, epoch: nat, leaseSeq: nat, worker: nat)
    | DoneRec(id: JobId, epoch: nat, leaseSeq: nat)
    | ExpireRec(id: JobId, epoch: nat, leaseSeq: nat)
    | DeadLetterRec(id: JobId, epoch: nat)
    | TakeoverRec(id: JobId, newEpoch: nat, newOwner: Endpoint)

  function RecId(r: Record): JobId {
    match r
    case SubmitRec(j) => j.id
    case ReplicateRec(j) => j.id
    case LeaseRec(id, _, _, _) => id
    case DoneRec(id, _, _) => id
    case ExpireRec(id, _, _) => id
    case DeadLetterRec(id, _) => id
    case TakeoverRec(id, _, _) => id
  }

  /** What one record does to the copy of the job it names. */
  function Transition(cur: Option<Job>, r: Record): Option<Job> {
    match r
    case SubmitRec(j) => Some(j)
    case ReplicateRec(j) => Merge(cur, j)
    case LeaseRec(_, e, s, _) =>
      if cur.Some? && e >= cur.value.epoch && !Terminal(cur.value.state)
      then Some(cur.value.(state := Leased, epoch := e, leaseSeq := s, attempts := s)) else cur
    case DoneRec(_, e, _) =>
      if cur.Some? && e >= cur.value.epoch && !cur.value.state.Done?
      then Some(cur.value.(state := Done, epoch := e, body := [])) else cur
    case ExpireRec(_, e, s) =>
      if cur.Some? && e >= cur.value.epoch && cur.value.state.Leased? && cur.value.leaseSeq == s
      then Some(cur.value.(state := Ready, epoch := e)) else cur
    case DeadLetterRec(_, e) =>
      if cur.Some? && e >= cur.value.epoch && !cur.value.state.Done?
      then Some(cur.value.(state := DeadLetter, epoch := e)) else cur
    case TakeoverRec(_, e, o) =>
      if cur.Some? && e > cur.value.epoch
      then Some(cur.value.(epoch := e, owner := o)) else cur
  }

  function TransitionAll(cur: Option<Job>, rs: seq<Record>): Option<Job> {
    if rs == [] then cur else Transition(TransitionAll(cur, rs[..|rs| - 1]), rs[|rs| - 1])
  }

  // ---- Fencing monotonicity ------------------------------------------------------------------

  /** (epoch, is Done, is DeadLetter), most significant first; a missing job is below all. */
  predicate FenceLeq(a: Option<Job>, b: Option<Job>) {
    a.None? || (b.Some? &&
      (a.value.epoch < b.value.epoch ||
       (a.value.epoch == b.value.epoch &&
        (a.value.state.Done? ==> b.value.state.Done?) &&
        (a.value.state.DeadLetter? ==> Terminal(b.value.state)))))
  }

  /** A Submit for a job the table already holds: never produced by the protocol. */
  predicate Resubmits(cur: Option<Job>, rs: seq<Record>) {
    exists k :: 0 <= k < |rs| && rs[k].SubmitRec? && TransitionAll(cur, rs[..k]).Some?
  }

  /** Over any log the fence triple of a job never falls, however records are interleaved. */
  lemma {:induction false} FenceMonotone(cur: Option<Job>, rs: seq<Record>)
    requires !Resubmits(cur, rs)
    ensures FenceLeq(cur, TransitionAll(cur, rs))
  {
    if rs != [] {
      var n := |rs| - 1;
      forall k | 0 <= k < n && rs[..n][k].SubmitRec? ensures TransitionAll(cur, rs[..n][..k]).None? {
        assert rs[..n][..k] == rs[..k];
        assert rs[k].SubmitRec?;
      }
      FenceMonotone(cur, rs[..n]);
      assert rs[n].SubmitRec? ==> TransitionAll(cur, rs[..n]).None?;
    }
  }

  /** Done is absolute within an epoch: a Done copy changes only by a Takeover, which moves
      epoch and owner alone, or by a full copy that advances it. "Done is absolute" without
      that qualification is false: see DoneYieldsToHigherEpoch. */
  lemma DoneChanges(j: Job, r: Record)
    requires j.state.Done? && !r.SubmitRec?
    ensures
      var j' := Transition(Some(j), r);
      && (j' == Some(j)
          || (r.TakeoverRec? && r.newEpoch > j.epoch
              && j' == Some(j.(epoch := r.newEpoch, owner := r.newOwner)))
          || (r.ReplicateRec? && JobAdvances(j, r.job) && j' == Some(r.job)))
      && (j'.value.state.Done? <==> !(r.ReplicateRec? && r.job.epoch > j.epoch && !r.job.state.Done?))
  {
  }

  lemma DoneYieldsToHigherEpoch(j: Job)
    requires j.state.Done?
    ensures Transition(Some(j), ReplicateRec(j.(epoch := j.epoch + 1, state := Ready))).value.state.Ready?
  {
  }

  // ---- The job table ---------------------------------------------------------------------------

  datatype Table = Table(jobs: map<JobId, Job>, byIdem: map<seq<byte>, JobId>)

  const EMPTY := Table(map[], map[])

  function Find(t: Table, id: JobId): Option<Job> {
    if id in t.jobs then Some(t.jobs[id]) else None
  }

  function FindByIdem(t: Table, key: seq<byte>): Option<Job> {
    if key in t.byIdem then Find(t, t.byIdem[key]) else None
  }

  function Apply(t: Table, r: Record): Table {
    var next := Transition(Find(t, RecId(r)), r);
    Table(if next.Some? then t.jobs[RecId(r) := next.value] else t.jobs,
          if r.SubmitRec? || r.ReplicateRec? then t.byIdem[r.job.idemKey := r.job.id] else t.byIdem)
  }

  function ApplyAll(t: Table, rs: seq<Record>): Table {
    if rs == [] then t else Apply(ApplyAll(t, rs[..|rs| - 1]), rs[|rs| - 1])
  }

  lemma {:induction false} ApplyAllConcat(t: Table, xs: seq<Record>, ys: seq<Record>)
    ensures ApplyAll(t, xs + ys) == ApplyAll(ApplyAll(t, xs), ys)
  {
    if ys == [] {
      assert xs + ys == xs;
    } else {
      var n := |ys| - 1;
      ApplyAllConcat(t, xs, ys[..n]);
      assert (xs + ys)[..|xs + ys| - 1] == xs + ys[..n];
    }
  }

  /** A record moves the copy of its own job and no other. */
  lemma ApplyFinds(t: Table, r: Record)
    ensures Find(Apply(t, r), RecId(r)) == Transition(Find(t, RecId(r)), r)
    ensures forall id :: id != RecId(r) ==> Find(Apply(t, r), id) == Find(t, id)
  {
  }

  function RecordsOf(rs: seq<Record>, id: JobId): seq<Record> {
    if rs == [] then []
    else
      var front := RecordsOf(rs[..|rs| - 1], id);
      if RecId(rs[|rs| - 1]) == id then front + [rs[|rs| - 1]] else front
  }

  /** The table is per-job independent: each job's copy is the fold of just the records that
      name it. */
  lemma {:induction false} TableIsPerJob(t: Table, rs: seq<Record>, id: JobId)
    ensures Find(ApplyAll(t, rs), id) == TransitionAll(Find(t, id), RecordsOf(rs, id))
  {
    if rs != [] {
      var n := |rs| - 1;
      TableIsPerJob(t, rs[..n], id);
      ApplyFinds(ApplyAll(t, rs[..n]), rs[n]);
      hide Transition, Apply, Find;
      var front := RecordsOf(rs[..n], id);
      if RecId(rs[n]) == id {
        var all := front + [rs[n]];
        assert all[..|all| - 1] == front;
      }
    }
  }

  predicate KeyedById(t: Table) {
    forall id :: id in t.jobs ==> t.jobs[id].id == id
  }

  lemma AppliedMore(history: seq<Record>, r: Record)
    ensures ApplyAll(EMPTY, history + [r]) == Apply(ApplyAll(EMPTY, history), r)
  {
    assert (history + [r])[..|history|] == history;
  }

  lemma {:induction false} KeyedByIdKept(t: Table, rs: seq<Record>)
    requires KeyedById(t)
    ensures KeyedById(ApplyAll(t, rs))
  {
    if rs != [] {
      KeyedByIdKept(t, rs[..|rs| - 1]);
    }
  }

  /** Every index entry names a stored job that carries that key, and every stored job's key
      is indexed. */
  predicate IndexExact(t: Table) {
    && (forall k :: k in t.byIdem ==> t.byIdem[k] in t.jobs && t.jobs[t.byIdem[k]].idemKey == k)
    && (forall id :: id in t.jobs ==> t.jobs[id].idemKey in t.byIdem)
  }

  /** An id always carries the same key: the records of a log agree with one assignment. */
  ghost predicate KeysFixed(rs: seq<Record>, keyOf: JobId -> seq<byte>) {
    forall k :: 0 <= k < |rs| && (rs[k].SubmitRec? || rs[k].ReplicateRec?) ==>
      rs[k].job.idemKey == keyOf(rs[k].job.id)
  }

  ghost predicate KeysAgree(t: Table, keyOf: JobId -> seq<byte>) {
    forall id :: id in t.jobs ==> t.jobs[id].idemKey == keyOf(id)
  }

  lemma IndexExactStep(t: Table, r: Record, keyOf: JobId -> seq<byte>)
    requires KeyedById(t) && IndexExact(t) && KeysAgree(t, keyOf)
    requires r.SubmitRec? || r.ReplicateRec? ==> r.job.idemKey == keyOf(r.job.id)
    ensures KeyedById(Apply(t, r)) && IndexExact(Apply(t, r)) && KeysAgree(Apply(t, r), keyOf)
  {
    var t' := Apply(t, r);
    var old', next := Find(t, RecId(r)), Transition(Find(t, RecId(r)), r);
    assert next.Some? ==> next.value.idemKey == keyOf(RecId(r)) && next.value.id == RecId(r);
    forall id | id in t'.jobs
      ensures t'.jobs[id].id == id && t'.jobs[id].idemKey == keyOf(id) && t'.jobs[id].idemKey in t'.byIdem
    {
      if id != RecId(r) { assert id in t.jobs; }
    }
    forall k | k in t'.byIdem ensures t'.byIdem[k] in t'.jobs && t'.jobs[t'.byIdem[k]].idemKey == k {
      if k in t.byIdem && t'.byIdem[k] == t.byIdem[k] {
        assert t.jobs[t.byIdem[k]].idemKey == k;
      }
    }
  }

  lemma {:induction false} IndexExactKept(t: Table, rs: seq<Record>, keyOf: JobId -> seq<byte>)
    requires KeyedById(t) && IndexExact(t) && KeysAgree(t, keyOf) && KeysFixed(rs, keyOf)
    ensures KeyedById(ApplyAll(t, rs)) && IndexExact(ApplyAll(t, rs)) && KeysAgree(ApplyAll(t, rs), keyOf)
  {
    if rs != [] {
      assert forall k :: 0 <= k < |rs| - 1 ==> rs[..|rs| - 1][k] == rs[k];
      IndexExactKept(t, rs[..|rs| - 1], keyOf);
      IndexExactStep(ApplyAll(t, rs[..|rs| - 1]), rs[|rs| - 1], keyOf);
    }
  }

  // ---- Compaction ------------------------------------------------------------------------------

  /** std::string comparison: lexicographic on unsigned bytes. */
  predicate BytesLess(a: seq<byte>, b: seq<byte>) {
    if b == [] then false
    else if a == [] then true
    else a[0] < b[0] || (a[0] == b[0] && BytesLess(a[1..], b[1..]))
  }

  lemma {:induction false} BytesLessTotal(a: seq<byte>, b: seq<byte>)
    ensures !(BytesLess(a, b) && BytesLess(b, a))
    ensures !BytesLess(a, b) && !BytesLess(b, a) <==> a == b
  {
    if a != [] && b != [] {
      BytesLessTotal(a[1..], b[1..]);
      assert a == [a[0]] + a[1..] && b == [b[0]] + b[1..];
    }
  }

  lemma {:induction false} BytesLessTransitive(a: seq<byte>, b: seq<byte>, c: seq<byte>)
    requires BytesLess(a, b) && BytesLess(b, c)
    ensures BytesLess(a, c)
  {
    if a != [] && a[0] == b[0] == c[0] {
      BytesLessTransitive(a[1..], b[1..], c[1..]);
    }
  }

  predicate Selected(t: Table, j: Job) {
    j.idemKey in t.byIdem && t.byIdem[j.idemKey] == j.id
  }

  /** The snapshot order: by key, the job the index selects last within its key, then by id. */
  predicate SnapshotBefore(t: Table, a: Job, b: Job) {
    if a.idemKey != b.idemKey then BytesLess(a.idemKey, b.idemKey)
    else if Selected(t, a) != Selected(t, b) then !Selected(t, a)
    else a.id.origin < b.id.origin || (a.id.origin == b.id.origin && a.id.nonce < b.id.nonce)
  }

  /** The comparator handed to the sort is a strict order, total on jobs with distinct ids,
      so the sort is well defined and its result unique. */
  lemma SnapshotOrder(t: Table, a: Job, b: Job, c: Job)
    ensures !SnapshotBefore(t, a, a)
    ensures a.id != b.id ==> (SnapshotBefore(t, a, b) <==> !SnapshotBefore(t, b, a))
    ensures SnapshotBefore(t, a, b) && SnapshotBefore(t, b, c) ==> SnapshotBefore(t, a, c)
  {
    BytesLessTotal(a.idemKey, b.idemKey);
    BytesLessTotal(b.idemKey, c.idemKey);
    BytesLessTotal(a.idemKey, c.idemKey);
    if BytesLess(a.idemKey, b.idemKey) && BytesLess(b.idemKey, c.idemKey) {
      BytesLessTransitive(a.idemKey, b.idemKey, c.idemKey);
    }
  }

  predicate SnapshotSorted(t: Table, xs: seq<Job>) {
    forall i, j :: 0 <= i < j < |xs| ==> SnapshotBefore(t, xs[i], xs[j])
  }

  /** xs lists every retained job of t, each once, in snapshot order. */
  predicate IsSnapshot(t: Table, xs: seq<Job>) {
    && SnapshotSorted(t, xs)
    && (forall j :: j in xs ==> j.id in t.jobs && t.jobs[j.id] == j)
    && (forall id :: id in t.jobs ==> t.jobs[id] in xs)
  }

  function SnapshotRecords(xs: seq<Job>): (rs: seq<Record>)
    ensures |rs| == |xs|
  {
    seq(|xs|, i requires 0 <= i < |xs| => ReplicateRec(xs[i]))
  }

  predicate DistinctIds(xs: seq<Job>) {
    forall i, j :: 0 <= i < j < |xs| ==> xs[i].id != xs[j].id
  }

  /** t holds exactly the copies xs. */
  predicate Holds(t: Table, xs: seq<Job>) {
    && (forall i :: 0 <= i < |xs| ==> xs[i].id in t.jobs && t.jobs[xs[i].id] == xs[i])
    && (forall id :: id in t.jobs ==> t.jobs[id].id == id && t.jobs[id] in xs)
  }

  predicate LastWith(xs: seq<Job>, k: seq<byte>, i: nat) {
    i < |xs| && xs[i].idemKey == k && forall m :: i < m < |xs| ==> xs[m].idemKey != k
  }

  /** The index maps exactly the keys of xs, each to the last copy carrying it. */
  ghost predicate IndexesLast(index: map<seq<byte>, JobId>, xs: seq<Job>) {
    && (forall i :: 0 <= i < |xs| ==> xs[i].idemKey in index)
    && (forall k :: k in index ==> exists i: nat :: LastWith(xs, k, i) && index[k] == xs[i].id)
  }

  lemma IndexStep(index: map<seq<byte>, JobId>, xs: seq<Job>, x: Job)
    requires IndexesLast(index, xs)
    ensures IndexesLast(index[x.idemKey := x.id], xs + [x])
  {
    var ys, index' := xs + [x], index[x.idemKey := x.id];
    forall k | k in index' ensures exists i: nat :: LastWith(ys, k, i) && index'[k] == ys[i].id {
      if k == x.idemKey {
        assert LastWith(ys, k, |xs|);
      } else {
        var i: nat :| LastWith(xs, k, i) && index[k] == xs[i].id;
        assert LastWith(ys, k, i);
      }
    }
  }

  lemma HoldsStep(t: Table, xs: seq<Job>, x: Job)
    requires Holds(t, xs) && DistinctIds(xs + [x])
    ensures x.id !in t.jobs
    ensures Holds(Apply(t, ReplicateRec(x)), xs + [x])
    ensures Apply(t, ReplicateRec(x)).byIdem == t.byIdem[x.idemKey := x.id]
  {
    var ys := xs + [x];
    forall i | 0 <= i < |xs| ensures xs[i].id != x.id {
      assert ys[i].id != ys[|xs|].id;
    }
    var t' := Apply(t, ReplicateRec(x));
    assert t'.jobs == t.jobs[x.id := x];
    forall i | 0 <= i < |ys| ensures ys[i].id in t'.jobs && t'.jobs[ys[i].id] == ys[i] {
      if i < |xs| { assert ys[i] == xs[i]; }
    }
  }

  /** Replaying distinct full copies stores each of them, and indexes each key by the last
      copy that carries it. */
  lemma {:induction false} ReplaySnapshot(xs: seq<Job>)
    requires DistinctIds(xs)
    ensures Holds(ApplyAll(EMPTY, SnapshotRecords(xs)), xs)
    ensures IndexesLast(ApplyAll(EMPTY, SnapshotRecords(xs)).byIdem, xs)
  {
    if xs != [] {
      var n := |xs| - 1;
      var front, rs := xs[..n], SnapshotRecords(xs);
      assert DistinctIds(front);
      assert rs[..n] == SnapshotRecords(front);
      assert xs == front + [xs[n]];
      hide Holds, IndexesLast, Apply, DistinctIds;
      ReplaySnapshot(front);
      HoldsStep(ApplyAll(EMPTY, rs[..n]), front, xs[n]);
      IndexStep(ApplyAll(EMPTY, rs[..n]).byIdem, front, xs[n]);
    }
  }

  lemma SnapshotDistinct(t: Table, xs: seq<Job>)
    requires IsSnapshot(t, xs)
    ensures DistinctIds(xs)
  {
    forall i, j | 0 <= i < j < |xs| ensures xs[i].id != xs[j].id {
      assert xs[i] in xs && xs[j] in xs;
      assert SnapshotBefore(t, xs[i], xs[j]);
      SnapshotOrder(t, xs[i], xs[i], xs[i]);
    }
  }

  /** Compaction preserves meaning exactly when the index is exact: replaying the sorted
      full-copy snapshot rebuilds the same table and the same winner for every key, including
      keys shared by several jobs, if and only if IndexExact holds. */
  lemma CompactionPreserves(t: Table, xs: seq<Job>)
    requires KeyedById(t) && IsSnapshot(t, xs)
    ensures ApplyAll(EMPTY, SnapshotRecords(xs)) == t <==> IndexExact(t)
  {
    SnapshotDistinct(t, xs);
    ReplaySnapshot(xs);
    var u := ApplyAll(EMPTY, SnapshotRecords(xs));
    SameJobs(t, u, xs);
    if IndexExact(t) {
      SameIndex(t, u.byIdem, xs);
    }
    if u == t {
      ExactFromLast(t, xs);
    }
  }

  lemma SameJobs(t: Table, u: Table, xs: seq<Job>)
    requires KeyedById(t) && IsSnapshot(t, xs) && Holds(u, xs)
    ensures u.jobs == t.jobs
  {
    forall id | id in t.jobs ensures id in u.jobs && u.jobs[id] == t.jobs[id] {
      var i :| 0 <= i < |xs| && xs[i] == t.jobs[id];
    }
    forall id | id in u.jobs ensures id in t.jobs {
      assert u.jobs[id] in xs;
    }
  }

  lemma SameIndex(t: Table, index: map<seq<byte>, JobId>, xs: seq<Job>)
    requires KeyedById(t) && IsSnapshot(t, xs) && IndexExact(t) && IndexesLast(index, xs)
    ensures index == t.byIdem
  {
    hide SnapshotSorted;
    forall k | k in t.byIdem ensures k in index {
      var i :| 0 <= i < |xs| && xs[i] == t.jobs[t.byIdem[k]];
      assert xs[i].idemKey in index;
    }
    forall k | k in index ensures k in t.byIdem && index[k] == t.byIdem[k] {
      var i: nat :| LastWith(xs, k, i) && index[k] == xs[i].id;
      assert xs[i] in xs;
      SelectedIsLast(t, xs, k, i);
    }
  }

  lemma ExactFromLast(t: Table, xs: seq<Job>)
    requires Holds(t, xs) && IndexesLast(t.byIdem, xs)
    ensures IndexExact(t)
  {
    forall k | k in t.byIdem ensures t.byIdem[k] in t.jobs && t.jobs[t.byIdem[k]].idemKey == k {
      var i: nat :| LastWith(xs, k, i) && t.byIdem[k] == xs[i].id;
    }
    forall id | id in t.jobs ensures t.jobs[id].idemKey in t.byIdem {
      var i :| 0 <= i < |xs| && xs[i] == t.jobs[id];
    }
  }

  lemma SelectedIsLast(t: Table, xs: seq<Job>, k: seq<byte>, i: nat)
    requires KeyedById(t) && IsSnapshot(t, xs) && IndexExact(t) && k in t.byIdem
    requires LastWith(xs, k, i)
    ensures xs[i].id == t.byIdem[k]
  {
    var w := t.jobs[t.byIdem[k]];
    var m :| 0 <= m < |xs| && xs[m] == w;
    if m < i {
      assert SnapshotBefore(t, xs[m], xs[i]);
    }
  }

  /** An id that changes key leaves a stale index entry, and compaction then drops it. */
  lemma CompactionLosesStaleKey(j: Job, k1: seq<byte>, k2: seq<byte>)
    requires k1 != k2
    ensures
      var t := ApplyAll(EMPTY, [SubmitRec(j.(idemKey := k1)), SubmitRec(j.(idemKey := k2))]);
      && IsSnapshot(t, [j.(idemKey := k2)])
      && k1 in t.byIdem
      && k1 !in ApplyAll(EMPTY, SnapshotRecords([j.(idemKey := k2)])).byIdem
  {
    var a, b := SubmitRec(j.(idemKey := k1)), SubmitRec(j.(idemKey := k2));
    assert [a, b][..1] == [a] && [a][..0] == [];
    assert ApplyAll(EMPTY, [a]) == Apply(EMPTY, a);
    var t := ApplyAll(EMPTY, [a, b]);
    assert t == Apply(Apply(EMPTY, a), b);
    var rs := SnapshotRecords([j.(idemKey := k2)]);
    assert rs == [ReplicateRec(j.(idemKey := k2))] && rs[..0] == [];
    assert ApplyAll(EMPTY, rs) == Apply(EMPTY, rs[0]);
  }
}
