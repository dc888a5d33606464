/** The job record and the one order every full-copy merge obeys (src/job.h, src/records.cc). */
module Jobs {
  import opened Bytes
  import opened Options

  datatype Endpoint = Endpoint(addr: nat, port: nat)

  /** A default-constructed endpoint marks an empty replica slot. */
  const NO_ENDPOINT := Endpoint(0, 0)

  datatype JobId = JobId(origin: nat, nonce: nat)

  /** Other is a state byte that names no lifecycle state; the decoder lets it through. */
  datatype JobState = Ready | Leased | Done | DeadLetter | Other(code: byte)

  predicate Terminal(s: JobState) { s.Done? || s.DeadLetter? }

  datatype Job = Job(
    id: JobId, idemKey: seq<byte>, url: seq<byte>, body: seq<byte>,
    visibilityMs: nat, maxAttempts: nat, replicas: seq<Endpoint>,
    state: JobState, owner: Endpoint, epoch: nat, leaseSeq: nat, attempts: nat)

  predicate JobAdvances(local: Job, remote: Job) {
    if remote.epoch != local.epoch then remote.epoch > local.epoch
    else if remote.state.Done? != local.state.Done? then remote.state.Done?
    else if remote.state.DeadLetter? != local.state.DeadLetter? then remote.state.DeadLetter?
    else if remote.leaseSeq != local.leaseSeq then remote.leaseSeq > local.leaseSeq
    else remote.state.Leased? && local.state.Ready?
  }

  // ---- An independent reading of the order: lexicographic comparison of a key -------------

  /** (epoch, terminal class, lease_seq, Leased over Ready), most significant first. */
  function Key(j: Job): seq<int> {
    [j.epoch,
     if j.state.Done? then 2 else if j.state.DeadLetter? then 1 else 0,
     j.leaseSeq,
     if j.state.Leased? then 1 else 0]
  }

  predicate LexLess(a: seq<int>, b: seq<int>)
    requires |a| == |b|
  {
    |a| > 0 && (a[0] < b[0] || (a[0] == b[0] && LexLess(a[1..], b[1..])))
  }

  lemma LexLess4(a: seq<int>, b: seq<int>)
    requires |a| == 4 && |b| == 4
    ensures LexLess(a, b) <==>
      (a[0] < b[0] || (a[0] == b[0] && (a[1] < b[1] || (a[1] == b[1] &&
        (a[2] < b[2] || (a[2] == b[2] && a[3] < b[3]))))))
  {
    assert a[1..][1..] == a[2..] && b[1..][1..] == b[2..];
    assert a[2..][1..] == a[3..] && b[2..][1..] == b[3..];
    assert a[3..][1..] == [] && b[3..][1..] == [];
    assert LexLess(a[3..], b[3..]) <==> a[3] < b[3];
    assert LexLess(a[2..], b[2..]) <==> a[2] < b[2] || (a[2] == b[2] && LexLess(a[3..], b[3..]));
  }

  /** On lifecycle states the chain of comparisons is exactly the lexicographic order of Key,
      hence a strict weak order: irreflexive, transitive, incomparability transitive. */
  lemma AdvancesIsKeyOrder(local: Job, remote: Job)
    requires !local.state.Other? && !remote.state.Other?
    ensures JobAdvances(local, remote) <==> LexLess(Key(local), Key(remote))
  {
    LexLess4(Key(local), Key(remote));
  }

  lemma StrictWeakOrder(a: Job, b: Job, c: Job)
    ensures !JobAdvances(a, a)
    ensures JobAdvances(a, b) && JobAdvances(b, c) ==> JobAdvances(a, c)
    ensures !a.state.Other? && !b.state.Other? && !c.state.Other? &&
            !JobAdvances(a, b) && !JobAdvances(b, a) && !JobAdvances(b, c) && !JobAdvances(c, b)
            ==> !JobAdvances(a, c) && !JobAdvances(c, a)
  {
  }

  /** With an unknown state byte the order is only partial: an unknown state ties with both
      Ready and Leased, which are themselves ordered. */
  lemma UnknownStateBreaksWeakOrder(j: Job, code: byte)
    ensures
      var r, o, l := j.(state := Ready), j.(state := Other(code)), j.(state := Leased);
      && !JobAdvances(r, o) && !JobAdvances(o, r) && !JobAdvances(o, l) && !JobAdvances(l, o)
      && JobAdvances(r, l)
  {
  }

  // ---- Merging full copies ----------------------------------------------------------------

  /** One merge step: Replicate, Resync and the status query all keep the local copy unless
      the remote one strictly advances it. */
  function Merge(local: Option<Job>, remote: Job): (r: Option<Job>)
    ensures r == local || r == Some(remote)
    ensures r.Some? && !JobAdvances(r.value, remote)
  {
    if local.None? || JobAdvances(local.value, remote) then Some(remote) else local
  }

  function MergeAll(local: Option<Job>, copies: seq<Job>): Option<Job>
    decreases copies
  {
    if copies == [] then local else MergeAll(Merge(local, copies[0]), copies[1..])
  }

  /** Merging is a join: whatever the order and repetition, the survivor is the local copy or
      an offered one that advances it, and none of them advances the survivor. This needs only
      transitivity, so unknown state bytes do not break it. */
  lemma {:induction false} MergeAllIsMaximal(local: Option<Job>, copies: seq<Job>)
    ensures local.Some? || copies != [] ==>
      var m := MergeAll(local, copies);
      && m.Some?
      && (m == local || m.value in copies)
      && (local.Some? ==> m == local || JobAdvances(local.value, m.value))
      && (forall c :: c in copies ==> !JobAdvances(m.value, c))
    decreases copies
  {
    if copies != [] {
      var next := Merge(local, copies[0]);
      MergeAllIsMaximal(next, copies[1..]);
      var m := MergeAll(next, copies[1..]).value;
      assert m == next.value || JobAdvances(next.value, m);
      forall c | c in copies ensures !JobAdvances(m, c) {
        if c !in copies[1..] {
          assert c == copies[0];
          StrictWeakOrder(next.value, m, c);
        }
      }
    }
  }

  /** Two nodes that have been offered the same copies, in any order and any number of times,
      hold copies that do not advance one another. */
  lemma MergeOrderIrrelevant(xs: seq<Job>, ys: seq<Job>)
    requires xs != [] && ys != []
    requires forall j :: j in xs <==> j in ys
    ensures MergeAll(None, xs).Some? && MergeAll(None, ys).Some?
    ensures
      var a, b := MergeAll(None, xs).value, MergeAll(None, ys).value;
      !JobAdvances(a, b) && !JobAdvances(b, a)
  {
    MergeAllIsMaximal(None, xs);
    MergeAllIsMaximal(None, ys);
  }
}
