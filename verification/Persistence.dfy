/** What a log means to the job store: the table its records rebuild, before and after a crash. */
module Persistence {
  import opened Options
  import opened Store
  import opened Records
  import opened Frames
  import opened Disk
  import opened Recovery
  import opened CrashSafety

  /** The records replay applies: an undecodable body is skipped. */
  function Decoded(bodies: seq<Body>): seq<Record> {
    if bodies == [] then []
    else
      var front, r := Decoded(bodies[..|bodies| - 1]), DecodeRecord(bodies[|bodies| - 1]);
      if r.None? then front else front + [r.value.0]
  }

  function Rebuilt(bodies: seq<Body>): Table { ApplyAll(EMPTY, Decoded(bodies)) }

  lemma RebuiltOne(bodies: seq<Body>, body: Body)
    ensures
      var r := DecodeRecord(body);
      Rebuilt(bodies + [body]) == if r.None? then Rebuilt(bodies) else Apply(Rebuilt(bodies), r.value.0)
  {
    hide DecodeRecord, Apply;
    assert (bodies + [body])[..|bodies|] == bodies;
    var r, front := DecodeRecord(body), Decoded(bodies);
    if r.Some? { assert (front + [r.value.0])[..|front|] == front; }
  }

  // ---- A log that stands for a history ----------------------------------------------------------------

  /** The first snap bodies rebuild what the first base records of the history did; each further
      body is one further record. */
  ghost predicate Represents(log: seq<Body>, snap: nat, history: seq<Record>, base: nat) {
    && snap <= |log| && base <= |history| && |log| - snap == |history| - base
    && Rebuilt(log[..snap]) == ApplyAll(EMPTY, history[..base])
    && (forall i :: snap <= i < |log| ==>
        DecodeRecord(log[i]).Some? && DecodeRecord(log[i]).value.0 == history[base + i - snap])
  }

  /** Cutting the log cuts the history. */
  lemma {:induction false} CutRebuilds(log: seq<Body>, snap: nat, history: seq<Record>, base: nat, k: nat)
    requires Represents(log, snap, history, base) && snap <= k <= |log|
    ensures Rebuilt(log[..k]) == ApplyAll(EMPTY, history[..base + k - snap])
    decreases k
  {
    hide DecodeRecord, Apply, Rebuilt;
    if k > snap {
      CutRebuilds(log, snap, history, base, k - 1);
      assert log[..k] == log[..k - 1] + [log[k - 1]];
      RebuiltOne(log[..k - 1], log[k - 1]);
      var n := base + k - snap;
      assert history[..n][..n - 1] == history[..n - 1] && history[..n][n - 1] == history[n - 1];
    }
  }

  lemma CutRepresents(log: seq<Body>, snap: nat, history: seq<Record>, base: nat, k: nat)
    requires Represents(log, snap, history, base) && snap <= k <= |log|
    ensures Represents(log[..k], snap, history[..base + k - snap], base)
  {
    hide DecodeRecord, Rebuilt, ApplyAll;
    assert log[..k][..snap] == log[..snap];
    assert history[..base + k - snap][..base] == history[..base];
  }

  lemma RepresentsMore(log: seq<Body>, snap: nat, history: seq<Record>, base: nat, body: Body, r: Record)
    requires Represents(log, snap, history, base) && DecodeRecord(body).Some? && DecodeRecord(body).value.0 == r
    ensures Represents(log + [body], snap, history + [r], base)
  {
    hide DecodeRecord, Rebuilt, ApplyAll;
    assert (log + [body])[..snap] == log[..snap];
    assert (history + [r])[..base] == history[..base];
  }

  /** Any log stands for whatever history it rebuilds. */
  lemma RepresentsWhole(log: seq<Body>, history: seq<Record>)
    requires Rebuilt(log) == ApplyAll(EMPTY, history)
    ensures Represents(log, |log|, history, |history|)
  {
    assert log[..|log|] == log && history[..|history|] == history;
  }

  // ---- Crashes ------------------------------------------------------------------------------------------

  /** t is what the history amounts to when at most its unpromised end is missing. */
  ghost predicate Amounts(t: Table, history: seq<Record>, promised: nat) {
    exists k :: promised <= k <= |history| && t == ApplyAll(EMPTY, history[..k])
  }

  /** Whatever a power loss does, open succeeds and rebuilds the history, possibly without its
      unpromised end. */
  ghost predicate Survivable(crc: Crc, d: Image, history: seq<Record>, promised: nat) {
    forall d' :: Survives(d, d') ==> Opened(crc, d').Some? && Amounts(Rebuilt(Opened(crc, d').value), history, promised)
  }

  /** The alternative log, if there is one, rebuilds the whole history. */
  ghost predicate Equivalent(alt: Option<seq<Body>>, history: seq<Record>) {
    alt.Some? ==> Rebuilt(alt.value) == ApplyAll(EMPTY, history)
  }

  lemma CutAmounts(r: seq<Body>, log: seq<Body>, min: nat, snap: nat, history: seq<Record>, base: nat)
    requires IsCut(r, log, min) && Represents(log, snap, history, base) && snap <= min
    ensures Amounts(Rebuilt(r), history, base + min - snap)
  {
    hide Rebuilt, ApplyAll, Represents;
    CutBounds(log, snap, history, base);
    CutRebuilds(log, snap, history, base, |r|);
    assert Rebuilt(r) == ApplyAll(EMPTY, history[..base + |r| - snap]);
  }

  lemma CutBounds(log: seq<Body>, snap: nat, history: seq<Record>, base: nat)
    requires Represents(log, snap, history, base)
    ensures snap <= |log| && base <= |history| && |log| - snap == |history| - base
  {
  }

  /** The step from the log to the store: a sound image of a log that stands for a history is a
      survivable image of that history. */
  lemma SoundSurvivable(crc: Crc, d: Image, log: seq<Body>, min: nat, alt: Option<seq<Body>>, snap: nat,
      history: seq<Record>, base: nat)
    requires Sound(crc, d, log, min, alt) && Represents(log, snap, history, base) && snap <= min <= |log|
    requires Equivalent(alt, history)
    ensures Survivable(crc, d, history, base + min - snap)
  {
    hide Sound, Represents, Opened, Survives, Rebuilt, ApplyAll;
    SoundRecovers(crc, d, log, min, alt);
    CutBounds(log, snap, history, base);
    forall d' | Survives(d, d')
      ensures Opened(crc, d').Some? && Amounts(Rebuilt(Opened(crc, d').value), history, base + min - snap)
    {
      var r := Opened(crc, d').value;
      if IsCut(r, log, min) {
        CutAmounts(r, log, min, snap, history, base);
      } else {
        assert history[..|history|] == history;
        assert Rebuilt(r) == ApplyAll(EMPTY, history[..|history|]);
      }
    }
  }
}
