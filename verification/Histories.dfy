/** What a store's clients are told, and what its history then is: scripts of commits, compactions
    and power losses, the outcome of each, and laws over every legal run (src/store.cc, src/wal.cc). */
module Histories {
  import opened Options
  import opened Store
  import opened Frames
  import opened Disk
  import opened Persistence

  // ---- Subsequences -------------------------------------------------------------------------------------

  predicate Subsequence<T(==)>(xs: seq<T>, ys: seq<T>) {
    || xs == []
    || (ys != [] && xs[|xs| - 1] == ys[|ys| - 1] && Subsequence(xs[..|xs| - 1], ys[..|ys| - 1]))
    || (ys != [] && Subsequence(xs, ys[..|ys| - 1]))
  }

  lemma SubWider<T>(xs: seq<T>, ys: seq<T>, y: T)
    requires Subsequence(xs, ys)
    ensures Subsequence(xs, ys + [y])
  {
    assert (ys + [y])[..|ys|] == ys;
  }

  lemma SubBoth<T>(xs: seq<T>, ys: seq<T>, y: T)
    requires Subsequence(xs, ys)
    ensures Subsequence(xs + [y], ys + [y])
  {
    assert (ys + [y])[..|ys|] == ys && (xs + [y])[..|xs|] == xs;
  }

  lemma {:induction false} SubLonger<T>(xs: seq<T>, ys: seq<T>, p: nat, k: nat)
    requires p <= k <= |ys| && Subsequence(xs, ys[..p])
    ensures Subsequence(xs, ys[..k])
    decreases k
  {
    if p < k {
      SubLonger(xs, ys, p, k - 1);
      SubWider(xs, ys[..k - 1], ys[k - 1]);
      assert ys[..k - 1] + [ys[k - 1]] == ys[..k];
    }
  }

  lemma {:induction false} SubShorter<T>(xs: seq<T>, ys: seq<T>)
    requires Subsequence(xs, ys) && xs != []
    ensures Subsequence(xs[..|xs| - 1], ys)
    decreases ys
  {
    var xs', ys' := xs[..|xs| - 1], ys[..|ys| - 1];
    assert ys' + [ys[|ys| - 1]] == ys;
    if xs[|xs| - 1] == ys[|ys| - 1] && Subsequence(xs', ys') {
    } else {
      SubShorter(xs, ys');
    }
    SubWider(xs', ys', ys[|ys| - 1]);
  }

  lemma {:induction false} SubCut<T>(xs: seq<T>, ys: seq<T>, k: nat)
    requires Subsequence(xs, ys) && k <= |xs|
    ensures Subsequence(xs[..k], ys)
    decreases |xs|
  {
    if k == |xs| {
      assert xs[..k] == xs;
    } else {
      SubShorter(xs, ys);
      SubCut(xs[..|xs| - 1], ys, k);
      assert xs[..|xs| - 1][..k] == xs[..k];
    }
  }

  // ---- Scripts and outcomes ------------------------------------------------------------------------------

  datatype Act = DoCommit(r: Record, sync: bool) | DoCompact | DoNothing

  /** An action, and the power loss that strikes during it: the image it strikes at, counted in
      device states, and what it leaves. */
  datatype Op = Op(act: Act, crash: Option<(nat, Image)>)

  /** A reply, or none because the power went first. */
  datatype Outcome = Replied(ok: bool) | Struck

  function Attempts(script: seq<Op>): seq<Record> {
    if script == [] then []
    else
      var front, act := Attempts(script[..|script| - 1]), script[|script| - 1].act;
      if act.DoCommit? then front + [act.r] else front
  }

  predicate Confirms(op: Op, out: Outcome) {
    op.act.DoCommit? && op.act.sync && out == Replied(true)
  }

  /** The records of the synced commits that were answered yes. */
  function Acked(script: seq<Op>, outcomes: seq<Outcome>): seq<Record>
    requires |outcomes| == |script|
  {
    if script == [] then []
    else
      var n := |script| - 1;
      var front := Acked(script[..n], outcomes[..n]);
      if Confirms(script[n], outcomes[n]) then front + [script[n].act.r] else front
  }

  function Strikes(outcomes: seq<Outcome>): nat {
    if outcomes == [] then 0
    else Strikes(outcomes[..|outcomes| - 1]) + (if outcomes[|outcomes| - 1].Struck? then 1 else 0)
  }

  // ---- Legal runs ------------------------------------------------------------------------------------------

  /** The records the table is the fold of, how many of them are promised, and the record a refused
      commit may have left in the log. */
  datatype Abs = Abs(h: seq<Record>, p: nat, pending: seq<Record>)

  /** All a power loss during act can bring back. */
  function Held(a: Abs, act: Act): seq<Record> {
    a.h + (if act.DoCommit? && a.pending == [] then [act.r] else a.pending)
  }

  /** What an action with this outcome may do. A power loss leaves the records the image replays to,
      which are a part of those held that is no shorter than the promise. */
  ghost predicate StepOk(crc: Crc, op: Op, out: Outcome, a: Abs, b: Abs) {
    && a.p <= b.p <= |b.h|
    && match out
       case Struck =>
         && op.crash.Some? && b.h <= Held(a, op.act) && b.p == |b.h| && b.pending == []
         && ReplaysTo(crc, op.crash.value.1, b.h)
       case Replied(ok) =>
         match op.act
         case DoCommit(r, sync) =>
           if ok then a.pending == [] && b.h == a.h + [r] && b.pending == [] && (sync ==> b.p == |b.h|)
           else b.h == a.h && (b.pending == a.pending || (a.pending == [] && b.pending == [r]))
         case DoCompact => b.h == a.h && b.pending == a.pending && (ok ==> b.p == |b.h|)
         case DoNothing => b == a
  }

  ghost predicate ReplaysTo(crc: Crc, d: Image, h: seq<Record>) {
    Opened(crc, d).Some? && Rebuilt(Opened(crc, d).value) == ApplyAll(EMPTY, h)
  }

  ghost predicate Legal(crc: Crc, script: seq<Op>, outcomes: seq<Outcome>, trace: seq<Abs>) {
    && |outcomes| == |script| && |trace| == |script| + 1 && trace[0] == Abs([], 0, [])
    && forall i :: 0 <= i < |script| ==> StepOk(crc, script[i], outcomes[i], trace[i], trace[i + 1])
  }

  lemma LegalFront(crc: Crc, script: seq<Op>, outcomes: seq<Outcome>, trace: seq<Abs>)
    requires Legal(crc, script, outcomes, trace) && script != []
    ensures var n := |script| - 1;
      && Legal(crc, script[..n], outcomes[..n], trace[..n + 1])
      && StepOk(crc, script[n], outcomes[n], trace[n], trace[n + 1])
  {
    hide StepOk;
    var n := |script| - 1;
    forall i | 0 <= i < n
      ensures StepOk(crc, script[..n][i], outcomes[..n][i], trace[..n + 1][i], trace[..n + 1][i + 1])
    {
      assert StepOk(crc, script[i], outcomes[i], trace[i], trace[i + 1]);
    }
    assert StepOk(crc, script[n], outcomes[n], trace[n], trace[n + 1]);
  }

  lemma LegalMore(crc: Crc, script: seq<Op>, outcomes: seq<Outcome>, trace: seq<Abs>, op: Op, out: Outcome, b: Abs)
    requires Legal(crc, script, outcomes, trace) && StepOk(crc, op, out, trace[|script|], b)
    ensures Legal(crc, script + [op], outcomes + [out], trace + [b])
  {
    hide StepOk;
    forall i | 0 <= i < |script| + 1
      ensures StepOk(crc, (script + [op])[i], (outcomes + [out])[i], (trace + [b])[i], (trace + [b])[i + 1])
    {
      if i < |script| { assert StepOk(crc, script[i], outcomes[i], trace[i], trace[i + 1]); }
    }
  }

  // ---- Nothing acknowledged is lost, nothing unattempted appears ------------------------------------------

  /** The acknowledged records are in the promised part of the history, and the history is made of
      attempted records; both in order. */
  ghost predicate Tally(h: seq<Record>, pending: seq<Record>, p: nat, acked: seq<Record>, attempted: seq<Record>) {
    p <= |h| && |pending| <= 1 && Subsequence(acked, h[..p]) && Subsequence(h + pending, attempted)
  }

  lemma TallyCut(h: seq<Record>, p: nat, acked: seq<Record>, attempted: seq<Record>, k: nat)
    requires p <= k <= |h| && Subsequence(acked, h[..p]) && Subsequence(h, attempted)
    ensures Tally(h[..k], [], k, acked, attempted)
  {
    hide Subsequence;
    SubLonger(acked, h, p, k);
    SubCut(h, attempted, k);
    assert h[..k][..k] == h[..k] && h[..k] + [] == h[..k];
  }

  lemma CommitTally(h: seq<Record>, pending: seq<Record>, p: nat, acked: seq<Record>, attempted: seq<Record>,
      r: Record, h': seq<Record>, pending': seq<Record>, p': nat)
    requires Tally(h, pending, p, acked, attempted) && p <= p' <= |h'|
    requires
      || (pending == [] && h' == h + [r] && pending' == [])
      || (h' == h && (pending' == pending || (pending == [] && pending' == [r])))
    ensures Tally(h', pending', p', acked, attempted + [r])
  {
    hide Subsequence;
    assert h'[..p] == h[..p];
    SubLonger(acked, h', p, p');
    SubWider(h + pending, attempted, r);
    if pending == [] {
      SubBoth(h + pending, attempted, r);
      assert h + [r] + [] == h + pending + [r] && h + pending == h;
    }
  }

  lemma AckTally(h: seq<Record>, p: nat, acked: seq<Record>, attempted: seq<Record>, r: Record)
    requires Tally(h, [], p, acked, attempted)
    ensures Tally(h + [r], [], |h + [r]|, acked + [r], attempted + [r])
  {
    hide Subsequence;
    SubLonger(acked, h, p, |h|);
    assert h[..|h|] == h && h + [] == h;
    SubBoth(acked, h, r);
    SubBoth(h, attempted, r);
    assert (h + [r])[..|h + [r]|] == h + [r] && h + [r] + [] == h + [r];
  }

  lemma MoreTally(h: seq<Record>, pending: seq<Record>, p: nat, acked: seq<Record>, attempted: seq<Record>, p': nat)
    requires Tally(h, pending, p, acked, attempted) && p <= p' <= |h|
    ensures Tally(h, pending, p', acked, attempted)
  {
    hide Subsequence;
    SubLonger(acked, h, p, p');
  }

  lemma StruckTally(crc: Crc, op: Op, a: Abs, b: Abs, acked: seq<Record>, attempted: seq<Record>)
    requires StepOk(crc, op, Struck, a, b) && Tally(a.h, a.pending, a.p, acked, attempted)
    ensures Tally(b.h, b.pending, b.p, acked, if op.act.DoCommit? then attempted + [op.act.r] else attempted)
  {
    hide Subsequence, ReplaysTo;
    var h0 := Held(a, op.act);
    assert h0[..a.p] == a.h[..a.p] && b.h == h0[..|b.h|];
    if op.act.DoCommit? {
      SubWider(a.h + a.pending, attempted, op.act.r);
      if a.pending == [] {
        assert a.h + a.pending == a.h;
        SubBoth(a.h, attempted, op.act.r);
      }
      TallyCut(h0, a.p, acked, attempted + [op.act.r], |b.h|);
    } else {
      TallyCut(h0, a.p, acked, attempted, |b.h|);
    }
  }

  lemma StepTally(crc: Crc, op: Op, out: Outcome, a: Abs, b: Abs, acked: seq<Record>, attempted: seq<Record>)
    requires StepOk(crc, op, out, a, b) && Tally(a.h, a.pending, a.p, acked, attempted)
    ensures Tally(b.h, b.pending, b.p, if Confirms(op, out) then acked + [op.act.r] else acked,
                  if op.act.DoCommit? then attempted + [op.act.r] else attempted)
  {
    if out.Struck? {
      StruckTally(crc, op, a, b, acked, attempted);
    } else {
      hide Tally, ReplaysTo;
      match op.act
      case DoCommit(r, sync) =>
        if Confirms(op, out) { AckTally(a.h, a.p, acked, attempted, r); }
        else {
          PendingShort(a, acked, attempted);
          CommitTally(a.h, a.pending, a.p, acked, attempted, r, b.h, b.pending, b.p);
        }
      case DoCompact => MoreTally(a.h, a.pending, a.p, acked, attempted, b.p);
      case DoNothing =>
    }
  }

  lemma PendingShort(a: Abs, acked: seq<Record>, attempted: seq<Record>)
    requires Tally(a.h, a.pending, a.p, acked, attempted)
    ensures a.p <= |a.h| && |a.pending| <= 1
  {
  }

  lemma {:induction false} RunTally(crc: Crc, script: seq<Op>, outcomes: seq<Outcome>, trace: seq<Abs>)
    requires Legal(crc, script, outcomes, trace)
    ensures
      var b := trace[|script|];
      Tally(b.h, b.pending, b.p, Acked(script, outcomes), Attempts(script))
  {
    if script != [] {
      var n := |script| - 1;
      hide Legal, StepOk, Tally;
      LegalFront(crc, script, outcomes, trace);
      LegalLengths(crc, script, outcomes, trace);
      RunTally(crc, script[..n], outcomes[..n], trace[..n + 1]);
      StepTally(crc, script[n], outcomes[n], trace[n], trace[n + 1], Acked(script[..n], outcomes[..n]),
          Attempts(script[..n]));
    }
  }

  lemma LegalLengths(crc: Crc, script: seq<Op>, outcomes: seq<Outcome>, trace: seq<Abs>)
    requires Legal(crc, script, outcomes, trace)
    ensures |outcomes| == |script| && |trace| == |script| + 1
  {
  }

  /** Durability: every record acknowledged is in the history, in order, whatever struck; and the
      history holds nothing that was not attempted. */
  lemma NothingAckedIsLost(crc: Crc, script: seq<Op>, outcomes: seq<Outcome>, trace: seq<Abs>)
    requires Legal(crc, script, outcomes, trace)
    ensures Subsequence(Acked(script, outcomes), trace[|script|].h)
    ensures Subsequence(trace[|script|].h, Attempts(script))
  {
    hide Subsequence, StepOk;
    RunTally(crc, script, outcomes, trace);
    var b := trace[|script|];
    SubLonger(Acked(script, outcomes), b.h, b.p, |b.h|);
    assert b.h[..|b.h|] == b.h;
    SubCut(b.h + b.pending, Attempts(script), |b.h|);
    assert (b.h + b.pending)[..|b.h|] == b.h;
  }

  // ---- What is there beyond the acknowledged ------------------------------------------------------------------

  predicate AllSynced(script: seq<Op>) {
    forall i :: 0 <= i < |script| && script[i].act.DoCommit? ==> script[i].act.sync
  }

  /** The acknowledged records, with extra[i] put in where the i-th action was struck. */
  function Woven(script: seq<Op>, outcomes: seq<Outcome>, extra: seq<seq<Record>>): seq<Record>
    requires |outcomes| == |script| == |extra|
  {
    if script == [] then []
    else
      var n := |script| - 1;
      var front := Woven(script[..n], outcomes[..n], extra[..n]);
      if outcomes[n].Struck? then front + extra[n]
      else if Confirms(script[n], outcomes[n]) then front + [script[n].act.r]
      else front
  }

  /** Action j is a commit of r that was not answered yes, and no power loss came between j and i. */
  predicate InDoubt(script: seq<Op>, outcomes: seq<Outcome>, i: nat, r: Record, j: nat)
    requires i < |script| == |outcomes|
  {
    && j <= i && script[j].act.DoCommit? && script[j].act.r == r && outcomes[j] != Replied(true)
    && forall k :: j <= k < i ==> !outcomes[k].Struck?
  }

  /** At most one record per power loss, and only one whose commit was refused or cut short since the
      power loss before. */
  ghost predicate Excused(script: seq<Op>, outcomes: seq<Outcome>, extra: seq<seq<Record>>)
    requires |outcomes| == |script| == |extra|
  {
    forall i :: 0 <= i < |script| ==>
      extra[i] == []
          || (|extra[i]| == 1 && outcomes[i].Struck? && exists j: nat :: InDoubt(script, outcomes, i, extra[i][0], j))
  }

  /** What a run of synced commits has promised, and where its pending record came from. */
  ghost predicate Doubt(script: seq<Op>, outcomes: seq<Outcome>, b: Abs)
    requires |outcomes| == |script|
  {
    && b.p == |b.h| && |b.pending| <= 1
    && (b.pending != [] ==> exists j: nat :: DoubtAt(script, outcomes, b.pending[0], j))
  }

  predicate DoubtAt(script: seq<Op>, outcomes: seq<Outcome>, r: Record, j: nat)
    requires |outcomes| == |script|
  {
    && j < |script| && script[j].act.DoCommit? && script[j].act.r == r && outcomes[j] != Replied(true)
    && forall k :: j <= k < |script| ==> !outcomes[k].Struck?
  }

  lemma ExcusedMore(script: seq<Op>, outcomes: seq<Outcome>, extra: seq<seq<Record>>, n: nat, last: seq<Record>)
    requires |outcomes| == |script| == n + 1 && |extra| == n
    requires Excused(script[..n], outcomes[..n], extra)
    requires last == []
        || (|last| == 1 && outcomes[n].Struck? && exists j: nat :: InDoubt(script, outcomes, n, last[0], j))
    ensures Excused(script, outcomes, extra + [last])
  {
    forall i | 0 <= i < n
      ensures extra[i] == []
          || (|extra[i]| == 1 && outcomes[i].Struck? && exists j: nat :: InDoubt(script, outcomes, i, extra[i][0], j))
    {
      if extra[i] != [] {
        var j: nat :| InDoubt(script[..n], outcomes[..n], i, extra[i][0], j);
        assert forall k :: j <= k < i ==> outcomes[..n][k] == outcomes[k];
        assert InDoubt(script, outcomes, i, extra[i][0], j);
      }
    }
  }

  /** A record stays in doubt until the power fails. */
  lemma DoubtMore(crc: Crc, script: seq<Op>, outcomes: seq<Outcome>, n: nat, a: Abs, b: Abs)
    requires |outcomes| == |script| == n + 1 && Doubt(script[..n], outcomes[..n], a)
    requires script[n].act.DoCommit? ==> script[n].act.sync
    requires StepOk(crc, script[n], outcomes[n], a, b)
    ensures Doubt(script, outcomes, b)
  {
    if b.pending != [] {
      if b.pending == a.pending {
        var j: nat :| DoubtAt(script[..n], outcomes[..n], a.pending[0], j);
        assert forall k :: j <= k < n ==> outcomes[..n][k] == outcomes[k];
        assert DoubtAt(script, outcomes, b.pending[0], j);
      } else {
        assert DoubtAt(script, outcomes, b.pending[0], n);
      }
    }
  }

  /** What a power loss may bring back beyond the promised records. */
  lemma StruckExtra(crc: Crc, script: seq<Op>, outcomes: seq<Outcome>, n: nat, a: Abs, b: Abs)
    requires |outcomes| == |script| == n + 1 && Doubt(script[..n], outcomes[..n], a)
    requires StepOk(crc, script[n], outcomes[n], a, b) && outcomes[n].Struck?
    ensures a.h <= b.h
    ensures var last := b.h[|a.h|..];
            last == [] || (|last| == 1 && exists j: nat :: InDoubt(script, outcomes, n, last[0], j))
  {
    var last := b.h[|a.h|..];
    if last != [] {
      assert last[0] == Held(a, script[n].act)[|a.h|];
      if script[n].act.DoCommit? && a.pending == [] {
        assert InDoubt(script, outcomes, n, last[0], n);
      } else {
        var j: nat :| DoubtAt(script[..n], outcomes[..n], a.pending[0], j);
        assert forall k :: j <= k < n ==> outcomes[..n][k] == outcomes[k];
        assert InDoubt(script, outcomes, n, last[0], j);
      }
    }
  }

  /** Exactness: if every commit is synced, the history is the acknowledged records and, at each power
      loss, at most one record that was in doubt. */
  lemma {:induction false} ExactlyAcked(crc: Crc, script: seq<Op>, outcomes: seq<Outcome>, trace: seq<Abs>)
      returns (extra: seq<seq<Record>>)
    requires Legal(crc, script, outcomes, trace) && AllSynced(script)
    ensures |extra| == |script| && Excused(script, outcomes, extra)
    ensures trace[|script|].h == Woven(script, outcomes, extra) && Doubt(script, outcomes, trace[|script|])
  {
    if script == [] {
      extra := [];
    } else {
      var n := |script| - 1;
      LegalFront(crc, script, outcomes, trace);
      var front := ExactlyAcked(crc, script[..n], outcomes[..n], trace[..n + 1]);
      var a, b := trace[n], trace[n + 1];
      hide Legal, Doubt, Excused, ReplaysTo;
      DoubtMore(crc, script, outcomes, n, a, b);
      var last: seq<Record> := [];
      if outcomes[n].Struck? {
        StruckExtra(crc, script, outcomes, n, a, b);
        last := b.h[|a.h|..];
        assert b.h == a.h + last;
      }
      ExcusedMore(script, outcomes, front, n, last);
      extra := front + [last];
      assert extra[..n] == front && trace[..n + 1][n] == a;
    }
  }

  lemma {:induction false} WovenSize(script: seq<Op>, outcomes: seq<Outcome>, extra: seq<seq<Record>>)
    requires |outcomes| == |script| == |extra| && forall i :: 0 <= i < |extra| ==> |extra[i]| <= 1
    ensures |Woven(script, outcomes, extra)| <= |Acked(script, outcomes)| + Strikes(outcomes)
    ensures Strikes(outcomes) == 0 ==> Woven(script, outcomes, extra) == Acked(script, outcomes)
  {
    if script != [] {
      var n := |script| - 1;
      WovenSize(script[..n], outcomes[..n], extra[..n]);
    }
  }

  /** So the history outgrows the acknowledged records by no more than the number of power losses,
      and without one it is the acknowledged records. */
  lemma OnePerStrike(crc: Crc, script: seq<Op>, outcomes: seq<Outcome>, trace: seq<Abs>)
    requires Legal(crc, script, outcomes, trace) && AllSynced(script)
    ensures |trace[|script|].h| <= |Acked(script, outcomes)| + Strikes(outcomes)
    ensures Strikes(outcomes) == 0 ==> trace[|script|].h == Acked(script, outcomes)
  {
    var extra := ExactlyAcked(crc, script, outcomes, trace);
    WovenSize(script, outcomes, extra);
  }

  /** And where every commit is answered yes, synced or not, the history is everything attempted. */
  lemma {:induction false} AllAnswered(crc: Crc, script: seq<Op>, outcomes: seq<Outcome>, trace: seq<Abs>)
    requires Legal(crc, script, outcomes, trace) && Strikes(outcomes) == 0
    requires forall i :: 0 <= i < |script| && script[i].act.DoCommit? ==> outcomes[i] == Replied(true)
    ensures trace[|script|].h == Attempts(script)
  {
    if script != [] {
      var n := |script| - 1;
      LegalFront(crc, script, outcomes, trace);
      AllAnswered(crc, script[..n], outcomes[..n], trace[..n + 1]);
    }
  }
}
