/** A claim round: counting grants, merging what the granters knew, and the record that
    finalizes the takeover (src/queue_node.cc, start_takeover to finalize_takeover). */
module Takeover {
  import opened Options
  import opened Jobs
  import opened Store

  /** Done > DeadLetter > Leased > anything else. */
  function StateRank(s: JobState): nat {
    match s
    case Done => 3
    case DeadLetter => 2
    case Leased => 1
    case Ready => 0
    case Other(_) => 0
  }

  datatype ClaimState = ClaimState(
    proposed: nat, acks: nat, needed: nat, bestState: JobState, bestSeq: nat, acked: set<Endpoint>)

  /** A granter's pre-claim knowledge, as it rides back in the grant. */
  datatype Grant = Grant(from: Endpoint, state: JobState, seq_: nat)

  function SetSize(replicas: seq<Endpoint>): nat {
    if replicas == [] then 0
    else SetSize(replicas[1..]) + (if replicas[0] == NO_ENDPOINT then 0 else 1)
  }

  function StartClaim(j: Job, proposed: nat): ClaimState {
    ClaimState(proposed, 0, SetSize(j.replicas) / 2, j.state, j.leaseSeq, {})
  }

  function CountGrant(c: ClaimState, replicas: seq<Endpoint>, g: Grant): ClaimState {
    var pinned := g.from in replicas;
    var counted := if !pinned || g.from !in c.acked then c.(acks := c.acks + 1) else c;
    var marked := if pinned then counted.(acked := c.acked + {g.from}) else counted;
    var seqMerged := if g.seq_ > c.bestSeq then marked.(bestSeq := g.seq_) else marked;
    if StateRank(g.state) > StateRank(c.bestState) then seqMerged.(bestState := g.state) else seqMerged
  }

  function CountGrants(c: ClaimState, replicas: seq<Endpoint>, gs: seq<Grant>): ClaimState {
    if gs == [] then c
    else CountGrant(CountGrants(c, replicas, gs[..|gs| - 1]), replicas, gs[|gs| - 1])
  }

  /** The record finalize_takeover commits at its own epoch, if any. */
  function FinalRecord(j: Job, c: ClaimState): Option<Record> {
    if c.bestState.Done? && !j.state.Done? then Some(DoneRec(j.id, j.epoch, c.bestSeq))
    else if c.bestState.DeadLetter? && !Terminal(j.state) then Some(DeadLetterRec(j.id, j.epoch))
    else if (c.bestState.Leased? || c.bestSeq > j.leaseSeq) && (!j.state.Leased? || j.leaseSeq < c.bestSeq)
    then Some(LeaseRec(j.id, j.epoch, if c.bestSeq > j.leaseSeq then c.bestSeq else j.leaseSeq, 0))
    else None
  }

  function Finalized(j: Job, c: ClaimState): Job {
    var r := FinalRecord(j, c);
    if r.Some? then Transition(Some(j), r.value).value else j
  }

  // ---- What a claim round guarantees -----------------------------------------------------------

  predicate BestIsMax(c: ClaimState, start: Job, gs: seq<Grant>) {
    && c.bestSeq >= start.leaseSeq && StateRank(c.bestState) >= StateRank(start.state)
    && (forall k :: 0 <= k < |gs| ==>
          c.bestSeq >= gs[k].seq_ && StateRank(c.bestState) >= StateRank(gs[k].state))
    && (c.bestSeq == start.leaseSeq || exists k :: 0 <= k < |gs| && gs[k].seq_ == c.bestSeq)
    && (c.bestState == start.state || exists k :: 0 <= k < |gs| && gs[k].state == c.bestState)
  }

  lemma {:induction false} GrantsMerge(start: Job, proposed: nat, gs: seq<Grant>)
    ensures BestIsMax(CountGrants(StartClaim(start, proposed), start.replicas, gs), start, gs)
  {
    if gs != [] {
      var n := |gs| - 1;
      GrantsMerge(start, proposed, gs[..n]);
      var c := CountGrants(StartClaim(start, proposed), start.replicas, gs[..n]);
      var c' := CountGrant(c, start.replicas, gs[n]);
      assert forall k :: 0 <= k < n ==> gs[..n][k] == gs[k];
      if c'.bestSeq != c.bestSeq { assert gs[n].seq_ == c'.bestSeq; }
      if c'.bestState != c.bestState { assert gs[n].state == c'.bestState; }
    }
  }

  function Granters(gs: seq<Grant>): set<Endpoint> {
    if gs == [] then {} else Granters(gs[..|gs| - 1]) + {gs[|gs| - 1].from}
  }

  lemma CountOnce(c: ClaimState, replicas: seq<Endpoint>, g: Grant)
    requires g.from in replicas && c.acks == |c.acked|
    ensures
      var c' := CountGrant(c, replicas, g);
      c'.acked == c.acked + {g.from} && c'.acks == |c'.acked| && c'.needed == c.needed
  {
    if g.from in c.acked { assert c.acked + {g.from} == c.acked; }
  }

  /** Repeated grants never count twice: acks is the number of distinct members that granted,
      so a finished round holds a strict majority of the pinned set, counting the claimant. */
  lemma {:induction false} AcksAreDistinctMembers(start: Job, proposed: nat, gs: seq<Grant>)
    requires forall k :: 0 <= k < |gs| ==> gs[k].from in start.replicas
    ensures
      var c := CountGrants(StartClaim(start, proposed), start.replicas, gs);
      && c.acked == Granters(gs)
      && c.acks == |c.acked|
      && c.needed == SetSize(start.replicas) / 2
      && (c.acks >= c.needed ==> 2 * (|c.acked| + 1) > SetSize(start.replicas))
  {
    if gs != [] {
      var n := |gs| - 1;
      AcksAreDistinctMembers(start, proposed, gs[..n]);
      CountOnce(CountGrants(StartClaim(start, proposed), start.replicas, gs[..n]), start.replicas, gs[n]);
    }
  }

  /** The finalized copy dominates every source: the copy the claim started from, the copy it
      ends on, and every counted grant, in any order and with any repetition. */
  lemma TakeoverMergeDominates(start: Job, j: Job, proposed: nat, gs: seq<Grant>)
    requires start.replicas == j.replicas
    ensures
      var f := Finalized(j, CountGrants(StartClaim(start, proposed), start.replicas, gs));
      var anyDone := start.state.Done? || j.state.Done? || exists k :: 0 <= k < |gs| && gs[k].state.Done?;
      var anyDead :=
        start.state.DeadLetter? || j.state.DeadLetter? || exists k :: 0 <= k < |gs| && gs[k].state.DeadLetter?;
      var anyLeased := start.state.Leased? || j.state.Leased? || exists k :: 0 <= k < |gs| && gs[k].state.Leased?;
      var anyAhead := start.leaseSeq > j.leaseSeq || exists k :: 0 <= k < |gs| && gs[k].seq_ > j.leaseSeq;
      && f.epoch == j.epoch && f.owner == j.owner
      && (f.state.Done? <==> anyDone)
      && (!anyDone ==> (f.state.DeadLetter? <==> anyDead))
      && (!anyDone && !anyDead ==>
            && (anyLeased || anyAhead ==> f.state.Leased?)
            && f.leaseSeq >= start.leaseSeq && f.leaseSeq >= j.leaseSeq
            && (forall k :: 0 <= k < |gs| ==> f.leaseSeq >= gs[k].seq_)
            && (f.leaseSeq == start.leaseSeq || f.leaseSeq == j.leaseSeq
                || exists k :: 0 <= k < |gs| && gs[k].seq_ == f.leaseSeq))
  {
    GrantsMerge(start, proposed, gs);
    var c := CountGrants(StartClaim(start, proposed), start.replicas, gs);
    assert BestIsMax(c, start, gs);
    if k :| 0 <= k < |gs| && gs[k].state.Done? { assert c.bestState.Done?; }
  }
}
