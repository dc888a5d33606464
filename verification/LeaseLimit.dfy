/** The limit on attempts that lease safety needs is exact: with a larger one, which a submit may
    ask for, the 32-bit lease number goes round and a number is granted twice. */
module LeaseLimit {
  import opened Options
  import opened Bytes
  import opened Jobs
  import opened Store
  import opened Handlers
  import opened Cluster
  import opened Votes
  import opened LeaseSafety
  import opened Counterexamples

  lemma {:induction false} NothingBroken(s: State, steps: seq<Step>)
    requires CanRunBut(s, steps, Nothing)
    ensures CanRunPremised(s, steps)
    decreases steps
  {
    if steps != [] { NothingBroken(Exec(s, steps[0]), steps[1..]); }
  }

  /** The job after its lease number k was granted and sent back. */
  function Back(job: Job, k: nat): Job { job.(leaseSeq := k, attempts := k) }

  function Out(job: Job, k: nat): Job { job.(state := Leased, leaseSeq := k, attempts := k) }

  /** The owner has the job back with lease number k; p, if there is a peer, follows its records. */
  predicate Turn(job: Job, s: State, p: Endpoint, k: nat) {
    var o := job.owner;
    && o in s.nodes && s.nodes[o].copy == Some(Back(job, k)) && s.nodes[o].claim.None? && IsFinal(s, 1, o)
    && (Peers(job.replicas, o) == {} || (p in Peers(job.replicas, o) && Follows(job, s, p)))
  }

  predicate Follows(job: Job, s: State, p: Endpoint) {
    && p in s.nodes && s.nodes[p].copy.Some? && s.nodes[p].claim.None?
    && s.nodes[p].copy.value.epoch == 1 && s.nodes[p].copy.value.owner == job.owner
    && !Terminal(s.nodes[p].copy.value.state)
    && (job.owner in s.nodes[p].fifo ==> s.nodes[p].fifo[job.owner] <= |s.commits|)
  }

  /** The last number goes round: sent back, it is followed by a lease with number 0. */
  lemma NumberWraps(j: Job, worker: nat)
    requires j.state.Leased? && j.leaseSeq == U32 - 1 <= j.maxAttempts
    ensures
      var back := AckDecision(j, j.epoch, j.leaseSeq, false);
      && back == Some(ExpireRec(j.id, j.epoch, U32 - 1))
      && LeaseDecision(Transition(Some(j), back.value).value, worker) == LeaseRec(j.id, j.epoch, 0, worker)
  {
  }

  /** One lease that is granted. */
  lemma Granting(s0: State, steps: seq<Step>, s: State, job: Job, p: Endpoint, k: nat)
      returns (steps': seq<Step>, s': State)
    requires FreshJob(job) && job.maxAttempts >= U32 - 1 && k < U32
    requires Reaches(s0, steps, s, Nothing) && Turn(job, s, p, k)
    ensures
      var q, k', o := |s.commits|, (k + 1) % U32, job.owner;
      && Reaches(s0, steps', s', Nothing) && |s'.commits| == q + 1 && s'.commits[..q] == s.commits
      && OkLease(s', q) && s'.commits[q].rec.leaseSeq == k'
      && o in s'.nodes && s'.nodes[o].copy == Some(Out(job, k')) && s'.nodes[o].claim.None? && IsFinal(s', 1, o)
      && (Peers(job.replicas, o) == {} || (p in Peers(job.replicas, o) && Follows(job, s', p)))
  {
    var o, q, j := job.owner, |s.commits|, Back(job, k);
    var rec := LeaseDecision(j, 0);
    assert OwnerDecision(j, LeaseOp(0)) == Some(rec) && rec == LeaseRec(job.id, 1, (k + 1) % U32, 0);
    hide Reaches, Peers, FreshJob;
    steps', s' := Deciding(s0, steps, s, Nothing, o, LeaseOp(0), j);
    if Peers(job.replicas, o) != {} {
      NotSelf(job.replicas, o, p);
      var jp := s'.nodes[p].copy.value;
      steps', s' := Applying(s0, steps', s', Nothing, q, o, p, jp);
      steps', s' := Confirming(s0, steps', s', Nothing, q, p);
    }
  }

  lemma NotSelf(replicas: seq<Endpoint>, o: Endpoint, p: Endpoint)
    requires p in Peers(replicas, o)
    ensures p != o
  {
  }

  /** One lease that is granted and sent back. */
  lemma Around(s0: State, steps: seq<Step>, s: State, job: Job, p: Endpoint, k: nat)
      returns (steps': seq<Step>, s': State)
    requires FreshJob(job) && job.maxAttempts >= U32 - 1 && k < U32
    requires Reaches(s0, steps, s, Nothing) && Turn(job, s, p, k)
    ensures
      var q, k' := |s.commits|, (k + 1) % U32;
      && Reaches(s0, steps', s', Nothing) && |s'.commits| == q + 2 && s'.commits[..q] == s.commits
      && OkLease(s', q) && s'.commits[q].rec.leaseSeq == k' && Turn(job, s', p, k')
  {
    var o, k' := job.owner, (k + 1) % U32;
    var steps1, s1 := Granting(s0, steps, s, job, p, k);
    var j := Out(job, k');
    assert OwnerDecision(j, AckOp(1, k', false)) == Some(ExpireRec(job.id, 1, k'));
    hide Reaches, Peers, FreshJob;
    steps', s' := Deciding(s0, steps1, s1, Nothing, o, AckOp(1, k', false), j);
    if Peers(job.replicas, o) != {} { NotSelf(job.replicas, o, p); }
  }

  /** n of them, one after the other. */
  lemma {:induction false} ManyTimes(s0: State, steps: seq<Step>, s: State, job: Job, p: Endpoint, k: nat, n: nat)
      returns (steps': seq<Step>, s': State)
    requires FreshJob(job) && job.maxAttempts >= U32 - 1 && k + n < U32
    requires Reaches(s0, steps, s, Nothing) && Turn(job, s, p, k)
    ensures Reaches(s0, steps', s', Nothing) && Turn(job, s', p, k + n)
    ensures |s.commits| <= |s'.commits| && s'.commits[..|s.commits|] == s.commits
    decreases n
  {
    if n == 0 {
      steps', s' := steps, s;
      assert s.commits[..|s.commits|] == s.commits;
    } else {
      var steps1, s1 := Around(s0, steps, s, job, p, k);
      steps', s' := ManyTimes(s0, steps1, s1, job, p, k + 1, n - 1);
      var q := |s.commits|;
      assert s'.commits[..q] == s'.commits[..|s1.commits|][..q];
    }
  }

  /** The submitted job, with a copy on one peer if there is any. */
  lemma FirstTurn(job: Job, all: set<Endpoint>) returns (steps: seq<Step>, s: State, p: Endpoint)
    requires FreshJob(job) && Members(job) <= all
    ensures Reaches(Init(job, all), steps, s, Nothing) && Turn(job, s, p, 0) && s.commits == []
  {
    var s0, o := Init(job, all), job.owner;
    assert Back(job, 0) == job;
    steps, s, p := [], s0, NO_ENDPOINT;
    assert Reaches(s0, [], s0, Nothing);
    if Peers(job.replicas, o) != {} {
      p :| p in Peers(job.replicas, o);
      var send, take := SendCopy(o, p), DeliverReplicate(CopyMsg(o, p, job, true), false);
      var s1 := Exec(s0, send);
      OneMore(s0, [], s0, send, Nothing);
      OneMore(s0, [] + [send], s1, take, Nothing);
      steps, s := [] + [send] + [take], Exec(s1, take);
    }
  }

  /** With a limit of 2^32 - 1 or more some run that keeps every premise grants a number twice. */
  lemma LargeLimitGrantsTwice(job: Job, all: set<Endpoint>) returns (steps: seq<Step>)
    requires FreshJob(job) && Members(job) <= all && job.maxAttempts >= U32 - 1
    ensures CanRunPremised(Init(job, all), steps) && CanRun(Init(job, all), steps)
    ensures !LeasesDistinct(Run(Init(job, all), steps))
  {
    hide Turn, FreshJob, Init, LeasesDistinct;
    var s0 := Init(job, all);
    var steps0, s, p := FirstTurn(job, all);
    var steps1, s1 := Around(s0, steps0, s, job, p, 0);
    var steps2, s2 := ManyTimes(s0, steps1, s1, job, p, 1, U32 - 2);
    var steps3, s3 := Around(s0, steps2, s2, job, p, U32 - 1);
    var steps4, s4 := Around(s0, steps3, s3, job, p, 0);
    NothingBroken(s0, steps4);
    var k := |s3.commits|;
    assert s1.commits[0] == s2.commits[..|s1.commits|][0] == s2.commits[0];
    assert s2.commits[0] == s3.commits[..|s2.commits|][0] == s3.commits[0];
    assert s3.commits[0] == s4.commits[..k][0] == s4.commits[0];
    Twice(s4, 0, k, 1);
    steps := steps4;
  }

  /** So granted leases are distinct in every such run exactly if the limit is smaller. */
  lemma LimitIsExact(job: Job, all: set<Endpoint>)
    requires FreshJob(job) && Members(job) <= all
    ensures job.maxAttempts < U32 - 1 <==>
      forall steps :: CanRunPremised(Init(job, all), steps) && CanRun(Init(job, all), steps) ==>
        LeasesDistinct(Run(Init(job, all), steps))
  {
    hide LeasesDistinct, FreshJob, Init;
    if job.maxAttempts < U32 - 1 {
      forall steps | CanRunPremised(Init(job, all), steps) && CanRun(Init(job, all), steps)
        ensures LeasesDistinct(Run(Init(job, all), steps))
      {
        LeaseSafetyTheorem(job, all, steps);
      }
    } else {
      var steps := LargeLimitGrantsTwice(job, all);
    }
  }
}
