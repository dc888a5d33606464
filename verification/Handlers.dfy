/** What one node does with one job on each protocol event, as functions of its copy of the
    job (src/queue_node.cc). Arithmetic on u32 fields wraps, as in the source. */
module Handlers {
  import opened Bytes
  import opened Options
  import opened Jobs
  import opened Store
  import opened Takeover

  datatype Status = Created | Duplicate | StaleEpoch | NoQuorum | Invalid | UnknownJob | NotOwner | NotLeased | NoJob

  /** The pinned members other than self: the targets of every fan-out. */
  function Peers(replicas: seq<Endpoint>, self: Endpoint): set<Endpoint> {
    set e | e in replicas && e != NO_ENDPOINT && e != self
  }

  // ---- Owner side: the record an owner decides to commit -------------------------------------

  datatype OwnerOp = LeaseOp(worker: nat) | ExpiryOp | AckOp(epoch: nat, leaseSeq: nat, success: bool)

  function LeaseDecision(j: Job, worker: nat): Record {
    var newSeq := (j.leaseSeq + 1) % U32;
    if newSeq > j.maxAttempts then DeadLetterRec(j.id, j.epoch)
    else LeaseRec(j.id, j.epoch, newSeq, worker)
  }

  function ExpiryDecision(j: Job): Record {
    if j.leaseSeq >= j.maxAttempts then DeadLetterRec(j.id, j.epoch)
    else ExpireRec(j.id, j.epoch, j.leaseSeq)
  }

  /** None: the ack is answered without committing anything. */
  function AckDecision(j: Job, epoch: nat, leaseSeq: nat, success: bool): Option<Record> {
    var currentLease := j.state.Leased? && epoch <= j.epoch && j.leaseSeq == leaseSeq;
    var amnesty := j.state.Ready? && (epoch < j.epoch || (epoch == j.epoch && leaseSeq <= j.leaseSeq));
    var lateAfterPark := j.state.DeadLetter? && epoch <= j.epoch;
    if j.state.Done? then None
    else if !success then if currentLease then Some(ExpireRec(j.id, j.epoch, j.leaseSeq)) else None
    else if currentLease || amnesty || lateAfterPark then Some(DoneRec(j.id, j.epoch, j.leaseSeq))
    else None
  }

  /** The record an owned job's event quorum-commits, if any. */
  function OwnerDecision(j: Job, op: OwnerOp): Option<Record> {
    match op
    case LeaseOp(w) => if j.state.Ready? then Some(LeaseDecision(j, w)) else None
    case ExpiryOp => if j.state.Leased? then Some(ExpiryDecision(j)) else None
    case AckOp(e, s, ok) => AckDecision(j, e, s, ok)
  }

  /** Each lease takes exactly one attempt, and a job is parked exactly when none is left; only with
      the largest limit there is, the number after the last starts over at 0 instead. */
  lemma LeaseUsesOneAttempt(j: Job, worker: nat)
    requires j.state.Ready? && j.attempts == j.leaseSeq <= j.maxAttempts < U32
    ensures
      var after, last := Transition(Some(j), LeaseDecision(j, worker)), j.leaseSeq == U32 - 1;
      && after.Some? && after.value.epoch == j.epoch && after.value.attempts == after.value.leaseSeq <= j.maxAttempts
      && (after.value.state.DeadLetter? <==> j.leaseSeq == j.maxAttempts && !last)
      && (after.value.state.Leased? <==> after.value.leaseSeq == if last then 0 else j.leaseSeq + 1)
      && (after.value.state.DeadLetter? || after.value.state.Leased?)
      && (after.value.state.Leased? ==>
          LeaseDecision(j, worker) == LeaseRec(j.id, j.epoch, after.value.leaseSeq, worker))
  {
  }

  /** A lease that runs out costs nothing but itself: the job is Ready again as it was, unless that was
      its last attempt. */
  lemma ExpiryKeepsTheJob(j: Job)
    requires j.state.Leased?
    ensures Transition(Some(j), ExpiryDecision(j)) ==
            Some(j.(state := if j.leaseSeq < j.maxAttempts then Ready else DeadLetter))
  {
  }

  /** One worker after another takes the job, if it is to be had, and lets the lease run out. */
  function Rounds(j: Job, workers: seq<nat>): Job
    decreases workers
  {
    if workers == [] then j else Rounds(Round(j, workers[0]), workers[1..])
  }

  function Round(j: Job, worker: nat): Job {
    if !j.state.Ready? then j
    else
      var leased := Transition(Some(j), LeaseDecision(j, worker)).value;
      if leased.state.Leased? then Transition(Some(leased), ExpiryDecision(leased)).value else leased
  }

  /** How many of them got it. */
  function TimesLeased(j: Job, workers: seq<nat>): nat
    decreases workers
  {
    if workers == [] then 0
    else
      var got := j.state.Ready? && LeaseDecision(j, workers[0]).LeaseRec?;
      (if got then 1 else 0) + TimesLeased(Round(j, workers[0]), workers[1..])
  }

  /** A job whose leases all run out is leased exactly as often as it has attempts left, and is parked
      with the last of them; nothing else about it changes. */
  lemma {:induction false} ParkedWhenUsedUp(j: Job, workers: seq<nat>)
    requires j.state.Ready? && j.attempts == j.leaseSeq <= j.maxAttempts < U32
    requires j.leaseSeq < j.maxAttempts || j.maxAttempts < U32 - 1
    ensures
      var n, left, after := |workers|, j.maxAttempts - j.leaseSeq, Rounds(j, workers);
      && TimesLeased(j, workers) == (if n < left then n else left)
      && (n == 0 || n < left ==> after == j.(leaseSeq := j.leaseSeq + n, attempts := j.attempts + n))
      && (0 < n && left <= n ==>
            after == j.(state := DeadLetter, leaseSeq := j.maxAttempts, attempts := j.maxAttempts))
    decreases workers
  {
    if workers != [] {
      var next := Round(j, workers[0]);
      OneRound(j, workers[0]);
      hide Transition, LeaseDecision, Round;
      if next.state.Ready? {
        ParkedWhenUsedUp(next, workers[1..]);
      } else {
        ParkedStays(next, workers[1..]);
      }
    }
  }

  lemma OneRound(j: Job, worker: nat)
    requires j.state.Ready? && j.attempts == j.leaseSeq <= j.maxAttempts < U32
    requires j.leaseSeq < j.maxAttempts || j.maxAttempts < U32 - 1
    ensures LeaseDecision(j, worker).LeaseRec? <==> j.leaseSeq < j.maxAttempts
    ensures
      var used := if j.leaseSeq < j.maxAttempts then j.leaseSeq + 1 else j.leaseSeq;
      Round(j, worker) == j.(state := if used < j.maxAttempts then Ready else DeadLetter,
                             leaseSeq := used, attempts := used)
  {
  }

  lemma {:induction false} ParkedStays(j: Job, workers: seq<nat>)
    requires !j.state.Ready?
    ensures Rounds(j, workers) == j && TimesLeased(j, workers) == 0
    decreases workers
  {
    if workers != [] { ParkedStays(j, workers[1..]); }
  }

  /** Exactly these are accepted: whatever the current lease's holder says, of an earlier epoch too; a
      late completion of a job that nobody has leased since; and one of a parked job. A failure only
      sends the job back, a completion only completes it, at the epoch and number it has. */
  lemma AckAccepted(j: Job, epoch: nat, leaseSeq: nat, success: bool)
    ensures
      var r := AckDecision(j, epoch, leaseSeq, success);
      && (r.Some? <==>
            && epoch <= j.epoch
            && (|| (j.state.Leased? && leaseSeq == j.leaseSeq)
                || (success && j.state.Ready? && (epoch == j.epoch ==> leaseSeq <= j.leaseSeq))
                || (success && j.state.DeadLetter?)))
      && (r.Some? ==>
            Transition(Some(j), r.value) == Some(if success then j.(state := Done, body := []) else j.(state := Ready)))
  {
  }

  /** Only the holder of the current lease can send a job back, a completion never comes from a
      lease that another one has replaced, and every accepted completion completes the job. */
  lemma ReplacedLeaseCannotAck(j: Job, epoch: nat, leaseSeq: nat, success: bool)
    ensures
      var r := AckDecision(j, epoch, leaseSeq, success);
      && (j.state.Leased? && leaseSeq != j.leaseSeq ==> r.None?)
      && (epoch > j.epoch ==> r.None?)
      && (r.Some? && !success ==>
          j.state.Leased? && leaseSeq == j.leaseSeq && Transition(Some(j), r.value).value.state.Ready?)
      && (r.Some? && success ==> Transition(Some(j), r.value).value.state.Done?)
      && (success && j.state.Leased? && leaseSeq == j.leaseSeq && epoch <= j.epoch ==> r.Some?)
  {
  }

  // ---- Replica side ---------------------------------------------------------------------------

  /** The fencing epoch a transition record carries; full copies carry none. */
  function RecEpoch(r: Record): Option<nat> {
    match r
    case LeaseRec(_, e, _, _) => Some(e)
    case DoneRec(_, e, _) => Some(e)
    case ExpireRec(_, e, _) => Some(e)
    case DeadLetterRec(_, e) => Some(e)
    case TakeoverRec(_, e, _) => Some(e)
    case SubmitRec(_) => None
    case ReplicateRec(_) => None
  }

  function OnApply(local: Option<Job>, from: Endpoint, r: Record): (Option<Job>, Status) {
    if RecEpoch(r).None? then (local, Invalid)
    else if local.None? then (local, UnknownJob)
    else if RecEpoch(r).value < local.value.epoch then (local, StaleEpoch)
    else if from != local.value.owner && !r.TakeoverRec? then (local, NotOwner)
    else (Transition(local, r), Created)
  }

  function OnReplicate(local: Option<Job>, j: Job): (Option<Job>, Status) {
    if local.Some? && j.epoch < local.value.epoch then (local, StaleEpoch)
    else (Transition(local, ReplicateRec(j)), Created)
  }

  /** A Resync reply: adopted only by a node that has the job, and only if it advances. */
  function OnResync(local: Option<Job>, j: Job): Option<Job> {
    if local.Some? && JobAdvances(local.value, j) then Transition(local, ReplicateRec(j)) else local
  }

  /** (new copy, answer, pre-claim knowledge when granted). */
  function OnClaim(local: Option<Job>, self: Endpoint, proposed: nat, claimant: Endpoint)
    : (Option<Job>, Status, Option<Grant>)
  {
    if local.None? then (local, UnknownJob, None)
    else
      var j := local.value;
      var g := Some(Grant(self, j.state, j.leaseSeq));
      if claimant !in j.replicas then (local, NotOwner, None)
      else if proposed < j.epoch || (proposed == j.epoch && j.owner != claimant) then (local, StaleEpoch, None)
      else if proposed == j.epoch then (local, Created, g)
      else (Transition(local, TakeoverRec(j.id, proposed, claimant)), Created, g)
  }

  // ---- The token of a lease ------------------------------------------------------------------------------------

  /** What a worker is handed to acknowledge with. It is read from the copy when the quorum answers. */
  function Token(j: Job): (nat, nat) { (j.epoch, j.leaseSeq) }

  /** The record takes effect and moves the token of the copy: another lease, another epoch, or a full
      copy that differs. */
  predicate Moves(j: Job, r: Record) {
    match r
    case SubmitRec(k) => Token(k) != Token(j)
    case ReplicateRec(k) => JobAdvances(j, k) && Token(k) != Token(j)
    case LeaseRec(_, e, s, _) => e >= j.epoch && !Terminal(j.state) && (e, s) != Token(j)
    case DoneRec(_, e, _) => e > j.epoch && !j.state.Done?
    case ExpireRec(_, e, s) => e > j.epoch && j.state.Leased? && j.leaseSeq == s
    case DeadLetterRec(_, e) => e > j.epoch && !j.state.Done?
    case TakeoverRec(_, e, _) => e > j.epoch
  }

  lemma TokenStaysIff(j: Job, r: Record)
    ensures Transition(Some(j), r).Some?
    ensures Token(Transition(Some(j), r).value) == Token(j) <==> !Moves(j, r)
  {
  }

  ghost predicate NeverMoves(cur: Option<Job>, rs: seq<Record>) {
    forall k :: 0 <= k < |rs| ==> TransitionAll(cur, rs[..k]).Some? && !Moves(TransitionAll(cur, rs[..k]).value, rs[k])
  }

  lemma {:induction false} TokenKept(j: Job, rs: seq<Record>)
    requires NeverMoves(Some(j), rs)
    ensures TransitionAll(Some(j), rs).Some? && Token(TransitionAll(Some(j), rs).value) == Token(j)
  {
    if rs != [] {
      var n := |rs| - 1;
      forall k | 0 <= k < n
        ensures TransitionAll(Some(j), rs[..n][..k]).Some?
                 && !Moves(TransitionAll(Some(j), rs[..n][..k]).value, rs[..n][k])
      {
        assert rs[..n][..k] == rs[..k];
      }
      TokenKept(j, rs[..n]);
      TokenStaysIff(TransitionAll(Some(j), rs[..n]).value, rs[n]);
    }
  }

  /** The token handed out is the committed lease's, if no record that came between its commit and the
      quorum's answer moved the copy. */
  lemma GrantedToken(j: Job, worker: nat, rs: seq<Record>)
    requires LeaseDecision(j, worker).LeaseRec? && !Terminal(j.state)
    requires NeverMoves(Transition(Some(j), LeaseDecision(j, worker)), rs)
    ensures
      var rec := LeaseDecision(j, worker);
      var copy := TransitionAll(Transition(Some(j), rec), rs);
      copy.Some? && Token(copy.value) == (rec.epoch, rec.leaseSeq)
  {
    TokenKept(Transition(Some(j), LeaseDecision(j, worker)).value, rs);
  }

  /** One that did hands the worker a token of another owner: a newer epoch's copy was adopted meanwhile. */
  lemma ForeignToken(j: Job, k: Job, worker: nat)
    requires LeaseDecision(j, worker).LeaseRec? && !Terminal(j.state) && k.epoch > j.epoch
    ensures
      var copy := TransitionAll(Transition(Some(j), LeaseDecision(j, worker)), [ReplicateRec(k)]);
      copy == Some(k) && Token(copy.value) != (j.epoch, LeaseDecision(j, worker).leaseSeq)
  {
    assert [ReplicateRec(k)][..0] == [];
    var leased := Transition(Some(j), LeaseDecision(j, worker));
    assert TransitionAll(leased, []) == leased;
  }
}
