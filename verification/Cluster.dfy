/** One job on a whole cluster as a step system: copies and open claims per node, quorum
    commits with their acknowledgements, and messages that may be lost, delayed, reordered
    and duplicated (src/queue_node.cc over src/store.cc). The clock, the liveness view and the
    scheduling queues only restrict which step happens next, so every step they could allow
    is allowed. */
module Cluster {
  import opened Bytes
  import opened Options
  import opened Jobs
  import opened Store
  import opened Takeover
  import opened Handlers

  /** A quorum_commit: local first, then Apply to every peer. acks are the peers that
      answered kCreated; ok is the answer reported to the caller. The position in
      State.commits is the send order. */
  datatype Commit = Commit(author: Endpoint, rec: Record, sentTo: set<Endpoint>, acks: set<Endpoint>, ok: bool)

  datatype Msg =
    | CopyMsg(from: Endpoint, to: Endpoint, job: Job, rooted: bool)
    | ReplicateOk(peer: Endpoint, to: Endpoint)
    | ClaimMsg(from: Endpoint, to: Endpoint, proposed: nat)
    | GrantMsg(to: Endpoint, round: nat, grant: Grant)

  /** copy and claim are the node's state. rooted and fifo are history: rooted says the copy's
      content comes from the finalized owner of its epoch, fifo the newest commit delivered
      from each sender (plus one). */
  datatype Node = Node(copy: Option<Job>, claim: Option<ClaimState>, rooted: bool, fifo: map<Endpoint, nat>)

  /** A finished takeover (or the submit, at epoch 1): who, by whose votes, on which copy. */
  datatype Final = Final(owner: Endpoint, electors: set<Endpoint>, base: Job)

  /** votes and finals are history, read by no handler. */
  datatype State = State(
    nodes: map<Endpoint, Node>, commits: seq<Commit>, msgs: set<Msg>, submitter: Endpoint, accepted: bool,
    votes: map<(Endpoint, nat), Endpoint>, finals: map<nat, Final>)

  /** The job as submitted. Its replica slots are pinned for ever; an empty slot is NO_ENDPOINT. */
  function Members(job: Job): set<Endpoint> {
    set e | e in job.replicas && e != NO_ENDPOINT
  }

  predicate FreshJob(job: Job) {
    && job.state == Ready && job.epoch == 1 && job.leaseSeq == 0 && job.attempts == 0
    && job.owner in Members(job)
    && |job.replicas| == 3 && SetSize(job.replicas) == |Members(job)|
  }

  function Init(job: Job, all: set<Endpoint>): State {
    State(map e | e in all :: Node(if e == job.owner then Some(job) else None, None, e == job.owner, map[]),
          [], {}, job.owner, Peers(job.replicas, job.owner) == {}, map[], map[1 := Final(job.owner, {}, job)])
  }

  datatype Step =
    | Owner(n: Endpoint, op: OwnerOp)
    | SelfExpire(n: Endpoint)
    | DeliverApply(qid: nat, p: Endpoint, reply: bool)
    | Confirm(qid: nat, p: Endpoint)
    | SendCopy(n: Endpoint, to: Endpoint)
    | DeliverReplicate(m: Msg, reply: bool)
    | DeliverResync(m: Msg)
    | AcceptSubmit(p: Endpoint)
    | StartTakeover(n: Endpoint)
    | DeliverClaim(m: Msg, reply: bool)
    | DeliverGrant(m: Msg)
    | Abandon(n: Endpoint)
    | Restart(n: Endpoint)

  predicate Owns(s: State, n: Endpoint) {
    n in s.nodes && s.nodes[n].copy.Some? && s.nodes[n].copy.value.owner == n
  }

  predicate Enabled(s: State, st: Step) {
    match st
    case Owner(n, op) => Owns(s, n) && OwnerDecision(s.nodes[n].copy.value, op).Some?
    case SelfExpire(n) => n in s.nodes && s.nodes[n].copy.Some?
    case DeliverApply(q, p, _) => q < |s.commits| && p in s.commits[q].sentTo && p in s.nodes
    case Confirm(q, p) => q < |s.commits| && p in s.commits[q].acks
    case SendCopy(n, to) => n in s.nodes && s.nodes[n].copy.Some? && to in Peers(s.nodes[n].copy.value.replicas, n)
    case DeliverReplicate(m, _) => m in s.msgs && m.CopyMsg? && m.to in s.nodes
    case DeliverResync(m) => m in s.msgs && m.CopyMsg? && m.to in s.nodes
    case AcceptSubmit(p) => ReplicateOk(p, s.submitter) in s.msgs
    case StartTakeover(n) =>
      && n in s.nodes && s.nodes[n].copy.Some? && !Owns(s, n) && s.nodes[n].claim.None?
      && !Terminal(s.nodes[n].copy.value.state)
    case DeliverClaim(m, _) => m in s.msgs && m.ClaimMsg? && m.to in s.nodes
    case DeliverGrant(m) =>
      && m in s.msgs && m.GrantMsg? && m.to in s.nodes && s.nodes[m.to].claim.Some? && s.nodes[m.to].copy.Some?
    case Abandon(n) => n in s.nodes
    case Restart(n) => n in s.nodes
  }

  function WithCopy(s: State, n: Endpoint, copy: Option<Job>, rooted: bool): State
    requires n in s.nodes
  {
    s.(nodes := s.nodes[n := s.nodes[n].(copy := copy, rooted := rooted)])
  }

  /** Local commit, then one Apply per peer slot. With no peers the commit succeeds at once. */
  function ExecOwner(s: State, n: Endpoint, op: OwnerOp): State
    requires Enabled(s, Owner(n, op))
  {
    var j := s.nodes[n].copy.value;
    var rec := OwnerDecision(j, op).value;
    var peers := Peers(j.replicas, n);
    WithCopy(s, n, Transition(Some(j), rec), s.nodes[n].rooted)
      .(commits := s.commits + [Commit(n, rec, peers, {}, peers == {})])
  }

  /** After a lease misses its quorum the owner expires it locally, telling no one. */
  function ExecSelfExpire(s: State, n: Endpoint): State
    requires Enabled(s, SelfExpire(n))
  {
    var j := s.nodes[n].copy.value;
    WithCopy(s, n, Transition(Some(j), ExpireRec(j.id, j.epoch, j.leaseSeq)), s.nodes[n].rooted)
  }

  predicate IsFinal(s: State, e: nat, n: Endpoint) {
    e in s.finals && s.finals[e].owner == n
  }

  /** reply is false when the answer never leaves the peer: a failed commit whose record
      survives in its log, or a crash. */
  function ExecApply(s: State, q: nat, p: Endpoint, reply: bool): State
    requires Enabled(s, DeliverApply(q, p, reply))
  {
    var c, node := s.commits[q], s.nodes[p];
    var (copy', status) := OnApply(node.copy, c.author, c.rec);
    var rooted' := if copy' == node.copy then node.rooted
                   else RecEpoch(c.rec).Some? && IsFinal(s, RecEpoch(c.rec).value, c.author);
    var acks' := if status == Created && reply then c.acks + {p} else c.acks;
    s.(nodes := s.nodes[p := node.(copy := copy', rooted := rooted', fifo := node.fifo[c.author := q + 1])],
       commits := s.commits[q := c.(acks := acks')])
  }

  function ExecReplicate(s: State, m: Msg, reply: bool): State
    requires Enabled(s, DeliverReplicate(m, reply))
  {
    var node := s.nodes[m.to];
    var (copy', status) := OnReplicate(node.copy, m.job);
    var s' := WithCopy(s, m.to, copy', if copy' == node.copy then node.rooted else m.rooted);
    if status == Created && reply then s'.(msgs := s'.msgs + {ReplicateOk(m.to, m.from)}) else s'
  }

  /** A demoted node drops its open claim. */
  function StandDown(node: Node, self: Endpoint): Node {
    if node.copy.Some? && node.copy.value.owner != self then node.(claim := None) else node
  }

  function ExecResync(s: State, m: Msg): State
    requires Enabled(s, DeliverResync(m))
  {
    var node := s.nodes[m.to];
    var copy' := OnResync(node.copy, m.job);
    if copy' == node.copy then s
    else s.(nodes := s.nodes[m.to := StandDown(node.(copy := copy', rooted := m.rooted), m.to)])
  }

  /** The claim is over; if the node still owns the job the merged copy becomes authoritative. */
  function Finalize(s: State, n: Endpoint, c: ClaimState): State
    requires n in s.nodes && s.nodes[n].copy.Some?
  {
    var j := s.nodes[n].copy.value;
    if j.owner != n then s.(nodes := s.nodes[n := s.nodes[n].(claim := None)])
    else
      var f := Finalized(j, c);
      s.(nodes := s.nodes[n := s.nodes[n].(copy := Some(f), claim := None, rooted := true)],
         finals := s.finals[j.epoch := Final(n, c.acked + {n}, f)])
  }

  /** With no other member to ask the claim is won at once; otherwise ask every peer. */
  function OpenClaim(s: State, n: Endpoint, c: ClaimState): State
    requires n in s.nodes && s.nodes[n].copy.Some?
  {
    if c.needed == 0 then Finalize(s, n, c)
    else
      var peers := Peers(s.nodes[n].copy.value.replicas, n);
      s.(nodes := s.nodes[n := s.nodes[n].(claim := Some(c))],
         msgs := s.msgs + (set p | p in peers :: ClaimMsg(n, p, c.proposed)))
  }

  function Proposal(j: Job): nat { (j.epoch + 1) % U32 }

  /** The TAKEOVER record, committed locally. At the largest epoch the proposal wraps and the record
      is without effect. */
  function Proposed(s: State, n: Endpoint): State
    requires Enabled(s, StartTakeover(n))
  {
    var j := s.nodes[n].copy.value;
    var copy' := Transition(Some(j), TakeoverRec(j.id, Proposal(j), n));
    if copy' == Some(j) then s
    else WithCopy(s, n, copy', false).(votes := s.votes[(n, Proposal(j)) := n])
  }

  /** The record is committed before any claim is sent. */
  function ExecTakeover(s: State, n: Endpoint): State
    requires Enabled(s, StartTakeover(n))
  {
    var s' := Proposed(s, n);
    OpenClaim(s', n, StartClaim(s'.nodes[n].copy.value, Proposal(s.nodes[n].copy.value)))
  }

  function ExecClaim(s: State, m: Msg, reply: bool): State
    requires Enabled(s, DeliverClaim(m, reply))
  {
    var node := s.nodes[m.to];
    var (copy', status, g) := OnClaim(node.copy, m.to, m.proposed, m.from);
    var s' := if copy' == node.copy then s
              else s.(nodes := s.nodes[m.to := StandDown(node.(copy := copy', rooted := false), m.to)],
                      votes := s.votes[(m.to, m.proposed) := m.from]);
    if g.Some? && reply then s'.(msgs := s'.msgs + {GrantMsg(m.from, m.proposed, g.value)}) else s'
  }

  /** Whatever round the grant answers, it counts toward the claim that is open now. */
  function ExecGrant(s: State, m: Msg): State
    requires Enabled(s, DeliverGrant(m))
  {
    var node := s.nodes[m.to];
    var c := CountGrant(node.claim.value, node.copy.value.replicas, m.grant);
    if c.acks >= c.needed then Finalize(s, m.to, c)
    else s.(nodes := s.nodes[m.to := node.(claim := Some(c))])
  }

  function Exec(s: State, st: Step): State
    requires Enabled(s, st)
  {
    match st
    case Owner(n, op) => ExecOwner(s, n, op)
    case SelfExpire(n) => ExecSelfExpire(s, n)
    case DeliverApply(q, p, reply) => ExecApply(s, q, p, reply)
    case Confirm(q, p) => s.(commits := s.commits[q := s.commits[q].(ok := true)])
    case SendCopy(n, to) => s.(msgs := s.msgs + {CopyMsg(n, to, s.nodes[n].copy.value, s.nodes[n].rooted)})
    case DeliverReplicate(m, reply) => ExecReplicate(s, m, reply)
    case DeliverResync(m) => ExecResync(s, m)
    case AcceptSubmit(p) => s.(accepted := true)
    case StartTakeover(n) => ExecTakeover(s, n)
    case DeliverClaim(m, reply) => ExecClaim(s, m, reply)
    case DeliverGrant(m) => ExecGrant(s, m)
    case Abandon(n) => s.(nodes := s.nodes[n := s.nodes[n].(claim := None)])
    case Restart(n) => s.(nodes := s.nodes[n := s.nodes[n].(claim := None)])
  }

  /** A run: every step enabled where it is taken. */
  predicate CanRun(s: State, steps: seq<Step>)
    decreases steps
  {
    steps == [] || (Enabled(s, steps[0]) && CanRun(Exec(s, steps[0]), steps[1..]))
  }

  function Run(s: State, steps: seq<Step>): State
    requires CanRun(s, steps)
    decreases steps
  {
    if steps == [] then s else Run(Exec(s, steps[0]), steps[1..])
  }
}
