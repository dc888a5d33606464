/** One id per idempotency key, over the whole cluster: gateways that forward to the key's stable
    owner, an owner that mints, copies that travel, commits that fail, restarts
    (src/queue_node.cc:205-237, 282-330, src/ring.cc:52-78), and compactions of any node's log
    (src/store.cc:26-49). */
module Idempotency {
  import opened Bytes
  import opened Options
  import opened Jobs
  import opened Store
  import opened Ring

  type Key = seq<byte>

  /** A store, the records in its log, one a failed commit may have left there, and whether the log
      has failed; a failed log takes nothing until the process restarts. boot and next make up the
      next nonce, and boots are the low halves of all boot ids this node has had. */
  datatype Node = Node(table: Table, log: seq<Record>, pending: Option<Record>, failed: bool, draining: bool,
    boot: nat, next: nat, boots: set<nat>)

  /** rings holds each node's own ring, as sorted from its own listing of the members; told are the
      ids clients were given, minted the keys ids were made for. */
  datatype State = State(
    mix: Mix, hash: Hash, rings: map<Endpoint, seq<Endpoint>>,
    nodes: map<Endpoint, Node>, forwards: set<(Key, Endpoint)>, copies: set<Job>, told: set<(Key, JobId)>,
    minted: map<JobId, Key>)

  /** How a commit ends: in log and memory, or failed with or without the record in the log. */
  datatype Fate = Committed | FailedKept | FailedLost

  datatype Step =
    | Gateway(n: Endpoint, key: Key)
    | OwnerSubmit(n: Endpoint, key: Key, job: Job, fate: Fate)
    | SendCopy(n: Endpoint, id: JobId)
    | TakeCopy(n: Endpoint, job: Job, fate: Fate)
    | Transit(n: Endpoint, rec: Record, fate: Fate)
    | Fail(n: Endpoint)
    | Drain(n: Endpoint)
    | Compact(n: Endpoint, xs: seq<Job>, installed: bool, fails: bool)
    | Restart(n: Endpoint, found: bool, boot: nat)

  /** The nonce of a minted id: the low half of the boot id above a 32-bit counter. */
  function Nonce(boot: nat, count: nat): nat { (boot % U32) * U32 + count % U32 }

  /** Within one boot ids repeat only after 2^32 submits, and across boots only if the boots agree
      in their low 32 bits. */
  lemma NoncesDiffer(boot1: nat, count1: nat, boot2: nat, count2: nat)
    ensures Nonce(boot1, count1) == Nonce(boot2, count2) <==> boot1 % U32 == boot2 % U32 && count1 % U32 == count2 % U32
  {
  }

  function NextId(n: Endpoint, node: Node): JobId { JobId(Ekey(n), Nonce(node.boot, node.next)) }

  function OwnerAt(s: State, ring: seq<Endpoint>, key: Key): Endpoint { FirstThree(Walk(s.mix, ring, s.hash(key)))[0] }

  predicate Enabled(s: State, st: Step) {
    match st
    case Gateway(n, _) => n in s.nodes && n in s.rings
    case OwnerSubmit(n, key, job, _) =>
      && n in s.nodes && (key, n) in s.forwards && job.idemKey == key && job.id == NextId(n, s.nodes[n])
    case SendCopy(n, id) => n in s.nodes && id in s.nodes[n].table.jobs
    case TakeCopy(n, job, _) => n in s.nodes && job in s.copies
    case Transit(n, rec, _) => n in s.nodes && !rec.SubmitRec? && !rec.ReplicateRec?
    case Fail(n) => n in s.nodes
    case Drain(n) => n in s.nodes
    case Compact(n, xs, _, _) => n in s.nodes && IsSnapshot(s.nodes[n].table, xs)
    case Restart(n, _, _) => n in s.nodes
  }

  /** The one write path: a failed log refuses, and a commit that fails fails the log. */
  function CommitAt(node: Node, r: Record, fate: Fate): Node {
    if node.failed then node
    else
      match fate
      case Committed => node.(table := Apply(node.table, r), log := node.log + [r])
      case FailedKept => node.(failed := true, pending := Some(r))
      case FailedLost => node.(failed := true)
  }

  function WithNode(s: State, n: Endpoint, node: Node): State { s.(nodes := s.nodes[n := node]) }

  /** The next id of n is taken. */
  function Mint(s: State, n: Endpoint, job: Job): State
    requires n in s.nodes
  {
    var node := s.nodes[n];
    WithNode(s, n, node.(next := node.next + 1)).(minted := s.minted[job.id := job.idemKey])
  }

  /** What a restart finds in the log. */
  function Found(node: Node, found: bool): seq<Record> {
    if found && node.pending.Some? then node.log + [node.pending.value] else node.log
  }

  function ExecSubmit(s: State, n: Endpoint, key: Key, job: Job, fate: Fate): State
    requires n in s.nodes
  {
    var node := s.nodes[n];
    var known := FindByIdem(node.table, key);
    if known.Some? then s.(told := s.told + {(key, known.value.id)})
    else if node.draining then s
    else
      var s' := WithNode(Mint(s, n, job), n, CommitAt(Mint(s, n, job).nodes[n], SubmitRec(job), fate));
      if !node.failed && fate.Committed? then s'.(told := s'.told + {(key, job.id)}) else s'
  }

  function Exec(s: State, st: Step): State
    requires Enabled(s, st)
  {
    match st
    case Gateway(n, key) => s.(forwards := s.forwards + {(key, OwnerAt(s, s.rings[n], key))})
    case OwnerSubmit(n, key, job, fate) => ExecSubmit(s, n, key, job, fate)
    case SendCopy(n, id) => s.(copies := s.copies + {s.nodes[n].table.jobs[id]})
    case TakeCopy(n, job, fate) => s.(nodes := s.nodes[n := CommitAt(s.nodes[n], ReplicateRec(job), fate)])
    case Transit(n, rec, fate) => s.(nodes := s.nodes[n := CommitAt(s.nodes[n], rec, fate)])
    case Fail(n) => s.(nodes := s.nodes[n := s.nodes[n].(failed := true)])
    case Drain(n) => s.(nodes := s.nodes[n := s.nodes[n].(draining := true)])
    case Compact(n, xs, installed, fails) =>
      var node := s.nodes[n];
      if node.failed then s
      else WithNode(s, n, node.(log := if installed then SnapshotRecords(xs) else node.log, failed := fails))
    case Restart(n, found, boot) =>
      var log := Found(s.nodes[n], found);
      WithNode(s, n, Node(ApplyAll(EMPTY, log), log, None, false, false, boot, 1, s.nodes[n].boots + {boot % U32}))
  }

  predicate CanRun(s: State, steps: seq<Step>)
    decreases steps
  {
    steps == [] || (Enabled(s, steps[0]) && CanRun(Exec(s, steps[0]), steps[1..]))
  }

  function Run(s: State, steps: seq<Step>): State
    requires CanRun(s, steps)
    decreases steps
  {
    if steps == [] then s else Run(Exec(s, steps[0]), steps[1..])
  }

  /** No nonce comes twice: a new boot id differs from all earlier ones of that node in its low half,
      and no boot lasts for more than 2^32 submits. */
  predicate Unrepeated(s: State, st: Step)
    requires Enabled(s, st)
  {
    && (st.Restart? ==> st.boot % U32 !in s.nodes[st.n].boots)
    && (st.OwnerSubmit? ==> s.nodes[st.n].next <= U32)
  }

  predicate AllUnrepeated(s: State, steps: seq<Step>)
    requires CanRun(s, steps)
    decreases steps
  {
    steps == [] || (Unrepeated(s, steps[0]) && AllUnrepeated(Exec(s, steps[0]), steps[1..]))
  }

  /** Every node was configured with the same members, listed in some order. */
  predicate Configured(s: State, members: seq<Endpoint>) {
    && AllReal(members) && members != []
    && (forall n :: n in s.rings ==> Ordered(s.mix, s.rings[n]) && multiset(s.rings[n]) == multiset(members))
  }

  predicate FirstNode(node: Node) { node == Node(EMPTY, [], None, false, false, node.boot, 1, {node.boot % U32}) }

  predicate Fresh(s: State) {
    && s.forwards == {} && s.copies == {} && s.told == {} && s.minted == map[]
    && (forall n :: n in s.nodes ==> Real(n) && FirstNode(s.nodes[n]))
  }

  // ---- What every run keeps -------------------------------------------------------------------------------

  /** The owner of the key has settled on this id. */
  predicate Settled(s: State, ring: seq<Endpoint>, key: Key, id: JobId) {
    var o := OwnerAt(s, ring, key);
    o in s.nodes && key in s.nodes[o].table.byIdem && s.nodes[o].table.byIdem[key] == id && id in s.nodes[o].table.jobs
  }

  /** Every job carries the key its id was made for, and the index is exact. */
  predicate Indexed(minted: map<JobId, Key>, t: Table) {
    IndexExact(t) && forall id :: id in t.jobs ==> id in minted && minted[id] == t.jobs[id].idemKey
  }

  predicate NodeOk(s: State, ring: seq<Endpoint>, n: Endpoint, node: Node) {
    && KeyedById(node.table) && node.table == ApplyAll(EMPTY, node.log) && Indexed(s.minted, node.table)
    && (forall k :: k in node.table.byIdem ==> Settled(s, ring, k, node.table.byIdem[k]))
    && (forall id :: id in node.table.jobs ==> Settled(s, ring, node.table.jobs[id].idemKey, id))
    && (node.pending.Some? ==> node.failed && PendingOk(s, ring, n, node.table, node.pending.value))
  }

  /** A submit left behind by a failed commit is for a key its owner does not know yet. */
  predicate PendingOk(s: State, ring: seq<Endpoint>, n: Endpoint, t: Table, r: Record) {
    && (r.SubmitRec? ==> OwnerAt(s, ring, r.job.idemKey) == n && r.job.idemKey !in t.byIdem)
    && (r.ReplicateRec? ==> Settled(s, ring, r.job.idemKey, r.job.id))
    && (r.SubmitRec? || r.ReplicateRec? ==> r.job.id in s.minted && s.minted[r.job.id] == r.job.idemKey)
  }

  /** The id came from boot half b and count c of node n. */
  predicate MintedAt(s: State, id: JobId, n: Endpoint, b: nat, c: nat) {
    && n in s.nodes && Real(n) && b in s.nodes[n].boots && b < U32 && 1 <= c <= U32
    && (b == s.nodes[n].boot % U32 ==> c < s.nodes[n].next)
    && id == JobId(Ekey(n), b * U32 + c % U32)
  }

  ghost predicate MintOk(s: State) {
    && (forall n :: n in s.nodes ==> Real(n) && s.nodes[n].next >= 1 && s.nodes[n].boot % U32 in s.nodes[n].boots)
    && (forall id :: id in s.minted ==> exists n, b: nat, c: nat :: MintedAt(s, id, n, b, c))
  }

  predicate CopyOk(s: State, ring: seq<Endpoint>, j: Job) {
    Settled(s, ring, j.idemKey, j.id) && j.id in s.minted && s.minted[j.id] == j.idemKey
  }

  ghost predicate Inv(s: State, ring: seq<Endpoint>) {
    && Ordered(s.mix, ring) && AllReal(ring) && MintOk(s)
    && (forall n :: n in s.rings ==> s.rings[n] == ring)
    && (forall f :: f in s.forwards ==> f.1 == OwnerAt(s, ring, f.0))
    && (forall n :: n in s.nodes ==> NodeOk(s, ring, n, s.nodes[n]))
    && (forall j :: j in s.copies ==> CopyOk(s, ring, j))
    && (forall t :: t in s.told ==> Settled(s, ring, t.0, t.1))
  }

  /** Keys and jobs, once there, stay. */
  predicate Keeps(t: Table, t': Table) {
    && (forall k :: k in t.byIdem ==> k in t'.byIdem && t'.byIdem[k] == t.byIdem[k])
    && (forall id :: id in t.jobs ==> id in t'.jobs)
  }

  predicate SameBoot(node: Node, node': Node) {
    node'.boot == node.boot && node'.next == node.next && node'.boots == node.boots
  }

  /** s' is s with one node moved on. */
  ghost predicate Moved(s: State, s': State, n: Endpoint) {
    && n in s.nodes && n in s'.nodes && s'.nodes == s.nodes[n := s'.nodes[n]]
    && s'.mix == s.mix && s'.hash == s.hash && s'.rings == s.rings && s'.forwards == s.forwards
    && s'.minted == s.minted && SameBoot(s.nodes[n], s'.nodes[n])
    && Keeps(s.nodes[n].table, s'.nodes[n].table)
  }

  lemma SettledStays(s: State, s': State, n: Endpoint, ring: seq<Endpoint>, key: Key, id: JobId)
    requires Moved(s, s', n) && Settled(s, ring, key, id)
    ensures Settled(s', ring, key, id)
  {
  }

  lemma ApplyKeeps(s: State, ring: seq<Endpoint>, n: Endpoint, r: Record)
    requires n in s.nodes && NodeOk(s, ring, n, s.nodes[n]) && PendingOk(s, ring, n, s.nodes[n].table, r)
    ensures Keeps(s.nodes[n].table, Apply(s.nodes[n].table, r)) && KeyedById(Apply(s.nodes[n].table, r))
  {
    hide ApplyAll, Indexed;
  }

  lemma OthersOk(s: State, s': State, ring: seq<Endpoint>, n: Endpoint, m: Endpoint)
    requires Moved(s, s', n) && m in s.nodes && NodeOk(s, ring, m, s.nodes[m])
    ensures NodeOk(s', ring, m, s.nodes[m])
  {
    var t := s.nodes[m].table;
    hide Settled;
    forall k | k in t.byIdem ensures Settled(s', ring, k, t.byIdem[k]) { SettledStays(s, s', n, ring, k, t.byIdem[k]); }
    forall id | id in t.jobs
      ensures Settled(s', ring, t.jobs[id].idemKey, id)
    {
      SettledStays(s, s', n, ring, t.jobs[id].idemKey, id);
    }
    var p := s.nodes[m].pending;
    if p.Some? && p.value.ReplicateRec? { SettledStays(s, s', n, ring, p.value.job.idemKey, p.value.job.id); }
  }

  lemma MintMoved(s: State, s': State, n: Endpoint)
    requires MintOk(s) && Moved(s, s', n)
    ensures MintOk(s')
  {
    forall id | id in s'.minted ensures exists m, b: nat, c: nat :: MintedAt(s', id, m, b, c) {
      var m, b: nat, c: nat :| MintedAt(s, id, m, b, c);
      assert MintedAt(s', id, m, b, c);
    }
  }

  /** A node that moves on properly leaves the whole cluster in order. */
  lemma MovedKeeps(s: State, s': State, ring: seq<Endpoint>, n: Endpoint)
    requires Inv(s, ring) && Moved(s, s', n) && s'.copies == s.copies && s'.told == s.told
    requires NodeOk(s', ring, n, s'.nodes[n])
    ensures Inv(s', ring)
  {
    hide NodeOk, Settled, MintOk;
    MintMoved(s, s', n);
    forall m | m in s'.nodes ensures NodeOk(s', ring, m, s'.nodes[m]) {
      if m != n { OthersOk(s, s', ring, n, m); }
    }
    forall j | j in s'.copies
      ensures CopyOk(s', ring, j)
    {
      assert CopyOk(s, ring, j);
      SettledStays(s, s', n, ring, j.idemKey, j.id);
    }
    forall t | t in s'.told ensures Settled(s', ring, t.0, t.1) { SettledStays(s, s', n, ring, t.0, t.1); }
  }

  /** The keys and jobs a record adds are settled where it is applied or were settled before. */
  lemma AppliedSettled(s: State, s': State, ring: seq<Endpoint>, n: Endpoint, r: Record)
    requires n in s.nodes && NodeOk(s, ring, n, s.nodes[n]) && PendingOk(s, ring, n, s.nodes[n].table, r)
    requires Moved(s, s', n) && s'.nodes[n].table == Apply(s.nodes[n].table, r)
    ensures
      var t := s'.nodes[n].table;
      && (forall k :: k in t.byIdem ==> Settled(s', ring, k, t.byIdem[k]))
      && (forall id :: id in t.jobs ==> Settled(s', ring, t.jobs[id].idemKey, id))
  {
    var t, t' := s.nodes[n].table, s'.nodes[n].table;
    hide NodeOk, PendingOk, Settled, Moved, Apply;
    if r.SubmitRec? || r.ReplicateRec? { NewSettled(s, s', ring, n, r); }
    forall k | k in t'.byIdem ensures Settled(s', ring, k, t'.byIdem[k]) {
      AppliedKey(t, r, k);
      if k in t.byIdem && t'.byIdem[k] == t.byIdem[k] { OldSettled(s, s', ring, n, k, t.byIdem[k]); }
    }
    forall id | id in t'.jobs ensures Settled(s', ring, t'.jobs[id].idemKey, id) {
      AppliedJob(t, r, id);
      if id in t.jobs && t'.jobs[id].idemKey == t.jobs[id].idemKey {
        OldSettled(s, s', ring, n, t.jobs[id].idemKey, id);
      }
    }
  }

  lemma OldSettled(s: State, s': State, ring: seq<Endpoint>, n: Endpoint, key: Key, id: JobId)
    requires n in s.nodes && NodeOk(s, ring, n, s.nodes[n]) && Moved(s, s', n)
    requires
      || (key in s.nodes[n].table.byIdem && s.nodes[n].table.byIdem[key] == id)
      || (id in s.nodes[n].table.jobs && s.nodes[n].table.jobs[id].idemKey == key)
    ensures Settled(s', ring, key, id)
  {
    hide Settled, Moved, ApplyAll, Indexed, KeyedById, PendingOk;
    SettledStays(s, s', n, ring, key, id);
  }

  lemma AppliedKey(t: Table, r: Record, k: Key)
    requires k in Apply(t, r).byIdem
    ensures
      || (k in t.byIdem && Apply(t, r).byIdem[k] == t.byIdem[k])
      || ((r.SubmitRec? || r.ReplicateRec?) && k == r.job.idemKey && Apply(t, r).byIdem[k] == r.job.id)
  {
  }

  lemma AppliedJob(t: Table, r: Record, id: JobId)
    requires id in Apply(t, r).jobs
    ensures
      || (id in t.jobs && Apply(t, r).jobs[id].idemKey == t.jobs[id].idemKey)
      || ((r.SubmitRec? || r.ReplicateRec?) && id == r.job.id && Apply(t, r).jobs[id].idemKey == r.job.idemKey)
  {
  }

  /** The key of a record that brings a job is settled once it is applied. */
  lemma NewSettled(s: State, s': State, ring: seq<Endpoint>, n: Endpoint, r: Record)
    requires n in s.nodes && PendingOk(s, ring, n, s.nodes[n].table, r) && (r.SubmitRec? || r.ReplicateRec?)
    requires Moved(s, s', n) && s'.nodes[n].table == Apply(s.nodes[n].table, r)
    ensures Settled(s', ring, r.job.idemKey, r.job.id)
  {
    if r.ReplicateRec? {
      SettledStays(s, s', n, ring, r.job.idemKey, r.job.id);
    } else {
      OwnerSame(s, s', ring, r.job.idemKey);
      hide OwnerAt;
    }
  }

  lemma NodeOf(s: State, ring: seq<Endpoint>, n: Endpoint)
    requires Inv(s, ring) && n in s.nodes
    ensures NodeOk(s, ring, n, s.nodes[n])
  {
    hide NodeOk, Settled;
  }

  lemma TableMoves(s: State, ring: seq<Endpoint>, n: Endpoint, r: Record, node: Node)
    requires Inv(s, ring) && n in s.nodes && PendingOk(s, ring, n, s.nodes[n].table, r)
    requires node.table == Apply(s.nodes[n].table, r) && node.log == s.nodes[n].log + [r] && node.pending.None?
             && SameBoot(s.nodes[n], node)
    ensures Inv(WithNode(s, n, node), ring) && Moved(s, WithNode(s, n, node), n)
  {
    var s' := WithNode(s, n, node);
    hide Inv, Settled, Apply, Keeps, NodeOk;
    NodeOf(s, ring, n);
    ApplyKeeps(s, ring, n, r);
    assert Moved(s, s', n);
    MovedOn(s, s', ring, n, r);
  }

  lemma MovedOn(s: State, s': State, ring: seq<Endpoint>, n: Endpoint, r: Record)
    requires Inv(s, ring) && Moved(s, s', n) && s'.copies == s.copies && s'.told == s.told
             && PendingOk(s, ring, n, s.nodes[n].table, r)
    requires s'.nodes[n].table == Apply(s.nodes[n].table, r) && s'.nodes[n].pending.None?
             && s'.nodes[n].log == s.nodes[n].log + [r]
    ensures Inv(s', ring)
  {
    hide Inv, Settled, Apply, PendingOk, KeyedById, NodeOk;
    assert n in s'.nodes;
    hide Moved;
    NodeOf(s, ring, n);
    AppliedNode(s, s', ring, n, r);
    MovedKeeps(s, s', ring, n);
  }

  lemma AppliedNode(s: State, s': State, ring: seq<Endpoint>, n: Endpoint, r: Record)
    requires n in s.nodes && NodeOk(s, ring, n, s.nodes[n]) && PendingOk(s, ring, n, s.nodes[n].table, r)
    requires Moved(s, s', n) && s'.nodes[n].table == Apply(s.nodes[n].table, r) && s'.nodes[n].pending.None?
             && s'.nodes[n].log == s.nodes[n].log + [r]
    ensures NodeOk(s', ring, n, s'.nodes[n])
  {
    AppliedIndexed(s, ring, n, r);
    assert s'.minted == s.minted;
    hide Settled, Apply, PendingOk, KeyedById, Moved, Indexed;
    AppliedSettled(s, s', ring, n, r);
    ApplyKeeps(s, ring, n, r);
    AppliedMore(s.nodes[n].log, r);
  }

  function KeyOf(minted: map<JobId, Key>): JobId -> Key { (id: JobId) => if id in minted then minted[id] else [] }

  lemma AppliedIndexed(s: State, ring: seq<Endpoint>, n: Endpoint, r: Record)
    requires n in s.nodes && NodeOk(s, ring, n, s.nodes[n]) && PendingOk(s, ring, n, s.nodes[n].table, r)
    ensures Indexed(s.minted, Apply(s.nodes[n].table, r))
  {
    hide Settled, ApplyAll;
    var t := s.nodes[n].table;
    IndexExactStep(t, r, KeyOf(s.minted));
    var t' := Apply(t, r);
    forall id | id in t'.jobs ensures id in s.minted && s.minted[id] == t'.jobs[id].idemKey {
      if id in t.jobs { assert id in s.minted; } else { assert id == RecId(r) && (r.SubmitRec? || r.ReplicateRec?); }
      assert t'.jobs[id].idemKey == KeyOf(s.minted)(id);
    }
  }

  lemma SameTable(s: State, ring: seq<Endpoint>, n: Endpoint, node: Node)
    requires Inv(s, ring) && n in s.nodes && node.table == s.nodes[n].table && node.table == ApplyAll(EMPTY, node.log)
             && SameBoot(s.nodes[n], node)
    requires node.pending.Some? ==> node.failed && PendingOk(s, ring, n, s.nodes[n].table, node.pending.value)
    ensures Inv(WithNode(s, n, node), ring)
  {
    var s' := WithNode(s, n, node);
    assert Moved(s, s', n) by { hide Inv; }
    assert s'.minted == s.minted;
    hide Moved, Inv, Settled, ApplyAll, Indexed, OwnerAt, KeyedById;
    NodeOf(s, ring, n);
    OthersOk(s, s', ring, n, n);
    if node.pending.Some? && node.pending.value.ReplicateRec? {
      SettledStays(s, s', n, ring, node.pending.value.job.idemKey, node.pending.value.job.id);
    }
    assert NodeOk(s', ring, n, s'.nodes[n]);
    MovedKeeps(s, s', ring, n);
  }

  /** Any commit of a proper record, however it ends. */
  lemma CommitKeeps(s: State, ring: seq<Endpoint>, n: Endpoint, r: Record, fate: Fate)
    requires Inv(s, ring) && n in s.nodes && PendingOk(s, ring, n, s.nodes[n].table, r)
    ensures Inv(WithNode(s, n, CommitAt(s.nodes[n], r, fate)), ring)
    ensures !s.nodes[n].failed && fate.Committed? ==> Moved(s, WithNode(s, n, CommitAt(s.nodes[n], r, fate)), n)
  {
    var s' := WithNode(s, n, CommitAt(s.nodes[n], r, fate));
    hide Inv, Settled, Apply, ApplyAll, Indexed;
    NodeOf(s, ring, n);
    if !s.nodes[n].failed && fate.Committed? {
      TableMoves(s, ring, n, r, s'.nodes[n]);
    } else {
      SameTable(s, ring, n, s'.nodes[n]);
    }
  }

  /** Messages and answers do not touch the nodes. */
  lemma NodesSame(s: State, s': State, ring: seq<Endpoint>, n: Endpoint)
    requires s'.mix == s.mix && s'.hash == s.hash && s'.nodes == s.nodes && s'.minted == s.minted && n in s.nodes
             && NodeOk(s, ring, n, s.nodes[n])
    ensures NodeOk(s', ring, n, s.nodes[n])
  {
  }

  lemma SettledSame(s: State, s': State, ring: seq<Endpoint>, key: Key, id: JobId)
    requires s'.mix == s.mix && s'.hash == s.hash && s'.nodes == s.nodes && Settled(s, ring, key, id)
    ensures Settled(s', ring, key, id)
  {
  }

  lemma MintSame(s: State, s': State)
    requires MintOk(s) && s'.nodes == s.nodes && s'.minted == s.minted
    ensures MintOk(s')
  {
    forall id | id in s'.minted ensures exists m, b: nat, c: nat :: MintedAt(s', id, m, b, c) {
      var m, b: nat, c: nat :| MintedAt(s, id, m, b, c);
      assert MintedAt(s', id, m, b, c);
    }
  }

  lemma MessagesKeep(s: State, s': State, ring: seq<Endpoint>)
    requires Inv(s, ring) && s'.mix == s.mix && s'.hash == s.hash && s'.rings == s.rings && s'.nodes == s.nodes
             && s'.minted == s.minted
    requires forall f :: f in s'.forwards ==> f in s.forwards || f.1 == OwnerAt(s, ring, f.0)
    requires forall j :: j in s'.copies ==> j in s.copies || CopyOk(s, ring, j)
    requires forall t :: t in s'.told ==> t in s.told || Settled(s, ring, t.0, t.1)
    ensures Inv(s', ring)
  {
    assert forall f :: f in s.forwards ==> OwnerAt(s', ring, f.0) == OwnerAt(s, ring, f.0);
    assert MintOk(s') by { MintSame(s, s'); }
    hide Settled, NodeOk, MintOk;
    forall n | n in s'.nodes ensures NodeOk(s', ring, n, s'.nodes[n]) { NodesSame(s, s', ring, n); }
    forall j | j in s'.copies ensures CopyOk(s', ring, j) { SettledSame(s, s', ring, j.idemKey, j.id); }
    forall t | t in s'.told ensures Settled(s', ring, t.0, t.1) { SettledSame(s, s', ring, t.0, t.1); }
  }

  lemma TellKeeps(s: State, ring: seq<Endpoint>, key: Key, id: JobId)
    requires Inv(s, ring) && Settled(s, ring, key, id)
    ensures Inv(s.(told := s.told + {(key, id)}), ring)
  {
    hide Inv, Settled, OwnerAt;
    MessagesKeep(s, s.(told := s.told + {(key, id)}), ring);
  }

  // ---- Minting ------------------------------------------------------------------------------------------------

  /** The next id of a node is new, as long as no nonce comes twice. */
  lemma NextIsNew(s: State, n: Endpoint)
    requires MintOk(s) && n in s.nodes && s.nodes[n].next <= U32
    ensures NextId(n, s.nodes[n]) !in s.minted
  {
    var id, node := NextId(n, s.nodes[n]), s.nodes[n];
    if id in s.minted {
      var m, b: nat, c: nat :| MintedAt(s, id, m, b, c);
      hide Nonce, Ekey, MintOk;
      EkeyInjective(m, n);
      CountsDiffer(b, c, node.boot, node.next);
    }
  }

  lemma CountsDiffer(b: nat, c: nat, boot: nat, next: nat)
    requires b < U32 && 1 <= c <= U32 && next <= U32
    requires b == boot % U32 ==> c < next
    ensures b * U32 + c % U32 != Nonce(boot, next)
  {
    NoncesDiffer(b, c, boot, next);
  }

  /** s' differs in what the nodes mint from, and in one more id. */
  ghost predicate Reminted(s: State, s': State, n: Endpoint) {
    && n in s.nodes && (forall id :: id in s.minted ==> id in s'.minted && s'.minted[id] == s.minted[id])
    && n in s'.nodes && s' == WithNode(s, n, s'.nodes[n]).(minted := s'.minted)
    && s'.nodes[n] == s.nodes[n].(boot := s'.nodes[n].boot, next := s'.nodes[n].next, boots := s'.nodes[n].boots)
  }

  lemma RemintedTable(s: State, s': State, ring: seq<Endpoint>, n: Endpoint, t: Table)
    requires Reminted(s, s', n) && Indexed(s.minted, t)
    requires forall k :: k in t.byIdem ==> Settled(s, ring, k, t.byIdem[k])
    requires forall id :: id in t.jobs ==> Settled(s, ring, t.jobs[id].idemKey, id)
    ensures Indexed(s'.minted, t)
    ensures forall k :: k in t.byIdem ==> Settled(s', ring, k, t.byIdem[k])
    ensures forall id :: id in t.jobs ==> Settled(s', ring, t.jobs[id].idemKey, id)
  {
    hide Settled, IndexExact;
    forall k | k in t.byIdem
      ensures Settled(s', ring, k, t.byIdem[k])
    {
      RemintedSettled(s, s', ring, n, k, t.byIdem[k]);
    }
    forall id | id in t.jobs ensures Settled(s', ring, t.jobs[id].idemKey, id) {
      RemintedSettled(s, s', ring, n, t.jobs[id].idemKey, id);
    }
  }

  lemma RemintedPending(s: State, s': State, ring: seq<Endpoint>, n: Endpoint, m: Endpoint, t: Table, r: Record)
    requires Reminted(s, s', n) && PendingOk(s, ring, m, t, r)
    ensures PendingOk(s', ring, m, t, r)
  {
    hide Settled;
    if r.SubmitRec? { OwnerSame(s, s', ring, r.job.idemKey); }
    if r.ReplicateRec? { RemintedSettled(s, s', ring, n, r.job.idemKey, r.job.id); }
  }

  lemma RemintedNode(s: State, s': State, ring: seq<Endpoint>, n: Endpoint, m: Endpoint)
    requires Reminted(s, s', n) && m in s.nodes && NodeOk(s, ring, m, s.nodes[m])
    ensures m in s'.nodes && NodeOk(s', ring, m, s'.nodes[m])
  {
    var node, node' := s.nodes[m], s'.nodes[m];
    assert node'.table == node.table && node'.log == node.log && node'.pending == node.pending
        && node'.failed == node.failed;
    hide Settled, ApplyAll, Indexed, KeyedById, Reminted, PendingOk;
    RemintedTable(s, s', ring, n, node.table);
    if node.pending.Some? { RemintedPending(s, s', ring, n, m, node.table, node.pending.value); }
  }

  lemma RemintedCopy(s: State, s': State, ring: seq<Endpoint>, n: Endpoint, j: Job)
    requires Reminted(s, s', n) && CopyOk(s, ring, j)
    ensures CopyOk(s', ring, j)
  {
    hide Settled;
    RemintedSettled(s, s', ring, n, j.idemKey, j.id);
  }

  lemma RemintedSettled(s: State, s': State, ring: seq<Endpoint>, n: Endpoint, key: Key, id: JobId)
    requires Reminted(s, s', n) && Settled(s, ring, key, id)
    ensures Settled(s', ring, key, id)
  {
  }

  lemma RemintKeeps(s: State, s': State, ring: seq<Endpoint>, n: Endpoint)
    requires Inv(s, ring) && Reminted(s, s', n) && MintOk(s')
    ensures Inv(s', ring)
  {
    forall f | f in s.forwards ensures OwnerAt(s', ring, f.0) == OwnerAt(s, ring, f.0) { OwnerSame(s, s', ring, f.0); }
    assert s'.nodes.Keys == s.nodes.Keys;
    hide OwnerAt, NodeOk, Settled, MintOk, CopyOk;
    forall m | m in s'.nodes ensures NodeOk(s', ring, m, s'.nodes[m]) { RemintedNode(s, s', ring, n, m); }
    forall j | j in s'.copies ensures CopyOk(s', ring, j) { RemintedCopy(s, s', ring, n, j); }
    forall t | t in s'.told ensures Settled(s', ring, t.0, t.1) { RemintedSettled(s, s', ring, n, t.0, t.1); }
  }

  lemma MintOf(s: State, ring: seq<Endpoint>)
    requires Inv(s, ring)
    ensures MintOk(s)
  {
    hide NodeOk, Settled, MintOk, CopyOk;
  }

  lemma MintMore(s: State, n: Endpoint, job: Job)
    requires MintOk(s) && n in s.nodes && s.nodes[n].next <= U32 && job.id == NextId(n, s.nodes[n])
             && (s.nodes[n].next >= 1)
    ensures MintOk(Mint(s, n, job))
  {
    var s', node := Mint(s, n, job), s.nodes[n];
    forall id | id in s'.minted ensures exists m, b: nat, c: nat :: MintedAt(s', id, m, b, c) {
      if id == job.id {
        assert MintedAt(s', id, n, node.boot % U32, node.next);
      } else {
        var m, b: nat, c: nat :| MintedAt(s, id, m, b, c);
        hide Ekey;
        assert MintedAt(s', id, m, b, c);
      }
    }
  }

  lemma MintKeeps(s: State, ring: seq<Endpoint>, n: Endpoint, job: Job)
    requires Inv(s, ring) && n in s.nodes && s.nodes[n].next <= U32 && job.id == NextId(n, s.nodes[n])
    ensures Inv(Mint(s, n, job), ring)
  {
    hide Inv, MintOk, NextId;
    MintOf(s, ring);
    NextPositive(s, n);
    NextIsNew(s, n);
    MintMore(s, n, job);
    RemintKeeps(s, Mint(s, n, job), ring, n);
  }

  lemma NextPositive(s: State, n: Endpoint)
    requires MintOk(s) && n in s.nodes
    ensures s.nodes[n].next >= 1
  {
  }

  lemma SubmitKeeps(s: State, ring: seq<Endpoint>, n: Endpoint, key: Key, job: Job, fate: Fate)
    requires Inv(s, ring) && Enabled(s, OwnerSubmit(n, key, job, fate)) && s.nodes[n].next <= U32
    ensures Inv(ExecSubmit(s, n, key, job, fate), ring)
  {
    var node := s.nodes[n];
    assert n == OwnerAt(s, ring, key) by { hide Settled, NodeOk, MintOk; }
    hide Inv;
    NodeOf(s, ring, n);
    var known := FindByIdem(node.table, key);
    if known.Some? {
      TellKeeps(s, ring, key, known.value.id);
    } else if !node.draining {
      assert key !in node.table.byIdem;
      MintKeeps(s, ring, n, job);
      FirstCopy(Mint(s, n, job), ring, n, key, job, fate);
    }
  }

  lemma CopySettles(s: State, ring: seq<Endpoint>, n: Endpoint, key: Key, job: Job)
    requires n in s.nodes && !s.nodes[n].failed && n == OwnerAt(s, ring, key) && job.idemKey == key
    ensures Settled(WithNode(s, n, CommitAt(s.nodes[n], SubmitRec(job), Committed)), ring, key, job.id)
  {
    OwnerSame(s, WithNode(s, n, CommitAt(s.nodes[n], SubmitRec(job), Committed)), ring, key);
    hide OwnerAt;
  }

  lemma OwnerSame(s: State, s': State, ring: seq<Endpoint>, key: Key)
    requires s'.mix == s.mix && s'.hash == s.hash
    ensures OwnerAt(s', ring, key) == OwnerAt(s, ring, key)
  {
  }

  lemma FirstCopy(s: State, ring: seq<Endpoint>, n: Endpoint, key: Key, job: Job, fate: Fate)
    requires Inv(s, ring) && n in s.nodes && key !in s.nodes[n].table.byIdem && n == OwnerAt(s, ring, key)
    requires job.idemKey == key && job.id in s.minted && s.minted[job.id] == key
    ensures
      var s' := WithNode(s, n, CommitAt(s.nodes[n], SubmitRec(job), fate));
      Inv(s', ring) && (!s.nodes[n].failed && fate.Committed? ==> Inv(s'.(told := s'.told + {(key, job.id)}), ring))
  {
    var s' := WithNode(s, n, CommitAt(s.nodes[n], SubmitRec(job), fate));
    hide Inv, OwnerAt, Settled, Apply;
    assert PendingOk(s, ring, n, s.nodes[n].table, SubmitRec(job));
    hide PendingOk;
    CommitKeeps(s, ring, n, SubmitRec(job), fate);
    if !s.nodes[n].failed && fate.Committed? {
      CopySettles(s, ring, n, key, job);
      TellKeeps(s', ring, key, job.id);
    }
  }

  lemma GatewayKeeps(s: State, ring: seq<Endpoint>, n: Endpoint, key: Key)
    requires Inv(s, ring) && Enabled(s, Gateway(n, key))
    ensures Inv(Exec(s, Gateway(n, key)), ring)
  {
    MessagesKeep(s, Exec(s, Gateway(n, key)), ring);
  }

  lemma CopyKeeps(s: State, ring: seq<Endpoint>, j: Job)
    requires Inv(s, ring) && CopyOk(s, ring, j)
    ensures Inv(s.(copies := s.copies + {j}), ring)
  {
    hide Inv, Settled, OwnerAt, CopyOk;
    MessagesKeep(s, s.(copies := s.copies + {j}), ring);
  }

  lemma SendKeeps(s: State, ring: seq<Endpoint>, n: Endpoint, id: JobId)
    requires Inv(s, ring) && n in s.nodes && id in s.nodes[n].table.jobs
    ensures Inv(s.(copies := s.copies + {s.nodes[n].table.jobs[id]}), ring)
  {
    hide Inv, Settled, ApplyAll, IndexExact;
    NodeOf(s, ring, n);
    CopyKeeps(s, ring, s.nodes[n].table.jobs[id]);
  }

  function Rebooted(node: Node, boot: nat): Node {
    node.(boot := boot, next := 1, boots := node.boots + {boot % U32})
  }

  lemma RebootMint(s: State, n: Endpoint, boot: nat)
    requires MintOk(s) && n in s.nodes && boot % U32 !in s.nodes[n].boots
    ensures MintOk(WithNode(s, n, Rebooted(s.nodes[n], boot)))
  {
    var s' := WithNode(s, n, Rebooted(s.nodes[n], boot));
    forall id | id in s'.minted ensures exists m, b: nat, c: nat :: MintedAt(s', id, m, b, c) {
      var m, b: nat, c: nat :| MintedAt(s, id, m, b, c);
      hide Ekey;
      assert MintedAt(s', id, m, b, c);
    }
  }

  lemma RebootKeeps(s: State, ring: seq<Endpoint>, n: Endpoint, boot: nat)
    requires Inv(s, ring) && n in s.nodes && boot % U32 !in s.nodes[n].boots
    ensures Inv(WithNode(s, n, Rebooted(s.nodes[n], boot)), ring)
  {
    hide Inv, MintOk;
    MintOf(s, ring);
    RebootMint(s, n, boot);
    RemintKeeps(s, WithNode(s, n, Rebooted(s.nodes[n], boot)), ring, n);
  }

  lemma ReplayKeeps(s: State, ring: seq<Endpoint>, n: Endpoint, found: bool)
    requires Inv(s, ring) && n in s.nodes
    ensures
      var node, log := s.nodes[n], Found(s.nodes[n], found);
      Inv(WithNode(s, n,
          node.(table := ApplyAll(EMPTY, log), log := log, pending := None, failed := false, draining := false)), ring)
  {
    var node, log := s.nodes[n], Found(s.nodes[n], found);
    var node' := node.(table := ApplyAll(EMPTY, log), log := log, pending := None, failed := false, draining := false);
    hide Inv, Settled, Apply, ApplyAll, Indexed;
    NodeOf(s, ring, n);
    if found && node.pending.Some? {
      AppliedMore(node.log, node.pending.value);
      TableMoves(s, ring, n, node.pending.value, node');
    } else {
      SameTable(s, ring, n, node');
    }
  }

  lemma RestartKeeps(s: State, ring: seq<Endpoint>, n: Endpoint, found: bool, boot: nat)
    requires Inv(s, ring) && n in s.nodes && boot % U32 !in s.nodes[n].boots
    ensures Inv(Exec(s, Restart(n, found, boot)), ring)
  {
    hide Inv, ApplyAll;
    RebootKeeps(s, ring, n, boot);
    var s1 := WithNode(s, n, Rebooted(s.nodes[n], boot));
    ReplayKeeps(s1, ring, n, found);
    var s', log := Exec(s, Restart(n, found, boot)), Found(s.nodes[n], found);
    assert s'.nodes == s1.nodes[n := s'.nodes[n]];
  }

  /** A compaction keeps the table it stands for, because the index is exact. */
  lemma CompactKeeps(s: State, ring: seq<Endpoint>, n: Endpoint, xs: seq<Job>, installed: bool, fails: bool)
    requires Inv(s, ring) && Enabled(s, Compact(n, xs, installed, fails))
    ensures Inv(Exec(s, Compact(n, xs, installed, fails)), ring)
  {
    var node := s.nodes[n];
    hide Inv, Settled, Apply, ApplyAll, IndexExact, IsSnapshot;
    NodeOf(s, ring, n);
    CompactionPreserves(node.table, xs);
    if !node.failed {
      SameTable(s, ring, n, node.(log := if installed then SnapshotRecords(xs) else node.log, failed := fails));
    }
  }

  lemma FlagKeeps(s: State, ring: seq<Endpoint>, n: Endpoint, failed: bool, draining: bool)
    requires Inv(s, ring) && n in s.nodes && (s.nodes[n].failed ==> failed)
    ensures Inv(WithNode(s, n, s.nodes[n].(failed := failed, draining := draining)), ring)
  {
    hide Inv, Settled, ApplyAll, Indexed;
    NodeOf(s, ring, n);
    SameTable(s, ring, n, s.nodes[n].(failed := failed, draining := draining));
  }

  lemma TakeKeeps(s: State, ring: seq<Endpoint>, n: Endpoint, job: Job, fate: Fate)
    requires Inv(s, ring) && n in s.nodes && job in s.copies
    ensures Inv(WithNode(s, n, CommitAt(s.nodes[n], ReplicateRec(job), fate)), ring)
  {
    assert CopyOk(s, ring, job) by { hide NodeOk, Settled, MintOk, CopyOk; }
    hide Inv;
    CommitKeeps(s, ring, n, ReplicateRec(job), fate);
  }

  lemma InvStep(s: State, ring: seq<Endpoint>, st: Step)
    requires Inv(s, ring) && Enabled(s, st) && Unrepeated(s, st)
    ensures Inv(Exec(s, st), ring)
  {
    hide Inv, IsSnapshot;
    match st
    case Gateway(n, key) => GatewayKeeps(s, ring, n, key);
    case OwnerSubmit(n, key, job, fate) => SubmitKeeps(s, ring, n, key, job, fate);
    case SendCopy(n, id) => SendKeeps(s, ring, n, id);
    case TakeCopy(n, job, fate) => TakeKeeps(s, ring, n, job, fate);
    case Transit(n, rec, fate) => CommitKeeps(s, ring, n, rec, fate);
    case Fail(n) => FlagKeeps(s, ring, n, true, s.nodes[n].draining);
    case Drain(n) => FlagKeeps(s, ring, n, s.nodes[n].failed, true);
    case Compact(n, xs, installed, fails) => CompactKeeps(s, ring, n, xs, installed, fails);
    case Restart(n, found, boot) => RestartKeeps(s, ring, n, found, boot);
  }

  lemma {:induction false} InvAlways(s: State, ring: seq<Endpoint>, steps: seq<Step>)
    requires Inv(s, ring) && CanRun(s, steps) && AllUnrepeated(s, steps)
    ensures Inv(Run(s, steps), ring)
    decreases steps
  {
    if steps != [] {
      InvStep(s, ring, steps[0]);
      InvAlways(Exec(s, steps[0]), ring, steps[1..]);
    }
  }

  /** Somebody knows, or was told, this id for this key. */
  predicate Known(s: State, key: Key, id: JobId) {
    || (key, id) in s.told
    || (exists j :: j in s.copies && j.idemKey == key && j.id == id)
    || (exists n :: n in s.nodes && key in s.nodes[n].table.byIdem && s.nodes[n].table.byIdem[key] == id)
    || (exists n :: n in s.nodes && id in s.nodes[n].table.jobs && s.nodes[n].table.jobs[id].idemKey == key)
  }

  lemma KnownSettled(s: State, ring: seq<Endpoint>, key: Key, id: JobId)
    requires Inv(s, ring) && Known(s, key, id)
    ensures Settled(s, ring, key, id)
  {
    if n :| n in s.nodes && key in s.nodes[n].table.byIdem && s.nodes[n].table.byIdem[key] == id {
      assert NodeOk(s, ring, n, s.nodes[n]);
    } else if n :| n in s.nodes && id in s.nodes[n].table.jobs && s.nodes[n].table.jobs[id].idemKey == key {
      assert NodeOk(s, ring, n, s.nodes[n]);
    }
  }

  /** At most one id is ever known for a key, anywhere in the cluster, in any run in which no nonce
      comes twice: across gateways, lost replies, failed commits, drain, compactions and restarts. */
  lemma OneIdPerKey(s: State, members: seq<Endpoint>, steps: seq<Step>, key: Key, id1: JobId, id2: JobId)
    requires Configured(s, members) && Fresh(s) && s.rings != map[] && CanRun(s, steps) && AllUnrepeated(s, steps)
    requires Known(Run(s, steps), key, id1) && Known(Run(s, steps), key, id2)
    ensures id1 == id2
  {
    hide Inv, Known, Configured, Fresh;
    var ring := RunKeeps(s, members, steps);
    KnownSettled(Run(s, steps), ring, key, id1);
    KnownSettled(Run(s, steps), ring, key, id2);
  }

  lemma RunKeeps(s: State, members: seq<Endpoint>, steps: seq<Step>) returns (ring: seq<Endpoint>)
    requires Configured(s, members) && Fresh(s) && s.rings != map[] && CanRun(s, steps) && AllUnrepeated(s, steps)
    ensures Inv(Run(s, steps), ring)
  {
    var n :| n in s.rings;
    ring := s.rings[n];
    SameReal(members, ring);
    forall m | m in s.rings
      ensures s.rings[m] == ring
    {
      SameReal(members, s.rings[m]);
      OrderUnique(s.mix, s.rings[m], ring);
    }
    assert Inv(s, ring);
    InvAlways(s, ring, steps);
  }

  /** And a submit that arrives is answered with it: for a key that has an id anywhere in the cluster the
      client is told that id, whatever state the owner is in, and nothing else happens. Otherwise an
      owner that does not drain and whose commit succeeds mints one, tells it and knows it. */
  lemma SubmitAnswered(s: State, members: seq<Endpoint>, steps: seq<Step>, n: Endpoint, key: Key, job: Job, fate: Fate)
    requires Configured(s, members) && Fresh(s) && s.rings != map[] && CanRun(s, steps) && AllUnrepeated(s, steps)
    requires Enabled(Run(s, steps), OwnerSubmit(n, key, job, fate))
    ensures
      var s1, s2 := Run(s, steps), Exec(Run(s, steps), OwnerSubmit(n, key, job, fate));
      && (forall id :: Known(s1, key, id) ==> s2 == s1.(told := s1.told + {(key, id)}))
      && ((forall id :: !Known(s1, key, id)) && !s1.nodes[n].draining && !s1.nodes[n].failed && fate.Committed? ==>
            s2.told == s1.told + {(key, job.id)} && Find(s2.nodes[n].table, job.id) == Some(job))
  {
    hide Inv, Known, Configured, Fresh;
    var ring := RunKeeps(s, members, steps);
    AnswerAt(Run(s, steps), ring, n, key, job, fate);
  }

  lemma AnswerAt(s: State, ring: seq<Endpoint>, n: Endpoint, key: Key, job: Job, fate: Fate)
    requires Enabled(s, OwnerSubmit(n, key, job, fate)) && Inv(s, ring)
    ensures
      var s' := Exec(s, OwnerSubmit(n, key, job, fate));
      && (forall id :: Known(s, key, id) ==> s' == s.(told := s.told + {(key, id)}))
      && ((forall id :: !Known(s, key, id)) && !s.nodes[n].draining && !s.nodes[n].failed && fate.Committed? ==>
            s'.told == s.told + {(key, job.id)} && Find(s'.nodes[n].table, job.id) == Some(job))
  {
    var t := s.nodes[n].table;
    assert n == OwnerAt(s, ring, key) && KeyedById(t) by {
      assert (key, n) in s.forwards && NodeOk(s, ring, n, s.nodes[n]);
    }
    var known := FindByIdem(t, key);
    if known.Some? { assert Known(s, key, t.byIdem[key]); }
    hide Inv, Known;
    forall id | Known(s, key, id) ensures known.Some? && known.value.id == id {
      KnownSettled(s, ring, key, id);
    }
    if known.None? { ApplyFinds(t, SubmitRec(job)); }
  }

  // ---- Why no nonce may come twice --------------------------------------------------------------------------

  lemma {:induction false} RunMore(s: State, steps: seq<Step>, st: Step)
    requires CanRun(s, steps) && Enabled(Run(s, steps), st)
    ensures CanRun(s, steps + [st]) && Run(s, steps + [st]) == Exec(Run(s, steps), st)
    decreases steps
  {
    hide Exec, Enabled;
    if steps == [] {
      assert [st][1..] == [] && steps + [st] == [st];
      assert CanRun(Exec(s, st), []);
    } else {
      RunMore(Exec(s, steps[0]), steps[1..], st);
      assert (steps + [st])[1..] == steps[1..] + [st];
    }
  }

  /** A cluster of one node. */
  function Alone(mix: Mix, hash: Hash, e: Endpoint, node: Node, forwards: set<(Key, Endpoint)>, told: set<(Key, JobId)>,
      minted: map<JobId, Key>): State
  {
    State(mix, hash, map[e := [e]], map[e := node], forwards, {}, told, minted)
  }

  lemma OwnsAll(s: State, e: Endpoint, key: Key)
    ensures OwnerAt(s, [e], key) == e
  {
  }

  lemma GatewayAlone(s: State, e: Endpoint, key: Key)
    requires s.rings == map[e := [e]] && e in s.nodes
    ensures Enabled(s, Gateway(e, key)) && Exec(s, Gateway(e, key)) == s.(forwards := s.forwards + {(key, e)})
  {
    OwnsAll(s, e, key);
  }

  /** What a submit of a new key does there. */
  lemma SubmitAlone(s: State, e: Endpoint, node: Node, key: Key, job: Job)
    requires s.nodes == map[e := node] && (key, e) in s.forwards && job.idemKey == key && job.id == NextId(e, node)
    requires key !in node.table.byIdem && !node.failed && !node.draining
    ensures Enabled(s, OwnerSubmit(e, key, job, Committed))
    ensures
      var s' := Exec(s, OwnerSubmit(e, key, job, Committed));
      && s'.nodes == map[e :=
          node.(table := Apply(node.table, SubmitRec(job)), log := node.log + [SubmitRec(job)], next := node.next + 1)]
      && s'.told == s.told + {(key, job.id)} && s'.forwards == s.forwards && s'.rings == s.rings
  {
    hide Apply;
  }

  lemma RestartAlone(s: State, e: Endpoint, node: Node, boot: nat)
    requires s.nodes == map[e := node]
    ensures Enabled(s, Restart(e, false, boot))
    ensures
      var s' := Exec(s, Restart(e, false, boot));
      && s'.nodes == map[e :=
          Node(ApplyAll(EMPTY, node.log), node.log, None, false, false, boot, 1, node.boots + {boot % U32})]
      && s'.told == s.told && s'.forwards == s.forwards && s'.rings == s.rings
  {
    hide ApplyAll;
  }

  lemma CompactAlone(s: State, e: Endpoint, node: Node, xs: seq<Job>)
    requires s.nodes == map[e := node] && !node.failed && IsSnapshot(node.table, xs)
    ensures Enabled(s, Compact(e, xs, true, false))
    ensures
      var s' := Exec(s, Compact(e, xs, true, false));
      && s'.nodes == map[e := node.(log := SnapshotRecords(xs))]
      && s'.told == s.told && s'.forwards == s.forwards && s'.rings == s.rings
  {
    hide IsSnapshot;
  }

  /** Both keys are forwarded; the second boot repeats the first, so the second job gets the first one's id. */
  lemma SameIdTwice(s: State, e: Endpoint, boot: nat, j: Job, k1: Key, k2: Key) returns (steps: seq<Step>)
    requires s.rings == map[e := [e]] && s.nodes == map[e := Node(EMPTY, [], None, false, false, boot, 1, {boot % U32})]
    requires s.forwards == {} && k1 != k2 && j.id == JobId(Ekey(e), Nonce(boot, 1))
    ensures CanRun(s, steps)
    ensures
      var r1, r2, s' := SubmitRec(j.(idemKey := k1)), SubmitRec(j.(idemKey := k2)), Run(s, steps);
      && s'.nodes == map[e := Node(ApplyAll(EMPTY, [r1, r2]), [r1, r2], None, false, false, boot, 2, {boot % U32})]
      && (k1, e) in s'.forwards && s'.rings == s.rings && (k1, j.id) in s'.told
  {
    hide Enabled, Exec, Apply, ApplyAll, Nonce, Ekey, OwnerAt;
    var j1, j2 := j.(idemKey := k1), j.(idemKey := k2);
    var r1, r2 := SubmitRec(j1), SubmitRec(j2);
    Folds(r1, r2, k1, k2);
    var first := Node(EMPTY, [], None, false, false, boot, 1, {boot % U32});
    GatewayAlone(s, e, k1);
    RunMore(s, [], Gateway(e, k1));
    var s1 := Run(s, [Gateway(e, k1)]);
    assert [] + [Gateway(e, k1)] == [Gateway(e, k1)];
    GatewayAlone(s1, e, k2);
    RunMore(s, [Gateway(e, k1)], Gateway(e, k2));
    steps := [Gateway(e, k1)] + [Gateway(e, k2)];
    SubmitAlone(Run(s, steps), e, first, k1, j1);
    RunMore(s, steps, OwnerSubmit(e, k1, j1, Committed));
    steps := steps + [OwnerSubmit(e, k1, j1, Committed)];
    RestartAlone(Run(s, steps), e, Run(s, steps).nodes[e], boot);
    RunMore(s, steps, Restart(e, false, boot));
    steps := steps + [Restart(e, false, boot)];
    assert [] + [r1] == [r1] && [r1] + [r2] == [r1, r2] && {boot % U32} + {boot % U32} == {boot % U32};
    SubmitAlone(Run(s, steps), e, Run(s, steps).nodes[e], k2, j2);
    RunMore(s, steps, OwnerSubmit(e, k2, j2, Committed));
    steps := steps + [OwnerSubmit(e, k2, j2, Committed)];
  }

  lemma Folds(r1: Record, r2: Record, k1: Key, k2: Key)
    requires r1.SubmitRec? && r2.SubmitRec? && r1.job.idemKey == k1 && k2 != k1
    ensures k1 !in EMPTY.byIdem && k2 !in ApplyAll(EMPTY, [r1]).byIdem
    ensures ApplyAll(EMPTY, [r1]) == Apply(EMPTY, r1) && ApplyAll(EMPTY, [r1, r2]) == Apply(ApplyAll(EMPTY, [r1]), r2)
  {
    assert [r1][..0] == [] && [r1, r2][..1] == [r1];
  }

  /** A boot id that comes back makes a key forget its job: the id is minted for a second key, the next
      compaction drops the first key's stale entry, and the next submit of that key mints again. */
  lemma ReusedNonceForgets(mix: Mix, hash: Hash, e: Endpoint, boot: nat, boot': nat, j: Job, k1: Key, k2: Key)
      returns (s: State, steps: seq<Step>, id: JobId)
    requires Real(e) && k1 != k2 && boot' % U32 != boot % U32 && j.id == JobId(Ekey(e), Nonce(boot, 1))
    ensures Configured(s, [e]) && Fresh(s) && s.rings != map[] && CanRun(s, steps)
    ensures id != j.id && Known(Run(s, steps), k1, j.id) && Known(Run(s, steps), k1, id)
  {
    var first := Node(EMPTY, [], None, false, false, boot, 1, {boot % U32});
    s := Alone(mix, hash, e, first, {}, {}, map[]);
    assert Configured(s, [e]) && Fresh(s);
    steps := SameIdTwice(s, e, boot, j, k1, k2);
    var j2 := j.(idemKey := k2);
    CompactionLosesStaleKey(j, k1, k2);
    NoncesDiffer(boot, 1, boot', 1);
    id := JobId(Ekey(e), Nonce(boot', 1));
    hide Enabled, Exec, Apply, ApplyAll, Nonce, Ekey, OwnerAt, Configured, Fresh, IsSnapshot, SnapshotRecords;
    CompactAlone(Run(s, steps), e, Run(s, steps).nodes[e], [j2]);
    RunMore(s, steps, Compact(e, [j2], true, false));
    steps := steps + [Compact(e, [j2], true, false)];
    RestartAlone(Run(s, steps), e, Run(s, steps).nodes[e], boot');
    RunMore(s, steps, Restart(e, false, boot'));
    steps := steps + [Restart(e, false, boot')];
    var j3 := j.(idemKey := k1, id := id);
    SubmitAlone(Run(s, steps), e, Run(s, steps).nodes[e], k1, j3);
    RunMore(s, steps, OwnerSubmit(e, k1, j3, Committed));
    steps := steps + [OwnerSubmit(e, k1, j3, Committed)];
  }
}
