/** The boot-id handshake over a network that loses, delays, reorders and replays datagrams, with
    nodes that restart under new boot ids (src/rpc.cc:56-121). */
module Handshake {
  import opened Rpc

  datatype Dgram = Dgram(src: nat, dst: nat, h: Hello)

  /** One run of a node process: its address, its boot id, and its peers by address. */
  datatype Incarnation = Incarnation(addr: nat, boot: nat, peers: map<nat, Core>)

  /** All incarnations ever, by boot id; the one that runs now at each address; every datagram ever
      sent. */
  datatype State = State(runs: map<nat, Incarnation>, current: map<nat, nat>, net: set<Dgram>)

  const START := State(map[], map[], {})

  datatype Step =
    | Boot(addr: nat, boot: nat)
    | Greet(addr: nat, to: nat)
    | Deliver(d: Dgram)
    | GiveUp(addr: nat, peer: nat)

  predicate Runs(s: State, addr: nat) { addr in s.current && s.current[addr] in s.runs }

  predicate Enabled(s: State, st: Step) {
    match st
    case Boot(_, boot) => boot != 0 && boot !in s.runs
    case Greet(addr, _) => Runs(s, addr)
    case Deliver(d) => d in s.net && Runs(s, d.dst)
    case GiveUp(addr, _) => Runs(s, addr)
  }

  function CoreAt(n: Incarnation, k: nat): Core { if k in n.peers then n.peers[k] else NO_CORE }

  function WithCore(s: State, boot: nat, k: nat, c: Core): State
    requires boot in s.runs
  {
    s.(runs := s.runs[boot := s.runs[boot].(peers := s.runs[boot].peers[k := c])])
  }

  /** Delivery runs the handler; a HELLO is answered. Any greeting the handler adds is a Greet. */
  function Exec(s: State, st: Step): State
    requires Enabled(s, st)
  {
    match st
    case Boot(addr, boot) =>
      s.(runs := s.runs[boot := Incarnation(addr, boot, map[])], current := s.current[addr := boot])
    case Greet(addr, to) => s.(net := s.net + {Dgram(addr, to, Hello(false, s.current[addr], 0))})
    case Deliver(d) =>
      var boot := s.current[d.dst];
      var s' := WithCore(s, boot, d.src, HelloCore(CoreAt(s.runs[boot], d.src), boot, d.h));
      if d.h.isAck then s' else s'.(net := s'.net + {Dgram(d.dst, d.src, Hello(true, boot, d.h.sender))})
    case GiveUp(addr, k) => WithCore(s, s.current[addr], k, NO_CORE)
  }

  predicate CanRun(s: State, steps: seq<Step>)
    decreases steps
  {
    steps == [] || (Enabled(s, steps[0]) && CanRun(Exec(s, steps[0]), steps[1..]))
  }

  function Run(s: State, steps: seq<Step>): State
    requires CanRun(s, steps)
    decreases steps
  {
    if steps == [] then s else Run(Exec(s, steps[0]), steps[1..])
  }

  // ---- What every run keeps ------------------------------------------------------------------------------

  /** b runs at k, and itself sent an ACK that echoes a to a's address, after a greeted it. */
  predicate Vouched(s: State, a: Incarnation, k: nat, b: nat) {
    && b != 0 && b in s.runs && s.runs[b].addr == k
    && Dgram(k, a.addr, Hello(true, b, a.boot)) in s.net
    && Dgram(a.addr, k, Hello(false, a.boot, 0)) in s.net
  }

  predicate CoreOk(s: State, a: Incarnation, k: nat, c: Core) {
    (c.session ==> c.acked) && (c.acked ==> Vouched(s, a, k, c.remoteBoot))
  }

  predicate DgramOk(s: State, d: Dgram) {
    && d.h.sender != 0 && d.h.sender in s.runs && s.runs[d.h.sender].addr == d.src
    && (!d.h.isAck ==> d.h.echo == 0)
    && (d.h.isAck ==> Dgram(d.dst, d.src, Hello(false, d.h.echo, 0)) in s.net)
  }

  ghost predicate Inv(s: State) {
    && (forall b :: b in s.runs ==> b != 0 && s.runs[b].boot == b)
    && (forall x :: x in s.current ==> s.current[x] in s.runs && s.runs[s.current[x]].addr == x)
    && (forall d :: d in s.net ==> DgramOk(s, d))
    && (forall b, k :: b in s.runs ==> CoreOk(s, s.runs[b], k, CoreAt(s.runs[b], k)))
  }

  /** Runs and datagrams only appear, so what was vouched for stays so. */
  predicate Grows(s: State, s': State) {
    && s.net <= s'.net
    && (forall b :: b in s.runs ==>
        b in s'.runs && s'.runs[b].addr == s.runs[b].addr && s'.runs[b].boot == s.runs[b].boot)
  }

  lemma GrowsKeeps(s: State, s': State, a: Incarnation, a': Incarnation, k: nat, c: Core)
    requires Grows(s, s') && CoreOk(s, a, k, c) && a'.addr == a.addr && a'.boot == a.boot
    ensures CoreOk(s', a', k, c)
  {
  }

  lemma DgramsKeep(s: State, s': State)
    requires Grows(s, s') && forall d :: d in s.net ==> DgramOk(s, d)
    ensures forall d :: d in s.net ==> DgramOk(s', d)
  {
  }

  /** A datagram that is genuine moves a good core to a good core. */
  lemma HelloOk(s: State, a: Incarnation, d: Dgram, c: Core)
    requires DgramOk(s, d) && d in s.net && d.dst == a.addr && CoreOk(s, a, d.src, c)
    ensures CoreOk(s, a, d.src, HelloCore(c, a.boot, d.h))
  {
  }

  lemma WithCoreKeeps(s: State, s': State, boot: nat, k: nat, c: Core)
    requires Inv(s) && boot in s.runs && s' == WithCore(s, boot, k, c) && CoreOk(s, s.runs[boot], k, c)
    ensures Inv(s') && Grows(s, s')
  {
    DgramsKeep(s, s');
    hide CoreOk, DgramOk;
    forall b, j | b in s'.runs ensures CoreOk(s', s'.runs[b], j, CoreAt(s'.runs[b], j)) {
      var c' := CoreAt(s'.runs[b], j);
      assert b == boot && j == k ==> c' == c;
      assert b != boot || j != k ==> c' == CoreAt(s.runs[b], j);
      assert CoreOk(s, s.runs[b], j, c');
      GrowsKeeps(s, s', s.runs[b], s'.runs[b], j, c');
    }
  }

  lemma SendKeeps(s: State, s': State, d: Dgram)
    requires Inv(s) && s' == s.(net := s.net + {d}) && DgramOk(s', d)
    ensures Inv(s')
  {
    DgramsKeep(s, s');
    hide CoreOk, DgramOk;
    forall b, k | b in s'.runs ensures CoreOk(s', s'.runs[b], k, CoreAt(s'.runs[b], k)) {
      GrowsKeeps(s, s', s.runs[b], s'.runs[b], k, CoreAt(s.runs[b], k));
    }
  }

  lemma BootKeeps(s: State, addr: nat, boot: nat)
    requires Inv(s) && Enabled(s, Boot(addr, boot))
    ensures Inv(Exec(s, Boot(addr, boot)))
  {
    var s' := Exec(s, Boot(addr, boot));
    DgramsKeep(s, s');
    hide DgramOk;
    forall b, k | b in s'.runs ensures CoreOk(s', s'.runs[b], k, CoreAt(s'.runs[b], k)) {
      if b != boot { GrowsKeeps(s, s', s.runs[b], s'.runs[b], k, CoreAt(s.runs[b], k)); }
    }
  }

  lemma InvStep(s: State, st: Step)
    requires Inv(s) && Enabled(s, st)
    ensures Inv(Exec(s, st))
  {
    match st
    case Boot(addr, boot) => BootKeeps(s, addr, boot);
    case Greet(addr, to) => SendKeeps(s, Exec(s, st), Dgram(addr, to, Hello(false, s.current[addr], 0)));
    case GiveUp(addr, k) => WithCoreKeeps(s, Exec(s, st), s.current[addr], k, NO_CORE);
    case Deliver(d) => DeliverKeeps(s, d);
  }

  lemma DeliverKeeps(s: State, d: Dgram)
    requires Inv(s) && Enabled(s, Deliver(d))
    ensures Inv(Exec(s, Deliver(d)))
  {
    var boot := s.current[d.dst];
    var c := CoreAt(s.runs[boot], d.src);
    HelloOk(s, s.runs[boot], d, c);
    var s1 := WithCore(s, boot, d.src, HelloCore(c, boot, d.h));
    assert DgramOk(s, d);
    hide CoreOk, Inv;
    WithCoreKeeps(s, s1, boot, d.src, HelloCore(c, boot, d.h));
    if !d.h.isAck {
      SendKeeps(s1, Exec(s, Deliver(d)), Dgram(d.dst, d.src, Hello(true, boot, d.h.sender)));
    }
  }

  lemma {:induction false} InvAlways(s: State, steps: seq<Step>)
    requires Inv(s) && CanRun(s, steps)
    ensures Inv(Run(s, steps))
    decreases steps
  {
    if steps != [] {
      InvStep(s, steps[0]);
      InvAlways(Exec(s, steps[0]), steps[1..]);
    }
  }

  /** In every run, an incarnation holds a session with remote boot b at address k only if
      incarnation b ran at k and itself acknowledged this very incarnation, having heard from it. */
  lemma SessionIsMutual(steps: seq<Step>, a: nat, k: nat)
    requires CanRun(START, steps) && a in Run(START, steps).runs
    ensures
      var s := Run(START, steps);
      var c := CoreAt(s.runs[a], k);
      c.session ==> Vouched(s, s.runs[a], k, c.remoteBoot)
  {
    InvAlways(START, steps);
    var s := Run(START, steps);
    assert CoreOk(s, s.runs[a], k, CoreAt(s.runs[a], k));
  }

  // ---- A round of greeting and answer connects ------------------------------------------------------------

  /** Neither address restarts in these steps. */
  predicate NoRestart(steps: seq<Step>, a: nat, b: nat) {
    forall i :: 0 <= i < |steps| && steps[i].Boot? ==> steps[i].addr != a && steps[i].addr != b
  }

  /** Whatever else happens, nodes that do not restart stay who they are, and no datagram is out of reach. */
  lemma {:induction false} StillRuns(s: State, steps: seq<Step>, a: nat, b: nat)
    requires CanRun(s, steps) && NoRestart(steps, a, b) && Runs(s, a) && Runs(s, b)
    ensures
      var s' := Run(s, steps);
      Runs(s', a) && Runs(s', b) && s'.current[a] == s.current[a] && s'.current[b] == s.current[b] && s.net <= s'.net
    decreases steps
  {
    if steps != [] {
      var s1 := Exec(s, steps[0]);
      assert Runs(s1, a) && Runs(s1, b) && s.net <= s1.net;
      StillRuns(s1, steps[1..], a, b);
    }
  }

  /** A greets b and, after any steps, the greeting arrives; after any steps again, b's answer arrives.
      Unless one of them restarts meanwhile, both deliveries are possible, and then a has a session with
      b's present incarnation, whatever it held before and whatever else was delivered. */
  lemma RoundConnects(s: State, a: nat, b: nat, u: seq<Step>, v: seq<Step>)
    requires Runs(s, a) && Runs(s, b) && NoRestart(u, a, b) && NoRestart(v, a, b)
    requires CanRun(Exec(s, Greet(a, b)), u)
    ensures
      var hello := Deliver(Dgram(a, b, Hello(false, s.current[a], 0)));
      var answer := Deliver(Dgram(b, a, Hello(true, s.current[b], s.current[a])));
      var s1 := Run(Exec(s, Greet(a, b)), u);
      && Enabled(s1, hello)
      && (CanRun(Exec(s1, hello), v) ==>
            var s2 := Run(Exec(s1, hello), v);
            && Enabled(s2, answer)
            && var s3 := Exec(s2, answer);
               && Runs(s3, a) && Runs(s3, b)
               && s3.current[a] == s.current[a] && s3.current[b] == s.current[b]
               && CoreAt(s3.runs[s3.current[a]], b) == Core(true, s3.current[b], true))
  {
    var hello := Deliver(Dgram(a, b, Hello(false, s.current[a], 0)));
    StillRuns(Exec(s, Greet(a, b)), u, a, b);
    var s1 := Run(Exec(s, Greet(a, b)), u);
    if CanRun(Exec(s1, hello), v) { StillRuns(Exec(s1, hello), v, a, b); }
  }
}
