/** The I/O and crypto lcores as one state machine over packets.

    One I/O lcore polls every port, hands each burst to some worker's receive ring, collects
    from some return ring, groups by destination and transmits. Every worker takes a burst,
    decrypts and frees marked frames, encrypts and retargets the others, and returns them.
    Steps of the lcores, the NIC and the wires interleave in any order.

    `Counters` are the program's statistics. `History` records what has been handed over at
    each point; it never influences a step.
  */
module Pipeline {
  import opened Frames
  import opened Traffic
  import opened System

  datatype Counters = Counters(
    rx: seq<nat>, tx: seq<nat>,
    rxRingDropped: seq<nat>, retRingDropped: seq<nat>,
    encrypted: seq<nat>, decrypted: seq<nat>,
    txMarked: nat)

  /** arrived, injected, received: frames on the wire side, in order, with their port.
      dispatched: tag `w` for accepted by worker `w`'s ring, `W + w` for refused by it.
      returned[w], offered[q]: tag 0 for accepted by the ring or NIC, 1 for refused.
      collected: tag `w` for taken from worker `w`'s return ring.
      wire[q]: frames transmitted by port `q`. */
  datatype History = History(
    arrived: seq<Pkt>, injected: seq<Pkt>, received: seq<Pkt>,
    dispatched: Log, returned: seq<Log>, collected: Log, offered: seq<Log>,
    wire: seq<seq<Pkt>>, misaddressed: nat)

  datatype State = State(sys: Sys<Pkt>, c: Counters, h: History)

  ghost predicate ValidConfig(cfg: Config) {
    |cfg.dst| == MAX_PORTS
  }

  function Zeros(n: nat): seq<nat> {
    seq(n, _ => 0)
  }

  function Init(cfg: Config): State {
    State(Empty(cfg.workers, MAX_PORTS),
          Counters(Zeros(MAX_PORTS), Zeros(MAX_PORTS), Zeros(cfg.workers), Zeros(cfg.workers),
                   Zeros(cfg.workers), Zeros(cfg.workers), 0),
          History([], [], [], [], seq(cfg.workers, _ => []), [], seq(MAX_PORTS, _ => []),
                  seq(MAX_PORTS, _ => []), 0))
  }

  // ---- Steps ----

  /** A new frame reaches a port, a copy of a transmitted frame reaches a port, or one of
      the lcores or NICs makes a hand-off. */
  datatype Action = Inject(p: nat, x: Pkt) | Echo(p: nat, x: Pkt) | Step(m: Move)

  ghost predicate OnWire(s: State, f: Frame) {
    exists q, i :: 0 <= q < |s.h.wire| && 0 <= i < |s.h.wire[q]| && s.h.wire[q][i].frame == f
  }

  /** The move is the one the packet at hand calls for. */
  predicate Agrees(s: Sys<Pkt>, m: Move)
    requires Can(s, m)
  {
    match m
    case GroupTo(d) => d == s.collected[0].port
    case Consume(w) => Marked(s.lanes[w].pkts[0].frame)
    case Forward(w) => !Marked(s.lanes[w].pkts[0].frame)
    case _ => true
  }

  ghost predicate Enabled(s: State, a: Action) {
    match a
    case Inject(p, x) => p < |s.sys.ports|
    case Echo(p, x) => p < |s.sys.ports| && OnWire(s, x.frame)
    case Step(m) => Can(s.sys, m) && Agrees(s.sys, m)
  }

  /** The in-place writes that go with a move, made before it. */
  function Touch(cfg: Config, s: Sys<Pkt>, m: Move): (r: Sys<Pkt>)
    requires Can(s, m)
    ensures Can(r, m)
  {
    match m
    case RxBurst(p, n) =>
      var port := s.ports[p];
      s.(ports := s.ports[p := port.(nicRx := OnPort(port.nicRx[..n], p) + port.nicRx[n..])])
    case Consume(w) =>
      var lane := s.lanes[w];
      s.(lanes := s.lanes[w := lane.(pkts := [Decrypted(cfg, lane.pkts[0])] + lane.pkts[1..])])
    case Forward(w) =>
      var lane := s.lanes[w];
      s.(lanes := s.lanes[w := lane.(pkts := [Encrypted(cfg, lane.pkts[0])] + lane.pkts[1..])])
    case _ => s
  }

  function CountMarked(xs: seq<Pkt>): nat {
    if xs == [] then 0 else (if Marked(xs[0].frame) then 1 else 0) + CountMarked(xs[1..])
  }

  function Bump(c: seq<nat>, i: nat, d: nat): seq<nat>
    requires i < |c|
  {
    c[i := c[i] + d]
  }

  ghost predicate Shaped(cfg: Config, s: State) {
    && |s.sys.lanes| == cfg.workers && |s.sys.ports| == MAX_PORTS
    && |s.c.rx| == |s.c.tx| == MAX_PORTS
    && |s.c.rxRingDropped| == |s.c.retRingDropped| == cfg.workers
    && |s.c.encrypted| == |s.c.decrypted| == cfg.workers
    && |s.h.returned| == cfg.workers
    && |s.h.offered| == |s.h.wire| == MAX_PORTS
  }

  function Count(s: State, m: Move): Counters
    requires Can(s.sys, m)
    requires |s.c.rx| == |s.c.tx| == |s.sys.ports|
    requires |s.c.rxRingDropped| == |s.c.retRingDropped| == |s.sys.lanes|
    requires |s.c.encrypted| == |s.c.decrypted| == |s.sys.lanes|
  {
    match m
    case RxBurst(p, n) => s.c.(rx := Bump(s.c.rx, p, n))
    case Dispatch(w, k) => s.c.(rxRingDropped := Bump(s.c.rxRingDropped, w, |s.sys.received| - k))
    case Send(p, k) =>
      s.c.(txMarked := s.c.txMarked + CountMarked(s.sys.ports[p].group), tx := Bump(s.c.tx, p, k))
    case Consume(w) => s.c.(decrypted := Bump(s.c.decrypted, w, 1))
    case Forward(w) => s.c.(encrypted := Bump(s.c.encrypted, w, 1))
    case Enqueue(w, k) =>
      s.c.(retRingDropped := Bump(s.c.retRingDropped, w, |s.sys.lanes[w].encrypted| - k))
    case _ => s.c
  }

  function Record(s: State, m: Move): History
    requires Can(s.sys, m)
    requires |s.h.returned| == |s.sys.lanes|
    requires |s.h.offered| == |s.h.wire| == |s.sys.ports|
  {
    var h := s.h;
    match m
    case RxBurst(p, n) => h.(received := h.received + OnPort(s.sys.ports[p].nicRx[..n], p))
    case Dispatch(w, k) =>
      h.(dispatched := h.dispatched + Split(w, |s.sys.lanes| + w, s.sys.received, k))
    case Collect(w, n) => h.(collected := h.collected + Tag(w, s.sys.lanes[w].retRing[..n]))
    case GroupTo(d) => if Groupable(s.sys, d) then h else h.(misaddressed := h.misaddressed + 1)
    case Send(p, k) =>
      h.(offered := h.offered[p := h.offered[p] + Split(0, 1, s.sys.ports[p].group, k)])
    case Enqueue(w, k) =>
      h.(returned := h.returned[w := h.returned[w] + Split(0, 1, s.sys.lanes[w].encrypted, k)])
    case TxDone(p) => h.(wire := h.wire[p := h.wire[p] + s.sys.ports[p].nicTx[..1]])
    case _ => h
  }

  ghost function Next(cfg: Config, s: State, a: Action): (r: State)
    requires Shaped(cfg, s) && Enabled(s, a)
    ensures Shaped(cfg, r)
  {
    match a
    case Inject(p, x) =>
      State(Arrive(s.sys, p, x), s.c,
            s.h.(arrived := s.h.arrived + [x.(port := p)], injected := s.h.injected + [x.(port := p)]))
    case Echo(p, x) =>
      State(Arrive(s.sys, p, x), s.c, s.h.(arrived := s.h.arrived + [x.(port := p)]))
    case Step(m) =>
      State(Do(Touch(cfg, s.sys, m), m), Count(s, m), Record(s, m))
  }

  // ---- Invariant ----

  ghost predicate AllMarked(xs: seq<Pkt>) {
    forall i | 0 <= i < |xs| :: Marked(xs[i].frame)
  }

  /** What holds of one worker's lane; the last three arguments are the parts of the
      I/O lcore's logs that concern this worker. */
  ghost predicate LaneInv(cfg: Config, l: Lane<Pkt>, encrypted: nat, decrypted: nat,
                          rxRingDropped: nat, retRingDropped: nat, returned: Log,
                          accepted: seq<Pkt>, refused: seq<Pkt>, collected: seq<Pkt>)
  {
    && Fwd(cfg, accepted)
       == Vals(returned) + l.encrypted + Fwd(cfg, l.pkts) + Fwd(cfg, l.rxRing)
    && |accepted| == encrypted + decrypted + |l.pkts| + |l.rxRing|
    && encrypted == |returned| + |l.encrypted|
    && TagsBelow(returned, 2)
    && Pick(returned, 0) == collected + l.retRing
    && |Pick(returned, 1)| == retRingDropped
    && |refused| == rxRingDropped
    && AllMarked(l.encrypted) && AllMarked(l.retRing)
  }

  ghost predicate LaneOk(cfg: Config, s: State, w: nat)
    requires Shaped(cfg, s) && w < cfg.workers
  {
    LaneInv(cfg, s.sys.lanes[w], s.c.encrypted[w], s.c.decrypted[w],
            s.c.rxRingDropped[w], s.c.retRingDropped[w], s.h.returned[w],
            Pick(s.h.dispatched, w), Pick(s.h.dispatched, cfg.workers + w), Pick(s.h.collected, w))
  }

  /** What holds of one port. */
  ghost predicate PortInv(q: nat, port: Port<Pkt>, rx: nat, tx: nat, offered: Log, wire: seq<Pkt>,
                          arrived: seq<Pkt>, received: seq<Pkt>, taken: seq<Pkt>, collected: seq<Pkt>)
  {
    && ToPort(received, q) + OnPort(port.nicRx, q) == ToPort(arrived, q)
    && rx == |ToPort(received, q)|
    && ToPort(taken, q) == Vals(offered) + port.group + ToPort(collected, q)
    && TagsBelow(offered, 2)
    && Pick(offered, 0) == wire + port.nicTx
    && tx == |Pick(offered, 0)|
    && |port.group| + |collected| <= BURST
    && AllMarked(port.group) && AllMarked(port.nicTx) && AllMarked(wire)
  }

  ghost predicate PortOk(cfg: Config, s: State, q: nat)
    requires Shaped(cfg, s) && q < MAX_PORTS
  {
    PortInv(q, s.sys.ports[q], s.c.rx[q], s.c.tx[q], s.h.offered[q], s.h.wire[q],
            s.h.arrived, s.h.received, Vals(s.h.collected), s.sys.collected)
  }

  function SumLen<T>(xs: seq<seq<T>>): nat {
    if xs == [] then 0 else |xs[0]| + SumLen(xs[1..])
  }

  lemma {:induction false} SumLenUpdate<T>(xs: seq<seq<T>>, i: nat, x: seq<T>)
    requires i < |xs|
    ensures SumLen(xs[i := x]) == SumLen(xs) - |xs[i]| + |x|
  {
    if i > 0 {
      assert xs[i := x][1..] == xs[1..][i - 1 := x];
      SumLenUpdate(xs[1..], i - 1, x);
    } else {
      assert xs[i := x][1..] == xs[1..];
    }
  }

  function Groups(ports: seq<Port<Pkt>>): (r: seq<seq<Pkt>>)
    ensures |r| == |ports| && forall i | 0 <= i < |r| :: r[i] == ports[i].group
  {
    seq(|ports|, i requires 0 <= i < |ports| => ports[i].group)
  }

  ghost predicate IoOk(cfg: Config, s: State) {
    && Vals(s.h.dispatched) + s.sys.received == s.h.received
    && TagsBelow(s.h.dispatched, 2 * cfg.workers)
    && TagsBelow(s.h.collected, cfg.workers)
    && AllMarked(s.sys.collected)
    && Fwd(cfg, s.h.arrived) == Fwd(cfg, s.h.injected)
    && (forall i | 0 <= i < |s.h.arrived| :: s.h.arrived[i].port < MAX_PORTS)
    && (forall i | 0 <= i < |s.h.received| :: s.h.received[i].port < MAX_PORTS)
    && s.c.txMarked == SumLen(s.h.offered)
    && |s.h.collected| == s.c.txMarked + s.h.misaddressed + |s.sys.collected| + SumLen(Groups(s.sys.ports))
  }

  ghost predicate Inv(cfg: Config, s: State) {
    && ValidConfig(cfg)
    && Shaped(cfg, s)
    && (forall w | 0 <= w < cfg.workers :: LaneOk(cfg, s, w))
    && (forall q | 0 <= q < MAX_PORTS :: PortOk(cfg, s, q))
    && IoOk(cfg, s)
  }
}
