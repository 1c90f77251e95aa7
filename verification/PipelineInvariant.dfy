/** Every step of the pipeline keeps its invariant. */
module PipelineInvariant {
  import opened Prelude
  import opened Frames
  import opened Traffic
  import opened System
  import opened Pipeline

  lemma {:induction false} SumLenEmpty<T>(xs: seq<seq<T>>)
    requires forall i | 0 <= i < |xs| :: xs[i] == []
    ensures SumLen(xs) == 0
  {
    if xs != [] {
      SumLenEmpty(xs[1..]);
    }
  }

  lemma InitInv(cfg: Config)
    requires ValidConfig(cfg)
    ensures Inv(cfg, Init(cfg))
  {
    var s := Init(cfg);
    SumLenEmpty(s.h.offered);
    SumLenEmpty(Groups(s.sys.ports));
  }

  lemma {:induction false} AllCounted(xs: seq<Pkt>)
    requires AllMarked(xs)
    ensures CountMarked(xs) == |xs|
  {
    if xs != [] {
      assert AllMarked(xs[1..]);
      AllCounted(xs[1..]);
    }
  }

  /** Forwarding distributes over a batch taken from the front. */
  lemma FwdTake(cfg: Config, xs: seq<Pkt>, n: nat)
    requires n <= |xs|
    ensures Fwd(cfg, xs) == Fwd(cfg, xs[..n]) + Fwd(cfg, xs[n..])
  {
    assert xs == xs[..n] + xs[n..];
    FwdAppend(cfg, xs[..n], xs[n..]);
  }

  // ---- One worker's lane ----

  /** A ring that accepts `xs` and refuses `ys`. */
  lemma LaneAccepts(cfg: Config, l: Lane<Pkt>, e: nat, d: nat, rd: nat, td: nat, returned: Log,
                    accepted: seq<Pkt>, refused: seq<Pkt>, collected: seq<Pkt>, xs: seq<Pkt>, ys: seq<Pkt>)
    requires LaneInv(cfg, l, e, d, rd, td, returned, accepted, refused, collected)
    ensures LaneInv(cfg, l.(rxRing := l.rxRing + xs), e, d, rd + |ys|, td, returned,
                    accepted + xs, refused + ys, collected)
  {
    hide Fwd, Pick;
    FwdAppend(cfg, accepted, xs);
    FwdAppend(cfg, l.rxRing, xs);
  }

  lemma LaneDispatch(cfg: Config, s: State, v: nat, k: nat, w: nat)
    requires Shaped(cfg, s) && Enabled(s, Step(Dispatch(v, k))) && w < cfg.workers && LaneOk(cfg, s, w)
    ensures LaneOk(cfg, Next(cfg, s, Step(Dispatch(v, k))), w)
  {
    hide Fwd, Pick;
    var xs := s.sys.received;
    LoggedSplit(s.h.dispatched, v, cfg.workers + v, xs, k, w);
    LoggedSplit(s.h.dispatched, v, cfg.workers + v, xs, k, cfg.workers + w);
    LaneAccepts(cfg, s.sys.lanes[w], s.c.encrypted[w], s.c.decrypted[w], s.c.rxRingDropped[w],
                s.c.retRingDropped[w], s.h.returned[w], Pick(s.h.dispatched, w),
                Pick(s.h.dispatched, cfg.workers + w), Pick(s.h.collected, w),
                if v == w then xs[..k] else [], if v == w then xs[k..] else []);
    if v != w {
      assert Next(cfg, s, Step(Dispatch(v, k))).sys.lanes[w] == s.sys.lanes[w];
      assert s.sys.lanes[w] == s.sys.lanes[w].(rxRing := s.sys.lanes[w].rxRing + []);
    }
  }

  lemma LaneCollect(cfg: Config, s: State, v: nat, n: nat, w: nat)
    requires Shaped(cfg, s) && Enabled(s, Step(Collect(v, n))) && w < cfg.workers && LaneOk(cfg, s, w)
    ensures LaneOk(cfg, Next(cfg, s, Step(Collect(v, n))), w)
  {
    hide Fwd, Pick;
    var ring := s.sys.lanes[v].retRing;
    Logged(s.h.collected, v, ring[..n], w);
    assert ring == ring[..n] + ring[n..];
  }

  lemma LaneDequeue(cfg: Config, s: State, v: nat, n: nat, w: nat)
    requires Shaped(cfg, s) && Enabled(s, Step(Dequeue(v, n))) && w < cfg.workers && LaneOk(cfg, s, w)
    ensures LaneOk(cfg, Next(cfg, s, Step(Dequeue(v, n))), w)
  {
    hide Fwd, Pick;
    FwdTake(cfg, s.sys.lanes[v].rxRing, n);
  }

  /** A worker encrypts its next packet. */
  lemma LaneForwards(cfg: Config, l: Lane<Pkt>, e: nat, d: nat, rd: nat, td: nat, returned: Log,
                     accepted: seq<Pkt>, refused: seq<Pkt>, collected: seq<Pkt>)
    requires LaneInv(cfg, l, e, d, rd, td, returned, accepted, refused, collected)
    requires l.pkts != [] && !Marked(l.pkts[0].frame)
    ensures LaneInv(cfg, l.(pkts := l.pkts[1..], encrypted := l.encrypted + [Encrypted(cfg, l.pkts[0])]),
                    e + 1, d, rd, td, returned, accepted, refused, collected)
  {
    hide Pick;
    assert Fwd(cfg, l.pkts) == [Encrypted(cfg, l.pkts[0])] + Fwd(cfg, l.pkts[1..]);
    hide Fwd;
  }

  /** A worker decrypts its next packet and will free it. */
  lemma LaneConsumes(cfg: Config, l: Lane<Pkt>, e: nat, d: nat, rd: nat, td: nat, returned: Log,
                     accepted: seq<Pkt>, refused: seq<Pkt>, collected: seq<Pkt>, trash: seq<Pkt>)
    requires LaneInv(cfg, l, e, d, rd, td, returned, accepted, refused, collected)
    requires l.pkts != [] && Marked(l.pkts[0].frame)
    ensures LaneInv(cfg, l.(pkts := l.pkts[1..], trash := trash),
                    e, d + 1, rd, td, returned, accepted, refused, collected)
  {
    hide Pick;
    assert Fwd(cfg, l.pkts) == Fwd(cfg, l.pkts[1..]);
    hide Fwd;
  }

  lemma LaneProcess(cfg: Config, s: State, m: Move, v: nat, w: nat)
    requires Shaped(cfg, s) && Enabled(s, Step(m)) && (m == Consume(v) || m == Forward(v))
    requires w < cfg.workers && LaneOk(cfg, s, w)
    ensures LaneOk(cfg, Next(cfg, s, Step(m)), w)
  {
    hide Pick, Fwd, LaneInv;
    if v == w {
      var pkts := Touch(cfg, s.sys, m).lanes[w].pkts;
      assert pkts[1..] == s.sys.lanes[w].pkts[1..] && pkts[..1] == [pkts[0]];
      if m.Forward? {
        LaneForwards(cfg, s.sys.lanes[w], s.c.encrypted[w], s.c.decrypted[w], s.c.rxRingDropped[w],
                     s.c.retRingDropped[w], s.h.returned[w], Pick(s.h.dispatched, w),
                     Pick(s.h.dispatched, cfg.workers + w), Pick(s.h.collected, w));
      } else {
        LaneConsumes(cfg, s.sys.lanes[w], s.c.encrypted[w], s.c.decrypted[w], s.c.rxRingDropped[w],
                     s.c.retRingDropped[w], s.h.returned[w], Pick(s.h.dispatched, w),
                     Pick(s.h.dispatched, cfg.workers + w), Pick(s.h.collected, w), pkts[..1]);
      }
    }
  }

  /** A worker returns its encrypted packets, the return ring accepting the first `k`. */
  lemma LaneReturns(cfg: Config, l: Lane<Pkt>, e: nat, d: nat, rd: nat, td: nat, returned: Log,
                    accepted: seq<Pkt>, refused: seq<Pkt>, collected: seq<Pkt>, k: nat)
    requires LaneInv(cfg, l, e, d, rd, td, returned, accepted, refused, collected)
    requires k <= |l.encrypted| && l.pkts == []
    ensures LaneInv(cfg, l.(encrypted := [], retRing := l.retRing + l.encrypted[..k], trash := l.encrypted[k..]),
                    e, d, rd, td + |l.encrypted| - k, returned + Split(0, 1, l.encrypted, k),
                    accepted, refused, collected)
  {
    hide Fwd, Pick;
    LoggedSplit(returned, 0, 1, l.encrypted, k, 0);
    LoggedSplit(returned, 0, 1, l.encrypted, k, 1);
    assert Vals(returned) + l.encrypted == Vals(returned + Split(0, 1, l.encrypted, k)) + [];
  }

  lemma LaneEnqueue(cfg: Config, s: State, v: nat, k: nat, w: nat)
    requires Shaped(cfg, s) && Enabled(s, Step(Enqueue(v, k))) && w < cfg.workers && LaneOk(cfg, s, w)
    ensures LaneOk(cfg, Next(cfg, s, Step(Enqueue(v, k))), w)
  {
    hide Fwd, Pick;
    if v == w {
      LaneReturns(cfg, s.sys.lanes[w], s.c.encrypted[w], s.c.decrypted[w], s.c.rxRingDropped[w],
                  s.c.retRingDropped[w], s.h.returned[w], Pick(s.h.dispatched, w),
                  Pick(s.h.dispatched, cfg.workers + w), Pick(s.h.collected, w), k);
    }
  }

  lemma LaneKept(cfg: Config, s: State, a: Action, w: nat)
    requires Shaped(cfg, s) && Enabled(s, a) && w < cfg.workers && LaneOk(cfg, s, w)
    ensures LaneOk(cfg, Next(cfg, s, a), w)
  {
    hide Fwd, Pick;
    match a
    case Inject(_, _) =>
    case Echo(_, _) =>
    case Step(m) =>
      match m
      case Dispatch(v, k) => LaneDispatch(cfg, s, v, k, w);
      case Collect(v, n) => LaneCollect(cfg, s, v, n, w);
      case Dequeue(v, n) => LaneDequeue(cfg, s, v, n, w);
      case Consume(v) => LaneProcess(cfg, s, m, v, w);
      case Forward(v) => LaneProcess(cfg, s, m, v, w);
      case Enqueue(v, k) => LaneEnqueue(cfg, s, v, k, w);
      case _ =>
  }

  // ---- One port ----

  lemma OnPortMore(xs: seq<Pkt>, x: Pkt, q: nat)
    ensures OnPort(xs + [x], q) == OnPort(xs, q) + [x.(port := q)]
  {
  }

  lemma PortArrives(q: nat, port: Port<Pkt>, rx: nat, tx: nat, offered: Log, wire: seq<Pkt>,
                    arrived: seq<Pkt>, received: seq<Pkt>, taken: seq<Pkt>, collected: seq<Pkt>, p: nat, x: Pkt)
    requires PortInv(q, port, rx, tx, offered, wire, arrived, received, taken, collected)
    ensures PortInv(q, if p == q then port.(nicRx := port.nicRx + [x]) else port, rx, tx, offered, wire,
                    arrived + [x.(port := p)], received, taken, collected)
  {
    hide Pick, ToPort, OnPort;
    ToPortAppend(arrived, [x.(port := p)], q);
    ToPortUniform([x.(port := p)], p, q);
    OnPortMore(port.nicRx, x, q);
    Reassociate(ToPort(received, q), OnPort(port.nicRx, q), [x.(port := q)]);
  }

  lemma OnPortSplits(xs: seq<Pkt>, q: nat, n: nat)
    requires n <= |xs|
    ensures OnPort(xs, q) == OnPort(xs[..n], q) + OnPort(xs[n..], q)
  {
  }

  lemma ReceivedTail(received: seq<Pkt>, nicRx: seq<Pkt>, q: nat, n: nat)
    requires n <= |nicRx|
    ensures |ToPort(received + OnPort(nicRx[..n], q), q)| == |ToPort(received, q)| + n
    ensures ToPort(received + OnPort(nicRx[..n], q), q) + OnPort(nicRx[n..], q)
         == ToPort(received, q) + OnPort(nicRx, q)
  {
    var a, b := OnPort(nicRx[..n], q), OnPort(nicRx[n..], q);
    ToPortAppend(received, a, q);
    ToPortUniform(a, q, q);
    OnPortSplits(nicRx, q, n);
    Reassociate(ToPort(received, q), a, b);
    hide ToPort, OnPort;
  }

  /** The I/O lcore receives `n` frames from this port. */
  lemma PortReceives(q: nat, port: Port<Pkt>, rx: nat, tx: nat, offered: Log, wire: seq<Pkt>,
                     arrived: seq<Pkt>, received: seq<Pkt>, taken: seq<Pkt>, collected: seq<Pkt>, n: nat)
    requires PortInv(q, port, rx, tx, offered, wire, arrived, received, taken, collected)
    requires n <= |port.nicRx|
    ensures PortInv(q, port.(nicRx := port.nicRx[n..]), rx + n, tx, offered, wire,
                    arrived, received + OnPort(port.nicRx[..n], q), taken, collected)
  {
    hide Pick, ToPort, OnPort;
    ReceivedTail(received, port.nicRx, q, n);
  }

  /** Frames received from another port leave this one as it was. */
  lemma PortIgnores(q: nat, port: Port<Pkt>, rx: nat, tx: nat, offered: Log, wire: seq<Pkt>,
                    arrived: seq<Pkt>, received: seq<Pkt>, taken: seq<Pkt>, collected: seq<Pkt>,
                    p: nat, xs: seq<Pkt>)
    requires PortInv(q, port, rx, tx, offered, wire, arrived, received, taken, collected)
    requires p != q
    ensures PortInv(q, port, rx, tx, offered, wire, arrived, received + OnPort(xs, p), taken, collected)
  {
    hide Pick;
    ToPortAppend(received, OnPort(xs, p), q);
    ToPortUniform(OnPort(xs, p), p, q);
    hide ToPort;
    assert ToPort(received + OnPort(xs, p), q) == ToPort(received, q);
  }

  /** The I/O lcore takes a batch from a return ring. */
  lemma PortCollects(q: nat, port: Port<Pkt>, rx: nat, tx: nat, offered: Log, wire: seq<Pkt>,
                     arrived: seq<Pkt>, received: seq<Pkt>, taken: seq<Pkt>, xs: seq<Pkt>)
    requires PortInv(q, port, rx, tx, offered, wire, arrived, received, taken, [])
    requires port.group == [] && |xs| <= BURST
    ensures PortInv(q, port, rx, tx, offered, wire, arrived, received, taken + xs, xs)
  {
    ToPortAppend(taken, xs, q);
    hide ToPort, Pick;
  }

  /** The next collected packet joins its group, or is freed for lack of one. */
  lemma PortGroups(q: nat, port: Port<Pkt>, rx: nat, tx: nat, offered: Log, wire: seq<Pkt>,
                   arrived: seq<Pkt>, received: seq<Pkt>, taken: seq<Pkt>, collected: seq<Pkt>)
    requires PortInv(q, port, rx, tx, offered, wire, arrived, received, taken, collected)
    requires collected != [] && Marked(collected[0].frame)
    ensures PortInv(q, if collected[0].port == q then port.(group := port.group + [collected[0]]) else port,
                    rx, tx, offered, wire, arrived, received, taken, collected[1..])
  {
    hide Pick;
    assert ToPort(collected, q)
        == (if collected[0].port == q then [collected[0]] else []) + ToPort(collected[1..], q);
    hide ToPort;
  }

  /** The NIC accepts the first `k` packets of the group. */
  lemma PortSends(q: nat, port: Port<Pkt>, rx: nat, tx: nat, offered: Log, wire: seq<Pkt>,
                  arrived: seq<Pkt>, received: seq<Pkt>, taken: seq<Pkt>, k: nat)
    requires PortInv(q, port, rx, tx, offered, wire, arrived, received, taken, [])
    requires k <= |port.group|
    ensures PortInv(q, port.(group := [], nicTx := port.nicTx + port.group[..k]), rx, tx + k,
                    offered + Split(0, 1, port.group, k), wire, arrived, received, taken, [])
  {
    LoggedSplit(offered, 0, 1, port.group, k, 0);
    hide ToPort, Pick;
  }

  lemma PortTransmits(q: nat, port: Port<Pkt>, rx: nat, tx: nat, offered: Log, wire: seq<Pkt>,
                      arrived: seq<Pkt>, received: seq<Pkt>, taken: seq<Pkt>, collected: seq<Pkt>)
    requires PortInv(q, port, rx, tx, offered, wire, arrived, received, taken, collected)
    requires port.nicTx != []
    ensures PortInv(q, port.(nicTx := port.nicTx[1..]), rx, tx, offered, wire + port.nicTx[..1],
                    arrived, received, taken, collected)
  {
    hide ToPort, Pick;
    assert port.nicTx == port.nicTx[..1] + port.nicTx[1..];
  }

  /** A burst never overfills a send group, so the capacity test on it never fails. */
  lemma GuardNeverFails(cfg: Config, s: State, q: nat)
    requires Shaped(cfg, s) && q < MAX_PORTS && PortOk(cfg, s, q)
    requires s.sys.collected != []
    ensures Groupable(s.sys, q)
  {
    hide ToPort, Pick;
  }

  lemma PortKept(cfg: Config, s: State, a: Action, q: nat)
    requires Shaped(cfg, s) && Enabled(s, a) && q < MAX_PORTS && PortOk(cfg, s, q)
    requires AllMarked(s.sys.collected)
    ensures PortOk(cfg, Next(cfg, s, a), q)
  {
    hide ToPort, Pick, PortInv;
    var port, rx, tx, offered, wire := s.sys.ports[q], s.c.rx[q], s.c.tx[q], s.h.offered[q], s.h.wire[q];
    var taken := Vals(s.h.collected);
    match a
    case Inject(p, x) =>
      PortArrives(q, port, rx, tx, offered, wire, s.h.arrived, s.h.received, taken, s.sys.collected, p, x);
    case Echo(p, x) =>
      PortArrives(q, port, rx, tx, offered, wire, s.h.arrived, s.h.received, taken, s.sys.collected, p, x);
    case Step(m) =>
      match m
      case RxBurst(p, n) =>
        var xs := s.sys.ports[p].nicRx;
        if p == q {
          PortReceives(q, port, rx, tx, offered, wire, s.h.arrived, s.h.received, taken, s.sys.collected, n);
          assert (OnPort(xs[..n], p) + xs[n..])[n..] == xs[n..];
        } else {
          PortIgnores(q, port, rx, tx, offered, wire, s.h.arrived, s.h.received, taken, s.sys.collected,
                      p, xs[..n]);
        }
      case Collect(w, n) =>
        var xs := s.sys.lanes[w].retRing[..n];
        PortCollects(q, port, rx, tx, offered, wire, s.h.arrived, s.h.received, taken, xs);
        Logged(s.h.collected, w, xs, w);
      case GroupTo(d) =>
        if q == d {
          GuardNeverFails(cfg, s, q);
        }
        PortGroups(q, port, rx, tx, offered, wire, s.h.arrived, s.h.received, taken, s.sys.collected);
        assert s.sys.collected[..1] == [s.sys.collected[0]];
      case Send(p, k) =>
        if p == q {
          PortSends(q, port, rx, tx, offered, wire, s.h.arrived, s.h.received, taken, k);
        }
      case TxDone(p) =>
        if p == q {
          PortTransmits(q, port, rx, tx, offered, wire, s.h.arrived, s.h.received, taken, s.sys.collected);
        }
      case _ =>
  }

  // ---- The I/O lcore and the whole state ----

  lemma FwdOne(cfg: Config, xs: seq<Pkt>, x: Pkt)
    ensures Fwd(cfg, xs + [x]) == Fwd(cfg, xs) + Fwd(cfg, [x])
    ensures Marked(x.frame) ==> Fwd(cfg, xs + [x]) == Fwd(cfg, xs)
  {
    FwdAppend(cfg, xs, [x]);
  }

  lemma IoArrives(cfg: Config, s: State, a: Action)
    requires Inv(cfg, s) && Enabled(s, a) && !a.Step?
    requires a.Echo? ==> Marked(a.x.frame)
    ensures IoOk(cfg, Next(cfg, s, a))
  {
    hide LaneOk, PortOk, Fwd, Marked, OnWire, SumLen, Vals, TagsBelow;
    var x := a.x.(port := a.p);
    FwdOne(cfg, s.h.arrived, x);
    FwdOne(cfg, s.h.injected, x);
    assert Groups(Next(cfg, s, a).sys.ports) == Groups(s.sys.ports);
  }

  lemma IoReceives(cfg: Config, s: State, p: nat, n: nat)
    requires Inv(cfg, s) && Enabled(s, Step(RxBurst(p, n)))
    ensures IoOk(cfg, Next(cfg, s, Step(RxBurst(p, n))))
  {
    hide LaneOk, PortOk, Fwd;
    var xs := s.sys.ports[p].nicRx;
    assert (OnPort(xs[..n], p) + xs[n..])[..n] == OnPort(xs[..n], p);
    assert Groups(Next(cfg, s, Step(RxBurst(p, n))).sys.ports) == Groups(s.sys.ports);
    assert s.sys.received == [];
  }

  lemma IoDispatches(cfg: Config, s: State, w: nat, k: nat)
    requires Inv(cfg, s) && Enabled(s, Step(Dispatch(w, k)))
    ensures IoOk(cfg, Next(cfg, s, Step(Dispatch(w, k))))
  {
    hide LaneOk, PortOk, Fwd, Pick;
    LoggedSplit(s.h.dispatched, w, cfg.workers + w, s.sys.received, k, w);
  }

  lemma IoCollects(cfg: Config, s: State, w: nat, n: nat)
    requires Inv(cfg, s) && Enabled(s, Step(Collect(w, n)))
    ensures IoOk(cfg, Next(cfg, s, Step(Collect(w, n))))
  {
    hide PortOk, Fwd, Pick;
    assert LaneOk(cfg, s, w);
  }

  lemma IoGroups(cfg: Config, s: State, d: nat)
    requires Inv(cfg, s) && Enabled(s, Step(GroupTo(d)))
    ensures IoOk(cfg, Next(cfg, s, Step(GroupTo(d))))
  {
    hide LaneOk, PortOk, Fwd, Pick;
    if Groupable(s.sys, d) {
      var g := s.sys.ports[d].group + s.sys.collected[..1];
      SumLenUpdate(Groups(s.sys.ports), d, g);
      assert Groups(Next(cfg, s, Step(GroupTo(d))).sys.ports) == Groups(s.sys.ports)[d := g];
    }
  }

  lemma IoSends(cfg: Config, s: State, p: nat, k: nat)
    requires Inv(cfg, s) && Enabled(s, Step(Send(p, k)))
    ensures IoOk(cfg, Next(cfg, s, Step(Send(p, k))))
  {
    hide LaneOk, Fwd, Pick, ToPort;
    assert PortOk(cfg, s, p);
    var g := s.sys.ports[p].group;
    AllCounted(g);
    SumLenUpdate(Groups(s.sys.ports), p, []);
    SumLenUpdate(s.h.offered, p, s.h.offered[p] + Split(0, 1, g, k));
    hide PortOk;
    assert Groups(Next(cfg, s, Step(Send(p, k))).sys.ports) == Groups(s.sys.ports)[p := []];
  }

  lemma IoKept(cfg: Config, s: State, m: Move)
    requires Inv(cfg, s) && Enabled(s, Step(m))
    ensures IoOk(cfg, Next(cfg, s, Step(m)))
  {
    hide LaneOk, PortOk, Fwd, Pick;
    match m
    case RxBurst(p, n) => IoReceives(cfg, s, p, n);
    case Dispatch(w, k) => IoDispatches(cfg, s, w, k);
    case Collect(w, n) => IoCollects(cfg, s, w, n);
    case GroupTo(d) => IoGroups(cfg, s, d);
    case Send(p, k) => IoSends(cfg, s, p, k);
    case TxDone(p) => assert Groups(Next(cfg, s, Step(m)).sys.ports) == Groups(s.sys.ports);
    case _ =>
  }

  /** Everything transmitted carries the mark. */
  lemma WireMarked(cfg: Config, s: State, f: Frame)
    requires Inv(cfg, s) && OnWire(s, f)
    ensures Marked(f)
  {
    var q, i :| 0 <= q < |s.h.wire| && 0 <= i < |s.h.wire[q]| && s.h.wire[q][i].frame == f;
    assert PortOk(cfg, s, q);
  }

  lemma IoFacts(cfg: Config, s: State)
    requires Shaped(cfg, s) && IoOk(cfg, s)
    ensures AllMarked(s.sys.collected)
  {
  }

  lemma EchoMarked(cfg: Config, s: State, a: Action)
    requires Inv(cfg, s) && Enabled(s, a) && a.Echo?
    ensures Marked(a.x.frame)
  {
    WireMarked(cfg, s, a.x.frame);
  }

  /** Every step of every lcore, NIC and wire keeps the invariant. */
  lemma StepKeepsInv(cfg: Config, s: State, a: Action)
    requires Inv(cfg, s) && Enabled(s, a)
    ensures Inv(cfg, Next(cfg, s, a))
  {
    hide LaneOk, PortOk, IoOk, Next, Enabled;
    var r := Next(cfg, s, a);
    forall w | 0 <= w < cfg.workers
      ensures LaneOk(cfg, r, w)
    {
      LaneKept(cfg, s, a, w);
    }
    assert AllMarked(s.sys.collected) by { IoFacts(cfg, s); }
    forall q | 0 <= q < MAX_PORTS
      ensures PortOk(cfg, r, q)
    {
      PortKept(cfg, s, a, q);
    }
    match a
    case Inject(_, _) => IoArrives(cfg, s, a);
    case Echo(_, x) =>
      EchoMarked(cfg, s, a);
      IoArrives(cfg, s, a);
    case Step(m) => IoKept(cfg, s, m);
  }
}
