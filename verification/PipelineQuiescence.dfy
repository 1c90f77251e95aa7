/** Finite injections lead to quiescence.

    The environment may inject `inj` more frames, and may deliver `copies` copies of every
    frame transmitted. A weight on frames in flight falls with every step, so runs are
    bounded; and the pipeline can always move while anything is in flight.
  */
module PipelineQuiescence {
  import opened Frames
  import opened Traffic
  import opened System
  import opened Pipeline
  import opened PipelineLedger
  import opened PipelineRefinement
  import PipelineInvariant

  datatype Budget = Budget(inj: nat, credit: nat)

  ghost predicate Affordable(b: Budget, a: Action) {
    match a
    case Inject(_, _) => b.inj > 0
    case Echo(_, _) => b.credit > 0
    case Step(_) => true
  }

  ghost function Spend(copies: nat, b: Budget, a: Action): Budget
    requires Affordable(b, a)
  {
    match a
    case Inject(_, _) => b.(inj := b.inj - 1)
    case Echo(_, _) => b.(credit := b.credit - 1)
    case Step(m) => if m.TxDone? then b.(credit := b.credit + copies) else b
  }

  // ---- Weights ----

  /** Weight of a batch, `wm` for each marked packet and `wu` for each other. */
  function Weigh(xs: seq<Pkt>, wm: nat, wu: nat): nat {
    if xs == [] then 0 else (if Marked(xs[0].frame) then wm else wu) + Weigh(xs[1..], wm, wu)
  }

  lemma {:induction false} WeighAppend(a: seq<Pkt>, b: seq<Pkt>, wm: nat, wu: nat)
    ensures Weigh(a + b, wm, wu) == Weigh(a, wm, wu) + Weigh(b, wm, wu)
  {
    if a == [] {
      assert a + b == b;
    } else {
      assert (a + b)[0] == a[0] && (a + b)[1..] == a[1..] + b;
      WeighAppend(a[1..], b, wm, wu);
    }
  }

  lemma WeighNone(wm: nat, wu: nat)
    ensures Weigh([], wm, wu) == 0
  {
  }

  lemma WeighHead(xs: seq<Pkt>, w: nat)
    requires xs != []
    ensures Weigh(xs, w, w) == w + Weigh(xs[1..], w, w) && Weigh(xs[..1], w, w) == w
  {
    assert xs[..1][1..] == [];
  }

  lemma WeighSplit(xs: seq<Pkt>, n: nat, wm: nat, wu: nat)
    requires n <= |xs|
    ensures Weigh(xs, wm, wu) == Weigh(xs[..n], wm, wu) + Weigh(xs[n..], wm, wu)
  {
    assert xs == xs[..n] + xs[n..];
    WeighAppend(xs[..n], xs[n..], wm, wu);
  }

  /** Lowering both weights lowers the total by at least the number of packets. */
  lemma {:induction false} WeighLess(xs: seq<Pkt>, wm: nat, wu: nat, wm': nat, wu': nat)
    requires wm' < wm && wu' < wu
    ensures Weigh(xs, wm', wu') + |xs| <= Weigh(xs, wm, wu)
  {
    if xs != [] {
      WeighLess(xs[1..], wm, wu, wm', wu');
    }
  }

  lemma {:induction false} WeighOnPort(xs: seq<Pkt>, p: nat, wm: nat, wu: nat)
    ensures Weigh(OnPort(xs, p), wm, wu) == Weigh(xs, wm, wu)
  {
    if xs != [] {
      WeighOnPort(xs[1..], p, wm, wu);
      assert OnPort(xs, p)[1..] == OnPort(xs[1..], p);
    }
  }

  /** A packet accepted by a NIC: itself and the copies it may return as. */
  function T(copies: nat): nat {
    1 + 6 * copies
  }

  function LaneWeight(l: Lane<Pkt>, t: nat): nat {
    Weigh(l.rxRing, 3, t + 6) + Weigh(l.pkts, 2, t + 5) + Weigh(l.encrypted, t + 4, t + 4)
    + Weigh(l.retRing, t + 3, t + 3) + Weigh(l.trash, 1, 1)
  }

  function PortWeight(p: Port<Pkt>, t: nat): nat {
    Weigh(p.nicRx, 5, t + 8) + Weigh(p.group, t + 1, t + 1) + Weigh(p.nicTx, t, t)
  }

  function LanesWeight(ls: seq<Lane<Pkt>>, t: nat): nat {
    if ls == [] then 0 else LaneWeight(ls[0], t) + LanesWeight(ls[1..], t)
  }

  function PortsWeight(ps: seq<Port<Pkt>>, t: nat): nat {
    if ps == [] then 0 else PortWeight(ps[0], t) + PortsWeight(ps[1..], t)
  }

  function Times(n: nat, w: nat): nat {
    if n == 0 then 0 else w + Times(n - 1, w)
  }

  function Weight(s: Sys<Pkt>, b: Budget, t: nat): nat {
    Times(b.inj, t + 9) + 6 * b.credit + LanesWeight(s.lanes, t) + PortsWeight(s.ports, t)
    + Weigh(s.received, 4, t + 7) + Weigh(s.collected, t + 2, t + 2) + Weigh(s.trash, 1, 1)
  }

  lemma {:induction false} LanesWeightUpdate(ls: seq<Lane<Pkt>>, i: nat, l: Lane<Pkt>, t: nat)
    requires i < |ls|
    ensures LanesWeight(ls[i := l], t) == LanesWeight(ls, t) - LaneWeight(ls[i], t) + LaneWeight(l, t)
  {
    hide LaneWeight;
    if i > 0 {
      assert ls[i := l][1..] == ls[1..][i - 1 := l];
      LanesWeightUpdate(ls[1..], i - 1, l, t);
    } else {
      assert ls[i := l][1..] == ls[1..];
    }
  }

  lemma {:induction false} PortsWeightUpdate(ps: seq<Port<Pkt>>, i: nat, p: Port<Pkt>, t: nat)
    requires i < |ps|
    ensures PortsWeight(ps[i := p], t) == PortsWeight(ps, t) - PortWeight(ps[i], t) + PortWeight(p, t)
  {
    hide PortWeight;
    if i > 0 {
      assert ps[i := p][1..] == ps[1..][i - 1 := p];
      PortsWeightUpdate(ps[1..], i - 1, p, t);
    } else {
      assert ps[i := p][1..] == ps[1..];
    }
  }

  // ---- Every step lowers the weight ----

  /** A lighter lane makes a lighter system. */
  lemma LaneLighter(s: Sys<Pkt>, w: nat, l: Lane<Pkt>, t: nat, b: Budget)
    requires w < |s.lanes| && LaneWeight(l, t) < LaneWeight(s.lanes[w], t)
    ensures Weight(s.(lanes := s.lanes[w := l]), b, t) < Weight(s, b, t)
  {
    hide LaneWeight, Weigh, Times;
    LanesWeightUpdate(s.lanes, w, l, t);
  }

  lemma PortArrives(port: Port<Pkt>, x: Pkt, t: nat)
    ensures PortWeight(port.(nicRx := port.nicRx + [x]), t)
         == PortWeight(port, t) + if Marked(x.frame) then 5 else t + 8
  {
    WeighAppend(port.nicRx, [x], 5, t + 8);
    assert Weigh([x], 5, t + 8) == if Marked(x.frame) then 5 else t + 8;
    hide Weigh;
  }

  lemma ArriveFalls(cfg: Config, s: State, b: Budget, a: Action, copies: nat)
    requires Inv(cfg, s) && Enabled(s, a) && Affordable(b, a) && !a.Step?
    ensures Weight(Next(cfg, s, a).sys, Spend(copies, b, a), T(copies)) < Weight(s.sys, b, T(copies))
  {
    hide LaneOk, PortOk, IoOk, LanesWeight, PortsWeight, PortWeight, T, Weigh;
    var t := T(copies);
    if a.Echo? {
      PipelineInvariant.EchoMarked(cfg, s, a);
    }
    PortArrives(s.sys.ports[a.p], a.x, t);
    PortsWeightUpdate(s.sys.ports, a.p, s.sys.ports[a.p].(nicRx := s.sys.ports[a.p].nicRx + [a.x]), t);
  }

  lemma RxBurstFalls(cfg: Config, s: Sys<Pkt>, p: nat, n: nat, t: nat, b: Budget)
    requires Can(s, RxBurst(p, n))
    ensures Weight(Do(Touch(cfg, s, RxBurst(p, n)), RxBurst(p, n)), b, t) < Weight(s, b, t)
  {
    assert Weigh([], 4, t + 7) == 0;
    hide Weigh;
    var port := s.ports[p];
    var xs, rest := port.nicRx[..n], port.nicRx[n..];
    WeighSplit(port.nicRx, n, 5, t + 8);
    WeighOnPort(xs, p, 4, t + 7);
    WeighLess(xs, 5, t + 8, 4, t + 7);
    PortsWeightUpdate(s.ports, p, port.(nicRx := rest), t);
    assert (OnPort(xs, p) + rest)[n..] == rest && (OnPort(xs, p) + rest)[..n] == OnPort(xs, p);
    var r := Do(Touch(cfg, s, RxBurst(p, n)), RxBurst(p, n));
    assert r.ports == s.ports[p := port.(nicRx := rest)];
  }

  lemma DispatchFalls(s: Sys<Pkt>, w: nat, k: nat, t: nat, b: Budget)
    requires Can(s, Dispatch(w, k))
    ensures Weight(Do(s, Dispatch(w, k)), b, t) < Weight(s, b, t)
  {
    hide Weigh, LanesWeight, PortsWeight, Times;
    var lane, xs := s.lanes[w], s.received;
    WeighNone(4, t + 7);
    WeighNone(1, 1);
    WeighSplit(xs, k, 4, t + 7);
    WeighLess(xs[..k], 4, t + 7, 3, t + 6);
    WeighLess(xs[k..], 4, t + 7, 1, 1);
    WeighAppend(lane.rxRing, xs[..k], 3, t + 6);
    LanesWeightUpdate(s.lanes, w, lane.(rxRing := lane.rxRing + xs[..k]), t);
  }

  lemma CollectFalls(s: Sys<Pkt>, w: nat, n: nat, t: nat, b: Budget)
    requires Can(s, Collect(w, n))
    ensures Weight(Do(s, Collect(w, n)), b, t) < Weight(s, b, t)
  {
    var lane := s.lanes[w];
    assert Weigh([], t + 2, t + 2) == 0;
    hide Weigh;
    WeighSplit(lane.retRing, n, t + 3, t + 3);
    WeighLess(lane.retRing[..n], t + 3, t + 3, t + 2, t + 2);
    LanesWeightUpdate(s.lanes, w, lane.(retRing := lane.retRing[n..]), t);
  }

  lemma GroupFalls(s: Sys<Pkt>, d: nat, t: nat, b: Budget)
    requires Can(s, GroupTo(d))
    ensures Weight(Do(s, GroupTo(d)), b, t) < Weight(s, b, t)
  {
    hide Weigh, LanesWeight, PortsWeight, Times;
    var xs := s.collected;
    WeighNone(1, 1);
    WeighHead(xs, t + 2);
    WeighHead(xs, t + 1);
    WeighHead(xs, 1);
    if Groupable(s, d) {
      var port := s.ports[d];
      WeighAppend(port.group, xs[..1], t + 1, t + 1);
      PortsWeightUpdate(s.ports, d, port.(group := port.group + xs[..1]), t);
    }
  }

  lemma SendFalls(s: Sys<Pkt>, p: nat, k: nat, t: nat, b: Budget)
    requires Can(s, Send(p, k)) && t > 0
    ensures Weight(Do(s, Send(p, k)), b, t) < Weight(s, b, t)
  {
    var port := s.ports[p];
    var g := port.group;
    assert Weigh([], 1, 1) == 0 && Weigh([], t + 1, t + 1) == 0;
    hide Weigh;
    WeighSplit(g, k, t + 1, t + 1);
    WeighLess(g[..k], t + 1, t + 1, t, t);
    WeighLess(g[k..], t + 1, t + 1, 1, 1);
    WeighAppend(port.nicTx, g[..k], t, t);
    PortsWeightUpdate(s.ports, p, port.(group := [], nicTx := port.nicTx + g[..k]), t);
  }

  lemma TxDoneFalls(s: Sys<Pkt>, p: nat, b: Budget, copies: nat)
    requires Can(s, TxDone(p))
    ensures Weight(Do(s, TxDone(p)), b.(credit := b.credit + copies), T(copies)) < Weight(s, b, T(copies))
  {
    var port, t := s.ports[p], T(copies);
    assert Weigh(port.nicTx, t, t) == t + Weigh(port.nicTx[1..], t, t);
    hide Weigh;
    PortsWeightUpdate(s.ports, p, port.(nicTx := port.nicTx[1..]), t);
  }

  lemma IoFreeFalls(s: Sys<Pkt>, t: nat, b: Budget)
    requires Can(s, IoFree)
    ensures Weight(Do(s, IoFree), b, t) < Weight(s, b, t)
  {
    assert Weigh(s.trash, 1, 1) == 1 + Weigh(s.trash[1..], 1, 1);
    hide Weigh;
  }

  lemma DequeueFalls(s: Sys<Pkt>, w: nat, n: nat, t: nat, b: Budget)
    requires Can(s, Dequeue(w, n))
    ensures Weight(Do(s, Dequeue(w, n)), b, t) < Weight(s, b, t)
  {
    var lane := s.lanes[w];
    assert Weigh([], 2, t + 5) == 0;
    hide Weigh;
    WeighSplit(lane.rxRing, n, 3, t + 6);
    WeighLess(lane.rxRing[..n], 3, t + 6, 2, t + 5);
    LanesWeightUpdate(s.lanes, w, lane.(rxRing := lane.rxRing[n..], pkts := lane.rxRing[..n]), t);
  }

  /** The packet a worker has processed, at the head of its batch. */
  lemma LaneProcesses(lane: Lane<Pkt>, l: Lane<Pkt>, x: seq<Pkt>, t: nat)
    requires lane.pkts != [] && |x| == 1
    requires if Marked(lane.pkts[0].frame) then lane.trash == [] && l == lane.(pkts := lane.pkts[1..], trash := x)
             else l == lane.(pkts := lane.pkts[1..], encrypted := lane.encrypted + x)
    ensures LaneWeight(l, t) < LaneWeight(lane, t)
  {
    assert x == [x[0]];
    assert Weigh([], 1, 1) == 0;
    assert Weigh(x, 1, 1) == 1 && Weigh(x, t + 4, t + 4) == t + 4;
    assert Weigh(lane.pkts, 2, t + 5)
        == (if Marked(lane.pkts[0].frame) then 2 else t + 5) + Weigh(lane.pkts[1..], 2, t + 5);
    hide Weigh;
    WeighAppend(lane.encrypted, x, t + 4, t + 4);
  }

  lemma ProcessFalls(cfg: Config, s: Sys<Pkt>, m: Move, w: nat, t: nat, b: Budget)
    requires (m == Consume(w) || m == Forward(w)) && Can(s, m) && Agrees(s, m)
    ensures Weight(Do(Touch(cfg, s, m), m), b, t) < Weight(s, b, t)
  {
    hide LaneWeight, Weight;
    var r := Do(Touch(cfg, s, m), m);
    var pkts := Touch(cfg, s, m).lanes[w].pkts;
    assert pkts[1..] == s.lanes[w].pkts[1..];
    LaneProcesses(s.lanes[w], r.lanes[w], pkts[..1], t);
    LaneLighter(s, w, r.lanes[w], t, b);
    assert r == s.(lanes := s.lanes[w := r.lanes[w]]);
  }

  /** Packets handed over weigh less than in hand, and so do those to be freed. */
  lemma ReturnedWeighs(xs: seq<Pkt>, ring: seq<Pkt>, k: nat, t: nat)
    requires xs != [] && k <= |xs|
    ensures Weigh(ring + xs[..k], t + 3, t + 3) + Weigh(xs[k..], 1, 1)
          < Weigh(ring, t + 3, t + 3) + Weigh(xs, t + 4, t + 4)
  {
    hide Weigh;
    WeighSplit(xs, k, t + 4, t + 4);
    WeighLess(xs[..k], t + 4, t + 4, t + 3, t + 3);
    WeighLess(xs[k..], t + 4, t + 4, 1, 1);
    WeighAppend(ring, xs[..k], t + 3, t + 3);
  }

  lemma LaneReturns(lane: Lane<Pkt>, k: nat, t: nat)
    requires lane.encrypted != [] && lane.trash == [] && k <= |lane.encrypted|
    ensures LaneWeight(lane.(encrypted := [], retRing := lane.retRing + lane.encrypted[..k],
                             trash := lane.encrypted[k..]), t) < LaneWeight(lane, t)
  {
    hide Weigh;
    WeighNone(1, 1);
    WeighNone(t + 4, t + 4);
    ReturnedWeighs(lane.encrypted, lane.retRing, k, t);
  }

  lemma EnqueueFalls(s: Sys<Pkt>, w: nat, k: nat, t: nat, b: Budget)
    requires Can(s, Enqueue(w, k))
    ensures Weight(Do(s, Enqueue(w, k)), b, t) < Weight(s, b, t)
  {
    hide LaneWeight, Weight;
    LaneReturns(s.lanes[w], k, t);
    LaneLighter(s, w, Do(s, Enqueue(w, k)).lanes[w], t, b);
  }

  lemma WorkerFreeFalls(s: Sys<Pkt>, w: nat, t: nat, b: Budget)
    requires Can(s, WorkerFree(w))
    ensures Weight(Do(s, WorkerFree(w)), b, t) < Weight(s, b, t)
  {
    var lane := s.lanes[w];
    assert Weigh(lane.trash, 1, 1) == 1 + Weigh(lane.trash[1..], 1, 1);
    hide Weigh;
    LanesWeightUpdate(s.lanes, w, lane.(trash := lane.trash[1..]), t);
  }

  /** Every step of every lcore, NIC and wire lowers the weight. */
  lemma StepFalls(cfg: Config, s: State, b: Budget, a: Action, copies: nat)
    requires Inv(cfg, s) && Enabled(s, a) && Affordable(b, a)
    ensures Weight(Next(cfg, s, a).sys, Spend(copies, b, a), T(copies)) < Weight(s.sys, b, T(copies))
  {
    hide Weight, LaneOk, PortOk, IoOk, Do;
    var sys, t := s.sys, T(copies);
    if !a.Step? {
      ArriveFalls(cfg, s, b, a, copies);
    } else {
      match a.m
      case RxBurst(p, n) => RxBurstFalls(cfg, sys, p, n, t, b);
      case Dispatch(w, k) => DispatchFalls(sys, w, k, t, b);
      case Collect(w, n) => CollectFalls(sys, w, n, t, b);
      case GroupTo(d) => GroupFalls(sys, d, t, b);
      case Send(p, k) => SendFalls(sys, p, k, t, b);
      case IoFree => IoFreeFalls(sys, t, b);
      case Dequeue(w, n) => DequeueFalls(sys, w, n, t, b);
      case Consume(w) => ProcessFalls(cfg, sys, a.m, w, t, b);
      case Forward(w) => ProcessFalls(cfg, sys, a.m, w, t, b);
      case Enqueue(w, k) => EnqueueFalls(sys, w, k, t, b);
      case WorkerFree(w) => WorkerFreeFalls(sys, w, t, b);
      case TxDone(p) => TxDoneFalls(sys, p, b, copies);
    }
  }

  // ---- Runs under a budget ----

  ghost predicate IsBudgetRun(cfg: Config, copies: nat, ss: seq<State>, bs: seq<Budget>, acts: seq<Action>) {
    && IsRun(cfg, ss, acts) && |bs| == |ss|
    && forall i {:trigger acts[i]} | 0 <= i < |acts| ::
         Affordable(bs[i], acts[i]) && bs[i + 1] == Spend(copies, bs[i], acts[i])
  }

  lemma {:induction false} RunFalls(cfg: Config, copies: nat, ss: seq<State>, bs: seq<Budget>,
                                    acts: seq<Action>, i: nat)
    requires ValidConfig(cfg) && IsBudgetRun(cfg, copies, ss, bs, acts) && i <= |acts|
    ensures i + Weight(ss[i].sys, bs[i], T(copies)) <= Weight(ss[0].sys, bs[0], T(copies))
  {
    hide Weight, Next, Enabled, Inv, Shaped;
    if i > 0 {
      RunFalls(cfg, copies, ss, bs, acts, i - 1);
      var a := acts[i - 1];
      assert IsStep(cfg, ss[i - 1], a, ss[i]);
      assert Affordable(bs[i - 1], a) && bs[i] == Spend(copies, bs[i - 1], a);
      RunInv(cfg, ss, acts, i - 1);
      StepFalls(cfg, ss[i - 1], bs[i - 1], a, copies);
    }
  }

  lemma {:induction false} LanesWeightEmpty(ls: seq<Lane<Pkt>>, t: nat)
    requires forall i | 0 <= i < |ls| :: ls[i] == Lane([], [], [], [], [])
    ensures LanesWeight(ls, t) == 0
  {
    if ls != [] {
      LanesWeightEmpty(ls[1..], t);
    }
  }

  lemma {:induction false} PortsWeightEmpty(ps: seq<Port<Pkt>>, t: nat)
    requires forall i | 0 <= i < |ps| :: ps[i] == Port([], [], [])
    ensures PortsWeight(ps, t) == 0
  {
    if ps != [] {
      PortsWeightEmpty(ps[1..], t);
    }
  }

  lemma {:induction false} TimesIsProduct(n: nat, w: nat)
    ensures Times(n, w) == n * w
  {
    if n > 0 {
      TimesIsProduct(n - 1, w);
    }
  }

  lemma StartWeight(cfg: Config, n: nat, t: nat)
    ensures Weight(Init(cfg).sys, Budget(n, 0), t) == n * (t + 9)
  {
    LanesWeightEmpty(Init(cfg).sys.lanes, t);
    PortsWeightEmpty(Init(cfg).sys.ports, t);
    TimesIsProduct(n, t + 9);
    hide Times, LanesWeight, PortsWeight;
  }

  /** A run with `n` injections in which every transmitted frame comes back at most `copies`
      times is finite: it has at most `n * (10 + 6 * copies)` steps. */
  lemma RunsAreFinite(cfg: Config, copies: nat, n: nat, ss: seq<State>, bs: seq<Budget>, acts: seq<Action>)
    requires ValidConfig(cfg) && IsBudgetRun(cfg, copies, ss, bs, acts) && bs[0] == Budget(n, 0)
    ensures |acts| <= n * (10 + 6 * copies)
  {
    hide Next, Enabled, Inv, Shaped, Weight;
    RunFalls(cfg, copies, ss, bs, acts, |acts|);
    StartWeight(cfg, n, T(copies));
    assert T(copies) + 9 == 10 + 6 * copies;
  }

  /** Frames injected, frames that have left, and copies of these that came back. */
  function Injections(acts: seq<Action>): nat {
    if acts == [] then 0
    else Injections(acts[..|acts| - 1]) + if acts[|acts| - 1].Inject? then 1 else 0
  }

  function Departures(acts: seq<Action>): nat {
    if acts == [] then 0
    else
      var a := acts[|acts| - 1];
      Departures(acts[..|acts| - 1]) + if a.Step? && a.m.TxDone? then 1 else 0
  }

  function Echoes(acts: seq<Action>): nat {
    if acts == [] then 0 else Echoes(acts[..|acts| - 1]) + if acts[|acts| - 1].Echo? then 1 else 0
  }

  lemma CountsNext(acts: seq<Action>, k: nat)
    requires k < |acts|
    ensures Injections(acts[..k + 1]) == Injections(acts[..k]) + if acts[k].Inject? then 1 else 0
    ensures Departures(acts[..k + 1]) == Departures(acts[..k]) + if acts[k].Step? && acts[k].m.TxDone? then 1 else 0
    ensures Echoes(acts[..k + 1]) == Echoes(acts[..k]) + if acts[k].Echo? then 1 else 0
  {
    assert acts[..k + 1][..k] == acts[..k];
  }

  lemma {:induction false} InjectionsUpTo(acts: seq<Action>, k: nat)
    requires k <= |acts|
    ensures Injections(acts[..k]) <= Injections(acts)
    decreases |acts| - k
  {
    if k < |acts| {
      CountsNext(acts, k);
      InjectionsUpTo(acts, k + 1);
    } else {
      assert acts[..k] == acts;
    }
  }

  ghost function BudgetAt(copies: nat, acts: seq<Action>, k: nat): Budget
    requires k <= |acts| && Echoes(acts[..k]) <= copies * Departures(acts[..k])
  {
    InjectionsUpTo(acts, k);
    Budget(Injections(acts) - Injections(acts[..k]), copies * Departures(acts[..k]) - Echoes(acts[..k]))
  }

  lemma BudgetNext(copies: nat, acts: seq<Action>, k: nat)
    requires k < |acts|
    requires Echoes(acts[..k]) <= copies * Departures(acts[..k])
    requires Echoes(acts[..k + 1]) <= copies * Departures(acts[..k + 1])
    ensures var b := BudgetAt(copies, acts, k);
            Affordable(b, acts[k]) && BudgetAt(copies, acts, k + 1) == Spend(copies, b, acts[k])
  {
    CountsNext(acts, k);
    InjectionsUpTo(acts, k + 1);
    var d := Departures(acts[..k]);
    assert copies * (d + 1) == copies * d + copies;
    hide Injections, Departures, Echoes;
  }

  lemma FullBudget(copies: nat, acts: seq<Action>)
    ensures BudgetAt(copies, acts, 0) == Budget(Injections(acts), 0)
  {
    assert acts[..0] == [];
  }

  /** So a run in which every frame that has left comes back at most `copies` times has at most
      10 + 6 * copies steps for each frame injected. */
  lemma RunsAreBounded(cfg: Config, copies: nat, ss: seq<State>, acts: seq<Action>)
    requires ValidConfig(cfg) && IsRun(cfg, ss, acts)
    requires forall k | 0 <= k <= |acts| :: Echoes(acts[..k]) <= copies * Departures(acts[..k])
    ensures |acts| <= Injections(acts) * (10 + 6 * copies)
  {
    hide IsStep, Injections, Departures, Echoes, Affordable, Spend, BudgetAt;
    var bs := seq(|acts| + 1, k requires 0 <= k <= |acts| => BudgetAt(copies, acts, k));
    forall k | 0 <= k < |acts|
      ensures Affordable(bs[k], acts[k]) && bs[k + 1] == Spend(copies, bs[k], acts[k])
    {
      BudgetNext(copies, acts, k);
    }
    FullBudget(copies, acts);
    RunsAreFinite(cfg, copies, Injections(acts), ss, bs, acts);
  }

  // ---- Progress ----

  /** Some lcore or NIC can make a hand-off. */
  ghost predicate CanMove(s: State) {
    exists m :: Enabled(s, Step(m))
  }

  lemma Moves(s: State, m: Move)
    requires Enabled(s, Step(m))
    ensures CanMove(s)
  {
  }

  ghost predicate RingsBounded(s: Sys<Pkt>) {
    forall w | 0 <= w < |s.lanes| ::
      |s.lanes[w].rxRing| <= RING_USABLE && |s.lanes[w].retRing| <= RING_USABLE
  }

  lemma DoRings(s: Sys<Pkt>, m: Move)
    requires Can(s, m) && RingsBounded(s)
    ensures RingsBounded(Do(s, m))
  {
  }

  lemma TouchRings(cfg: Config, s: Sys<Pkt>, m: Move)
    requires Can(s, m) && RingsBounded(s)
    ensures RingsBounded(Touch(cfg, s, m))
  {
  }

  lemma ArriveRings(s: Sys<Pkt>, p: nat, x: Pkt)
    requires p < |s.ports| && RingsBounded(s)
    ensures RingsBounded(Arrive(s, p, x))
  {
  }

  lemma RingsKept(cfg: Config, s: State, a: Action)
    requires Shaped(cfg, s) && Enabled(s, a) && RingsBounded(s.sys)
    ensures RingsBounded(Next(cfg, s, a).sys)
  {
    hide Do, Touch, Count, Record, RingsBounded;
    if a.Step? {
      TouchRings(cfg, s.sys, a.m);
      DoRings(Touch(cfg, s.sys, a.m), a.m);
    } else {
      ArriveRings(s.sys, a.p, a.x);
    }
  }

  lemma RingsAtStart(cfg: Config)
    ensures RingsBounded(Init(cfg).sys)
  {
  }

  lemma {:induction false} RunRings(cfg: Config, ss: seq<State>, acts: seq<Action>, i: nat)
    requires IsRun(cfg, ss, acts) && i <= |acts|
    ensures RingsBounded(ss[i].sys)
  {
    hide Next, Enabled, RingsBounded, Shaped;
    if i == 0 {
      RingsAtStart(cfg);
    } else {
      RunRings(cfg, ss, acts, i - 1);
      assert IsStep(cfg, ss[i - 1], acts[i - 1], ss[i]);
      RingsKept(cfg, ss[i - 1], acts[i - 1]);
    }
  }

  lemma LaneMoves(cfg: Config, s: State, w: nat)
    requires Shaped(cfg, s) && RingsBounded(s.sys) && w < cfg.workers && !CanMove(s)
    ensures LaneAtHead(s.sys.lanes[w]) && s.sys.lanes[w].rxRing == []
  {
    var l := s.sys.lanes[w];
    if l.trash != [] {
      Moves(s, WorkerFree(w));
    } else if l.pkts != [] {
      Moves(s, if Marked(l.pkts[0].frame) then Consume(w) else Forward(w));
    } else if l.encrypted != [] {
      Moves(s, Enqueue(w, 0));
    } else if l.rxRing != [] {
      Moves(s, Dequeue(w, 1));
    }
  }

  lemma {:induction false} GroupMoves(s: State, p: nat)
    requires s.sys.collected == [] && s.sys.trash == [] && !CanMove(s)
    requires p <= |s.sys.ports|
    ensures forall r | 0 <= r < p :: s.sys.ports[r].group == []
  {
    if p > 0 {
      GroupMoves(s, p - 1);
      if s.sys.ports[p - 1].group != [] {
        Moves(s, Send(p - 1, 0));
      }
    }
  }

  lemma IoMoves(cfg: Config, s: State)
    requires Shaped(cfg, s) && RingsBounded(s.sys) && cfg.workers > 0 && !CanMove(s)
    ensures IoAtHead(s.sys)
  {
    if s.sys.trash != [] {
      Moves(s, IoFree);
    } else if s.sys.received != [] {
      Moves(s, Dispatch(0, 0));
    } else if s.sys.collected != [] {
      Moves(s, GroupTo(s.sys.collected[0].port));
    } else {
      GroupMoves(s, |s.sys.ports|);
    }
  }

  /** Nothing is in flight anywhere. */
  ghost predicate Quiescent(s: State) {
    Drained(s) && forall p | 0 <= p < |s.sys.ports| :: s.sys.ports[p].nicRx == [] && s.sys.ports[p].nicTx == []
  }

  lemma InvShaped(cfg: Config, s: State)
    requires Inv(cfg, s)
    ensures Shaped(cfg, s) && |s.sys.lanes| == cfg.workers
  {
  }

  lemma ReturnMoves(s: State, w: nat)
    requires IoAtHead(s.sys) && w < |s.sys.lanes| && !CanMove(s)
    ensures s.sys.lanes[w].retRing == []
  {
    if s.sys.lanes[w].retRing != [] {
      Moves(s, Collect(w, 1));
    }
  }

  lemma NicMoves(s: State, p: nat)
    requires IoAtHead(s.sys) && p < |s.sys.ports| && !CanMove(s)
    ensures s.sys.ports[p].nicRx == [] && s.sys.ports[p].nicTx == []
  {
    if s.sys.ports[p].nicTx != [] {
      Moves(s, TxDone(p));
    } else if s.sys.ports[p].nicRx != [] {
      Moves(s, RxBurst(p, 1));
    }
  }

  /** The pipeline never gets stuck: with at least one worker, when no lcore and no NIC can
      move, every frame has left. */
  lemma StuckOnlyWhenQuiescent(cfg: Config, ss: seq<State>, acts: seq<Action>)
    requires ValidConfig(cfg) && cfg.workers > 0 && IsRun(cfg, ss, acts)
    requires !CanMove(ss[|acts|])
    ensures Quiescent(ss[|acts|])
  {
    hide CanMove, Next, Inv, Shaped, Can, Enabled;
    var s := ss[|acts|];
    RunRings(cfg, ss, acts, |acts|);
    RunInv(cfg, ss, acts, |acts|);
    InvShaped(cfg, s);
    IoMoves(cfg, s);
    forall w | 0 <= w < |s.sys.lanes|
      ensures LaneAtHead(s.sys.lanes[w]) && s.sys.lanes[w].rxRing == [] && s.sys.lanes[w].retRing == []
    {
      LaneMoves(cfg, s, w);
      ReturnMoves(s, w);
    }
    forall p | 0 <= p < |s.sys.ports|
      ensures s.sys.ports[p].nicRx == [] && s.sys.ports[p].nicTx == []
    {
      NicMoves(s, p);
    }
  }
}
