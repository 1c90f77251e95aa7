/** The machine over numbered buffers refines the pipeline over packets: because every buffer
    has one owner, an in-place write changes exactly the packet it is meant for. */
module OwnershipRefinement {
  import opened Frames
  import opened Traffic
  import opened System
  import opened Ownership
  import Pipeline
  import PipelineLedger

  function Map(f: Id -> Pkt, xs: seq<Id>): (r: seq<Pkt>)
    ensures |r| == |xs| && forall i | 0 <= i < |r| :: r[i] == f(xs[i])
  {
    seq(|xs|, i requires 0 <= i < |xs| => f(xs[i]))
  }

  function MapLane(f: Id -> Pkt, l: Lane<Id>): Lane<Pkt> {
    Lane(Map(f, l.rxRing), Map(f, l.pkts), Map(f, l.encrypted), Map(f, l.trash), Map(f, l.retRing))
  }

  function MapPort(f: Id -> Pkt, p: Port<Id>): Port<Pkt> {
    Port(Map(f, p.nicRx), Map(f, p.group), Map(f, p.nicTx))
  }

  function MapLanes(f: Id -> Pkt, ls: seq<Lane<Id>>): (r: seq<Lane<Pkt>>)
    ensures |r| == |ls| && forall i | 0 <= i < |r| :: r[i] == MapLane(f, ls[i])
  {
    seq(|ls|, i requires 0 <= i < |ls| => MapLane(f, ls[i]))
  }

  function MapPorts(f: Id -> Pkt, ps: seq<Port<Id>>): (r: seq<Port<Pkt>>)
    ensures |r| == |ps| && forall i | 0 <= i < |r| :: r[i] == MapPort(f, ps[i])
  {
    seq(|ps|, i requires 0 <= i < |ps| => MapPort(f, ps[i]))
  }

  /** The packets in the places where the buffers are. */
  function MapSys(f: Id -> Pkt, s: Sys<Id>): Sys<Pkt> {
    Sys(MapLanes(f, s.lanes), MapPorts(f, s.ports), Map(f, s.received), Map(f, s.collected), Map(f, s.trash))
  }

  // ---- Moving commutes with looking up ----

  lemma MapCut(f: Id -> Pkt, xs: seq<Id>, n: nat)
    requires n <= |xs|
    ensures Map(f, xs)[..n] == Map(f, xs[..n]) && Map(f, xs)[n..] == Map(f, xs[n..])
  {
  }

  lemma MapJoin(f: Id -> Pkt, xs: seq<Id>, ys: seq<Id>)
    ensures Map(f, xs + ys) == Map(f, xs) + Map(f, ys)
  {
  }

  lemma MapLanesUpdate(f: Id -> Pkt, ls: seq<Lane<Id>>, i: nat, l: Lane<Id>)
    requires i < |ls|
    ensures MapLanes(f, ls[i := l]) == MapLanes(f, ls)[i := MapLane(f, l)]
  {
    hide MapLane;
  }

  lemma MapPortsUpdate(f: Id -> Pkt, ps: seq<Port<Id>>, i: nat, p: Port<Id>)
    requires i < |ps|
    ensures MapPorts(f, ps[i := p]) == MapPorts(f, ps)[i := MapPort(f, p)]
  {
    hide MapPort;
  }

  lemma CanMapped(f: Id -> Pkt, s: Sys<Id>, m: Move)
    ensures Can(MapSys(f, s), m) == Can(s, m)
  {
    forall p | 0 <= p < |s.ports|
      ensures MapSys(f, s).ports[p].group == [] <==> s.ports[p].group == []
    {
    }
    assert NoGroups(MapSys(f, s)) == NoGroups(s);
  }

  lemma DoMappedLanes(f: Id -> Pkt, s: Sys<Id>, m: Move)
    requires Can(s, m) && Can(MapSys(f, s), m)
    requires m.Dispatch? || m.Collect? || m.Dequeue? || m.Consume? || m.Forward? || m.Enqueue? || m.WorkerFree?
    ensures MapSys(f, Do(s, m)) == Do(MapSys(f, s), m)
  {
    var l := s.lanes[m.w];
    MapLanesUpdate(f, s.lanes, m.w, Do(s, m).lanes[m.w]);
    hide MapLanes, MapPorts;
    match m
    case Dispatch(w, k) =>
      MapCut(f, s.received, k);
      MapJoin(f, l.rxRing, s.received[..k]);
    case Collect(w, n) => MapCut(f, l.retRing, n);
    case Dequeue(w, n) => MapCut(f, l.rxRing, n);
    case Consume(w) => MapCut(f, l.pkts, 1);
    case Forward(w) =>
      MapCut(f, l.pkts, 1);
      MapJoin(f, l.encrypted, l.pkts[..1]);
    case Enqueue(w, k) =>
      MapCut(f, l.encrypted, k);
      MapJoin(f, l.retRing, l.encrypted[..k]);
    case WorkerFree(w) => MapCut(f, l.trash, 1);
  }

  lemma DoMappedPorts(f: Id -> Pkt, s: Sys<Id>, m: Move)
    requires Can(s, m) && Can(MapSys(f, s), m)
    requires m.RxBurst? || m.GroupTo? || m.Send? || m.TxDone? || m.IoFree?
    ensures MapSys(f, Do(s, m)) == Do(MapSys(f, s), m)
  {
    match m
    case RxBurst(p, n) =>
      MapCut(f, s.ports[p].nicRx, n);
      MapPortsUpdate(f, s.ports, p, Do(s, m).ports[p]);
    case GroupTo(d) =>
      MapCut(f, s.collected, 1);
      assert Groupable(MapSys(f, s), d) == Groupable(s, d);
      if Groupable(s, d) {
        MapJoin(f, s.ports[d].group, s.collected[..1]);
        MapPortsUpdate(f, s.ports, d, Do(s, m).ports[d]);
      }
    case Send(p, k) =>
      MapCut(f, s.ports[p].group, k);
      MapJoin(f, s.ports[p].nicTx, s.ports[p].group[..k]);
      MapPortsUpdate(f, s.ports, p, Do(s, m).ports[p]);
    case TxDone(p) =>
      MapCut(f, s.ports[p].nicTx, 1);
      MapPortsUpdate(f, s.ports, p, Do(s, m).ports[p]);
    case IoFree => MapCut(f, s.trash, 1);
  }

  lemma DoMapped(f: Id -> Pkt, s: Sys<Id>, m: Move)
    requires Can(s, m) && Can(MapSys(f, s), m)
    ensures MapSys(f, Do(s, m)) == Do(MapSys(f, s), m)
  {
    hide MapSys, Do, Can;
    if m.RxBurst? || m.GroupTo? || m.Send? || m.TxDone? || m.IoFree? {
      DoMappedPorts(f, s, m);
    } else {
      DoMappedLanes(f, s, m);
    }
  }

  // ---- Writing through one owner ----

  lemma AgreeOn(f: Id -> Pkt, g: Id -> Pkt, xs: seq<Id>)
    requires forall id | In(xs, id) > 0 :: f(id) == g(id)
    ensures Map(f, xs) == Map(g, xs)
  {
    forall i | 0 <= i < |xs|
      ensures f(xs[i]) == g(xs[i])
    {
      assert xs[i] in multiset(xs);
    }
  }

  /** Memories that agree on every held buffer show the same packets. */
  lemma MapAgree(f: Id -> Pkt, g: Id -> Pkt, s: Sys<Id>)
    requires forall id | Held(s, id) > 0 :: f(id) == g(id)
    ensures MapSys(f, s) == MapSys(g, s)
  {
    hide Map, In, InLanes, InPorts;
    forall i | 0 <= i < |s.lanes|
      ensures MapLane(f, s.lanes[i]) == MapLane(g, s.lanes[i])
    {
      var l := s.lanes[i];
      forall id | InLane(l, id) > 0
        ensures f(id) == g(id)
      {
        InLanesUpdate(s.lanes, i, l, id);
      }
      AgreeOn(f, g, l.rxRing);
      AgreeOn(f, g, l.pkts);
      AgreeOn(f, g, l.encrypted);
      AgreeOn(f, g, l.trash);
      AgreeOn(f, g, l.retRing);
    }
    forall i | 0 <= i < |s.ports|
      ensures MapPort(f, s.ports[i]) == MapPort(g, s.ports[i])
    {
      var p := s.ports[i];
      forall id | InPort(p, id) > 0
        ensures f(id) == g(id)
      {
        InPortsUpdate(s.ports, i, p, id);
      }
      AgreeOn(f, g, p.nicRx);
      AgreeOn(f, g, p.group);
      AgreeOn(f, g, p.nicTx);
    }
    AgreeOn(f, g, s.received);
    AgreeOn(f, g, s.collected);
    AgreeOn(f, g, s.trash);
  }

  /** The system without the packet worker `w` is about to process. */
  function WithoutHead(s: Sys<Id>, w: nat): Sys<Id>
    requires w < |s.lanes| && s.lanes[w].pkts != []
  {
    s.(lanes := s.lanes[w := s.lanes[w].(pkts := s.lanes[w].pkts[1..])])
  }

  lemma HeadHeldOnce(n: nat, s: Buffers, w: nat, x: Id)
    requires Owned(n, s) && w < |s.sys.lanes| && s.sys.lanes[w].pkts != []
    ensures Held(WithoutHead(s.sys, w), s.sys.lanes[w].pkts[0]) == 0
    ensures Held(WithoutHead(s.sys, w), x) > 0 ==> x != s.sys.lanes[w].pkts[0]
  {
    hide InLanes, InPorts;
    var id := s.sys.lanes[w].pkts[0];
    Cut(s.sys.lanes[w].pkts, 1, id);
    assert s.sys.lanes[w].pkts[..1] == [id];
    InLanesUpdate(s.sys.lanes, w, WithoutHead(s.sys, w).lanes[w], id);
    assert s.pool[id] + Held(s.sys, id) <= 1;
  }

  lemma OthersMapped(cfg: Config, n: nat, s: Buffers, m: Move, w: nat)
    requires Owned(n, s) && Can(s.sys, m) && (m == Consume(w) || m == Forward(w))
    ensures MapSys(s.mem, WithoutHead(s.sys, w)) == MapSys(Write(cfg, s, m), WithoutHead(s.sys, w))
  {
    hide Held, Owned, MapSys;
    var g := Write(cfg, s, m);
    forall id | Held(WithoutHead(s.sys, w), id) > 0
      ensures s.mem(id) == g(id)
    {
      HeadHeldOnce(n, s, w, id);
    }
    MapAgree(s.mem, g, WithoutHead(s.sys, w));
  }

  lemma MapHead(f: Id -> Pkt, xs: seq<Id>)
    requires xs != []
    ensures Map(f, xs) == [f(xs[0])] + Map(f, xs[1..]) && Map(f, xs)[1..] == Map(f, xs[1..])
  {
  }

  lemma LaneFromRest(f: Id -> Pkt, g: Id -> Pkt, s: Sys<Id>, w: nat)
    requires w < |s.lanes| && s.lanes[w].pkts != []
    requires MapSys(f, WithoutHead(s, w)) == MapSys(g, WithoutHead(s, w))
    ensures var l := MapLane(f, s.lanes[w]);
            MapLane(g, s.lanes[w]) == l.(pkts := [g(s.lanes[w].pkts[0])] + l.pkts[1..])
  {
    hide Map;
    var rest := WithoutHead(s, w);
    assert MapLanes(f, rest.lanes)[w] == MapLanes(g, rest.lanes)[w];
    MapHead(f, s.lanes[w].pkts);
    MapHead(g, s.lanes[w].pkts);
  }

  lemma SysFromRest(f: Id -> Pkt, g: Id -> Pkt, s: Sys<Id>, w: nat)
    requires w < |s.lanes| && s.lanes[w].pkts != []
    requires MapSys(f, WithoutHead(s, w)) == MapSys(g, WithoutHead(s, w))
    ensures MapSys(g, s) == MapSys(f, s).(lanes := MapLanes(f, s.lanes)[w := MapLane(g, s.lanes[w])])
  {
    hide Map, MapLane;
    var rest := WithoutHead(s, w);
    forall i | 0 <= i < |s.lanes| && i != w
      ensures MapLanes(g, s.lanes)[i] == MapLanes(f, s.lanes)[i]
    {
      assert MapLanes(f, rest.lanes)[i] == MapLanes(g, rest.lanes)[i];
    }
    assert MapLanes(g, s.lanes) == MapLanes(f, s.lanes)[w := MapLane(g, s.lanes[w])];
  }

  lemma HeadOfLane(f: Id -> Pkt, l: Lane<Id>)
    requires l.pkts != []
    ensures MapLane(f, l).pkts != [] && MapLane(f, l).pkts[0] == f(l.pkts[0])
  {
  }

  /** An in-place write to the packet at hand changes that packet and no other. */
  lemma ProcessMapped(cfg: Config, n: nat, s: Buffers, m: Move, w: nat)
    requires Owned(n, s) && Can(s.sys, m) && Can(MapSys(s.mem, s.sys), m)
    requires m == Consume(w) || m == Forward(w)
    ensures MapSys(Write(cfg, s, m), s.sys) == Pipeline.Touch(cfg, MapSys(s.mem, s.sys), m)
  {
    hide Owned, WithoutHead, MapLane, MapPorts;
    var g, id := Write(cfg, s, m), s.sys.lanes[w].pkts[0];
    OthersMapped(cfg, n, s, m, w);
    LaneFromRest(s.mem, g, s.sys, w);
    SysFromRest(s.mem, g, s.sys, w);
    HeadOfLane(s.mem, s.sys.lanes[w]);
  }

  /** The system without the burst about to be received. */
  function WithoutBurst(s: Sys<Id>, p: nat, n: nat): Sys<Id>
    requires p < |s.ports| && n <= |s.ports[p].nicRx|
  {
    s.(ports := s.ports[p := s.ports[p].(nicRx := s.ports[p].nicRx[n..])])
  }

  lemma BurstHeldOnce(n: nat, s: Buffers, p: nat, k: nat, x: Id)
    requires Owned(n, s) && p < |s.sys.ports| && k <= |s.sys.ports[p].nicRx|
    requires Held(WithoutBurst(s.sys, p, k), x) > 0
    ensures x !in s.sys.ports[p].nicRx[..k]
  {
    hide InLanes, InPorts;
    Cut(s.sys.ports[p].nicRx, k, x);
    InPortsUpdate(s.sys.ports, p, WithoutBurst(s.sys, p, k).ports[p], x);
    assert s.pool[x] + Held(s.sys, x) <= 1;
    assert In(s.sys.ports[p].nicRx[..k], x) == 0;
  }

  /** Setting the port of a received burst changes the packets of that burst and no other. */
  lemma BurstMapped(cfg: Config, n: nat, s: Buffers, p: nat, k: nat)
    requires Owned(n, s) && Can(s.sys, RxBurst(p, k)) && Can(MapSys(s.mem, s.sys), RxBurst(p, k))
    ensures MapSys(Write(cfg, s, RxBurst(p, k)), s.sys) == Pipeline.Touch(cfg, MapSys(s.mem, s.sys), RxBurst(p, k))
  {
    hide Held, Owned;
    var g := Write(cfg, s, RxBurst(p, k));
    var port := s.sys.ports[p];
    var rest := WithoutBurst(s.sys, p, k);
    forall id | Held(rest, id) > 0
      ensures s.mem(id) == g(id)
    {
      BurstHeldOnce(n, s, p, k, id);
    }
    MapAgree(s.mem, g, rest);
    MapPortsUpdate(s.mem, s.sys.ports, p, rest.ports[p]);
    MapPortsUpdate(g, s.sys.ports, p, rest.ports[p]);
    assert rest.ports[p := port] == s.sys.ports;
    MapPortsUpdate(g, rest.ports, p, port);
    MapPortsUpdate(s.mem, rest.ports, p, port);
    assert port.nicRx == port.nicRx[..k] + port.nicRx[k..];
    MapJoin(g, port.nicRx[..k], port.nicRx[k..]);
    MapCut(s.mem, port.nicRx, k);
    hide MapLanes, MapPorts;
    assert MapPort(g, rest.ports[p]) == MapPort(s.mem, rest.ports[p]);
    assert Map(g, port.nicRx[..k]) == OnPort(Map(s.mem, port.nicRx[..k]), p);
  }

  lemma WriteMapped(cfg: Config, n: nat, s: Buffers, m: Move)
    requires Owned(n, s) && Can(s.sys, m) && Can(MapSys(s.mem, s.sys), m)
    ensures MapSys(Write(cfg, s, m), s.sys) == Pipeline.Touch(cfg, MapSys(s.mem, s.sys), m)
  {
    hide MapSys, Can, Owned;
    match m
    case RxBurst(p, k) => BurstMapped(cfg, n, s, p, k);
    case Consume(w) => ProcessMapped(cfg, n, s, m, w);
    case Forward(w) => ProcessMapped(cfg, n, s, m, w);
    case _ =>
  }

  /** The pipeline action a buffer action amounts to. */
  function Meaning(a: IdAction): Pipeline.Action {
    match a
    case Fill(p, id, x) => Pipeline.Inject(p, x)
    case Make(m) => Pipeline.Step(m)
  }

  lemma AgreesMapped(s: Buffers, m: Move)
    requires Can(s.sys, m) && Can(MapSys(s.mem, s.sys), m)
    ensures IdAgrees(s, m) == Pipeline.Agrees(MapSys(s.mem, s.sys), m)
  {
  }

  lemma MakeSimulates(cfg: Config, n: nat, s: Buffers, m: Move)
    requires Owned(n, s) && IdEnabled(s, Make(m))
    ensures Can(MapSys(s.mem, s.sys), m) && Pipeline.Agrees(MapSys(s.mem, s.sys), m)
    ensures MapSys(Write(cfg, s, m), Do(s.sys, m)) == Do(Pipeline.Touch(cfg, MapSys(s.mem, s.sys), m), m)
  {
    hide MapSys, Can, Do, Owned, Write, Pipeline.Touch, IdAgrees, Pipeline.Agrees;
    CanMapped(s.mem, s.sys, m);
    AgreesMapped(s, m);
    WriteMapped(cfg, n, s, m);
    DoMapped(Write(cfg, s, m), s.sys, m);
  }

  lemma FillSimulates(cfg: Config, n: nat, s: Buffers, p: nat, id: Id, x: Pkt)
    requires Owned(n, s) && IdEnabled(s, Fill(p, id, x))
    ensures p < |MapSys(s.mem, s.sys).ports|
    ensures MapSys(IdNext(cfg, s, Fill(p, id, x)).mem, Arrive(s.sys, p, id)) == Arrive(MapSys(s.mem, s.sys), p, x)
  {
    hide Held;
    var g := IdNext(cfg, s, Fill(p, id, x)).mem;
    assert s.pool[id] + Held(s.sys, id) <= 1;
    MapAgree(s.mem, g, s.sys);
    MapPortsUpdate(g, s.sys.ports, p, Arrive(s.sys, p, id).ports[p]);
    MapJoin(g, s.sys.ports[p].nicRx, [id]);
    hide MapLanes, MapPorts;
    assert Map(g, [id]) == [x];
  }

  /** One step over buffers is one step over packets. */
  lemma StepSimulates(cfg: Config, n: nat, s: Buffers, a: IdAction, v: Pipeline.State)
    requires Owned(n, s) && IdEnabled(s, a)
    requires Pipeline.Shaped(cfg, v) && v.sys == MapSys(s.mem, s.sys)
    ensures Pipeline.Enabled(v, Meaning(a))
    ensures Pipeline.Next(cfg, v, Meaning(a)).sys == MapSys(IdNext(cfg, s, a).mem, IdNext(cfg, s, a).sys)
  {
    match a
    case Fill(p, id, x) => FillSimulates(cfg, n, s, p, id, x);
    case Make(m) => MakeSimulates(cfg, n, s, m);
  }

  lemma ShapedOf(cfg: Config, v: Pipeline.State)
    requires Pipeline.Inv(cfg, v)
    ensures Pipeline.Shaped(cfg, v)
  {
  }

  lemma PrefixRun(cfg: Config, n: nat, ss: seq<Buffers>, acts: seq<IdAction>)
    requires IdRun(cfg, n, ss, acts) && acts != []
    ensures IdRun(cfg, n, ss[..|acts|], acts[..|acts| - 1])
  {
    hide IdStep;
    var k := |acts| - 1;
    forall i | 0 <= i < k
      ensures IdStep(cfg, ss[..k + 1][i], acts[..k][i], ss[..k + 1][i + 1])
    {
      assert IdStep(cfg, ss[i], acts[i], ss[i + 1]);
    }
  }

  lemma EmptyMapped(cfg: Config, f: Id -> Pkt)
    ensures MapSys(f, Empty<Id>(cfg.workers, MAX_PORTS)) == Pipeline.Init(cfg).sys
  {
    hide Map;
    assert Map(f, []) == [];
  }

  /** Every run over buffers is, seen through the memory, a run of the pipeline over packets, step
      for step. */
  lemma {:induction false} RunSimulates(cfg: Config, n: nat, ss: seq<Buffers>, acts: seq<IdAction>)
      returns (vs: seq<Pipeline.State>, vacts: seq<Pipeline.Action>)
    requires Pipeline.ValidConfig(cfg) && IdRun(cfg, n, ss, acts)
    ensures PipelineLedger.IsRun(cfg, vs, vacts) && |vacts| == |acts|
    ensures forall i | 0 <= i < |acts| :: vacts[i] == Meaning(acts[i])
    ensures forall i | 0 <= i <= |acts| :: vs[i].sys == MapSys(ss[i].mem, ss[i].sys)
    decreases |acts|
  {
    hide MapSys, IdNext, IdEnabled, Owned, Pipeline.Next, Pipeline.Enabled, Pipeline.Shaped, Pipeline.Inv;
    if acts == [] {
      vs, vacts := [Pipeline.Init(cfg)], [];
      EmptyMapped(cfg, ss[0].mem);
      assert vs[0].sys == MapSys(ss[0].mem, ss[0].sys);
    } else {
      var k := |acts| - 1;
      var vs', vacts' := RunSimulates(cfg, n, ss[..k + 1], acts[..k]) by {
        PrefixRun(cfg, n, ss, acts);
      }
      var v, a := vs'[k], acts[k];
      assert IdStep(cfg, ss[k], a, ss[k + 1]);
      EveryBufferOwnedOnce(cfg, n, ss, acts, k);
      PipelineLedger.RunInv(cfg, vs', vacts', k);
      ShapedOf(cfg, v);
      assert v.sys == MapSys(ss[k].mem, ss[k].sys);
      StepSimulates(cfg, n, ss[k], a, v);
      var v' := Pipeline.Next(cfg, v, Meaning(a));
      vs, vacts := vs' + [v'], vacts' + [Meaning(a)];
      PipelineLedger.ExtendRun(cfg, vs', vacts', Meaning(a), v');
      forall i | 0 <= i < |acts|
        ensures vacts[i] == Meaning(acts[i])
      {
        assert i < k ==> vacts'[i] == Meaning(acts[..k][i]);
      }
      forall i | 0 <= i <= |acts|
        ensures vs[i].sys == MapSys(ss[i].mem, ss[i].sys)
      {
        if i <= k {
          assert vs[i] == vs'[i] && ss[..k + 1][i] == ss[i];
        }
      }
    }
  }

  // ---- Nothing of the pipeline is left out ----

  /** Over buffers an lcore or NIC can make exactly the moves it can make over packets. */
  lemma SameMoves(s: Buffers, v: Pipeline.State, m: Move)
    requires v.sys == MapSys(s.mem, s.sys)
    ensures IdEnabled(s, Make(m)) <==> Pipeline.Enabled(v, Pipeline.Step(m))
  {
    CanMapped(s.mem, s.sys, m);
    if Can(s.sys, m) {
      AgreesMapped(s, m);
    }
    hide MapSys, Can, IdAgrees, Pipeline.Agrees;
  }

  lemma IdRunOn(cfg: Config, n: nat, ss: seq<Buffers>, acts: seq<IdAction>, a: IdAction)
    requires IdRun(cfg, n, ss, acts) && IdEnabled(ss[|acts|], a)
    ensures IdRun(cfg, n, ss + [IdNext(cfg, ss[|acts|], a)], acts + [a])
  {
    hide IdEnabled, IdNext;
    var ss', acts' := ss + [IdNext(cfg, ss[|acts|], a)], acts + [a];
    forall i | 0 <= i < |acts'|
      ensures IdStep(cfg, ss'[i], acts'[i], ss'[i + 1])
    {
      if i < |acts| {
        assert IdStep(cfg, ss[i], acts[i], ss[i + 1]);
      }
    }
  }

  lemma PortsMapped(s: Buffers, v: Pipeline.State)
    requires v.sys == MapSys(s.mem, s.sys)
    ensures |s.sys.ports| == |v.sys.ports|
  {
  }

  /** While a buffer is free, any frame may arrive in it on any port; the buffer is then last in
      line there and no longer free. */
  lemma FreeBufferIsFilled(cfg: Config, n: nat, ss: seq<Buffers>, acts: seq<IdAction>, p: nat, id: Id, x: Pkt)
    requires Pipeline.ValidConfig(cfg) && IdRun(cfg, n, ss, acts) && p < MAX_PORTS && ss[|acts|].pool[id] > 0
    ensures var s := ss[|acts|];
            && IdEnabled(s, Fill(p, id, x))
            && var r := IdNext(cfg, s, Fill(p, id, x));
               && IdRun(cfg, n, ss + [r], acts + [Fill(p, id, x)])
               && r.sys.ports[p].nicRx == s.sys.ports[p].nicRx + [id] && r.mem(id) == x && r.pool[id] == 0
  {
    var s := ss[|acts|];
    hide IdRun, MapSys, PipelineLedger.IsRun, Pipeline.Inv;
    var vs, vacts := RunSimulates(cfg, n, ss, acts);
    var v := vs[|acts|];
    PipelineLedger.RunInv(cfg, vs, vacts, |acts|);
    ShapedOf(cfg, v);
    PortsMapped(s, v);
    EveryBufferOwnedOnce(cfg, n, ss, acts, |acts|);
    assert s.pool[id] <= 1;
    IdRunOn(cfg, n, ss, acts, Fill(p, id, x));
  }
}
