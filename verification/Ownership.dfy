/** The pipeline over numbered mbufs in a shared memory.

    Rings, NIC queues and local arrays hold buffer numbers; the packets live in `mem`, where
    an lcore writes in place. A free adds the number to the pool whether or not it is already
    there, so a double free would show as a number held twice.
  */
module Ownership {
  import opened Frames
  import opened Traffic
  import opened System

  type Id = nat

  datatype Buffers = Buffers(sys: Sys<Id>, pool: multiset<Id>, mem: Id -> Pkt)

  /** The NIC fills a free buffer with an arriving frame, or a hand-off takes place. */
  datatype IdAction = Fill(p: nat, id: Id, x: Pkt) | Make(m: Move)

  predicate IdAgrees(s: Buffers, m: Move)
    requires Can(s.sys, m)
  {
    match m
    case GroupTo(d) => d == s.mem(s.sys.collected[0]).port
    case Consume(w) => Marked(s.mem(s.sys.lanes[w].pkts[0]).frame)
    case Forward(w) => !Marked(s.mem(s.sys.lanes[w].pkts[0]).frame)
    case _ => true
  }

  ghost predicate IdEnabled(s: Buffers, a: IdAction) {
    match a
    case Fill(p, id, x) => p < |s.sys.ports| && s.pool[id] > 0
    case Make(m) => Can(s.sys, m) && IdAgrees(s, m)
  }

  /** The in-place writes of a move. */
  function Write(cfg: Config, s: Buffers, m: Move): Id -> Pkt
    requires Can(s.sys, m)
  {
    var mem := s.mem;
    match m
    case RxBurst(p, n) =>
      var xs := s.sys.ports[p].nicRx[..n];
      (i: Id) => if i in xs then mem(i).(port := p) else mem(i)
    case Consume(w) =>
      var id := s.sys.lanes[w].pkts[0];
      (i: Id) => if i == id then Decrypted(cfg, mem(id)) else mem(i)
    case Forward(w) =>
      var id := s.sys.lanes[w].pkts[0];
      (i: Id) => if i == id then Encrypted(cfg, mem(id)) else mem(i)
    case _ => mem
  }

  ghost function IdNext(cfg: Config, s: Buffers, a: IdAction): Buffers
    requires IdEnabled(s, a)
  {
    match a
    case Fill(p, id, x) =>
      Buffers(Arrive(s.sys, p, id), s.pool - multiset{id}, (i: Id) => if i == id then x else s.mem(i))
    case Make(m) =>
      Buffers(Do(s.sys, m), s.pool + multiset(Freed(s.sys, m)), Write(cfg, s, m))
  }

  // ---- How often a buffer is held ----

  ghost function In<T>(xs: seq<T>, x: T): nat {
    multiset(xs)[x]
  }

  ghost function InLane<T>(l: Lane<T>, x: T): nat {
    In(l.rxRing, x) + In(l.pkts, x) + In(l.encrypted, x) + In(l.trash, x) + In(l.retRing, x)
  }

  ghost function InPort<T>(p: Port<T>, x: T): nat {
    In(p.nicRx, x) + In(p.group, x) + In(p.nicTx, x)
  }

  ghost function InLanes<T>(ls: seq<Lane<T>>, x: T): nat {
    if ls == [] then 0 else InLane(ls[0], x) + InLanes(ls[1..], x)
  }

  ghost function InPorts<T>(ps: seq<Port<T>>, x: T): nat {
    if ps == [] then 0 else InPort(ps[0], x) + InPorts(ps[1..], x)
  }

  /** Over all rings, NIC queues and local arrays. */
  ghost function Held<T>(s: Sys<T>, x: T): nat {
    InLanes(s.lanes, x) + InPorts(s.ports, x) + In(s.received, x) + In(s.collected, x) + In(s.trash, x)
  }

  lemma {:induction false} InLanesUpdate<T>(ls: seq<Lane<T>>, i: nat, l: Lane<T>, x: T)
    requires i < |ls|
    ensures InLanes(ls[i := l], x) == InLanes(ls, x) - InLane(ls[i], x) + InLane(l, x)
    ensures InLane(ls[i], x) <= InLanes(ls, x)
  {
    hide InLane;
    if i > 0 {
      assert ls[i := l][1..] == ls[1..][i - 1 := l];
      InLanesUpdate(ls[1..], i - 1, l, x);
    } else {
      assert ls[i := l][1..] == ls[1..];
    }
  }

  lemma {:induction false} InPortsUpdate<T>(ps: seq<Port<T>>, i: nat, p: Port<T>, x: T)
    requires i < |ps|
    ensures InPorts(ps[i := p], x) == InPorts(ps, x) - InPort(ps[i], x) + InPort(p, x)
    ensures InPort(ps[i], x) <= InPorts(ps, x)
  {
    hide InPort;
    if i > 0 {
      assert ps[i := p][1..] == ps[1..][i - 1 := p];
      InPortsUpdate(ps[1..], i - 1, p, x);
    } else {
      assert ps[i := p][1..] == ps[1..];
    }
  }

  lemma Cut<T>(xs: seq<T>, n: nat, x: T)
    requires n <= |xs|
    ensures In(xs, x) == In(xs[..n], x) + In(xs[n..], x)
  {
    assert xs == xs[..n] + xs[n..];
  }

  lemma Join<T>(xs: seq<T>, ys: seq<T>, x: T)
    ensures In(xs + ys, x) == In(xs, x) + In(ys, x)
  {
  }

  lemma Nothing<T>(x: T)
    ensures In([], x) == 0
  {
  }

  // ---- Moves lose nothing and copy nothing ----

  lemma LaneMove<T>(s: Sys<T>, m: Move, w: nat, x: T)
    requires Can(s, m) && (m.Dequeue? || m.Consume? || m.Forward? || m.Enqueue? || m.WorkerFree?) && w == m.w
    ensures InLane(Do(s, m).lanes[w], x) + In(Freed(s, m), x) == InLane(s.lanes[w], x)
  {
    var l := s.lanes[w];
    Nothing(x);
    match m
    case Dequeue(_, n) => Cut(l.rxRing, n, x);
    case Consume(_) => Cut(l.pkts, 1, x);
    case Forward(_) =>
      Cut(l.pkts, 1, x);
      Join(l.encrypted, l.pkts[..1], x);
    case Enqueue(_, k) =>
      Cut(l.encrypted, k, x);
      Join(l.retRing, l.encrypted[..k], x);
    case WorkerFree(_) => Cut(l.trash, 1, x);
  }

  lemma IoMove<T>(s: Sys<T>, m: Move, x: T)
    requires Can(s, m) && (m.RxBurst? || m.Dispatch? || m.Collect? || m.IoFree?)
    ensures Held(Do(s, m), x) + In(Freed(s, m), x) == Held(s, x)
  {
    Nothing(x);
    match m
    case RxBurst(p, n) =>
      Cut(s.ports[p].nicRx, n, x);
      InPortsUpdate(s.ports, p, Do(s, m).ports[p], x);
    case Dispatch(w, k) =>
      Cut(s.received, k, x);
      Join(s.lanes[w].rxRing, s.received[..k], x);
      InLanesUpdate(s.lanes, w, Do(s, m).lanes[w], x);
    case Collect(w, n) =>
      Cut(s.lanes[w].retRing, n, x);
      InLanesUpdate(s.lanes, w, Do(s, m).lanes[w], x);
    case IoFree => Cut(s.trash, 1, x);
  }

  lemma SendMove<T>(s: Sys<T>, m: Move, x: T)
    requires Can(s, m) && (m.GroupTo? || m.Send? || m.TxDone?)
    ensures Held(Do(s, m), x) + In(Freed(s, m), x) == Held(s, x)
  {
    Nothing(x);
    match m
    case GroupTo(d) =>
      Cut(s.collected, 1, x);
      if Groupable(s, d) {
        Join(s.ports[d].group, s.collected[..1], x);
        InPortsUpdate(s.ports, d, Do(s, m).ports[d], x);
      }
    case Send(p, k) =>
      Cut(s.ports[p].group, k, x);
      Join(s.ports[p].nicTx, s.ports[p].group[..k], x);
      InPortsUpdate(s.ports, p, Do(s, m).ports[p], x);
    case TxDone(p) =>
      Cut(s.ports[p].nicTx, 1, x);
      InPortsUpdate(s.ports, p, Do(s, m).ports[p], x);
  }

  /** Every hand-off conserves every buffer: what is no longer held has been freed. */
  lemma MoveConserves<T>(s: Sys<T>, m: Move, x: T)
    requires Can(s, m)
    ensures Held(Do(s, m), x) + In(Freed(s, m), x) == Held(s, x)
  {
    if m.RxBurst? || m.Dispatch? || m.Collect? || m.IoFree? {
      IoMove(s, m, x);
    } else if m.GroupTo? || m.Send? || m.TxDone? {
      SendMove(s, m, x);
    } else {
      LaneMove(s, m, m.w, x);
      InLanesUpdate(s.lanes, m.w, Do(s, m).lanes[m.w], x);
    }
  }

  lemma ArriveAdds<T>(s: Sys<T>, p: nat, y: T, x: T)
    requires p < |s.ports|
    ensures Held(Arrive(s, p, y), x) == Held(s, x) + if x == y then 1 else 0
  {
    Join(s.ports[p].nicRx, [y], x);
    InPortsUpdate(s.ports, p, Arrive(s, p, y).ports[p], x);
  }

  // ---- The ownership invariant ----

  /** Each of the `n` buffers is in exactly one place. */
  ghost predicate Owned(n: nat, s: Buffers) {
    forall id: Id :: s.pool[id] + Held(s.sys, id) == if id < n then 1 else 0
  }

  ghost predicate IdStep(cfg: Config, s: Buffers, a: IdAction, r: Buffers) {
    IdEnabled(s, a) && r == IdNext(cfg, s, a)
  }

  ghost predicate IdRun(cfg: Config, n: nat, ss: seq<Buffers>, acts: seq<IdAction>) {
    && |ss| == |acts| + 1
    && ss[0].sys == Empty<Id>(cfg.workers, MAX_PORTS)
    && (forall id: Id :: ss[0].pool[id] == if id < n then 1 else 0)
    && forall i {:trigger acts[i]} | 0 <= i < |acts| :: IdStep(cfg, ss[i], acts[i], ss[i + 1])
  }

  lemma StepKeepsOwned(cfg: Config, n: nat, s: Buffers, a: IdAction)
    requires Owned(n, s) && IdEnabled(s, a)
    ensures Owned(n, IdNext(cfg, s, a))
  {
    hide Held, Write;
    var r := IdNext(cfg, s, a);
    forall id: Id
      ensures r.pool[id] + Held(r.sys, id) == s.pool[id] + Held(s.sys, id)
    {
      match a
      case Fill(p, i, x) => ArriveAdds(s.sys, p, i, id);
      case Make(m) => MoveConserves(s.sys, m, id);
    }
  }

  lemma {:induction false} EmptyHolds(cfg: Config, n: nat, ls: seq<Lane<Id>>, ps: seq<Port<Id>>, id: Id)
    requires forall i | 0 <= i < |ls| :: ls[i] == Lane([], [], [], [], [])
    requires forall i | 0 <= i < |ps| :: ps[i] == Port([], [], [])
    ensures InLanes(ls, id) == 0 && InPorts(ps, id) == 0
    decreases |ls| + |ps|
  {
    if ls != [] {
      EmptyHolds(cfg, n, ls[1..], ps, id);
    } else if ps != [] {
      EmptyHolds(cfg, n, ls, ps[1..], id);
    }
  }

  function PoolOf(n: nat): multiset<Id> {
    if n == 0 then multiset{} else PoolOf(n - 1) + multiset{n - 1}
  }

  lemma {:induction false} PoolHolds(n: nat, id: Id)
    ensures PoolOf(n)[id] == if id < n then 1 else 0
  {
    if n > 0 {
      PoolHolds(n - 1, id);
    }
  }

  /** Runs start with any number of buffers, whatever these hold. */
  lemma StartsWith(cfg: Config, n: nat, mem: Id -> Pkt) returns (s: Buffers)
    ensures IdRun(cfg, n, [s], []) && s.mem == mem
  {
    s := Buffers(Empty<Id>(cfg.workers, MAX_PORTS), PoolOf(n), mem);
    forall id: Id
      ensures s.pool[id] == if id < n then 1 else 0
    {
      PoolHolds(n, id);
    }
  }

  /** In every reachable state, whatever prefixes rings and NICs accept, each buffer is in
      exactly one of the pool, a NIC queue, a ring, and an lcore's hand. */
  lemma {:induction false} EveryBufferOwnedOnce(cfg: Config, n: nat, ss: seq<Buffers>, acts: seq<IdAction>, i: nat)
    requires IdRun(cfg, n, ss, acts) && i <= |acts|
    ensures Owned(n, ss[i])
  {
    if i == 0 {
      forall id: Id
        ensures Held(ss[0].sys, id) == 0
      {
        EmptyHolds(cfg, n, ss[0].sys.lanes, ss[0].sys.ports, id);
      }
    } else {
      hide IdNext, IdEnabled, Owned;
      EveryBufferOwnedOnce(cfg, n, ss, acts, i - 1);
      assert IdStep(cfg, ss[i - 1], acts[i - 1], ss[i]);
      StepKeepsOwned(cfg, n, ss[i - 1], acts[i - 1]);
    }
  }

  /** The buffers an lcore frees, reads or writes in a move. */
  ghost function Touched(s: Sys<Id>, m: Move): seq<Id>
    requires Can(s, m)
  {
    match m
    case RxBurst(p, n) => s.ports[p].nicRx[..n]
    case GroupTo(d) => s.collected[..1]
    case Send(p, k) => s.ports[p].group
    case Consume(w) => s.lanes[w].pkts[..1]
    case Forward(w) => s.lanes[w].pkts[..1]
    case _ => Freed(s, m)
  }

  /** Nothing else is written or freed, and nothing else is looked at: neither to choose the move nor to
      count marks. */
  lemma TouchedIsAll(cfg: Config, s: Buffers, m: Move, mem: Id -> Pkt)
    requires Can(s.sys, m) && forall id | id in Touched(s.sys, m) :: mem(id) == s.mem(id)
    ensures forall id | id !in Touched(s.sys, m) :: Write(cfg, s, m)(id) == s.mem(id)
    ensures forall id | id in Freed(s.sys, m) :: id in Touched(s.sys, m)
    ensures IdAgrees(s.(mem := mem), m) == IdAgrees(s, m)
    ensures m.Send? ==> forall id | id in s.sys.ports[m.p].group :: mem(id) == s.mem(id)
  {
    hide Encrypted, Decrypted, Marked;
    if m.GroupTo? {
      assert s.sys.collected[0] in Touched(s.sys, m);
    } else if m.Consume? || m.Forward? {
      assert s.sys.lanes[m.w].pkts[0] in Touched(s.sys, m);
    }
  }

  lemma TouchedHeld(s: Sys<Id>, m: Move, id: Id)
    requires Can(s, m) && id in Touched(s, m)
    ensures Held(s, id) > 0
  {
    hide InLanes, InPorts;
    match m
    case RxBurst(p, n) =>
      Cut(s.ports[p].nicRx, n, id);
      InPortsUpdate(s.ports, p, s.ports[p], id);
    case GroupTo(d) => Cut(s.collected, 1, id);
    case Send(p, k) => InPortsUpdate(s.ports, p, s.ports[p], id);
    case Consume(w) =>
      Cut(s.lanes[w].pkts, 1, id);
      InLanesUpdate(s.lanes, w, s.lanes[w], id);
    case Forward(w) =>
      Cut(s.lanes[w].pkts, 1, id);
      InLanesUpdate(s.lanes, w, s.lanes[w], id);
    case IoFree => Cut(s.trash, 1, id);
    case WorkerFree(w) =>
      Cut(s.lanes[w].trash, 1, id);
      InLanesUpdate(s.lanes, w, s.lanes[w], id);
    case TxDone(p) =>
      Cut(s.ports[p].nicTx, 1, id);
      InPortsUpdate(s.ports, p, s.ports[p], id);
    case _ =>
  }

  /** No run frees a buffer that is free already, frees one twice, or touches a freed one. */
  lemma NoUseAfterFree(cfg: Config, n: nat, ss: seq<Buffers>, acts: seq<IdAction>, i: nat)
    requires IdRun(cfg, n, ss, acts) && i < |acts| && acts[i].Make?
    ensures Can(ss[i].sys, acts[i].m)
    ensures forall id | id in Touched(ss[i].sys, acts[i].m) :: ss[i].pool[id] == 0 && Held(ss[i].sys, id) == 1
    ensures forall id | id in Freed(ss[i].sys, acts[i].m) :: ss[i + 1].pool[id] == 1 && Held(ss[i + 1].sys, id) == 0
  {
    hide Held, Write;
    EveryBufferOwnedOnce(cfg, n, ss, acts, i);
    EveryBufferOwnedOnce(cfg, n, ss, acts, i + 1);
    assert IdStep(cfg, ss[i], acts[i], ss[i + 1]);
    var s, m := ss[i], acts[i].m;
    forall id | id in Touched(s.sys, m)
      ensures s.pool[id] == 0 && Held(s.sys, id) == 1
    {
      TouchedHeld(s.sys, m, id);
    }
    forall id | id in Freed(s.sys, m)
      ensures ss[i + 1].pool[id] == 1 && Held(ss[i + 1].sys, id) == 0
    {
      assert multiset(Freed(s.sys, m))[id] > 0;
      assert ss[i + 1].pool[id] > 0;
    }
  }
}
