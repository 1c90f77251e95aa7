/** The loop of the I/O lcore makes moves of the pipeline, like those of the workers. */
module IoMoves {
  import opened Prelude
  import opened Frames
  import opened Traffic
  import opened System
  import opened Pipeline
  import opened Mbufs
  import opened IoLoop
  import opened LoopMoves

  predicate OfIo(a: Action) {
    a.Step? && (a.m.RxBurst? || a.m.Dispatch? || a.m.Collect? || a.m.GroupTo? || a.m.Send? || a.m.IoFree?)
  }

  ghost predicate AllOfIo(acts: seq<Action>) {
    forall i | 0 <= i < |acts| :: OfIo(acts[i])
  }

  /** A hand-off is the I/O lcore's, one worker's, or a NIC's. */
  lemma OneActor(a: Action)
    ensures forall w: nat, v: nat | OfWorker(a, w) && OfWorker(a, v) :: w == v
    ensures OfIo(a) ==> forall w: nat :: !OfWorker(a, w)
    ensures a.Step? && !a.m.TxDone? ==> OfIo(a) || exists w: nat :: OfWorker(a, w)
    ensures !a.Step? || a.m.TxDone? ==> !OfIo(a) && forall w: nat :: !OfWorker(a, w)
  {
    if a.Step? && !a.m.TxDone? && !OfIo(a) {
      assert OfWorker(a, a.m.w);
    }
  }

  /** The I/O lcore takes the pipeline from `v` to a state `r` with these contents and counters. */
  ghost predicate IoTakes(cfg: Config, v: State, acts: seq<Action>, r: State, sys: Sys<Pkt>, c: Counters) {
    Shaped(cfg, v) && Shaped(cfg, r) && Leads(cfg, v, acts, r) && AllOfIo(acts) && r.sys == sys && r.c == c
  }

  lemma IoNone(cfg: Config, v: State)
    requires Shaped(cfg, v)
    ensures IoTakes(cfg, v, [], v, v.sys, v.c)
  {
  }

  lemma IoOne(cfg: Config, v: State, a: Action)
    requires Shaped(cfg, v) && Enabled(v, a) && OfIo(a)
    ensures IoTakes(cfg, v, [a], Next(cfg, v, a), Next(cfg, v, a).sys, Next(cfg, v, a).c)
  {
    LeadsOne(cfg, v, a);
    hide Leads, Next, Enabled, Shaped;
  }

  lemma IoThen(cfg: Config, v: State, a: seq<Action>, m: State, sys: Sys<Pkt>, c: Counters,
               b: seq<Action>, r: State, sys': Sys<Pkt>, c': Counters)
    requires IoTakes(cfg, v, a, m, sys, c) && IoTakes(cfg, m, b, r, sys', c')
    ensures IoTakes(cfg, v, a + b, r, sys', c')
  {
    LeadsOn(cfg, v, a, m, b, r);
    hide Leads, Shaped, OfIo;
  }

  lemma IoTo(cfg: Config, v: State, acts: seq<Action>, r: State, sys: Sys<Pkt>, c: Counters)
    requires IoTakes(cfg, v, acts, r, sys, c)
    ensures Shaped(cfg, r) && r.sys == sys && r.c == c
  {
  }

  /** Frees what was refused, packet by packet. */
  lemma {:induction false} FreeTrash(cfg: Config, v: State) returns (acts: seq<Action>, r: State)
    requires Shaped(cfg, v)
    ensures IoTakes(cfg, v, acts, r, v.sys.(trash := []), v.c)
    decreases |v.sys.trash|
  {
    if v.sys.trash == [] {
      acts, r := [], v;
      IoNone(cfg, v);
      assert v.sys.(trash := []) == v.sys;
    } else {
      var a := Step(IoFree);
      IoOne(cfg, v, a);
      var m := Next(cfg, v, a);
      assert m.sys == v.sys.(trash := v.sys.trash[1..]) && m.c == v.c;
      hide IoTakes, Next, Shaped;
      var b, e := FreeTrash(cfg, m);
      IoThen(cfg, v, [a], m, m.sys, m.c, b, e, v.sys.(trash := []), v.c);
      acts, r := [a] + b, e;
    }
  }

  // ---- Reception ----

  /** A burst of `n` from port `p` received; its first `k` packets in the ring of worker `w`. */
  function Received(s: Sys<Pkt>, p: nat, w: nat, n: nat, k: nat): Sys<Pkt>
    requires p < |s.ports| && w < |s.lanes| && n <= |s.ports[p].nicRx| && k <= n
  {
    var port, lane := s.ports[p], s.lanes[w];
    s.(ports := s.ports[p := port.(nicRx := port.nicRx[n..])],
       lanes := s.lanes[w := lane.(rxRing := lane.rxRing + OnPort(port.nicRx[..n], p)[..k])])
  }

  function ReceivedCounters(c: Counters, p: nat, w: nat, n: nat, k: nat): Counters
    requires p < |c.rx| && w < |c.rxRingDropped| && k <= n
  {
    c.(rx := Bump(c.rx, p, n), rxRingDropped := Bump(c.rxRingDropped, w, n - k))
  }

  lemma RxOne(cfg: Config, v: State, p: nat, n: nat)
    requires Shaped(cfg, v) && IoAtHead(v.sys) && p < MAX_PORTS && 1 <= n <= BURST && n <= |v.sys.ports[p].nicRx|
    ensures Enabled(v, Step(RxBurst(p, n)))
    ensures var port, r := v.sys.ports[p], Next(cfg, v, Step(RxBurst(p, n)));
            && r.sys == v.sys.(ports := v.sys.ports[p := port.(nicRx := port.nicRx[n..])],
                               received := OnPort(port.nicRx[..n], p))
            && r.c == v.c.(rx := Bump(v.c.rx, p, n))
  {
    var port := v.sys.ports[p];
    var xs := OnPort(port.nicRx[..n], p);
    assert (xs + port.nicRx[n..])[n..] == port.nicRx[n..] && (xs + port.nicRx[n..])[..n] == xs;
  }

  lemma DispatchOne(cfg: Config, v: State, w: nat, k: nat)
    requires Shaped(cfg, v) && w < cfg.workers && v.sys.received != [] && v.sys.trash == []
    requires k <= |v.sys.received| && |v.sys.lanes[w].rxRing| + k <= RING_USABLE
    ensures Enabled(v, Step(Dispatch(w, k)))
    ensures var lane, r := v.sys.lanes[w], Next(cfg, v, Step(Dispatch(w, k)));
            && r.sys == v.sys.(lanes := v.sys.lanes[w := lane.(rxRing := lane.rxRing + v.sys.received[..k])],
                               received := [], trash := v.sys.received[k..])
            && r.c == v.c.(rxRingDropped := Bump(v.c.rxRingDropped, w, |v.sys.received| - k))
  {
  }

  lemma ReceptionIsMoves(cfg: Config, v: State, p: nat, w: nat, n: nat, k: nat) returns (acts: seq<Action>, r: State)
    requires Shaped(cfg, v) && IoAtHead(v.sys) && p < MAX_PORTS && w < cfg.workers
    requires 1 <= n <= BURST && n <= |v.sys.ports[p].nicRx| && k <= n && |v.sys.lanes[w].rxRing| + k <= RING_USABLE
    ensures IoTakes(cfg, v, acts, r, Received(v.sys, p, w, n, k), ReceivedCounters(v.c, p, w, n, k))
  {
    var a, b := Step(RxBurst(p, n)), Step(Dispatch(w, k));
    RxOne(cfg, v, p, n);
    IoOne(cfg, v, a);
    var m := Next(cfg, v, a);
    DispatchOne(cfg, m, w, k);
    IoOne(cfg, m, b);
    var m' := Next(cfg, m, b);
    hide IoTakes, Next, Enabled, OnPort;
    assert m'.sys.(trash := []) == Received(v.sys, p, w, n, k) && m'.c == ReceivedCounters(v.c, p, w, n, k);
    hide Received, ReceivedCounters;
    var c, e := FreeTrash(cfg, m');
    IoThen(cfg, v, [a], m, m.sys, m.c, [b], m', m'.sys, m'.c);
    IoThen(cfg, v, [a] + [b], m', m'.sys, m'.c, c, e, m'.sys.(trash := []), m'.c);
    acts, r := [a] + [b] + c, e;
  }

  /** The lcore's counters are those of `v`, and the ring of worker `w` holds that of `v`. */
  ghost predicate Feeds(io: IoLcore, cfg: Config, v: State, w: nat)
    requires w < |io.rxToCrypto|
    reads io, io.rxToCrypto[w], io.rxToCrypto[w].q
  {
    && Shaped(cfg, v) && w < cfg.workers && IoAtHead(v.sys)
    && Shows(io.rxToCrypto[w].q, v.sys.lanes[w].rxRing)
    && io.rx == v.c.rx && io.rxRingDropped == v.c.rxRingDropped
  }

  /** The I/O lcore starts at the start of the pipeline. */
  method StartIo(cfg: Config, w: nat, pool: Pool, nic: Nic, rings: seq<Ring>, returnRings: seq<Ring>)
      returns (io: IoLcore)
    requires w < cfg.workers == |rings| && rings[w].q == []
    ensures io.rxToCrypto == rings && Feeds(io, cfg, Init(cfg), w)
    ensures io.tx == Init(cfg).c.tx && io.txEncryptedMarked == Init(cfg).c.txMarked
  {
    io := new IoLcore(pool, nic, rings, returnRings);
  }

  lemma ReceptionLeaves(cfg: Config, v: State, p: nat, w: nat, n: nat, k: nat) returns (acts: seq<Action>, r: State)
    requires Shaped(cfg, v) && IoAtHead(v.sys) && p < MAX_PORTS && w < cfg.workers
    requires 1 <= n <= BURST && n <= |v.sys.ports[p].nicRx| && k <= n && |v.sys.lanes[w].rxRing| + k <= RING_USABLE
    ensures IoTakes(cfg, v, acts, r, Received(v.sys, p, w, n, k), ReceivedCounters(v.c, p, w, n, k))
    ensures Shaped(cfg, r) && IoAtHead(r.sys)
    ensures r.sys.lanes[w].rxRing == v.sys.lanes[w].rxRing + OnPort(v.sys.ports[p].nicRx[..n], p)[..k]
    ensures r.c.rx == Bump(v.c.rx, p, n) && r.c.rxRingDropped == Bump(v.c.rxRingDropped, w, n - k)
  {
    acts, r := ReceptionIsMoves(cfg, v, p, w, n, k);
    IoTo(cfg, v, acts, r, Received(v.sys, p, w, n, k), ReceivedCounters(v.c, p, w, n, k));
    hide IoTakes, OnPort;
  }

  /** Run without interruption, the receive half takes counters and ring of one state to those of a
      state reached by moves of the I/O lcore. */
  method RunReceive(io: IoLcore, ghost cfg: Config, portid: nat, w: nat, burst: seq<Mbuf>, ghost v: State)
      returns (enqueued: nat, ghost acts: seq<Action>, ghost r: State)
    requires w < |io.rxToCrypto| == cfg.workers && Feeds(io, cfg, v, w) && portid < MAX_PORTS
    requires 1 <= |burst| <= BURST && |burst| <= |v.sys.ports[portid].nicRx|
    requires Shows(burst, v.sys.ports[portid].nicRx[..|burst|]) && |v.sys.lanes[w].rxRing| <= RING_USABLE
    requires Distinct(burst) && Apart(burst, io.rxToCrypto[w].q)
    modifies io`rx, io`rxRingDropped, io.rxToCrypto[w], io.pool, burst
    ensures Feeds(io, cfg, r, w) && enqueued <= |burst|
    ensures IoTakes(cfg, v, acts, r, Received(v.sys, portid, w, |burst|, enqueued),
                    ReceivedCounters(v.c, portid, w, |burst|, enqueued))
  {
    hide Shows, Distinct, Apart, OnPort, IoTakes, Received, ReceivedCounters;
    ghost var n, ys := |burst|, v.sys.lanes[w].rxRing;
    ghost var xs := v.sys.ports[portid].nicRx[..n];
    enqueued := io.Receive(portid, w, burst, xs, ys);
    acts, r := ReceptionLeaves(cfg, v, portid, w, n, enqueued);
    hide Shaped, IoAtHead;
  }

  // ---- Grouping ----

  /** Every send group with the packets for its port added. */
  function Joined(ports: seq<Port<Pkt>>, xs: seq<Pkt>): (r: seq<Port<Pkt>>)
    ensures |r| == |ports|
  {
    seq(|ports|, q requires 0 <= q < |ports| => ports[q].(group := ports[q].group + ToPort(xs, q)))
  }

  ghost predicate GroupsFit(ports: seq<Port<Pkt>>, n: nat) {
    forall q | 0 <= q < |ports| :: |ports[q].group| + n <= BURST
  }

  lemma GroupOne(cfg: Config, v: State)
    requires Shaped(cfg, v) && v.sys.collected != [] && v.sys.trash == [] && GroupsFit(v.sys.ports, 1)
    ensures var x, d := v.sys.collected[0], v.sys.collected[0].port;
            && Enabled(v, Step(GroupTo(d)))
            && var r := Next(cfg, v, Step(GroupTo(d)));
               && r.c == v.c
               && r.sys == if d < MAX_PORTS
                           then v.sys.(collected := v.sys.collected[1..],
                                       ports := v.sys.ports[d := v.sys.ports[d].(group := v.sys.ports[d].group + [x])])
                           else v.sys.(collected := v.sys.collected[1..], trash := [x])
  {
    assert v.sys.collected[..1] == [v.sys.collected[0]];
  }

  /** The first packet in the group of its port, if it has one. */
  function JoinOne(ports: seq<Port<Pkt>>, x: Pkt): seq<Port<Pkt>> {
    if x.port < |ports| then ports[x.port := ports[x.port].(group := ports[x.port].group + [x])] else ports
  }

  lemma JoinedFirst(ports: seq<Port<Pkt>>, x: Pkt, xs: seq<Pkt>)
    ensures Joined(ports, [x] + xs) == Joined(JoinOne(ports, x), xs)
  {
    var ports' := JoinOne(ports, x);
    forall q | 0 <= q < |ports|
      ensures ports[q].group + ToPort([x] + xs, q) == ports'[q].group + ToPort(xs, q)
    {
      ToPortFirst([x] + xs, q);
      assert ([x] + xs)[1..] == xs;
      Reassociate(ports[q].group, [x], ToPort(xs, q));
    }
  }

  lemma JoinedNone(ports: seq<Port<Pkt>>)
    ensures Joined(ports, []) == ports
  {
    forall q | 0 <= q < |ports|
      ensures ports[q].(group := ports[q].group + ToPort([], q)) == ports[q]
    {
      assert ports[q].group + [] == ports[q].group;
    }
  }

  /** One collected packet joins its group or is freed. */
  lemma GroupStep(cfg: Config, v: State) returns (acts: seq<Action>, r: State)
    requires Shaped(cfg, v) && v.sys.collected != [] && v.sys.trash == [] && GroupsFit(v.sys.ports, |v.sys.collected|)
    ensures IoTakes(cfg, v, acts, r, r.sys, v.c)
    ensures r.sys.collected == v.sys.collected[1..] && r.sys.trash == [] && GroupsFit(r.sys.ports, |r.sys.collected|)
    ensures r.sys.(collected := [], ports := Joined(r.sys.ports, r.sys.collected))
         == v.sys.(collected := [], ports := Joined(v.sys.ports, v.sys.collected))
  {
    var xs := v.sys.collected;
    var a := Step(GroupTo(xs[0].port));
    GroupOne(cfg, v);
    JoinedFirst(v.sys.ports, xs[0], xs[1..]);
    assert xs == [xs[0]] + xs[1..] && |v.sys.ports| == MAX_PORTS;
    IoOne(cfg, v, a);
    var m := Next(cfg, v, a);
    hide IoTakes, Next, Enabled, Shaped, Joined;
    if xs[0].port < MAX_PORTS {
      acts, r := [a], m;
    } else {
      var b, e := FreeTrash(cfg, m);
      IoTo(cfg, m, b, e, m.sys.(trash := []), m.c);
      IoThen(cfg, v, [a], m, m.sys, m.c, b, e, m.sys.(trash := []), m.c);
      acts, r := [a] + b, e;
    }
  }

  lemma {:induction false} GroupAll(cfg: Config, v: State) returns (acts: seq<Action>, r: State)
    requires Shaped(cfg, v) && v.sys.trash == [] && GroupsFit(v.sys.ports, |v.sys.collected|)
    ensures IoTakes(cfg, v, acts, r, v.sys.(collected := [], ports := Joined(v.sys.ports, v.sys.collected)), v.c)
    decreases |v.sys.collected|
  {
    hide IoTakes, Joined, GroupsFit;
    if v.sys.collected == [] {
      acts, r := [], v;
      IoNone(cfg, v);
      JoinedNone(v.sys.ports);
    } else {
      var a, m := GroupStep(cfg, v);
      IoTo(cfg, v, a, m, m.sys, v.c);
      hide Shaped;
      var b, e := GroupAll(cfg, m);
      var sys := m.sys.(collected := [], ports := Joined(m.sys.ports, m.sys.collected));
      IoThen(cfg, v, a, m, m.sys, v.c, b, e, sys, v.c);
      acts, r := a + b, e;
    }
  }

  // ---- Transmission ----

  /** The first `p` ports have sent: their NICs have taken `accepted` of each group. */
  function SentUpTo(ports: seq<Port<Pkt>>, accepted: seq<nat>, p: nat): (r: seq<Port<Pkt>>)
    requires |accepted| == |ports| && forall q | 0 <= q < |ports| :: accepted[q] <= |ports[q].group|
    ensures |r| == |ports|
  {
    seq(|ports|, q requires 0 <= q < |ports| =>
      if q < p then ports[q].(group := [], nicTx := ports[q].nicTx + ports[q].group[..accepted[q]]) else ports[q])
  }

  ghost function CountedUpTo(c: Counters, ports: seq<Port<Pkt>>, accepted: seq<nat>, p: nat): Counters
    requires |accepted| == |c.tx| == |ports| && p <= |ports|
  {
    c.(tx := seq(|c.tx|, q requires 0 <= q < |c.tx| => if q < p then c.tx[q] + accepted[q] else c.tx[q]),
       txMarked := c.txMarked + MarksIn(Pipeline.Groups(ports)[..p]))
  }

  lemma SendOne(cfg: Config, v: State, p: nat, k: nat)
    requires Shaped(cfg, v) && p < MAX_PORTS && v.sys.collected == [] && v.sys.trash == []
    requires v.sys.ports[p].group != [] && k <= |v.sys.ports[p].group|
    requires forall r | 0 <= r < p :: v.sys.ports[r].group == []
    ensures Enabled(v, Step(Send(p, k)))
    ensures var port, r := v.sys.ports[p], Next(cfg, v, Step(Send(p, k)));
            && r.sys == v.sys.(ports := v.sys.ports[p := port.(group := [], nicTx := port.nicTx + port.group[..k])],
                               trash := port.group[k..])
            && r.c == v.c.(txMarked := v.c.txMarked + CountMarked(port.group), tx := Bump(v.c.tx, p, k))
  {
  }

  lemma SentNext(ports: seq<Port<Pkt>>, accepted: seq<nat>, p: nat)
    requires |accepted| == |ports| && (forall q | 0 <= q < |ports| :: accepted[q] <= |ports[q].group|) && p < |ports|
    ensures var before, port := SentUpTo(ports, accepted, p), ports[p];
            && before[p] == port && (forall q | 0 <= q < p :: before[q].group == [])
            && SentUpTo(ports, accepted, p + 1)
               == before[p := port.(group := [], nicTx := port.nicTx + port.group[..accepted[p]])]
            && (port.group == [] ==> SentUpTo(ports, accepted, p + 1) == before)
  {
    var port := ports[p];
    assert port.group == [] ==> port.(group := [], nicTx := port.nicTx + port.group[..accepted[p]]) == port;
  }

  lemma MarksNext(shown: seq<seq<Pkt>>, p: nat)
    requires p < |shown|
    ensures MarksIn(shown[..p + 1]) == MarksIn(shown[..p]) + CountMarked(shown[p])
  {
    assert shown[..p + 1][..p] == shown[..p];
  }

  lemma CountedNext(c: Counters, ports: seq<Port<Pkt>>, accepted: seq<nat>, p: nat)
    requires |accepted| == |c.tx| == |ports| && p < |ports|
    ensures var before := CountedUpTo(c, ports, accepted, p);
            CountedUpTo(c, ports, accepted, p + 1)
            == before.(txMarked := before.txMarked + CountMarked(ports[p].group), tx := Bump(before.tx, p, accepted[p]))
  {
    MarksNext(Pipeline.Groups(ports), p);
    var before, after := CountedUpTo(c, ports, accepted, p), CountedUpTo(c, ports, accepted, p + 1);
    assert after.tx == Bump(before.tx, p, accepted[p]);
    hide CountMarked, MarksIn;
  }

  /** One port's group is offered to its NIC and what is refused freed. */
  lemma SendPort(cfg: Config, v: State, p: nat, k: nat) returns (acts: seq<Action>, r: State)
    requires Shaped(cfg, v) && p < MAX_PORTS && v.sys.collected == [] && v.sys.trash == []
    requires k <= |v.sys.ports[p].group| && forall r | 0 <= r < p :: v.sys.ports[r].group == []
    ensures var port := v.sys.ports[p];
            IoTakes(cfg, v, acts, r,
                    v.sys.(ports := v.sys.ports[p := port.(group := [], nicTx := port.nicTx + port.group[..k])]),
                    v.c.(txMarked := v.c.txMarked + CountMarked(port.group), tx := Bump(v.c.tx, p, k)))
  {
    var port := v.sys.ports[p];
    var sys := v.sys.(ports := v.sys.ports[p := port.(group := [], nicTx := port.nicTx + port.group[..k])]);
    var c := v.c.(txMarked := v.c.txMarked + CountMarked(port.group), tx := Bump(v.c.tx, p, k));
    if port.group == [] {
      acts, r := [], v;
      IoNone(cfg, v);
      assert port.nicTx + [] == port.nicTx && sys.ports == v.sys.ports && c.tx == v.c.tx;
    } else {
      SendOne(cfg, v, p, k);
      var a := Step(Send(p, k));
      IoOne(cfg, v, a);
      var m := Next(cfg, v, a);
      hide IoTakes, Next, Enabled, CountMarked, Bump;
      var b, e := FreeTrash(cfg, m);
      assert m.sys.(trash := []) == sys && m.c == c;
      IoThen(cfg, v, [a], m, m.sys, m.c, b, e, sys, c);
      acts, r := [a] + b, e;
    }
  }

  lemma {:induction false} SendUpTo(cfg: Config, v: State, accepted: seq<nat>, p: nat)
      returns (acts: seq<Action>, r: State)
    requires Shaped(cfg, v) && v.sys.collected == [] && v.sys.trash == [] && |accepted| == MAX_PORTS && p <= MAX_PORTS
    requires forall q | 0 <= q < MAX_PORTS :: accepted[q] <= |v.sys.ports[q].group|
    ensures IoTakes(cfg, v, acts, r, v.sys.(ports := SentUpTo(v.sys.ports, accepted, p)),
                    CountedUpTo(v.c, v.sys.ports, accepted, p))
  {
    var ports := v.sys.ports;
    if p == 0 {
      acts, r := [], v;
      IoNone(cfg, v);
      assert SentUpTo(ports, accepted, 0) == ports;
      assert CountedUpTo(v.c, ports, accepted, 0).tx == v.c.tx;
    } else {
      var a, m := SendUpTo(cfg, v, accepted, p - 1);
      var sys, c := v.sys.(ports := SentUpTo(ports, accepted, p - 1)), CountedUpTo(v.c, ports, accepted, p - 1);
      IoTo(cfg, v, a, m, sys, c);
      SentNext(ports, accepted, p - 1);
      CountedNext(v.c, ports, accepted, p - 1);
      hide SentUpTo, CountedUpTo, IoTakes;
      var b, e := SendPort(cfg, m, p - 1, accepted[p - 1]);
      IoThen(cfg, v, a, m, sys, c,
             b, e, v.sys.(ports := SentUpTo(ports, accepted, p)), CountedUpTo(v.c, ports, accepted, p));
      acts, r := a + b, e;
    }
  }

  // ---- One returned burst ----

  /** A burst of `n` taken from the return ring of worker `w` and sent, as far as accepted. */
  ghost function Transmitted(s: Sys<Pkt>, w: nat, n: nat, accepted: seq<nat>): Sys<Pkt>
    requires w < |s.lanes| && n <= |s.lanes[w].retRing| && |s.ports| == MAX_PORTS
    requires Within(accepted, Shares(s.lanes[w].retRing[..n]))
  {
    var lane := s.lanes[w];
    var shown := Shares(lane.retRing[..n]);
    s.(lanes := s.lanes[w := lane.(retRing := lane.retRing[n..])],
       ports := seq(MAX_PORTS, q requires 0 <= q < MAX_PORTS =>
                  s.ports[q].(nicTx := s.ports[q].nicTx + shown[q][..accepted[q]])))
  }

  ghost function TransmittedCounters(c: Counters, xs: seq<Pkt>, accepted: seq<nat>): Counters
    requires |accepted| == |c.tx|
  {
    c.(tx := seq(|c.tx|, q requires 0 <= q < |c.tx| => c.tx[q] + accepted[q]),
       txMarked := c.txMarked + MarksIn(Shares(xs)))
  }

  lemma CollectOne(cfg: Config, v: State, w: nat, n: nat)
    requires Shaped(cfg, v) && IoAtHead(v.sys) && w < cfg.workers && 1 <= n <= BURST && n <= |v.sys.lanes[w].retRing|
    ensures Enabled(v, Step(Collect(w, n)))
    ensures var lane, r := v.sys.lanes[w], Next(cfg, v, Step(Collect(w, n)));
            && r.sys == v.sys.(lanes := v.sys.lanes[w := lane.(retRing := lane.retRing[n..])],
                               collected := lane.retRing[..n])
            && r.c == v.c
  {
  }

  lemma JoinedGroups(ports: seq<Port<Pkt>>, xs: seq<Pkt>)
    requires forall q | 0 <= q < |ports| :: ports[q].group == []
    ensures forall q | 0 <= q < |ports| :: Joined(ports, xs)[q] == ports[q].(group := ToPort(xs, q))
  {
    forall q | 0 <= q < |ports|
      ensures ports[q].group + ToPort(xs, q) == ToPort(xs, q)
    {
    }
  }

  lemma SentAll(ports: seq<Port<Pkt>>, joined: seq<Port<Pkt>>, xs: seq<Pkt>, accepted: seq<nat>, c: Counters)
    requires |joined| == |ports| == |c.tx| == MAX_PORTS && Within(accepted, Shares(xs))
    requires forall q | 0 <= q < |ports| :: ports[q].group == [] && joined[q] == ports[q].(group := ToPort(xs, q))
    ensures SentUpTo(joined, accepted, MAX_PORTS)
         == seq(MAX_PORTS, q requires 0 <= q < MAX_PORTS =>
                  ports[q].(nicTx := ports[q].nicTx + Shares(xs)[q][..accepted[q]]))
    ensures CountedUpTo(c, joined, accepted, MAX_PORTS) == TransmittedCounters(c, xs, accepted)
  {
    hide MarksIn, ToPort, Shares;
    assert Pipeline.Groups(joined)[..MAX_PORTS] == Shares(xs);
    assert CountedUpTo(c, joined, accepted, MAX_PORTS).tx == TransmittedCounters(c, xs, accepted).tx;
  }

  lemma ReturnIsMoves(cfg: Config, v: State, w: nat, n: nat, accepted: seq<nat>) returns (acts: seq<Action>, r: State)
    requires Shaped(cfg, v) && IoAtHead(v.sys) && w < cfg.workers && 1 <= n <= BURST && n <= |v.sys.lanes[w].retRing|
    requires Within(accepted, Shares(v.sys.lanes[w].retRing[..n]))
    ensures IoTakes(cfg, v, acts, r, Transmitted(v.sys, w, n, accepted),
                    TransmittedCounters(v.c, v.sys.lanes[w].retRing[..n], accepted))
    ensures Shaped(cfg, r) && IoAtHead(r.sys)
  {
    var xs, ports := v.sys.lanes[w].retRing[..n], v.sys.ports;
    var a := Step(Collect(w, n));
    CollectOne(cfg, v, w, n);
    IoOne(cfg, v, a);
    var m := Next(cfg, v, a);
    assert m.sys.ports == ports && m.sys.collected == xs && m.sys.trash == [];
    hide Next, Enabled, IoTakes, Joined, MarksIn, ToPort, Shares;
    JoinedGroups(ports, xs);
    var b, m' := GroupAll(cfg, m);
    var sys' := m.sys.(collected := [], ports := Joined(ports, xs));
    IoTo(cfg, m, b, m', sys', v.c);
    var c, e := SendUpTo(cfg, m', accepted, MAX_PORTS);
    SentAll(ports, Joined(ports, xs), xs, accepted, v.c);
    var sys, cs := Transmitted(v.sys, w, n, accepted), TransmittedCounters(v.c, xs, accepted);
    assert sys'.(ports := SentUpTo(Joined(ports, xs), accepted, MAX_PORTS)) == sys;
    IoThen(cfg, v, [a], m, m.sys, v.c, b, m', sys', v.c);
    IoThen(cfg, v, [a] + b, m', sys', v.c, c, e, sys, cs);
    acts, r := [a] + b + c, e;
    IoTo(cfg, v, acts, r, sys, cs);
  }

  /** What the NICs of `v` have queued. */
  ghost function Queues(v: State): (r: seq<seq<Pkt>>)
    ensures |r| == |v.sys.ports| && forall q | 0 <= q < |r| :: r[q] == v.sys.ports[q].nicTx
  {
    seq(|v.sys.ports|, q requires 0 <= q < |v.sys.ports| => v.sys.ports[q].nicTx)
  }

  lemma SameQueues(txq: seq<seq<Mbuf>>, v: State)
    requires AllShow(txq, Queues(v))
    ensures |txq| == |Queues(v)|
  {
  }

  lemma QueuesAfter(v: State, w: nat, n: nat, accepted: seq<nat>, r: State)
    requires w < |v.sys.lanes| && n <= |v.sys.lanes[w].retRing| && |v.sys.ports| == MAX_PORTS
    requires Within(accepted, Shares(v.sys.lanes[w].retRing[..n])) && r.sys == Transmitted(v.sys, w, n, accepted)
    ensures Queues(r) == After(Queues(v), Shares(v.sys.lanes[w].retRing[..n]), accepted)
  {
    hide Shares;
  }

  // ---- The parts of an iteration, with the other lcores free to move in between ----

  /** What the others do leaves the I/O lcore's hand and counters alone ... */
  lemma OthersLeaveIo(cfg: Config, v: State, a: Action)
    requires Shaped(cfg, v) && Enabled(v, a) && !OfIo(a)
    ensures var s, r := v.sys, Next(cfg, v, a);
            && r.sys.received == s.received && r.sys.collected == s.collected && r.sys.trash == s.trash
            && (forall p | 0 <= p < MAX_PORTS :: r.sys.ports[p].group == s.ports[p].group)
            && r.c.rx == v.c.rx && r.c.tx == v.c.tx && r.c.txMarked == v.c.txMarked
            && r.c.rxRingDropped == v.c.rxRingDropped
  {
  }

  lemma ArriveAtEnd(s: Sys<Pkt>, q: nat, x: Pkt, p: nat)
    requires q < |s.ports| && p < |s.ports|
    ensures var r := Arrive(s, q, x);
            r.lanes == s.lanes && s.ports[p].nicRx <= r.ports[p].nicRx && r.ports[p].nicTx == s.ports[p].nicTx
    ensures s.ports[p].nicTx[0..] == s.ports[p].nicTx
    ensures forall w | 0 <= w < |s.lanes| :: s.lanes[w].rxRing[0..] == s.lanes[w].rxRing
  {
  }

  /** `r` is what is left of `q` after some elements were taken from its front. */
  ghost predicate TakenFrom(q: seq<Pkt>, r: seq<Pkt>) {
    exists n :: 0 <= n <= |q| && r == q[n..]
  }

  lemma OthersLeavePort(cfg: Config, s: Sys<Pkt>, m: Move, p: nat)
    requires Can(s, m) && !OfIo(Step(m)) && p < |s.ports|
    ensures var r := Do(Touch(cfg, s, m), m);
            && |r.ports| == |s.ports|
            && s.ports[p].nicRx <= r.ports[p].nicRx && TakenFrom(s.ports[p].nicTx, r.ports[p].nicTx)
  {
    var nicTx := s.ports[p].nicTx;
    hide OnPort, Encrypted, Decrypted, Groupable;
    assert nicTx[0..] == nicTx;
    if m.TxDone? && m.p == p {
      assert Do(Touch(cfg, s, m), m).ports[p].nicTx == nicTx[1..];
    }
  }

  lemma OthersLeaveLaneRings(cfg: Config, s: Sys<Pkt>, m: Move, w: nat)
    requires Can(s, m) && !OfIo(Step(m)) && w < |s.lanes|
    ensures var r := Do(Touch(cfg, s, m), m);
            && |r.lanes| == |s.lanes|
            && s.lanes[w].retRing <= r.lanes[w].retRing && TakenFrom(s.lanes[w].rxRing, r.lanes[w].rxRing)
  {
    var rxRing := s.lanes[w].rxRing;
    hide OnPort, Encrypted, Decrypted, Groupable;
    assert rxRing[0..] == rxRing;
    if m.Dequeue? && m.w == w {
      assert Do(Touch(cfg, s, m), m).lanes[w].rxRing == rxRing[m.n..];
    }
  }

  /** ... adds to NIC receive queues and return rings at the end, and takes from NIC transmit queues
      and receive rings at the front. */
  lemma OthersLeaveQueues(cfg: Config, v: State, a: Action, p: nat, w: nat)
    requires Shaped(cfg, v) && Enabled(v, a) && !OfIo(a) && p < MAX_PORTS && w < cfg.workers
    ensures var s, r := v.sys, Next(cfg, v, a).sys;
            && s.ports[p].nicRx <= r.ports[p].nicRx && s.lanes[w].retRing <= r.lanes[w].retRing
            && TakenFrom(s.ports[p].nicTx, r.ports[p].nicTx) && TakenFrom(s.lanes[w].rxRing, r.lanes[w].rxRing)
  {
    hide Can, Do, Touch, Count, Record, OnWire, Agrees;
    match a
    case Inject(q, x) =>
      ArriveAtEnd(v.sys, q, x, p);
    case Echo(q, x) =>
      ArriveAtEnd(v.sys, q, x, p);
    case Step(m) =>
      OthersLeavePort(cfg, v.sys, m, p);
      OthersLeaveLaneRings(cfg, v.sys, m, w);
  }

  /** A burst from one port, with the port recorded. */
  method RunAccept(io: IoLcore, ghost cfg: Config, portid: nat, burst: seq<Mbuf>, ghost v: State)
      returns (ghost acts: seq<Action>, ghost r: State)
    requires Shaped(cfg, v) && IoAtHead(v.sys) && portid < MAX_PORTS && io.rx == v.c.rx && Distinct(burst)
    requires 1 <= |burst| <= BURST && |burst| <= |v.sys.ports[portid].nicRx|
    requires Shows(burst, v.sys.ports[portid].nicRx[..|burst|])
    modifies io`rx, burst
    ensures IoTakes(cfg, v, acts, r, r.sys, r.c) && r.sys.collected == r.sys.trash == [] && NoGroups(r.sys)
    ensures Shows(burst, r.sys.received) && r.sys.received != [] && io.rx == r.c.rx
    ensures r.sys.ports[portid].nicRx == v.sys.ports[portid].nicRx[|burst|..]
  {
    hide Shows, Distinct, OnPort, IoTakes;
    ghost var n, port := |burst|, v.sys.ports[portid];
    ghost var xs := port.nicRx[..n];
    io.Accept(portid, burst, xs);
    RxOne(cfg, v, portid, n);
    IoOne(cfg, v, Step(RxBurst(portid, n)));
    acts, r := [Step(RxBurst(portid, n))], Next(cfg, v, Step(RxBurst(portid, n)));
    hide Next, Enabled;
    ShownLength(burst, OnPort(xs, portid));
  }

  lemma DispatchIsMoves(cfg: Config, v: State, w: nat, k: nat) returns (acts: seq<Action>, r: State)
    requires Shaped(cfg, v) && w < cfg.workers && v.sys.received != [] && v.sys.trash == []
    requires k <= |v.sys.received| && |v.sys.lanes[w].rxRing| + k <= RING_USABLE
    ensures var lane := v.sys.lanes[w];
            IoTakes(cfg, v, acts, r,
                    v.sys.(lanes := v.sys.lanes[w := lane.(rxRing := lane.rxRing + v.sys.received[..k])],
                           received := [], trash := []),
                    v.c.(rxRingDropped := Bump(v.c.rxRingDropped, w, |v.sys.received| - k)))
  {
    var a := Step(Dispatch(w, k));
    DispatchOne(cfg, v, w, k);
    IoOne(cfg, v, a);
    var m := Next(cfg, v, a);
    hide IoTakes, Next, Enabled;
    var b, e := FreeTrash(cfg, m);
    IoThen(cfg, v, [a], m, m.sys, m.c, b, e, m.sys.(trash := []), m.c);
    acts, r := [a] + b, e;
  }

  /** The received burst to the ring of worker `w`, whatever that ring holds by now. */
  method RunDispatch(io: IoLcore, ghost cfg: Config, w: nat, burst: seq<Mbuf>, ghost v: State)
      returns (ghost k: nat, ghost acts: seq<Action>, ghost r: State)
    requires Shaped(cfg, v) && w < cfg.workers == |io.rxToCrypto| && v.sys.received != [] && v.sys.trash == []
    requires Shows(burst, v.sys.received) && Shows(io.rxToCrypto[w].q, v.sys.lanes[w].rxRing)
    requires |v.sys.lanes[w].rxRing| <= RING_USABLE && io.rxRingDropped == v.c.rxRingDropped
    modifies io`rxRingDropped, io.rxToCrypto[w], io.pool
    ensures IoTakes(cfg, v, acts, r, r.sys, r.c) && k <= |v.sys.received|
    ensures var lane := v.sys.lanes[w];
            r.sys == v.sys.(lanes := v.sys.lanes[w := lane.(rxRing := lane.rxRing + v.sys.received[..k])],
                            received := [], trash := [])
    ensures Shows(io.rxToCrypto[w].q, r.sys.lanes[w].rxRing) && io.rxRingDropped == r.c.rxRingDropped
  {
    hide Shows, IoTakes;
    ghost var xs, ys := v.sys.received, v.sys.lanes[w].rxRing;
    ShownLength(burst, xs);
    ShownLength(io.rxToCrypto[w].q, ys);
    k := io.Dispatch(w, burst, xs, ys);
    acts, r := DispatchIsMoves(cfg, v, w, k);
    IoTo(cfg, v, acts, r,
         v.sys.(lanes := v.sys.lanes[w := v.sys.lanes[w].(rxRing := ys + xs[..k])], received := [], trash := []),
         v.c.(rxRingDropped := Bump(v.c.rxRingDropped, w, |xs| - k)));
    hide Shaped;
  }

  /** A burst from the return ring of worker `w`. */
  method RunCollect(io: IoLcore, ghost cfg: Config, w: nat, ghost v: State)
      returns (txPkts: seq<Mbuf>, ghost acts: seq<Action>, ghost r: State)
    requires Shaped(cfg, v) && IoAtHead(v.sys) && w < cfg.workers == |io.cryptoToTx|
    requires Shows(io.cryptoToTx[w].q, v.sys.lanes[w].retRing) && io.cryptoToTx[w].q != []
    modifies io.cryptoToTx[w]
    ensures 1 <= |txPkts| <= BURST && txPkts + io.cryptoToTx[w].q == old(io.cryptoToTx[w].q)
    ensures |txPkts| <= |v.sys.lanes[w].retRing|
    ensures IoTakes(cfg, v, acts, r, r.sys, v.c) && Shaped(cfg, r)
    ensures var lane := v.sys.lanes[w];
            r.sys == v.sys.(lanes := v.sys.lanes[w := lane.(retRing := lane.retRing[|txPkts|..])],
                            collected := lane.retRing[..|txPkts|])
    ensures Shows(txPkts, r.sys.collected) && Shows(io.cryptoToTx[w].q, r.sys.lanes[w].retRing)
  {
    hide Shows, IoTakes;
    ghost var ys := v.sys.lanes[w].retRing;
    ShownLength(io.cryptoToTx[w].q, ys);
    txPkts := io.Collect(w, ys);
    ghost var a := Step(Collect(w, |txPkts|));
    CollectOne(cfg, v, w, |txPkts|);
    IoOne(cfg, v, a);
    acts, r := [a], Next(cfg, v, a);
    hide Next, Enabled;
  }

  /** Grouping the collected burst; no shared queue is touched. */
  method RunGroup(io: IoLcore, ghost cfg: Config, txPkts: seq<Mbuf>, ghost v: State)
      returns (portPkts: seq<seq<Mbuf>>, ghost acts: seq<Action>, ghost r: State)
    requires Shaped(cfg, v) && v.sys.trash == [] && NoGroups(v.sys) && |v.sys.collected| <= BURST
    requires Shows(txPkts, v.sys.collected)
    modifies io.pool
    ensures |portPkts| == MAX_PORTS && Shaped(cfg, r)
    ensures IoTakes(cfg, v, acts, r, v.sys.(collected := [], ports := Joined(v.sys.ports, v.sys.collected)), v.c)
    ensures forall p | 0 <= p < MAX_PORTS ::
              Shows(portPkts[p], r.sys.ports[p].group) && r.sys.ports[p].group == ToPort(v.sys.collected, p)
  {
    hide Shows, IoTakes, ToPort, Grouped, Astray, GroupsBag, Joined;
    ghost var xs := v.sys.collected;
    ShownLength(txPkts, xs);
    portPkts := io.Group(txPkts, xs);
    acts, r := GroupAll(cfg, v);
    JoinedGroups(v.sys.ports, xs);
    IoTo(cfg, v, acts, r, v.sys.(collected := [], ports := Joined(v.sys.ports, xs)), v.c);
    assert |v.sys.ports| == MAX_PORTS;
    hide Shaped;
    forall p | 0 <= p < MAX_PORTS
      ensures Shows(portPkts[p], ToPort(xs, p))
    {
      GroupShows(txPkts, xs, p);
    }
  }

  /** Offering one port's group to its NIC, whatever that has sent meanwhile. */
  method RunSend(io: IoLcore, ghost cfg: Config, dst: nat, pkts: seq<Mbuf>, ghost v: State)
      returns (ghost k: nat, ghost acts: seq<Action>, ghost r: State)
    requires Shaped(cfg, v) && dst < MAX_PORTS == |io.nic.txq| && v.sys.collected == [] && v.sys.trash == []
    requires forall p | 0 <= p < dst :: v.sys.ports[p].group == []
    requires Shows(pkts, v.sys.ports[dst].group) && Shows(io.nic.txq[dst], v.sys.ports[dst].nicTx)
    requires io.tx == v.c.tx && io.txEncryptedMarked == v.c.txMarked
    modifies io`tx, io`txEncryptedMarked, io.nic, io.pool
    ensures IoTakes(cfg, v, acts, r, r.sys, r.c) && k <= |v.sys.ports[dst].group|
    ensures var port := v.sys.ports[dst];
            r.sys == v.sys.(ports := v.sys.ports[dst := port.(group := [], nicTx := port.nicTx + port.group[..k])])
    ensures |io.nic.txq| == MAX_PORTS && Shows(io.nic.txq[dst], r.sys.ports[dst].nicTx)
    ensures forall p | 0 <= p < MAX_PORTS && p != dst :: io.nic.txq[p] == old(io.nic.txq)[p]
    ensures io.tx == r.c.tx && io.txEncryptedMarked == r.c.txMarked
  {
    hide Shows, IoTakes, CountMarked;
    ghost var port, txq := v.sys.ports[dst], io.nic.txq[dst];
    ShownLength(pkts, port.group);
    k := io.SendPort(dst, pkts, port.group);
    ShowsCut(pkts, port.group, k);
    ShowsJoin(txq, port.nicTx, pkts[..k], port.group[..k]);
    acts, r := SendPort(cfg, v, dst, k);
    IoTo(cfg, v, acts, r,
         v.sys.(ports := v.sys.ports[dst := port.(group := [], nicTx := port.nicTx + port.group[..k])]),
         v.c.(txMarked := v.c.txMarked + CountMarked(port.group), tx := Bump(v.c.tx, dst, k)));
    hide Shaped;
  }

  // ---- An undisturbed half ----

  lemma TransmittedRing(s: Sys<Pkt>, w: nat, n: nat, accepted: seq<nat>)
    requires w < |s.lanes| && n <= |s.lanes[w].retRing| && |s.ports| == MAX_PORTS
    requires Within(accepted, Shares(s.lanes[w].retRing[..n]))
    ensures |Transmitted(s, w, n, accepted).lanes| == |s.lanes|
    ensures Transmitted(s, w, n, accepted).lanes[w].retRing == s.lanes[w].retRing[n..]
  {
    hide Shares, Within;
  }

  /** Run without interruption, the transmit half takes return ring, counters and NIC queues of one
      state to those of a state reached by moves of the I/O lcore. */
  method RunReturn(io: IoLcore, ghost cfg: Config, w: nat, ghost v: State)
      returns (ghost n: nat, ghost accepted: seq<nat>, ghost acts: seq<Action>, ghost r: State)
    requires Shaped(cfg, v) && IoAtHead(v.sys) && w < cfg.workers == |io.cryptoToTx|
    requires Shows(io.cryptoToTx[w].q, v.sys.lanes[w].retRing) && io.cryptoToTx[w].q != []
    requires AllShow(io.nic.txq, Queues(v)) && io.tx == v.c.tx && io.txEncryptedMarked == v.c.txMarked
    modifies io.cryptoToTx[w], io`tx, io`txEncryptedMarked, io.nic, io.pool
    ensures Shaped(cfg, r) && IoAtHead(r.sys) && AllShow(io.nic.txq, Queues(r))
    ensures io.tx == r.c.tx && io.txEncryptedMarked == r.c.txMarked
    ensures n <= |v.sys.lanes[w].retRing| && Within(accepted, Shares(v.sys.lanes[w].retRing[..n]))
    ensures Shows(io.cryptoToTx[w].q, r.sys.lanes[w].retRing)
    ensures IoTakes(cfg, v, acts, r, Transmitted(v.sys, w, n, accepted),
                    TransmittedCounters(v.c, v.sys.lanes[w].retRing[..n], accepted))
  {
    hide Shows, AllShow, Within, Shares, IoTakes, MarksIn, IoAtHead, Transmitted, After, Queues;
    ghost var ys := v.sys.lanes[w].retRing;
    ShownLength(io.cryptoToTx[w].q, ys);
    SameQueues(io.nic.txq, v);
    var txPkts := io.Collect(w, ys);
    n := |txPkts|;
    ghost var groups;
    accepted, groups := io.SendReturned(txPkts, ys[..n], Queues(v));
    acts, r := ReturnIsMoves(cfg, v, w, n, accepted);
    IoTo(cfg, v, acts, r, Transmitted(v.sys, w, n, accepted), TransmittedCounters(v.c, ys[..n], accepted));
    QueuesAfter(v, w, n, accepted, r);
    TransmittedRing(v.sys, w, n, accepted);
  }
}
