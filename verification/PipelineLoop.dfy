/** No forwarding loop: what the pipeline can ever transmit is bounded by the unmarked frames
    injected from outside, however often the wires copy transmitted frames back. */
module PipelineLoop {
  import opened Prelude
  import opened Frames
  import opened Traffic
  import opened Pipeline
  import opened PipelineLedger
  import opened PipelineRefinement

  lemma PrefixBag(a: seq<Pkt>, b: seq<Pkt>)
    ensures multiset(a) <= multiset(a + b) && multiset(b) <= multiset(a + b)
  {
    assert multiset(a + b) == multiset(a) + multiset(b);
  }

  /** Nothing is collected from a worker that it was not given and did not forward. */
  lemma WorkerBag(cfg: Config, s: State, w: nat)
    requires Inv(cfg, s) && w < cfg.workers
    ensures multiset(Pick(s.h.collected, w)) <= multiset(Fwd(cfg, Pick(s.h.dispatched, w)))
  {
    assert LaneOk(cfg, s, w);
    hide Pick, Fwd;
    var l, returned := s.sys.lanes[w], s.h.returned[w];
    PickInBag(returned, 0);
    PrefixBag(Pick(s.h.collected, w), l.retRing);
    PrefixBag(Vals(returned) + l.encrypted + Fwd(cfg, l.pkts), Fwd(cfg, l.rxRing));
    PrefixBag(Vals(returned) + l.encrypted, Fwd(cfg, l.pkts));
    PrefixBag(Vals(returned), l.encrypted);
  }

  lemma CollectedBag(cfg: Config, s: State)
    requires Inv(cfg, s)
    ensures multiset(Vals(s.h.collected)) <= multiset(Fwd(cfg, s.h.received))
  {
    hide Pick, Fwd, LaneOk, PortOk, PartsBag, FwdLog;
    var n, all := cfg.workers, FwdLog(cfg, s.h.dispatched);
    FwdLogParts(cfg, s.h.dispatched, 2 * n);
    forall w | 0 <= w < n
      ensures multiset(Pick(s.h.collected, w)) <= multiset(Pick(all, w))
    {
      WorkerBag(cfg, s, w);
    }
    PartsMakeLog(s.h.collected, n);
    PartsMonotone(s.h.collected, all, n);
    PartsPrefix(all, n, 2 * n);
    PartsMakeLog(all, 2 * n);
    PrefixBag(Vals(s.h.dispatched), s.sys.received);
    FwdMonotone(cfg, Vals(s.h.dispatched), s.h.received);
  }

  lemma ReceivedBag(cfg: Config, s: State)
    requires Inv(cfg, s)
    ensures multiset(s.h.received) <= multiset(s.h.arrived)
  {
    hide Pick, Fwd, LaneOk, ToPort;
    forall x
      ensures multiset(s.h.received)[x] <= multiset(s.h.arrived)[x]
    {
      if x in s.h.received {
        assert PortOk(cfg, s, x.port);
        ToPortBag(s.h.received, x.port, x);
        ToPortBag(s.h.arrived, x.port, x);
        PrefixBag(ToPort(s.h.received, x.port), OnPort(s.sys.ports[x.port].nicRx, x.port));
      }
    }
  }

  /** In every run, whatever the wires copy back, the packets each port has sent are at most
      what the unmarked injected frames give when each is encrypted once. */
  lemma SentFromInjected(cfg: Config, s: State, q: nat)
    requires Reachable(cfg, s) && q < MAX_PORTS
    ensures multiset(SentOn(s, q)) <= multiset(ToPort(Fwd(cfg, s.h.injected), q))
  {
    hide Pick, Fwd, LaneOk, ToPort;
    ReachableInv(cfg, s);
    assert PortOk(cfg, s, q);
    PickInBag(s.h.offered[q], 0);
    var offered, port := Vals(s.h.offered[q]), s.sys.ports[q];
    PrefixBag(offered + port.group, ToPort(s.sys.collected, q));
    PrefixBag(offered, port.group);
    hide PortOk;
    CollectedBag(cfg, s);
    ReceivedBag(cfg, s);
    FwdMonotone(cfg, s.h.received, s.h.arrived);
    assert Fwd(cfg, s.h.arrived) == Fwd(cfg, s.h.injected);
    ToPortMonotone(Vals(s.h.collected), Fwd(cfg, s.h.injected), q);
  }

  function CountUnmarked(xs: seq<Pkt>): nat {
    if xs == [] then 0 else (if Marked(xs[0].frame) then 0 else 1) + CountUnmarked(xs[1..])
  }

  lemma {:induction false} FwdLength(cfg: Config, xs: seq<Pkt>)
    ensures |Fwd(cfg, xs)| == CountUnmarked(xs)
  {
    if xs != [] {
      FwdLength(cfg, xs[1..]);
    }
  }

  lemma {:induction false} FwdOrigin(cfg: Config, xs: seq<Pkt>, y: Pkt)
    requires y in Fwd(cfg, xs)
    ensures exists x :: x in xs && !Marked(x.frame) && y == Encrypted(cfg, x)
  {
    if Marked(xs[0].frame) || y != Encrypted(cfg, xs[0]) {
      FwdOrigin(cfg, xs[1..], y);
      var x :| x in xs[1..] && !Marked(x.frame) && y == Encrypted(cfg, x);
      assert x in xs;
    } else {
      assert xs[0] in xs;
    }
  }

  lemma BagSize(a: multiset<Pkt>, b: multiset<Pkt>)
    requires a <= b
    ensures |a| <= |b|
  {
    assert b == a + (b - a);
  }

  lemma TransmissionsBounded(cfg: Config, s: State)
    requires Reachable(cfg, s)
    ensures Sum(s.c.tx) <= CountUnmarked(s.h.injected)
  {
    hide Pick, Fwd, LaneOk, PortOk, ToPort, Sum, CountUnmarked;
    ReachableInv(cfg, s);
    TransmitLedger(cfg, s);
    CollectedBag(cfg, s);
    ReceivedBag(cfg, s);
    FwdMonotone(cfg, s.h.received, s.h.arrived);
    BagSize(multiset(Vals(s.h.collected)), multiset(Fwd(cfg, s.h.injected)));
    FwdLength(cfg, s.h.injected);
  }

  /** `y`, on port `q`, is the frame of `x` encrypted once, and `q` is the peer of the port on which
      `x` was received. */
  ghost predicate ForwardedAs(cfg: Config, x: Pkt, q: nat, y: Pkt) {
    && !Marked(x.frame) && Marked(y.frame) && y == Encrypted(cfg, x) && y.port == q
    && (TableInRange(cfg) ==> x.port < |cfg.dst| && cfg.dst[x.port] == q)
  }

  lemma PeerIs(cfg: Config, x: Pkt, q: nat)
    requires ValidConfig(cfg) && !Marked(x.frame) && Encrypted(cfg, x).port == q < MAX_PORTS
    ensures ForwardedAs(cfg, x, q, Encrypted(cfg, x))
  {
  }

  /** `y` is one injected unmarked frame, encrypted once and sent on the peer of its port. */
  ghost predicate EncryptedOnce(cfg: Config, s: State, q: nat, y: Pkt) {
    exists x :: x in s.h.injected && ForwardedAs(cfg, x, q, y)
  }

  lemma SentOrigin(cfg: Config, s: State, q: nat, y: Pkt)
    requires Reachable(cfg, s) && q < MAX_PORTS && y in SentOn(s, q)
    ensures EncryptedOnce(cfg, s, q, y)
  {
    hide Fwd, ToPort, SentOn;
    SentFromInjected(cfg, s, q);
    assert y in multiset(SentOn(s, q));
    assert y in multiset(ToPort(Fwd(cfg, s.h.injected), q));
    ToPortBag(Fwd(cfg, s.h.injected), q, y);
    assert y in Fwd(cfg, s.h.injected);
    FwdOrigin(cfg, s.h.injected, y);
    var x :| x in s.h.injected && !Marked(x.frame) && y == Encrypted(cfg, x);
    PeerIs(cfg, x, q);
  }

  /** Total transmissions never exceed the number of unmarked frames injected, and every
      transmitted frame is one injected unmarked frame, encrypted exactly once. */
  lemma NoForwardingLoop(cfg: Config, s: State)
    requires Reachable(cfg, s)
    ensures Sum(s.c.tx) <= CountUnmarked(s.h.injected)
    ensures forall q: nat, y: Pkt | q < MAX_PORTS && y in SentOn(s, q) :: EncryptedOnce(cfg, s, q, y)
  {
    hide Fwd, SentOn, Reachable, Sum, CountUnmarked, EncryptedOnce;
    TransmissionsBounded(cfg, s);
    forall q: nat, y: Pkt | q < MAX_PORTS && y in SentOn(s, q)
      ensures EncryptedOnce(cfg, s, q, y)
    {
      SentOrigin(cfg, s, q, y);
    }
  }

  // ---- With the table in range nothing is misaddressed ----

  lemma {:induction false} PartsAtMost(log: Log, n: nat)
    ensures PartsLen(log, n) <= |log|
  {
    if log == [] {
      PartsNil(n);
    } else {
      PartsAtMost(log[1..], n);
      PartsCons(log[0], log[1..], n);
      assert log == [log[0]] + log[1..];
    }
  }

  lemma {:induction false} OfferedUpTo(cfg: Config, s: State, n: nat)
    requires Inv(cfg, s) && n <= MAX_PORTS
    ensures PartsLen(ByPort(Vals(s.h.collected)), n)
         == Sum(Sizes(s.h.offered)[..n]) + Sum(Sizes(Groups(s.sys.ports))[..n])
          + PartsLen(ByPort(s.sys.collected), n)
  {
    hide ToPort, LaneOk, IoOk, Pick;
    if n > 0 {
      OfferedUpTo(cfg, s, n - 1);
      assert PortOk(cfg, s, n - 1);
      ByPortParts(Vals(s.h.collected), n - 1);
      ByPortParts(s.sys.collected, n - 1);
      SumTo(Sizes(s.h.offered), n - 1);
      SumTo(Sizes(Groups(s.sys.ports)), n - 1);
    }
  }

  lemma CollectedInRange(cfg: Config, s: State)
    requires Inv(cfg, s) && TableInRange(cfg)
    ensures forall x | x in Vals(s.h.collected) :: x.port < MAX_PORTS
  {
    hide Pick, Fwd, LaneOk, PortOk;
    CollectedBag(cfg, s);
    forall x | x in Vals(s.h.collected)
      ensures x.port < MAX_PORTS
    {
      assert x in multiset(Vals(s.h.collected));
      assert x in multiset(Fwd(cfg, s.h.received));
      FwdOrigin(cfg, s.h.received, x);
    }
  }

  /** A destination table whose entries are port numbers never misaddresses a frame: the
      bounds test before grouping is then redundant. */
  lemma NothingMisaddressed(cfg: Config, s: State)
    requires Reachable(cfg, s) && TableInRange(cfg)
    ensures s.h.misaddressed == 0
  {
    hide Pick, Fwd, LaneOk, Sum, PartsLen, ToPort;
    ReachableInv(cfg, s);
    CollectedInRange(cfg, s);
    var all := Vals(s.h.collected);
    OfferedUpTo(cfg, s, MAX_PORTS);
    hide PortOk;
    PartsMakeLog(ByPort(all), MAX_PORTS);
    PartsAtMost(ByPort(s.sys.collected), MAX_PORTS);
    SumLenIsSum(s.h.offered);
    SumLenIsSum(Groups(s.sys.ports));
    assert Sizes(s.h.offered)[..MAX_PORTS] == Sizes(s.h.offered);
    assert Sizes(Groups(s.sys.ports))[..MAX_PORTS] == Sizes(Groups(s.sys.ports));
  }
}
