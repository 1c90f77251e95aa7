/** Whole runs of the pipeline, and the books they keep. */
module PipelineLedger {
  import opened Prelude
  import opened Frames
  import opened Traffic
  import opened System
  import opened Pipeline
  import PipelineInvariant

  ghost predicate IsStep(cfg: Config, s: State, a: Action, r: State) {
    Shaped(cfg, s) && Enabled(s, a) && r == Next(cfg, s, a)
  }

  ghost predicate IsRun(cfg: Config, ss: seq<State>, acts: seq<Action>) {
    && |ss| == |acts| + 1
    && ss[0] == Init(cfg)
    && forall i {:trigger acts[i]} | 0 <= i < |acts| :: IsStep(cfg, ss[i], acts[i], ss[i + 1])
  }

  ghost predicate Reachable(cfg: Config, s: State) {
    ValidConfig(cfg) && exists ss: seq<State>, acts: seq<Action> :: IsRun(cfg, ss, acts) && ss[|acts|] == s
  }

  lemma {:induction false} RunInv(cfg: Config, ss: seq<State>, acts: seq<Action>, i: nat)
    requires ValidConfig(cfg) && IsRun(cfg, ss, acts) && i <= |acts|
    ensures Inv(cfg, ss[i])
  {
    hide Inv, Next, Enabled, Shaped;
    if i == 0 {
      PipelineInvariant.InitInv(cfg);
    } else {
      RunInv(cfg, ss, acts, i - 1);
      assert IsStep(cfg, ss[i - 1], acts[i - 1], ss[i]);
      PipelineInvariant.StepKeepsInv(cfg, ss[i - 1], acts[i - 1]);
    }
  }

  lemma ReachableInv(cfg: Config, s: State)
    requires Reachable(cfg, s)
    ensures Inv(cfg, s)
  {
    hide Inv, IsStep;
    var ss: seq<State>, acts: seq<Action> :| IsRun(cfg, ss, acts) && ss[|acts|] == s;
    RunInv(cfg, ss, acts, |acts|);
  }

  /** With a table for all ports there is a pipeline, whatever the table and the key. */
  lemma StartReachable(cfg: Config)
    requires |cfg.dst| == MAX_PORTS
    ensures Reachable(cfg, Init(cfg))
  {
    var none: seq<Action> := [];
    assert IsRun(cfg, [Init(cfg)], none) && [Init(cfg)][|none|] == Init(cfg);
  }

  lemma ExtendRun(cfg: Config, ss: seq<State>, acts: seq<Action>, a: Action, r: State)
    requires IsRun(cfg, ss, acts) && IsStep(cfg, ss[|acts|], a, r)
    ensures IsRun(cfg, ss + [r], acts + [a])
  {
    hide IsStep;
    forall i | 0 <= i < |acts| + 1
      ensures IsStep(cfg, (ss + [r])[i], (acts + [a])[i], (ss + [r])[i + 1])
    {
      if i < |acts| {
        assert IsStep(cfg, ss[i], acts[i], ss[i + 1]);
      }
    }
  }

  lemma StepReachable(cfg: Config, v: State, a: Action)
    requires Reachable(cfg, v) && Shaped(cfg, v) && Enabled(v, a)
    ensures Reachable(cfg, Next(cfg, v, a))
  {
    hide Shaped, Enabled, Next;
    var ss: seq<State>, acts: seq<Action> :| IsRun(cfg, ss, acts) && ss[|acts|] == v;
    var r := Next(cfg, v, a);
    ExtendRun(cfg, ss, acts, a, r);
    assert (ss + [r])[|acts + [a]|] == r;
  }

  /** At any moment any frame may arrive on any port, and any frame that has left a port may come
      back on any port; it then waits last in line there. */
  lemma AnythingMayArrive(cfg: Config, s: State, p: nat, x: Pkt)
    requires Reachable(cfg, s) && p < MAX_PORTS
    ensures Shaped(cfg, s) && Enabled(s, Inject(p, x))
    ensures var r := Next(cfg, s, Inject(p, x));
            && Reachable(cfg, r) && r.sys.ports[p].nicRx == s.sys.ports[p].nicRx + [x]
            && r.h.injected == s.h.injected + [x.(port := p)]
    ensures forall q, i | 0 <= q < MAX_PORTS && 0 <= i < |s.h.wire[q]| ::
              var y := s.h.wire[q][i];
              && Enabled(s, Echo(p, y))
              && var r := Next(cfg, s, Echo(p, y));
                 && Reachable(cfg, r) && r.sys.ports[p].nicRx == s.sys.ports[p].nicRx + [y]
                 && r.h.injected == s.h.injected
  {
    ReachableInv(cfg, s);
    assert Shaped(cfg, s);
    hide Inv, Reachable;
    StepReachable(cfg, s, Inject(p, x));
    forall q, i | 0 <= q < MAX_PORTS && 0 <= i < |s.h.wire[q]|
      ensures Enabled(s, Echo(p, s.h.wire[q][i])) && Reachable(cfg, Next(cfg, s, Echo(p, s.h.wire[q][i])))
    {
      StepReachable(cfg, s, Echo(p, s.h.wire[q][i]));
    }
  }

  // ---- Sums ----

  lemma SumTo(xs: seq<nat>, n: nat)
    requires n < |xs|
    ensures Sum(xs[..n + 1]) == Sum(xs[..n]) + xs[n]
  {
    assert xs[..n + 1][..n] == xs[..n];
  }

  function Sizes<T>(xs: seq<seq<T>>): (r: seq<nat>)
    ensures |r| == |xs| && forall i | 0 <= i < |r| :: r[i] == |xs[i]|
  {
    seq(|xs|, i requires 0 <= i < |xs| => |xs[i]|)
  }

  lemma {:induction false} SumLenLast<T>(xs: seq<seq<T>>)
    requires xs != []
    ensures SumLen(xs) == SumLen(xs[..|xs| - 1]) + |xs[|xs| - 1]|
  {
    if |xs| > 1 {
      SumLenLast(xs[1..]);
      assert xs[1..][..|xs| - 2] == xs[..|xs| - 1][1..];
    }
  }

  lemma {:induction false} SumLenIsSum<T>(xs: seq<seq<T>>)
    ensures SumLen(xs) == Sum(Sizes(xs))
  {
    if xs != [] {
      var n := |xs| - 1;
      SumLenIsSum(xs[..n]);
      assert Sizes(xs)[..n] == Sizes(xs[..n]);
      SumLenLast(xs);
    }
  }

  // ---- The places of the pipeline, one number per worker or port ----

  function RxRings(s: State): seq<nat> {
    seq(|s.sys.lanes|, w requires 0 <= w < |s.sys.lanes| => |s.sys.lanes[w].rxRing|)
  }

  function Batches(s: State): seq<nat> {
    seq(|s.sys.lanes|, w requires 0 <= w < |s.sys.lanes| => |s.sys.lanes[w].pkts|)
  }

  function EncryptedBatches(s: State): seq<nat> {
    seq(|s.sys.lanes|, w requires 0 <= w < |s.sys.lanes| => |s.sys.lanes[w].encrypted|)
  }

  function ReturnRings(s: State): seq<nat> {
    seq(|s.sys.lanes|, w requires 0 <= w < |s.sys.lanes| => |s.sys.lanes[w].retRing|)
  }

  /** Frames the NIC of each port did not accept; the program frees them uncounted. */
  function Refused(s: State): seq<nat> {
    seq(|s.h.offered|, q requires 0 <= q < |s.h.offered| => |Pick(s.h.offered[q], 1)|)
  }

  /** Each packet tagged with its port. */
  function ByPort(xs: seq<Pkt>): (r: Log)
    ensures |r| == |xs| && forall i | 0 <= i < |r| :: r[i] == Tagged(xs[i].port, xs[i])
  {
    seq(|xs|, i requires 0 <= i < |xs| => Tagged(xs[i].port, xs[i]))
  }

  lemma {:induction false} ByPortParts(xs: seq<Pkt>, q: nat)
    ensures Pick(ByPort(xs), q) == ToPort(xs, q) && Vals(ByPort(xs)) == xs
  {
    if xs != [] {
      ByPortParts(xs[1..], q);
      assert ByPort(xs)[1..] == ByPort(xs[1..]);
      assert Vals(ByPort(xs)) == xs;
    }
  }

  lemma {:induction false} RxCounters(cfg: Config, s: State, n: nat)
    requires Inv(cfg, s) && n <= MAX_PORTS
    ensures PartsLen(ByPort(s.h.received), n) == Sum(s.c.rx[..n])
  {
    hide ToPort, Pick, LaneOk, IoOk;
    if n > 0 {
      RxCounters(cfg, s, n - 1);
      ByPortParts(s.h.received, n - 1);
      assert PortOk(cfg, s, n - 1);
      SumTo(s.c.rx, n - 1);
    }
  }

  lemma LaneLedger(cfg: Config, s: State, w: nat)
    requires Inv(cfg, s) && w < cfg.workers
    ensures |Pick(s.h.dispatched, w)|
         == s.c.encrypted[w] + s.c.decrypted[w] + |s.sys.lanes[w].pkts| + |s.sys.lanes[w].rxRing|
  {
    hide PortOk, IoOk, Fwd, Pick;
    assert LaneOk(cfg, s, w);
  }

  lemma PartsLenNext(log: Log, n: nat)
    ensures PartsLen(log, n + 1) == PartsLen(log, n) + |Pick(log, n)|
  {
  }

  lemma NothingCounted(log: Log)
    ensures Sum([]) == 0 && PartsLen(log, 0) == 0
  {
  }

  lemma {:induction false} AcceptedCounters(cfg: Config, s: State, n: nat)
    requires Inv(cfg, s) && n <= cfg.workers
    requires |s.sys.lanes| == |s.c.encrypted| == |s.c.decrypted| == cfg.workers
    ensures PartsLen(s.h.dispatched, n)
         == Sum(s.c.encrypted[..n]) + Sum(s.c.decrypted[..n]) + Sum(Batches(s)[..n]) + Sum(RxRings(s)[..n])
  {
    hide Inv, Sum, PartsLen, Pick;
    if n == 0 {
      NothingCounted(s.h.dispatched);
    } else {
      AcceptedCounters(cfg, s, n - 1);
      LaneLedger(cfg, s, n - 1);
      PartsLenNext(s.h.dispatched, n - 1);
      SumTo(s.c.encrypted, n - 1);
      SumTo(s.c.decrypted, n - 1);
      SumTo(Batches(s), n - 1);
      SumTo(RxRings(s), n - 1);
    }
  }

  lemma {:induction false} RefusedCounters(cfg: Config, s: State, n: nat)
    requires Inv(cfg, s) && n <= cfg.workers
    ensures PartsLen(s.h.dispatched, cfg.workers + n)
         == PartsLen(s.h.dispatched, cfg.workers) + Sum(s.c.rxRingDropped[..n])
  {
    hide ToPort, Pick, PortOk, IoOk, Fwd;
    if n > 0 {
      RefusedCounters(cfg, s, n - 1);
      assert LaneOk(cfg, s, n - 1);
      SumTo(s.c.rxRingDropped, n - 1);
    }
  }

  lemma TwoTags(log: Log)
    requires TagsBelow(log, 2)
    ensures |log| == |Pick(log, 0)| + |Pick(log, 1)|
  {
    PartsMakeLog(log, 2);
    assert PartsLen(log, 2) == PartsLen(log, 1) + |Pick(log, 1)|;
    assert PartsLen(log, 1) == PartsLen(log, 0) + |Pick(log, 0)|;
  }

  lemma {:induction false} CollectedCounters(cfg: Config, s: State, n: nat)
    requires Inv(cfg, s) && n <= cfg.workers
    ensures Sum(s.c.encrypted[..n])
         == PartsLen(s.h.collected, n) + Sum(s.c.retRingDropped[..n])
          + Sum(EncryptedBatches(s)[..n]) + Sum(ReturnRings(s)[..n])
  {
    hide ToPort, PortOk, IoOk, Fwd;
    if n > 0 {
      CollectedCounters(cfg, s, n - 1);
      assert LaneOk(cfg, s, n - 1);
      TwoTags(s.h.returned[n - 1]);
      hide Pick;
      SumTo(s.c.encrypted, n - 1);
      SumTo(s.c.retRingDropped, n - 1);
      SumTo(EncryptedBatches(s), n - 1);
      SumTo(ReturnRings(s), n - 1);
    }
  }

  lemma {:induction false} OfferedCounters(cfg: Config, s: State, n: nat)
    requires Inv(cfg, s) && n <= MAX_PORTS
    ensures Sum(Sizes(s.h.offered)[..n]) == Sum(s.c.tx[..n]) + Sum(Refused(s)[..n])
  {
    hide ToPort, LaneOk, IoOk;
    if n > 0 {
      OfferedCounters(cfg, s, n - 1);
      assert PortOk(cfg, s, n - 1);
      TwoTags(s.h.offered[n - 1]);
      hide Pick;
      SumTo(Sizes(s.h.offered), n - 1);
      SumTo(s.c.tx, n - 1);
      SumTo(Refused(s), n - 1);
    }
  }

  lemma ReceivedLength(cfg: Config, s: State)
    requires Inv(cfg, s)
    ensures |s.h.received| == Sum(s.c.rx)
  {
    hide LaneOk, PortOk, Pick, ToPort, Sum;
    RxCounters(cfg, s, MAX_PORTS);
    PartsMakeLog(ByPort(s.h.received), MAX_PORTS);
    assert s.c.rx[..MAX_PORTS] == s.c.rx;
  }

  lemma WholeSlices(cfg: Config, s: State)
    requires Shaped(cfg, s)
    ensures s.c.rx[..MAX_PORTS] == s.c.rx && s.c.tx[..MAX_PORTS] == s.c.tx
    ensures s.c.encrypted[..cfg.workers] == s.c.encrypted && s.c.decrypted[..cfg.workers] == s.c.decrypted
    ensures s.c.rxRingDropped[..cfg.workers] == s.c.rxRingDropped
    ensures s.c.retRingDropped[..cfg.workers] == s.c.retRingDropped
    ensures Batches(s)[..cfg.workers] == Batches(s) && RxRings(s)[..cfg.workers] == RxRings(s)
    ensures EncryptedBatches(s)[..cfg.workers] == EncryptedBatches(s)
    ensures ReturnRings(s)[..cfg.workers] == ReturnRings(s)
    ensures Sizes(s.h.offered)[..MAX_PORTS] == Sizes(s.h.offered) && Refused(s)[..MAX_PORTS] == Refused(s)
  {
  }

  lemma DispatchedLength(cfg: Config, s: State)
    requires Inv(cfg, s)
    ensures |s.h.dispatched| == Sum(s.c.rxRingDropped) + Sum(RxRings(s)) + Sum(s.c.decrypted)
                              + Sum(s.c.encrypted) + Sum(Batches(s))
  {
    hide LaneOk, PortOk, Pick, ToPort, Sum, PartsLen, Fwd;
    AcceptedCounters(cfg, s, cfg.workers);
    RefusedCounters(cfg, s, cfg.workers);
    PartsMakeLog(s.h.dispatched, 2 * cfg.workers);
    WholeSlices(cfg, s);
  }

  /** At every moment every received frame is accounted for: refused by a receive ring, still
      in one, in a worker's or the I/O lcore's hand, decrypted, or encrypted. */
  lemma ReceiveLedger(cfg: Config, s: State)
    requires Reachable(cfg, s)
    ensures Sum(s.c.rx) == Sum(s.c.rxRingDropped) + Sum(RxRings(s))
                         + Sum(s.c.decrypted) + Sum(s.c.encrypted)
                         + |s.sys.received| + Sum(Batches(s))
  {
    ReachableInv(cfg, s);
    ReceivedLength(cfg, s);
    DispatchedLength(cfg, s);
    hide LaneOk, PortOk, Sum, Fwd;
    assert Vals(s.h.dispatched) + s.sys.received == s.h.received;
  }

  /** ... and every encrypted frame: refused by a return ring, still in one, in hand, accepted
      by a NIC, refused by a NIC, or freed for want of a port. The "TX encrypted mark" figure
      counts the frames offered to the NICs. */
  lemma TransmitLedger(cfg: Config, s: State)
    requires Reachable(cfg, s)
    ensures Sum(s.c.encrypted) == Sum(s.c.retRingDropped) + Sum(ReturnRings(s))
                                + Sum(s.c.tx) + Sum(Refused(s)) + s.h.misaddressed
                                + Sum(EncryptedBatches(s)) + |s.sys.collected| + SumLen(Groups(s.sys.ports))
    ensures s.c.txMarked == Sum(s.c.tx) + Sum(Refused(s))
  {
    ReachableInv(cfg, s);
    CollectedCounters(cfg, s, cfg.workers);
    OfferedCounters(cfg, s, MAX_PORTS);
    SumLenIsSum(s.h.offered);
    hide LaneOk, PortOk, Pick, ToPort, Sum;
    PartsMakeLog(s.h.collected, cfg.workers);
    WholeSlices(cfg, s);
  }

  ghost predicate AtLoopHeads(s: State) {
    IoAtHead(s.sys) && forall w | 0 <= w < |s.sys.lanes| :: LaneAtHead(s.sys.lanes[w])
  }

  lemma {:induction false} SumZeros(xs: seq<nat>)
    requires forall i | 0 <= i < |xs| :: xs[i] == 0
    ensures Sum(xs) == 0
  {
    if xs != [] {
      SumZeros(xs[..|xs| - 1]);
    }
  }

  /** The ledger when every lcore is at the head of its loop. The printed mark count never
      exceeds the total encrypted, and the two are equal exactly when the return rings are
      empty and nothing was dropped from them or misaddressed. */
  lemma LedgerAtLoopHeads(cfg: Config, s: State)
    requires Reachable(cfg, s) && AtLoopHeads(s)
    ensures Sum(s.c.rx) == Sum(s.c.rxRingDropped) + Sum(RxRings(s)) + Sum(s.c.decrypted) + Sum(s.c.encrypted)
    ensures Sum(s.c.encrypted) == Sum(s.c.retRingDropped) + Sum(ReturnRings(s)) + Sum(s.c.tx)
                                + (Sum(Refused(s)) + s.h.misaddressed)
    ensures s.c.txMarked <= Sum(s.c.encrypted)
    ensures s.c.txMarked == Sum(s.c.encrypted)
       <==> Sum(ReturnRings(s)) == 0 && Sum(s.c.retRingDropped) == 0 && s.h.misaddressed == 0
  {
    ReceiveLedger(cfg, s);
    TransmitLedger(cfg, s);
    SumZeros(Batches(s));
    SumZeros(EncryptedBatches(s));
    PipelineInvariant.SumLenEmpty(Groups(s.sys.ports));
  }
}
