/** The pipeline forwards what the run-to-completion program forwards. */
module PipelineRefinement {
  import opened Frames
  import opened Traffic
  import opened System
  import opened Pipeline
  import opened PipelineLedger
  import opened SingleThread

  /** The packets port `q` has accepted for transmission, in order. */
  function SentOn(s: State, q: nat): seq<Pkt> {
    if q < |s.h.wire| && q < |s.sys.ports| then s.h.wire[q] + s.sys.ports[q].nicTx else []
  }

  /** Nothing is in a ring or in hand. */
  ghost predicate Drained(s: State) {
    && IoAtHead(s.sys)
    && forall w | 0 <= w < |s.sys.lanes| ::
         LaneAtHead(s.sys.lanes[w]) && s.sys.lanes[w].rxRing == [] && s.sys.lanes[w].retRing == []
  }

  ghost predicate TableInRange(cfg: Config) {
    ValidConfig(cfg) && forall p | 0 <= p < MAX_PORTS :: cfg.dst[p] < MAX_PORTS
  }

  /** No ring and no NIC has refused a frame. */
  ghost predicate NoDrops(s: State) {
    && (forall w | 0 <= w < |s.c.rxRingDropped| :: s.c.rxRingDropped[w] == 0)
    && (forall w | 0 <= w < |s.c.retRingDropped| :: s.c.retRingDropped[w] == 0)
    && (forall q | 0 <= q < |s.h.offered| :: Pick(s.h.offered[q], 1) == [])
  }

  lemma OnlyFirstTag(log: Log)
    requires TagsBelow(log, 2) && Pick(log, 1) == []
    ensures Vals(log) == Pick(log, 0)
  {
    PickBelow(log, 1, 2);
    OneTag(log);
  }

  lemma FwdNone(cfg: Config)
    ensures Fwd(cfg, []) == []
  {
  }

  /** Without drops, a drained worker has returned exactly what it was given, forwarded. */
  lemma WorkerIsFwd(cfg: Config, s: State, w: nat)
    requires Inv(cfg, s) && Drained(s) && NoDrops(s) && w < cfg.workers
    ensures Pick(s.h.collected, w) == Fwd(cfg, Pick(s.h.dispatched, w))
    ensures Pick(s.h.dispatched, cfg.workers + w) == []
  {
    hide Fwd, Pick, PortOk, IoOk;
    assert LaneOk(cfg, s, w);
    OnlyFirstTag(s.h.returned[w]);
    FwdNone(cfg);
  }

  lemma AllDispatchedAccepted(cfg: Config, s: State)
    requires Inv(cfg, s) && Drained(s) && NoDrops(s)
    ensures TagsBelow(s.h.dispatched, cfg.workers) && Vals(s.h.dispatched) == s.h.received
  {
    hide Pick, Fwd, LaneOk, PortOk;
    forall t | cfg.workers <= t < 2 * cfg.workers
      ensures Pick(s.h.dispatched, t) == []
    {
      WorkerIsFwd(cfg, s, t - cfg.workers);
    }
    PickBelow(s.h.dispatched, cfg.workers, 2 * cfg.workers);
  }

  lemma PortSentCollected(cfg: Config, s: State, q: nat)
    requires Inv(cfg, s) && Drained(s) && NoDrops(s) && q < MAX_PORTS
    ensures SentOn(s, q) == ToPort(Vals(s.h.collected), q)
  {
    assert PortOk(cfg, s, q);
    OnlyFirstTag(s.h.offered[q]);
    assert ToPort([], q) == [];
    hide ToPort, Pick;
  }

  /** The frames each port sent are an order-preserving merge of what the workers, each in its
      own order, made of the frames dispatched to them. */
  lemma SentIsMerge(cfg: Config, s: State, q: nat)
    requires Reachable(cfg, s) && Drained(s) && NoDrops(s) && q < MAX_PORTS
    ensures exists merge: Log ::
              && Vals(merge) == SentOn(s, q) && TagsBelow(merge, cfg.workers)
              && forall w | 0 <= w < cfg.workers ::
                   Pick(merge, w) == ToPort(Fwd(cfg, Pick(s.h.dispatched, w)), q)
  {
    hide Pick, Fwd, LaneOk, PortOk, ToPort, PortLog;
    ReachableInv(cfg, s);
    var merge := PortLog(s.h.collected, q);
    PortLogParts(s.h.collected, q, cfg.workers);
    PortSentCollected(cfg, s, q);
    forall w | 0 <= w < cfg.workers
      ensures Pick(merge, w) == ToPort(Fwd(cfg, Pick(s.h.dispatched, w)), q)
    {
      WorkerIsFwd(cfg, s, w);
    }
  }

  lemma FramesCons(x: Pkt, rest: seq<Pkt>, q: nat, f: Frame)
    requires x.port == q
    ensures multiset(FramesOf([x] + rest))[f] == (if x == Pkt(q, f) then 1 else 0) + multiset(FramesOf(rest))[f]
    ensures multiset([x] + rest)[Pkt(q, f)] == (if x == Pkt(q, f) then 1 else 0) + multiset(rest)[Pkt(q, f)]
  {
    assert FramesOf([x] + rest) == [x.frame] + FramesOf(rest);
  }

  /** On one port, counting frames is counting packets. */
  lemma {:induction false} FramesCount(xs: seq<Pkt>, q: nat, f: Frame)
    ensures multiset(FramesOf(ToPort(xs, q)))[f] == multiset(ToPort(xs, q))[Pkt(q, f)]
  {
    if xs != [] {
      hide ToPort;
      FramesCount(xs[1..], q, f);
      ToPortFirst(xs, q);
      if xs[0].port == q {
        FramesCons(xs[0], ToPort(xs[1..], q), q, f);
      }
    }
  }

  lemma FramesOfBag(a: seq<Pkt>, b: seq<Pkt>, q: nat)
    requires multiset(ToPort(a, q)) == multiset(ToPort(b, q))
    ensures multiset(FramesOf(ToPort(a, q))) == multiset(FramesOf(ToPort(b, q)))
  {
    hide FramesOf, ToPort;
    forall f
      ensures multiset(FramesOf(ToPort(a, q)))[f] == multiset(FramesOf(ToPort(b, q)))[f]
    {
      FramesCount(a, q, f);
      FramesCount(b, q, f);
    }
  }

  /** For every interleaving without drops, once the rings have drained each port has sent the
      frames the single-thread loop sends for the same received frames, as a multiset. */
  lemma RefinesSingleThread(cfg: Config, s: State, q: nat)
    requires Reachable(cfg, s) && Drained(s) && NoDrops(s) && q < MAX_PORTS
    ensures multiset(FramesOf(SentOn(s, q))) == multiset(Forwarded(cfg, Keep, s.h.received, q))
  {
    hide Pick, Fwd, LaneOk, PortOk, ToPort, PortLog, FwdLog, Forwarded;
    ReachableInv(cfg, s);
    var a, b := PortLog(FwdLog(cfg, s.h.dispatched), q), PortLog(s.h.collected, q);
    AllDispatchedAccepted(cfg, s);
    FwdLogParts(cfg, s.h.dispatched, cfg.workers);
    PortLogParts(FwdLog(cfg, s.h.dispatched), q, cfg.workers);
    PortLogParts(s.h.collected, q, cfg.workers);
    forall w | 0 <= w < cfg.workers
      ensures Pick(a, w) == Pick(b, w)
    {
      WorkerIsFwd(cfg, s, w);
    }
    SamePartsSameBag(a, b, cfg.workers);
    PortSentCollected(cfg, s, q);
    ForwardedIsFwd(cfg, s.h.received, q);
    FramesOfBag(Vals(s.h.collected), Fwd(cfg, s.h.received), q);
  }

  /** With one worker the order is the single-thread order too. */
  lemma OneWorkerKeepsOrder(cfg: Config, s: State, q: nat)
    requires cfg.workers == 1
    requires Reachable(cfg, s) && Drained(s) && NoDrops(s) && q < MAX_PORTS
    ensures FramesOf(SentOn(s, q)) == Forwarded(cfg, Keep, s.h.received, q)
  {
    hide Pick, Fwd, LaneOk, PortOk, ToPort, Forwarded;
    ReachableInv(cfg, s);
    AllDispatchedAccepted(cfg, s);
    OneTag(s.h.dispatched);
    OneTag(s.h.collected);
    WorkerIsFwd(cfg, s, 0);
    PortSentCollected(cfg, s, q);
    ForwardedIsFwd(cfg, s.h.received, q);
  }
}
