/** The ledgers and the refinement of the run-to-completion program, for runs over shared buffers:
    counted and compared in terms of the buffer actions taken. */
module BufferBooks {
  import opened Prelude
  import opened Frames
  import opened Traffic
  import opened System
  import opened Ownership
  import opened OwnershipRefinement
  import opened SingleThread
  import opened BufferLoop
  import Pipeline
  import PipelineLedger
  import PipelineRefinement

  // ---- Ledgers ----

  datatype Kind =
    | Reception | RxRefusal | Decryption | Encryption | ReturnRefusal | Transmission | NicRefusal | Stray

  /** How many buffers a move adds to each column of the books. */
  function Amount<T>(kind: Kind, s: Sys<T>, m: Move): nat
    requires Can(s, m)
  {
    match (kind, m)
    case (Reception, RxBurst(_, n)) => n
    case (RxRefusal, Dispatch(_, k)) => |s.received| - k
    case (Decryption, Consume(_)) => 1
    case (Encryption, Forward(_)) => 1
    case (ReturnRefusal, Enqueue(w, k)) => |s.lanes[w].encrypted| - k
    case (Transmission, Send(_, k)) => k
    case (NicRefusal, Send(p, k)) => |s.ports[p].group| - k
    case (Stray, GroupTo(d)) => if Groupable(s, d) then 0 else 1
    case _ => 0
  }

  /** The column over a run. */
  ghost function Total(kind: Kind, ss: seq<Buffers>, acts: seq<IdAction>): nat {
    if acts == [] then 0
    else
      var k := |acts| - 1;
      Total(kind, ss, acts[..k])
      + if k < |ss| && acts[k].Make? && Can(ss[k].sys, acts[k].m) then Amount(kind, ss[k].sys, acts[k].m) else 0
  }

  /** The pipeline's figure for a column. */
  function Figure(kind: Kind, v: Pipeline.State): nat {
    match kind
    case Reception => Sum(v.c.rx)
    case RxRefusal => Sum(v.c.rxRingDropped)
    case Decryption => Sum(v.c.decrypted)
    case Encryption => Sum(v.c.encrypted)
    case ReturnRefusal => Sum(v.c.retRingDropped)
    case Transmission => Sum(v.c.tx)
    case NicRefusal => Sum(PipelineLedger.Refused(v))
    case Stray => v.h.misaddressed
  }

  lemma AmountMapped(kind: Kind, f: Id -> Pkt, s: Sys<Id>, m: Move)
    requires Can(s, m) && Can(MapSys(f, s), m)
    ensures Amount(kind, MapSys(f, s), m) == Amount(kind, s, m)
  {
  }

  lemma RefusedBump(v: Pipeline.State, r: Pipeline.State, p: nat, group: seq<Pkt>, k: nat)
    requires p < |v.h.offered| && k <= |group|
    requires r.h.offered == v.h.offered[p := v.h.offered[p] + Split(0, 1, group, k)]
    ensures PipelineLedger.Refused(r) == Pipeline.Bump(PipelineLedger.Refused(v), p, |group| - k)
  {
    LoggedSplit(v.h.offered[p], 0, 1, group, k, 1);
    hide Pick, Split;
  }

  lemma FigureSent(cfg: Config, v: Pipeline.State, p: nat, k: nat, kind: Kind)
    requires Pipeline.Shaped(cfg, v) && Can(v.sys, Send(p, k)) && Pipeline.Enabled(v, Pipeline.Step(Send(p, k)))
    ensures Figure(kind, Pipeline.Next(cfg, v, Pipeline.Step(Send(p, k))))
         == Figure(kind, v) + Amount(kind, v.sys, Send(p, k))
  {
    hide Sum, Pick, Split;
    var r := Pipeline.Next(cfg, v, Pipeline.Step(Send(p, k)));
    SumBump(v.c.tx, p, k);
    RefusedBump(v, r, p, v.sys.ports[p].group, k);
    SumBump(PipelineLedger.Refused(v), p, |v.sys.ports[p].group| - k);
  }

  lemma FigureMoved(cfg: Config, v: Pipeline.State, m: Move, kind: Kind)
    requires Pipeline.Shaped(cfg, v) && Can(v.sys, m) && Pipeline.Enabled(v, Pipeline.Step(m))
    ensures Figure(kind, Pipeline.Next(cfg, v, Pipeline.Step(m))) == Figure(kind, v) + Amount(kind, v.sys, m)
  {
    if m.Send? {
      FigureSent(cfg, v, m.p, m.k, kind);
    } else {
      hide Sum, Pick;
      assert PipelineLedger.Refused(Pipeline.Next(cfg, v, Pipeline.Step(m))) == PipelineLedger.Refused(v);
      match m
      case RxBurst(p, n) => SumBump(v.c.rx, p, n);
      case Dispatch(w, k) => SumBump(v.c.rxRingDropped, w, |v.sys.received| - k);
      case Consume(w) => SumBump(v.c.decrypted, w, 1);
      case Forward(w) => SumBump(v.c.encrypted, w, 1);
      case Enqueue(w, k) => SumBump(v.c.retRingDropped, w, |v.sys.lanes[w].encrypted| - k);
      case _ =>
    }
  }

  lemma FigureFilled(cfg: Config, v: Pipeline.State, p: nat, x: Pkt, kind: Kind)
    requires Pipeline.Shaped(cfg, v) && Pipeline.Enabled(v, Pipeline.Inject(p, x))
    ensures Figure(kind, Pipeline.Next(cfg, v, Pipeline.Inject(p, x))) == Figure(kind, v)
  {
    hide Sum, Pick;
    assert PipelineLedger.Refused(Pipeline.Next(cfg, v, Pipeline.Inject(p, x))) == PipelineLedger.Refused(v);
  }

  lemma FigureStarts(cfg: Config, kind: Kind)
    ensures Figure(kind, Pipeline.Init(cfg)) == 0
  {
    SumZeros(MAX_PORTS);
    SumZeros(cfg.workers);
    assert Pick([], 1) == [];
    assert PipelineLedger.Refused(Pipeline.Init(cfg)) == Pipeline.Zeros(MAX_PORTS);
    hide Sum, Pick;
  }

  /** A pipeline run that means what a buffer run does and shows the same packets. */
  ghost predicate Mirrors(cfg: Config, ss: seq<Buffers>, acts: seq<IdAction>,
                          vs: seq<Pipeline.State>, vacts: seq<Pipeline.Action>)
  {
    && Means(cfg, acts, vs, vacts) && |ss| == |acts| + 1 && |vs| == |acts| + 1
    && (forall i | 0 <= i <= |acts| :: vs[i].sys == MapSys(ss[i].mem, ss[i].sys))
    && (forall i | 0 <= i < |acts| :: IdEnabled(ss[i], acts[i]))
  }

  lemma Mirrored(cfg: Config, n: nat, ss: seq<Buffers>, acts: seq<IdAction>)
      returns (vs: seq<Pipeline.State>, vacts: seq<Pipeline.Action>)
    requires Pipeline.ValidConfig(cfg) && IdRun(cfg, n, ss, acts)
    ensures Mirrors(cfg, ss, acts, vs, vacts) && |vs| == |ss| == |acts| + 1
    ensures PipelineLedger.Reachable(cfg, vs[|acts|])
  {
    hide MapSys, PipelineLedger.IsStep, IdEnabled, IdNext;
    vs, vacts := RunSimulates(cfg, n, ss, acts);
    forall i | 0 <= i < |acts|
      ensures IdEnabled(ss[i], acts[i])
    {
      assert IdStep(cfg, ss[i], acts[i], ss[i + 1]);
    }
  }

  lemma MirrorsStart(cfg: Config, ss: seq<Buffers>, acts: seq<IdAction>,
                     vs: seq<Pipeline.State>, vacts: seq<Pipeline.Action>)
    requires Mirrors(cfg, ss, acts, vs, vacts)
    ensures |vs| == |acts| + 1 && vs[0] == Pipeline.Init(cfg)
  {
    hide MapSys, Pipeline.Init, PipelineLedger.IsStep, IdEnabled, Meaning;
  }

  lemma LastMirrored(cfg: Config, ss: seq<Buffers>, acts: seq<IdAction>,
                     vs: seq<Pipeline.State>, vacts: seq<Pipeline.Action>)
    requires Mirrors(cfg, ss, acts, vs, vacts)
    ensures |vs| == |ss| == |acts| + 1 && vs[|acts|].sys == MapSys(ss[|acts|].mem, ss[|acts|].sys)
  {
    hide MapSys, Means, IdEnabled;
  }

  lemma MirrorsAt(cfg: Config, ss: seq<Buffers>, acts: seq<IdAction>,
                  vs: seq<Pipeline.State>, vacts: seq<Pipeline.Action>, k: nat)
    requires Mirrors(cfg, ss, acts, vs, vacts) && k < |acts|
    ensures |ss| == |vs| == |acts| + 1 && vs[k].sys == MapSys(ss[k].mem, ss[k].sys)
    ensures Pipeline.Shaped(cfg, vs[k]) && Pipeline.Enabled(vs[k], Meaning(acts[k]))
    ensures vs[k + 1] == Pipeline.Next(cfg, vs[k], Meaning(acts[k])) && IdEnabled(ss[k], acts[k])
  {
    MeansStep(cfg, acts, vs, vacts, k);
    hide MapSys, Pipeline.Shaped, Pipeline.Enabled, Pipeline.Next, Meaning, IdEnabled, Means;
  }

  lemma TotalNext(kind: Kind, ss: seq<Buffers>, acts: seq<IdAction>, k: nat)
    requires k < |acts| && k < |ss|
    ensures Total(kind, ss, acts[..k + 1])
         == Total(kind, ss, acts[..k])
            + if acts[k].Make? && Can(ss[k].sys, acts[k].m) then Amount(kind, ss[k].sys, acts[k].m) else 0
  {
    assert acts[..k + 1][..k] == acts[..k] && acts[..k + 1][k] == acts[k];
    hide Amount, Can;
  }

  /** One action, in the pipeline's figure and in the column. */
  lemma FigureNext(cfg: Config, s: Buffers, v: Pipeline.State, a: IdAction, kind: Kind)
    requires Pipeline.Shaped(cfg, v) && Pipeline.Enabled(v, Meaning(a)) && IdEnabled(s, a)
    requires v.sys == MapSys(s.mem, s.sys)
    ensures Figure(kind, Pipeline.Next(cfg, v, Meaning(a)))
         == Figure(kind, v) + if a.Make? && Can(s.sys, a.m) then Amount(kind, s.sys, a.m) else 0
  {
    hide Figure, MapSys, Pipeline.Next, Pipeline.Shaped, Amount, Can;
    match a
    case Fill(p, id, x) => FigureFilled(cfg, v, p, x, kind);
    case Make(m) =>
      FigureMoved(cfg, v, m, kind);
      AmountMapped(kind, s.mem, s.sys, m);
  }

  lemma {:induction false} RunFigures(cfg: Config, ss: seq<Buffers>, acts: seq<IdAction>,
                                      vs: seq<Pipeline.State>, vacts: seq<Pipeline.Action>, k: nat, kind: Kind)
    requires Mirrors(cfg, ss, acts, vs, vacts) && |vs| == |ss| == |acts| + 1 && k <= |acts|
    ensures Figure(kind, vs[k]) == Total(kind, ss, acts[..k])
  {
    if k == 0 {
      FigureStarts(cfg, kind);
      MirrorsStart(cfg, ss, acts, vs, vacts);
      hide Figure, Pipeline.Init, Mirrors;
    } else {
      hide Mirrors, Figure, MapSys, Pipeline.Next, Pipeline.Shaped, Pipeline.Enabled, Amount, Total, IdEnabled, Meaning;
      MirrorsAt(cfg, ss, acts, vs, vacts, k - 1);
      RunFigures(cfg, ss, acts, vs, vacts, k - 1, kind);
      TotalNext(kind, ss, acts, k - 1);
      FigureNext(cfg, ss[k - 1], vs[k - 1], acts[k - 1], kind);
    }
  }

  function RxRings<T>(s: Sys<T>): seq<nat> {
    seq(|s.lanes|, w requires 0 <= w < |s.lanes| => |s.lanes[w].rxRing|)
  }

  function ReturnRings<T>(s: Sys<T>): seq<nat> {
    seq(|s.lanes|, w requires 0 <= w < |s.lanes| => |s.lanes[w].retRing|)
  }

  /** Every lcore is at the head of its loop. */
  ghost predicate AtHeads<T>(s: Sys<T>) {
    IoAtHead(s) && forall w | 0 <= w < |s.lanes| :: LaneAtHead(s.lanes[w])
  }

  lemma RingsMapped(f: Id -> Pkt, s: Sys<Id>, v: Pipeline.State)
    requires v.sys == MapSys(f, s)
    ensures PipelineLedger.RxRings(v) == RxRings(s) && PipelineLedger.ReturnRings(v) == ReturnRings(s)
    ensures AtHeads(s) ==> PipelineLedger.AtLoopHeads(v)
  {
  }

  /** The pipeline's ledger, in its figures. */
  lemma FiguresLedger(cfg: Config, v: Pipeline.State)
    requires PipelineLedger.Reachable(cfg, v) && PipelineLedger.AtLoopHeads(v)
    ensures Figure(Reception, v)
         == Figure(RxRefusal, v) + Sum(PipelineLedger.RxRings(v)) + Figure(Decryption, v) + Figure(Encryption, v)
    ensures Figure(Encryption, v)
         == Figure(ReturnRefusal, v) + Sum(PipelineLedger.ReturnRings(v)) + Figure(Transmission, v)
            + (Figure(NicRefusal, v) + Figure(Stray, v))
  {
    hide PipelineLedger.Reachable, PipelineLedger.AtLoopHeads, Sum;
    PipelineLedger.LedgerAtLoopHeads(cfg, v);
  }

  /** At loop heads of every run over shared buffers: received buffers were refused by a receive
      ring, are still in one, or were decrypted or encrypted; encrypted ones were refused by a
      return ring, are still in one, were taken or refused by a NIC, or had no port. */
  lemma Ledger(cfg: Config, n: nat, ss: seq<Buffers>, acts: seq<IdAction>)
    requires Pipeline.ValidConfig(cfg) && IdRun(cfg, n, ss, acts)
    requires |ss| == |acts| + 1 && AtHeads(ss[|acts|].sys)
    ensures Total(Reception, ss, acts)
         == Total(RxRefusal, ss, acts) + Sum(RxRings(ss[|acts|].sys))
            + Total(Decryption, ss, acts) + Total(Encryption, ss, acts)
    ensures Total(Encryption, ss, acts)
         == Total(ReturnRefusal, ss, acts) + Sum(ReturnRings(ss[|acts|].sys)) + Total(Transmission, ss, acts)
            + (Total(NicRefusal, ss, acts) + Total(Stray, ss, acts))
  {
    hide Mirrors, Sum, Total, Figure, PipelineLedger.Reachable, PipelineLedger.AtLoopHeads, IdRun, MapSys, AtHeads;
    hide RxRings, ReturnRings, PipelineLedger.RxRings, PipelineLedger.ReturnRings;
    var vs, vacts := Mirrored(cfg, n, ss, acts);
    var v := vs[|acts|];
    assert acts[..|acts|] == acts;
    LastMirrored(cfg, ss, acts, vs, vacts);
    RingsMapped(ss[|acts|].mem, ss[|acts|].sys, v);
    FiguresLedger(cfg, v);
    RunFigures(cfg, ss, acts, vs, vacts, |acts|, Reception);
    RunFigures(cfg, ss, acts, vs, vacts, |acts|, RxRefusal);
    RunFigures(cfg, ss, acts, vs, vacts, |acts|, Decryption);
    RunFigures(cfg, ss, acts, vs, vacts, |acts|, Encryption);
    RunFigures(cfg, ss, acts, vs, vacts, |acts|, ReturnRefusal);
    RunFigures(cfg, ss, acts, vs, vacts, |acts|, Transmission);
    RunFigures(cfg, ss, acts, vs, vacts, |acts|, NicRefusal);
    RunFigures(cfg, ss, acts, vs, vacts, |acts|, Stray);
  }

  // ---- Refinement ----

  function ReadBy(s: Buffers, m: Move): seq<Pkt>
    requires Can(s.sys, m)
  {
    if m.RxBurst? then OnPort(Map(s.mem, s.sys.ports[m.p].nicRx[..m.n]), m.p) else []
  }

  /** The packets received in a run, as they were read. */
  ghost function ReceivedIn(ss: seq<Buffers>, acts: seq<IdAction>): seq<Pkt> {
    if acts == [] then []
    else
      var k := |acts| - 1;
      ReceivedIn(ss, acts[..k])
      + if k < |ss| && acts[k].Make? && Can(ss[k].sys, acts[k].m) then ReadBy(ss[k], acts[k].m) else []
  }

  function TakenBy(s: Buffers, m: Move, q: nat): seq<Pkt>
    requires Can(s.sys, m)
  {
    if m.Send? && m.p == q then Map(s.mem, s.sys.ports[q].group[..m.k]) else []
  }

  /** The packets the NIC of port `q` has accepted in a run, as they were then. */
  ghost function AcceptedOn(ss: seq<Buffers>, acts: seq<IdAction>, q: nat): seq<Pkt> {
    if acts == [] then []
    else
      var k := |acts| - 1;
      AcceptedOn(ss, acts[..k], q)
      + if k < |ss| && acts[k].Make? && Can(ss[k].sys, acts[k].m) then TakenBy(ss[k], acts[k].m, q) else []
  }

  /** No ring and no NIC refuses a buffer. */
  ghost predicate NothingRefused(ss: seq<Buffers>, acts: seq<IdAction>) {
    forall kind | kind == RxRefusal || kind == ReturnRefusal || kind == NicRefusal :: Total(kind, ss, acts) == 0
  }

  lemma SentBooks(cfg: Config, s: Buffers, v: Pipeline.State, p: nat, k: nat, q: nat)
    requires Pipeline.Shaped(cfg, v) && v.sys == MapSys(s.mem, s.sys) && Can(s.sys, Send(p, k)) && q < MAX_PORTS
    requires Pipeline.Enabled(v, Pipeline.Step(Send(p, k)))
    ensures PipelineRefinement.SentOn(Pipeline.Next(cfg, v, Pipeline.Step(Send(p, k))), q)
         == PipelineRefinement.SentOn(v, q) + TakenBy(s, Send(p, k), q)
  {
    hide Map;
    MapCut(s.mem, s.sys.ports[p].group, k);
    if p == q {
      Reassociate(v.h.wire[q], v.sys.ports[q].nicTx, v.sys.ports[q].group[..k]);
    }
  }

  lemma LeftBooks(cfg: Config, v: Pipeline.State, p: nat, q: nat)
    requires Pipeline.Shaped(cfg, v) && Pipeline.Enabled(v, Pipeline.Step(TxDone(p))) && q < MAX_PORTS
    ensures PipelineRefinement.SentOn(Pipeline.Next(cfg, v, Pipeline.Step(TxDone(p))), q)
         == PipelineRefinement.SentOn(v, q)
  {
    if p == q {
      var nicTx := v.sys.ports[q].nicTx;
      Reassociate(v.h.wire[q], nicTx[..1], nicTx[1..]);
      assert nicTx == nicTx[..1] + nicTx[1..];
    }
  }

  lemma OtherBooks(cfg: Config, v: Pipeline.State, m: Move, q: nat)
    requires Pipeline.Shaped(cfg, v) && Pipeline.Enabled(v, Pipeline.Step(m)) && !m.Send? && !m.TxDone? && q < MAX_PORTS
    ensures PipelineRefinement.SentOn(Pipeline.Next(cfg, v, Pipeline.Step(m)), q) == PipelineRefinement.SentOn(v, q)
  {
    hide OnPort;
  }

  lemma ReadBooks(cfg: Config, s: Buffers, v: Pipeline.State, m: Move)
    requires Pipeline.Shaped(cfg, v) && v.sys == MapSys(s.mem, s.sys) && Can(s.sys, m)
    requires Pipeline.Enabled(v, Pipeline.Step(m))
    ensures Pipeline.Next(cfg, v, Pipeline.Step(m)).h.received == v.h.received + ReadBy(s, m)
  {
    hide Map, OnPort;
    if m.RxBurst? {
      MapCut(s.mem, s.sys.ports[m.p].nicRx, m.n);
    }
  }

  lemma MovedBooks(cfg: Config, s: Buffers, v: Pipeline.State, m: Move, q: nat)
    requires Pipeline.Shaped(cfg, v) && v.sys == MapSys(s.mem, s.sys) && Can(s.sys, m) && q < MAX_PORTS
    requires Pipeline.Enabled(v, Pipeline.Step(m))
    ensures var r := Pipeline.Next(cfg, v, Pipeline.Step(m));
            && r.h.received == v.h.received + ReadBy(s, m)
            && PipelineRefinement.SentOn(r, q) == PipelineRefinement.SentOn(v, q) + TakenBy(s, m, q)
  {
    hide MapSys, Can, ReadBy, Pipeline.Shaped, Pipeline.Enabled, Pipeline.Next, PipelineRefinement.SentOn;
    ReadBooks(cfg, s, v, m);
    match m
    case Send(p, k) => SentBooks(cfg, s, v, p, k, q);
    case TxDone(p) => LeftBooks(cfg, v, p, q);
    case _ => OtherBooks(cfg, v, m, q);
  }

  lemma TrafficNext(ss: seq<Buffers>, acts: seq<IdAction>, k: nat, q: nat)
    requires k < |acts| && k < |ss|
    ensures var made := acts[k].Make? && Can(ss[k].sys, acts[k].m);
            && ReceivedIn(ss, acts[..k + 1])
               == ReceivedIn(ss, acts[..k]) + (if made then ReadBy(ss[k], acts[k].m) else [])
            && AcceptedOn(ss, acts[..k + 1], q)
               == AcceptedOn(ss, acts[..k], q) + (if made then TakenBy(ss[k], acts[k].m, q) else [])
  {
    assert acts[..k + 1][..k] == acts[..k] && acts[..k + 1][k] == acts[k];
    hide ReadBy, TakenBy, Can;
  }

  lemma BooksNext(cfg: Config, s: Buffers, v: Pipeline.State, a: IdAction, q: nat)
    requires Pipeline.Shaped(cfg, v) && Pipeline.Enabled(v, Meaning(a)) && IdEnabled(s, a)
    requires v.sys == MapSys(s.mem, s.sys) && q < MAX_PORTS
    ensures var r, made := Pipeline.Next(cfg, v, Meaning(a)), a.Make? && Can(s.sys, a.m);
            && r.h.received == v.h.received + (if made then ReadBy(s, a.m) else [])
            && PipelineRefinement.SentOn(r, q)
               == PipelineRefinement.SentOn(v, q) + (if made then TakenBy(s, a.m, q) else [])
  {
    hide ReadBy, TakenBy, MapSys, Can;
    match a
    case Fill(p, id, x) =>
    case Make(m) => MovedBooks(cfg, s, v, m, q);
  }

  lemma TrafficStarts(cfg: Config, ss: seq<Buffers>, q: nat)
    ensures Pipeline.Init(cfg).h.received == ReceivedIn(ss, []) == []
    ensures PipelineRefinement.SentOn(Pipeline.Init(cfg), q) == AcceptedOn(ss, [], q) == []
  {
  }

  lemma {:induction false} RunTraffic(cfg: Config, ss: seq<Buffers>, acts: seq<IdAction>,
                                      vs: seq<Pipeline.State>, vacts: seq<Pipeline.Action>, k: nat, q: nat)
    requires Mirrors(cfg, ss, acts, vs, vacts) && |vs| == |ss| == |acts| + 1 && k <= |acts| && q < MAX_PORTS
    ensures vs[k].h.received == ReceivedIn(ss, acts[..k])
    ensures PipelineRefinement.SentOn(vs[k], q) == AcceptedOn(ss, acts[..k], q)
  {
    hide Mirrors, MapSys, ReadBy, TakenBy, Pipeline.Next, Pipeline.Shaped, Pipeline.Enabled, Pipeline.Init, IdEnabled;
    hide PipelineRefinement.SentOn, ReceivedIn, AcceptedOn, Meaning;
    if k == 0 {
      MirrorsStart(cfg, ss, acts, vs, vacts);
      TrafficStarts(cfg, ss, q);
      assert acts[..0] == [];
    } else {
      MirrorsAt(cfg, ss, acts, vs, vacts, k - 1);
      RunTraffic(cfg, ss, acts, vs, vacts, k - 1, q);
      TrafficNext(ss, acts, k - 1, q);
      BooksNext(cfg, ss[k - 1], vs[k - 1], acts[k - 1], q);
    }
  }

  lemma {:induction false} SumZeroAll(xs: seq<nat>, i: nat)
    requires Sum(xs) == 0 && i < |xs|
    ensures xs[i] == 0
  {
    var n := |xs| - 1;
    if i < n {
      SumZeroAll(xs[..n], i);
    }
  }

  lemma NoFiguresNoDrops(v: Pipeline.State)
    requires Figure(RxRefusal, v) == Figure(ReturnRefusal, v) == Figure(NicRefusal, v) == 0
    ensures PipelineRefinement.NoDrops(v)
  {
    hide Sum, Pick;
    forall w | 0 <= w < |v.c.rxRingDropped|
      ensures v.c.rxRingDropped[w] == 0
    {
      SumZeroAll(v.c.rxRingDropped, w);
    }
    forall w | 0 <= w < |v.c.retRingDropped|
      ensures v.c.retRingDropped[w] == 0
    {
      SumZeroAll(v.c.retRingDropped, w);
    }
    forall q | 0 <= q < |v.h.offered|
      ensures Pick(v.h.offered[q], 1) == []
    {
      SumZeroAll(PipelineLedger.Refused(v), q);
    }
  }

  /** Nothing is in a ring or in hand. */
  ghost predicate Drained<T>(s: Sys<T>) {
    AtHeads(s) && forall w | 0 <= w < |s.lanes| :: s.lanes[w].rxRing == [] && s.lanes[w].retRing == []
  }

  lemma DrainedMapped(f: Id -> Pkt, s: Sys<Id>, v: Pipeline.State)
    requires v.sys == MapSys(f, s) && Drained(s)
    ensures PipelineRefinement.Drained(v)
  {
  }

  /** For every run over shared, reused buffers in which nothing is refused, once drained each port
      has accepted the frames the run-to-completion loop sends for the same received frames, as a
      multiset; with one worker, in the same order. */
  lemma RefinesSingleThread(cfg: Config, n: nat, ss: seq<Buffers>, acts: seq<IdAction>, q: nat)
    requires Pipeline.ValidConfig(cfg) && IdRun(cfg, n, ss, acts) && q < MAX_PORTS
    requires |ss| == |acts| + 1 && Drained(ss[|acts|].sys) && NothingRefused(ss, acts)
    ensures multiset(FramesOf(AcceptedOn(ss, acts, q))) == multiset(Forwarded(cfg, Keep, ReceivedIn(ss, acts), q))
    ensures cfg.workers == 1 ==> FramesOf(AcceptedOn(ss, acts, q)) == Forwarded(cfg, Keep, ReceivedIn(ss, acts), q)
  {
    hide Mirrors, PipelineLedger.Reachable, IdRun, MapSys, Figure, Total, Forwarded, ReceivedIn, AcceptedOn, Drained;
    hide PipelineRefinement.SentOn, PipelineRefinement.Drained, PipelineRefinement.NoDrops;
    var vs, vacts := Mirrored(cfg, n, ss, acts);
    var v := vs[|acts|];
    assert acts[..|acts|] == acts;
    LastMirrored(cfg, ss, acts, vs, vacts);
    DrainedMapped(ss[|acts|].mem, ss[|acts|].sys, v);
    RunFigures(cfg, ss, acts, vs, vacts, |acts|, RxRefusal);
    RunFigures(cfg, ss, acts, vs, vacts, |acts|, ReturnRefusal);
    RunFigures(cfg, ss, acts, vs, vacts, |acts|, NicRefusal);
    NoFiguresNoDrops(v);
    RunTraffic(cfg, ss, acts, vs, vacts, |acts|, q);
    PipelineRefinement.RefinesSingleThread(cfg, v, q);
    if cfg.workers == 1 {
      PipelineRefinement.OneWorkerKeepsOrder(cfg, v, q);
    }
  }
}
