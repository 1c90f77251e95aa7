/** The loops of the lcores make moves of the pipeline: whenever the rings hold the packets of some
    pipeline state, one iteration takes them to a state that the pipeline reaches by moves of that
    lcore alone. */
module LoopMoves {
  import opened Prelude
  import opened Frames
  import opened Traffic
  import opened System
  import opened Pipeline
  import opened Mbufs
  import opened CryptoLoop
  import PipelineLedger

  // ---- Several actions in a row ----

  ghost predicate Leads(cfg: Config, v: State, acts: seq<Action>, r: State)
    decreases |acts|
  {
    if acts == [] then r == v
    else Shaped(cfg, v) && Enabled(v, acts[0]) && Leads(cfg, Next(cfg, v, acts[0]), acts[1..], r)
  }

  lemma LeadsOne(cfg: Config, v: State, a: Action)
    requires Shaped(cfg, v) && Enabled(v, a)
    ensures Leads(cfg, v, [a], Next(cfg, v, a))
  {
    assert [a][1..] == [];
  }

  lemma {:induction false} LeadsOn(cfg: Config, v: State, a: seq<Action>, m: State, b: seq<Action>, r: State)
    requires Leads(cfg, v, a, m) && Leads(cfg, m, b, r)
    ensures Leads(cfg, v, a + b, r)
    decreases |a|
  {
    hide Next, Enabled, Shaped;
    if a == [] {
      assert a + b == b;
    } else {
      LeadsOn(cfg, Next(cfg, v, a[0]), a[1..], m, b, r);
      assert (a + b)[1..] == a[1..] + b;
    }
  }

  lemma {:induction false} LeadsShaped(cfg: Config, v: State, acts: seq<Action>, r: State)
    requires Shaped(cfg, v) && Leads(cfg, v, acts, r)
    ensures Shaped(cfg, r)
    decreases |acts|
  {
    if acts != [] {
      LeadsShaped(cfg, Next(cfg, v, acts[0]), acts[1..], r);
    }
  }

  /** So all that holds of reachable states holds after any number of iterations. */
  lemma {:induction false} LeadsReachable(cfg: Config, v: State, acts: seq<Action>, r: State)
    requires PipelineLedger.Reachable(cfg, v) && Leads(cfg, v, acts, r)
    ensures PipelineLedger.Reachable(cfg, r)
    decreases |acts|
  {
    if acts != [] {
      var v' := Next(cfg, v, acts[0]);
      PipelineLedger.StepReachable(cfg, v, acts[0]);
      LeadsReachable(cfg, v', acts[1..], r);
    }
  }

  // ---- A worker's iteration ----

  predicate OfWorker(a: Action, w: nat) {
    a.Step? && match a.m
    case Dequeue(v, _) => v == w
    case Consume(v) => v == w
    case Forward(v) => v == w
    case Enqueue(v, _) => v == w
    case WorkerFree(v) => v == w
    case _ => false
  }

  ghost predicate AllOfWorker(acts: seq<Action>, w: nat) {
    forall i | 0 <= i < |acts| :: OfWorker(acts[i], w)
  }

  /** `r` differs from `v` in lane `w`, which is now `l`, and in that worker's counters. */
  ghost predicate WorkerAt(v: State, r: State, w: nat, l: Lane<Pkt>, enc: nat, dec: nat, drop: nat)
    requires w < |v.sys.lanes| && w < |v.c.encrypted| && w < |v.c.decrypted| && w < |v.c.retRingDropped|
  {
    && r.sys == v.sys.(lanes := v.sys.lanes[w := l])
    && r.c == v.c.(encrypted := Bump(v.c.encrypted, w, enc), decrypted := Bump(v.c.decrypted, w, dec),
                   retRingDropped := Bump(v.c.retRingDropped, w, drop))
  }

  lemma ForwardOne(cfg: Config, v: State, w: nat)
    requires Shaped(cfg, v) && w < cfg.workers
    requires var l := v.sys.lanes[w]; l.pkts != [] && l.trash == [] && !Marked(l.pkts[0].frame)
    ensures Enabled(v, Step(Forward(w)))
    ensures var l := v.sys.lanes[w];
            WorkerAt(v, Next(cfg, v, Step(Forward(w))), w,
                     l.(pkts := l.pkts[1..], encrypted := l.encrypted + [Encrypted(cfg, l.pkts[0])]), 1, 0, 0)
  {
  }

  lemma ConsumeOne(cfg: Config, v: State, w: nat)
    requires Shaped(cfg, v) && w < cfg.workers
    requires var l := v.sys.lanes[w]; l.pkts != [] && l.trash == [] && Marked(l.pkts[0].frame)
    ensures Enabled(v, Step(Consume(w)))
    ensures var l := v.sys.lanes[w];
            WorkerAt(v, Next(cfg, v, Step(Consume(w))), w,
                     l.(pkts := l.pkts[1..], trash := [Decrypted(cfg, l.pkts[0])]), 0, 1, 0)
  {
  }

  lemma FreeOne(cfg: Config, v: State, w: nat)
    requires Shaped(cfg, v) && w < cfg.workers && v.sys.lanes[w].trash != []
    ensures Enabled(v, Step(WorkerFree(w)))
    ensures var l := v.sys.lanes[w];
            WorkerAt(v, Next(cfg, v, Step(WorkerFree(w))), w, l.(trash := l.trash[1..]), 0, 0, 0)
  {
  }

  lemma DequeueSome(cfg: Config, v: State, w: nat, n: nat)
    requires Shaped(cfg, v) && w < cfg.workers
    requires LaneAtHead(v.sys.lanes[w]) && 1 <= n <= BURST && n <= |v.sys.lanes[w].rxRing|
    ensures Enabled(v, Step(Dequeue(w, n)))
    ensures var l := v.sys.lanes[w];
            WorkerAt(v, Next(cfg, v, Step(Dequeue(w, n))), w,
                     l.(rxRing := l.rxRing[n..], pkts := l.rxRing[..n]), 0, 0, 0)
  {
  }

  lemma EnqueueSome(cfg: Config, v: State, w: nat, k: nat)
    requires Shaped(cfg, v) && w < cfg.workers
    requires var l := v.sys.lanes[w];
             l.pkts == [] && l.trash == [] && l.encrypted != [] && k <= |l.encrypted| && |l.retRing| + k <= RING_USABLE
    ensures Enabled(v, Step(Enqueue(w, k)))
    ensures var l := v.sys.lanes[w];
            WorkerAt(v, Next(cfg, v, Step(Enqueue(w, k))), w,
                     l.(encrypted := [], retRing := l.retRing + l.encrypted[..k], trash := l.encrypted[k..]),
                     0, 0, |l.encrypted| - k)
  {
  }

  lemma BumpTwice(c: seq<nat>, i: nat, d: nat, e: nat)
    requires i < |c|
    ensures |Bump(c, i, d)| == |c| && Bump(Bump(c, i, d), i, e) == Bump(c, i, d + e)
  {
  }

  lemma WorkerThen(v: State, m: State, r: State, w: nat, l: Lane<Pkt>, enc: nat, dec: nat, drop: nat,
                   l': Lane<Pkt>, enc': nat, dec': nat, drop': nat)
    requires w < |v.sys.lanes| && w < |v.c.encrypted| && w < |v.c.decrypted| && w < |v.c.retRingDropped|
    requires WorkerAt(v, m, w, l, enc, dec, drop) && w < |m.sys.lanes|
    requires w < |m.c.encrypted| && w < |m.c.decrypted| && w < |m.c.retRingDropped|
    requires WorkerAt(m, r, w, l', enc', dec', drop')
    ensures WorkerAt(v, r, w, l', enc + enc', dec + dec', drop + drop')
  {
    var sys, c := v.sys, v.c;
    assert sys.lanes[w := l][w := l'] == sys.lanes[w := l'];
    BumpTwice(c.encrypted, w, enc, enc');
    BumpTwice(c.decrypted, w, dec, dec');
    BumpTwice(c.retRingDropped, w, drop, drop');
    hide Bump;
  }

  lemma BothOfWorker(a: seq<Action>, b: seq<Action>, w: nat)
    requires AllOfWorker(a, w) && AllOfWorker(b, w)
    ensures AllOfWorker(a + b, w)
  {
    hide OfWorker;
  }

  /** Worker `w` takes the pipeline from `v` to `r` by `acts`, as described above. */
  ghost predicate Takes(cfg: Config, v: State, acts: seq<Action>, r: State, w: nat,
                        l: Lane<Pkt>, enc: nat, dec: nat, drop: nat)
  {
    && Shaped(cfg, v) && Shaped(cfg, r) && w < cfg.workers
    && Leads(cfg, v, acts, r) && AllOfWorker(acts, w) && WorkerAt(v, r, w, l, enc, dec, drop)
  }

  lemma TakesOne(cfg: Config, v: State, a: Action, w: nat, l: Lane<Pkt>, enc: nat, dec: nat, drop: nat)
    requires Shaped(cfg, v) && Enabled(v, a) && OfWorker(a, w) && w < cfg.workers
    requires WorkerAt(v, Next(cfg, v, a), w, l, enc, dec, drop)
    ensures Takes(cfg, v, [a], Next(cfg, v, a), w, l, enc, dec, drop)
  {
    LeadsOne(cfg, v, a);
    hide Leads, Next, Enabled, WorkerAt, OfWorker;
  }

  lemma TakesNone(cfg: Config, v: State, w: nat)
    requires Shaped(cfg, v) && w < cfg.workers
    ensures Takes(cfg, v, [], v, w, v.sys.lanes[w], 0, 0, 0)
  {
  }

  lemma TakesThen(cfg: Config, v: State, a: seq<Action>, m: State, w: nat, l: Lane<Pkt>, enc: nat, dec: nat, drop: nat,
                  b: seq<Action>, r: State, l': Lane<Pkt>, enc': nat, dec': nat, drop': nat)
    requires Takes(cfg, v, a, m, w, l, enc, dec, drop) && Takes(cfg, m, b, r, w, l', enc', dec', drop')
    ensures Takes(cfg, v, a + b, r, w, l', enc + enc', dec + dec', drop + drop')
  {
    LeadsOn(cfg, v, a, m, b, r);
    WorkerThen(v, m, r, w, l, enc, dec, drop, l', enc', dec', drop');
    BothOfWorker(a, b, w);
    hide Leads, OfWorker, AllOfWorker, WorkerAt, Shaped;
  }

  lemma TakesTo(cfg: Config, v: State, acts: seq<Action>, r: State, w: nat,
                l: Lane<Pkt>, enc: nat, dec: nat, drop: nat)
    requires Takes(cfg, v, acts, r, w, l, enc, dec, drop)
    ensures Shaped(cfg, r) && w < cfg.workers && r.sys.lanes[w] == l
  {
    hide Leads;
  }

  lemma TakesLeads(cfg: Config, v: State, acts: seq<Action>, r: State, w: nat,
                   l: Lane<Pkt>, enc: nat, dec: nat, drop: nat)
    requires Takes(cfg, v, acts, r, w, l, enc, dec, drop)
    ensures Leads(cfg, v, acts, r) && AllOfWorker(acts, w)
  {
    hide Leads, AllOfWorker, WorkerAt, Shaped;
  }

  /** Frees `k` packets one by one. */
  lemma {:induction false} FreeAll(cfg: Config, v: State, w: nat) returns (acts: seq<Action>, r: State)
    requires Shaped(cfg, v) && w < cfg.workers
    ensures Takes(cfg, v, acts, r, w, v.sys.lanes[w].(trash := []), 0, 0, 0)
    decreases |v.sys.lanes[w].trash|
  {
    var l := v.sys.lanes[w];
    if l.trash == [] {
      acts, r := [], v;
      TakesNone(cfg, v, w);
      assert l.(trash := []) == l;
    } else {
      var a := Step(WorkerFree(w));
      var l1 := l.(trash := l.trash[1..]);
      FreeOne(cfg, v, w);
      TakesOne(cfg, v, a, w, l1, 0, 0, 0);
      var m := Next(cfg, v, a);
      hide Next, Enabled, WorkerAt, Leads;
      TakesTo(cfg, v, [a], m, w, l1, 0, 0, 0);
      hide Shaped, Takes;
      acts, r := FreeAll(cfg, m, w);
      TakesThen(cfg, v, [a], m, w, l1, 0, 0, 0, acts, r, l.(trash := []), 0, 0, 0);
      acts := [a] + acts;
    }
  }

  /** The next packet of a burst. */
  lemma ProcessOne(cfg: Config, v: State, w: nat) returns (acts: seq<Action>, r: State)
    requires Shaped(cfg, v) && w < cfg.workers && v.sys.lanes[w].trash == [] && v.sys.lanes[w].pkts != []
    ensures var l := v.sys.lanes[w];
            var out := Outcome(cfg, l.pkts[0]);
            Takes(cfg, v, acts, r, w, l.(pkts := l.pkts[1..], encrypted := l.encrypted + out), |out|, 1 - |out|, 0)
  {
    var l := v.sys.lanes[w];
    if Marked(l.pkts[0].frame) {
      var a := Step(Consume(w));
      var l1 := l.(pkts := l.pkts[1..], trash := [Decrypted(cfg, l.pkts[0])]);
      ConsumeOne(cfg, v, w);
      TakesOne(cfg, v, a, w, l1, 0, 1, 0);
      var m := Next(cfg, v, a);
      hide Next, Enabled, WorkerAt, Leads;
      TakesTo(cfg, v, [a], m, w, l1, 0, 1, 0);
      hide Shaped, Takes;
      acts, r := FreeAll(cfg, m, w);
      assert l1.(trash := []) == l.(pkts := l.pkts[1..], encrypted := l.encrypted + []);
      TakesThen(cfg, v, [a], m, w, l1, 0, 1, 0, acts, r, l1.(trash := []), 0, 0, 0);
      acts := [a] + acts;
    } else {
      var a := Step(Forward(w));
      ForwardOne(cfg, v, w);
      var l1 := l.(pkts := l.pkts[1..], encrypted := l.encrypted + [Encrypted(cfg, l.pkts[0])]);
      TakesOne(cfg, v, a, w, l1, 1, 0, 0);
      acts, r := [a], Next(cfg, v, a);
      hide Next, Enabled, WorkerAt, Leads, Takes;
    }
  }

  /** A lane whose burst has been worked off, and after the first packet of it. */
  function Processed(cfg: Config, l: Lane<Pkt>): Lane<Pkt> {
    l.(pkts := [], encrypted := l.encrypted + Fwd(cfg, l.pkts))
  }

  function ProcessedOne(cfg: Config, l: Lane<Pkt>): Lane<Pkt>
    requires l.pkts != []
  {
    l.(pkts := l.pkts[1..], encrypted := l.encrypted + Outcome(cfg, l.pkts[0]))
  }

  function Forwards(cfg: Config, xs: seq<Pkt>): nat {
    |Fwd(cfg, xs)|
  }

  function Consumes(cfg: Config, xs: seq<Pkt>): nat {
    |xs| - |Fwd(cfg, xs)|
  }

  lemma FwdFirst(cfg: Config, xs: seq<Pkt>)
    requires xs != []
    ensures Fwd(cfg, xs) == Outcome(cfg, xs[0]) + Fwd(cfg, xs[1..])
  {
  }

  lemma ProcessedNone(cfg: Config, l: Lane<Pkt>)
    requires l.pkts == []
    ensures Processed(cfg, l) == l && Forwards(cfg, l.pkts) == Consumes(cfg, l.pkts) == 0
  {
    assert l.encrypted + [] == l.encrypted;
  }

  lemma ProcessedFirst(cfg: Config, l: Lane<Pkt>)
    requires l.pkts != []
    ensures Processed(cfg, ProcessedOne(cfg, l)) == Processed(cfg, l) && ProcessedOne(cfg, l).trash == l.trash
    ensures ProcessedOne(cfg, l).pkts == l.pkts[1..]
    ensures Forwards(cfg, l.pkts) == |Outcome(cfg, l.pkts[0])| + Forwards(cfg, l.pkts[1..])
    ensures Consumes(cfg, l.pkts) == 1 - |Outcome(cfg, l.pkts[0])| + Consumes(cfg, l.pkts[1..])
  {
    hide Fwd, Outcome;
    FwdFirst(cfg, l.pkts);
    Reassociate(l.encrypted, Outcome(cfg, l.pkts[0]), Fwd(cfg, l.pkts[1..]));
  }

  lemma {:induction false} ProcessAll(cfg: Config, v: State, w: nat, l: Lane<Pkt>) returns (acts: seq<Action>, r: State)
    requires Shaped(cfg, v) && w < cfg.workers && v.sys.lanes[w] == l && l.trash == []
    ensures Takes(cfg, v, acts, r, w, Processed(cfg, l), Forwards(cfg, l.pkts), Consumes(cfg, l.pkts), 0)
    decreases |l.pkts|
  {
    hide Takes, Outcome, Processed, Forwards, Consumes;
    if l.pkts == [] {
      ProcessedNone(cfg, l);
      acts, r := [], v;
      TakesNone(cfg, v, w);
    } else {
      ProcessedFirst(cfg, l);
      var one := |Outcome(cfg, l.pkts[0])|;
      var l1 := ProcessedOne(cfg, l);
      var a, m := ProcessOne(cfg, v, w);
      TakesTo(cfg, v, a, m, w, l1, one, 1 - one, 0);
      hide Shaped, ProcessedOne;
      var b, e := ProcessAll(cfg, m, w, l1);
      TakesThen(cfg, v, a, m, w, l1, one, 1 - one, 0,
                b, e, Processed(cfg, l1), Forwards(cfg, l1.pkts), Consumes(cfg, l1.pkts), 0);
      acts, r := a + b, e;
    }
  }

  // ---- A whole iteration ----

  /** What an iteration makes of a lane: a burst of `n` leaves the receive ring, and the first `k`
      packets of its forwarding join the return ring. */
  function Served(cfg: Config, l: Lane<Pkt>, n: nat, k: nat): Lane<Pkt>
    requires n <= |l.rxRing| && k <= |Fwd(cfg, l.rxRing[..n])|
  {
    l.(rxRing := l.rxRing[n..], retRing := l.retRing + Fwd(cfg, l.rxRing[..n])[..k])
  }

  /** A lane that has taken a burst of `n` in hand. */
  function Taken(l: Lane<Pkt>, n: nat): Lane<Pkt>
    requires n <= |l.rxRing|
  {
    l.(rxRing := l.rxRing[n..], pkts := l.rxRing[..n])
  }

  /** ... and then returned `k` packets. */
  function Returned(l: Lane<Pkt>, k: nat): Lane<Pkt>
    requires k <= |l.encrypted|
  {
    l.(encrypted := [], retRing := l.retRing + l.encrypted[..k])
  }

  /** Handing over `k` encrypted packets and freeing the others. */
  lemma ReturnAll(cfg: Config, v: State, w: nat, l: Lane<Pkt>, k: nat) returns (acts: seq<Action>, r: State)
    requires Shaped(cfg, v) && w < cfg.workers && v.sys.lanes[w] == l
    requires l.pkts == [] && l.trash == [] && k <= |l.encrypted| && |l.retRing| + k <= RING_USABLE
    ensures Takes(cfg, v, acts, r, w, Returned(l, k), 0, 0, |l.encrypted| - k)
  {
    if l.encrypted == [] {
      acts, r := [], v;
      TakesNone(cfg, v, w);
      assert Returned(l, k) == l;
    } else {
      var a, drop := Step(Enqueue(w, k)), |l.encrypted| - k;
      var l1 := Returned(l, k).(trash := l.encrypted[k..]);
      EnqueueSome(cfg, v, w, k);
      TakesOne(cfg, v, a, w, l1, 0, 0, drop);
      var m := Next(cfg, v, a);
      hide Next, Enabled, WorkerAt, Leads;
      TakesTo(cfg, v, [a], m, w, l1, 0, 0, drop);
      hide Shaped, Takes;
      acts, r := FreeAll(cfg, m, w);
      assert l1.(trash := []) == Returned(l, k);
      TakesThen(cfg, v, [a], m, w, l1, 0, 0, drop, acts, r, Returned(l, k), 0, 0, 0);
      acts := [a] + acts;
    }
  }

  lemma TakeBurst(cfg: Config, v: State, w: nat, l: Lane<Pkt>, n: nat) returns (acts: seq<Action>, r: State)
    requires Shaped(cfg, v) && w < cfg.workers && v.sys.lanes[w] == l
    requires LaneAtHead(l) && n <= BURST && n <= |l.rxRing|
    ensures Takes(cfg, v, acts, r, w, Taken(l, n), 0, 0, 0)
  {
    if n == 0 {
      acts, r := [], v;
      TakesNone(cfg, v, w);
      assert Taken(l, n) == l;
    } else {
      var a := Step(Dequeue(w, n));
      DequeueSome(cfg, v, w, n);
      TakesOne(cfg, v, a, w, Taken(l, n), 0, 0, 0);
      acts, r := [a], Next(cfg, v, a);
      hide Next, Enabled, WorkerAt, Leads, Takes, Shaped;
    }
  }

  lemma ServedIs(cfg: Config, l: Lane<Pkt>, n: nat, k: nat)
    requires LaneAtHead(l) && n <= |l.rxRing| && k <= |Fwd(cfg, l.rxRing[..n])|
    ensures var p := Processed(cfg, Taken(l, n));
            && Taken(l, n).pkts == l.rxRing[..n] && Taken(l, n).trash == []
            && p.pkts == p.trash == [] && |p.encrypted| == Forwards(cfg, l.rxRing[..n]) == |Fwd(cfg, l.rxRing[..n])|
            && p.retRing == l.retRing && Returned(p, k) == Served(cfg, l, n, k)
  {
    assert l.encrypted + Fwd(cfg, l.rxRing[..n]) == Fwd(cfg, l.rxRing[..n]);
  }

  /** One iteration of a worker's loop, as moves of that worker. */
  lemma IterationIsMoves(cfg: Config, v: State, w: nat, l: Lane<Pkt>, n: nat, k: nat)
      returns (acts: seq<Action>, r: State)
    requires Shaped(cfg, v) && w < cfg.workers && v.sys.lanes[w] == l && LaneAtHead(l)
    requires n <= BURST && n <= |l.rxRing|
    requires k <= |Fwd(cfg, l.rxRing[..n])| && |l.retRing| + k <= RING_USABLE
    ensures Takes(cfg, v, acts, r, w, Served(cfg, l, n, k),
                  Forwards(cfg, l.rxRing[..n]), Consumes(cfg, l.rxRing[..n]), |Fwd(cfg, l.rxRing[..n])| - k)
  {
    hide Takes, Shaped, Processed, Served, Forwards, Consumes, Taken, Returned, Fwd;
    var xs := l.rxRing[..n];
    var l1 := Taken(l, n);
    var l2 := Processed(cfg, l1);
    var f, c := Forwards(cfg, xs), Consumes(cfg, xs);
    ServedIs(cfg, l, n, k);
    var a, m := TakeBurst(cfg, v, w, l, n);
    TakesTo(cfg, v, a, m, w, l1, 0, 0, 0);
    var b, m' := ProcessAll(cfg, m, w, l1);
    TakesTo(cfg, m, b, m', w, l2, f, c, 0);
    TakesThen(cfg, v, a, m, w, l1, 0, 0, 0, b, m', l2, f, c, 0);
    var d, e := ReturnAll(cfg, m', w, l2, k);
    TakesThen(cfg, v, a + b, m', w, l2, f, c, 0, d, e, Returned(l2, k), 0, 0, f - k);
    acts, r := a + b + d, e;
  }

  /** What `Takes` says of the counters of worker `w`. */
  lemma TakesCounts(cfg: Config, v: State, acts: seq<Action>, r: State, w: nat,
                    l: Lane<Pkt>, enc: nat, dec: nat, drop: nat)
    requires Takes(cfg, v, acts, r, w, l, enc, dec, drop)
    ensures r.c.encrypted[w] == v.c.encrypted[w] + enc && r.c.decrypted[w] == v.c.decrypted[w] + dec
    ensures r.c.retRingDropped[w] == v.c.retRingDropped[w] + drop
  {
    hide Leads, AllOfWorker;
  }

  // ---- The parts of an iteration, with the other lcores free to move in between ----

  lemma OthersLeaveLane(cfg: Config, s: Sys<Pkt>, m: Move, w: nat)
    requires Can(s, m) && !OfWorker(Step(m), w) && w < |s.lanes|
    ensures var l, l' := s.lanes[w], Do(Touch(cfg, s, m), m).lanes[w];
            l'.pkts == l.pkts && l'.encrypted == l.encrypted && l'.trash == l.trash
  {
    hide OnPort, Encrypted, Decrypted, Groupable;
  }

  /** What the others do leaves a worker's hand and counters alone ... */
  lemma OthersLeaveHand(cfg: Config, v: State, a: Action, w: nat)
    requires Shaped(cfg, v) && Enabled(v, a) && !OfWorker(a, w) && w < cfg.workers
    ensures var l, r := v.sys.lanes[w], Next(cfg, v, a);
            && r.sys.lanes[w].pkts == l.pkts && r.sys.lanes[w].encrypted == l.encrypted
            && r.sys.lanes[w].trash == l.trash
            && r.c.encrypted[w] == v.c.encrypted[w] && r.c.decrypted[w] == v.c.decrypted[w]
            && r.c.retRingDropped[w] == v.c.retRingDropped[w]
  {
    hide Record, OnWire, Agrees, Do, Touch;
    if a.Step? {
      OthersLeaveLane(cfg, v.sys, a.m, w);
    }
  }

  /** ... adds to its receive ring at the end and takes from its return ring at the front. */
  lemma OthersLeaveRings(cfg: Config, v: State, a: Action, w: nat)
    requires Shaped(cfg, v) && Enabled(v, a) && !OfWorker(a, w) && w < cfg.workers
    ensures var l, l' := v.sys.lanes[w], Next(cfg, v, a).sys.lanes[w];
            l.rxRing <= l'.rxRing && exists n :: 0 <= n <= |l.retRing| && l'.retRing == l.retRing[n..]
  {
    assert v.sys.lanes[w].retRing[0..] == v.sys.lanes[w].retRing;
    if a.Step? && a.m.Collect? && a.m.w == w {
      assert Next(cfg, v, a).sys.lanes[w].retRing == v.sys.lanes[w].retRing[a.m.n..];
    }
  }

  /** The worker's counters are those of `v`. */
  ghost predicate Counts(worker: CryptoWorker, v: State, w: nat)
    reads worker
  {
    && w < worker.cfg.workers && Shaped(worker.cfg, v)
    && worker.encryptedCount == v.c.encrypted[w] && worker.decryptedCount == v.c.decrypted[w]
    && worker.dropped == v.c.retRingDropped[w]
  }

  lemma TakenPkts(l: Lane<Pkt>, n: nat)
    requires n <= |l.rxRing|
    ensures Taken(l, n).pkts == l.rxRing[..n] && Taken(l, n).rxRing == l.rxRing[n..]
    ensures Taken(l, n).encrypted == l.encrypted && Taken(l, n).trash == l.trash && Taken(l, n).retRing == l.retRing
  {
  }

  /** Taking a burst from the receive ring. */
  method RunDequeue(worker: CryptoWorker, ghost v: State, ghost w: nat)
      returns (pkts: seq<Mbuf>, ghost acts: seq<Action>, ghost r: State)
    requires Counts(worker, v, w) && LaneAtHead(v.sys.lanes[w])
    requires Shows(worker.rxToCrypto.q, v.sys.lanes[w].rxRing)
    modifies worker.rxToCrypto
    ensures |pkts| == Min(BURST, old(|worker.rxToCrypto.q|)) && |pkts| <= |v.sys.lanes[w].rxRing|
    ensures Takes(worker.cfg, v, acts, r, w, Taken(v.sys.lanes[w], |pkts|), 0, 0, 0) && Counts(worker, r, w)
    ensures Shows(pkts, r.sys.lanes[w].pkts) && Shows(worker.rxToCrypto.q, r.sys.lanes[w].rxRing)
    ensures r.sys.lanes[w].encrypted == r.sys.lanes[w].trash == []
    ensures pkts + worker.rxToCrypto.q == old(worker.rxToCrypto.q)
  {
    ghost var l := v.sys.lanes[w];
    hide Shows, Takes, Taken, Shaped;
    ghost var n := Min(BURST, |worker.rxToCrypto.q|);
    ShownLength(worker.rxToCrypto.q, l.rxRing);
    ShowsCut(worker.rxToCrypto.q, l.rxRing, n);
    pkts := worker.rxToCrypto.DequeueBurst(BURST);
    acts, r := TakeBurst(worker.cfg, v, w, l, n);
    TakenPkts(l, n);
    TakesTo(worker.cfg, v, acts, r, w, Taken(l, n), 0, 0, 0);
    TakesCounts(worker.cfg, v, acts, r, w, Taken(l, n), 0, 0, 0);
  }

  lemma OnePacket(l: Lane<Pkt>, m: Mbuf, rest: seq<Mbuf>)
    requires Shows([m] + rest, l.pkts)
    ensures l.pkts != [] && m.Valid() && m.View() == l.pkts[0] && Shows(rest, l.pkts[1..])
  {
    ShowsHead([m] + rest, l.pkts, 0);
    assert ([m] + rest)[0..] == [m] + rest && l.pkts[0..] == l.pkts && ([m] + rest)[0 + 1..] == rest;
  }

  /** The next packet in hand. The rings are not touched. */
  method RunProcess(worker: CryptoWorker, m: Mbuf, pkts: seq<Mbuf>, ghost rest: seq<Mbuf>, ghost v: State, ghost w: nat)
      returns (encryptedPkts: seq<Mbuf>, inBounds: bool, ghost acts: seq<Action>, ghost r: State)
    requires worker.Valid() && Counts(worker, v, w) && v.sys.lanes[w].trash == [] && m !in pkts && m !in rest
    requires Shows([m] + rest, v.sys.lanes[w].pkts) && Shows(pkts, v.sys.lanes[w].encrypted)
    modifies worker`encryptedCount, worker`decryptedCount, worker.pool, worker.encryptCtx, worker.decryptCtx, m
    ensures worker.Valid() && v.sys.lanes[w].pkts != []
    ensures var x := v.sys.lanes[w].pkts[0]; inBounds <==> Marked(x.frame) || HasRoom(m.capacity, x.frame)
    ensures inBounds ==>
              var l := v.sys.lanes[w];
              var one := |Outcome(worker.cfg, l.pkts[0])|;
              && Takes(worker.cfg, v, acts, r, w, ProcessedOne(worker.cfg, l), one, 1 - one, 0)
              && Counts(worker, r, w) && r.sys.lanes[w].trash == []
              && Shows(rest, r.sys.lanes[w].pkts) && Shows(encryptedPkts, r.sys.lanes[w].encrypted)
  {
    ghost var l := v.sys.lanes[w];
    OnePacket(l, m, rest);
    hide Shows, Takes, Shaped, Outcome, HasRoom;
    encryptedPkts, inBounds := worker.HandleNext(m, pkts, l.encrypted, rest, l.pkts[1..]);
    acts, r := ProcessOne(worker.cfg, v, w);
    ghost var one := |Outcome(worker.cfg, l.pkts[0])|;
    TakesTo(worker.cfg, v, acts, r, w, ProcessedOne(worker.cfg, l), one, 1 - one, 0);
    TakesCounts(worker.cfg, v, acts, r, w, ProcessedOne(worker.cfg, l), one, 1 - one, 0);
    if inBounds {
      ShownLength(pkts, l.encrypted);
      ShownLength(encryptedPkts, l.encrypted + Outcome(worker.cfg, l.pkts[0]));
    }
  }

  /** Handing the encrypted packets to the return ring and freeing the rest. */
  method RunEnqueue(worker: CryptoWorker, encryptedPkts: seq<Mbuf>, ghost v: State, ghost w: nat)
      returns (ghost k: nat, ghost acts: seq<Action>, ghost r: State)
    requires worker.Valid() && Counts(worker, v, w) && v.sys.lanes[w].pkts == v.sys.lanes[w].trash == []
    requires Shows(encryptedPkts, v.sys.lanes[w].encrypted)
    requires Shows(worker.cryptoToTx.q, v.sys.lanes[w].retRing) && |v.sys.lanes[w].retRing| <= RING_USABLE
    modifies worker`dropped, worker.pool, worker.cryptoToTx
    ensures worker.Valid() && k <= |v.sys.lanes[w].encrypted|
    ensures var l := v.sys.lanes[w]; Takes(worker.cfg, v, acts, r, w, Returned(l, k), 0, 0, |l.encrypted| - k)
    ensures Counts(worker, r, w) && LaneAtHead(r.sys.lanes[w])
    ensures Shows(worker.cryptoToTx.q, r.sys.lanes[w].retRing)
  {
    ghost var l := v.sys.lanes[w];
    hide Shows, Takes, Shaped;
    ghost var txq := worker.cryptoToTx.q;
    ShownLength(encryptedPkts, l.encrypted);
    ShownLength(txq, l.retRing);
    ghost var returned := worker.Return(encryptedPkts);
    k := |returned|;
    ShowsCut(encryptedPkts, l.encrypted, k);
    ShowsJoin(txq, l.retRing, returned, l.encrypted[..k]);
    acts, r := ReturnAll(worker.cfg, v, w, l, k);
    TakesTo(worker.cfg, v, acts, r, w, Returned(l, k), 0, 0, |l.encrypted| - k);
    TakesCounts(worker.cfg, v, acts, r, w, Returned(l, k), 0, 0, |l.encrypted| - k);
  }

  // ---- An undisturbed iteration ----

  /** The worker's rings hold the packets of lane `w`, and its counters are those of `v`. */
  ghost predicate Holds(worker: CryptoWorker, v: State, w: nat)
    reads worker, worker.rxToCrypto, worker.cryptoToTx, worker.rxToCrypto.q, worker.cryptoToTx.q
  {
    && Counts(worker, v, w) && LaneAtHead(v.sys.lanes[w])
    && Shows(worker.rxToCrypto.q, v.sys.lanes[w].rxRing) && Shows(worker.cryptoToTx.q, v.sys.lanes[w].retRing)
  }

  lemma LaneAtStart(cfg: Config, w: nat)
    requires w < cfg.workers
    ensures Shaped(cfg, Init(cfg)) && Init(cfg).sys.lanes[w] == Lane([], [], [], [], [])
    ensures Init(cfg).c.encrypted[w] == Init(cfg).c.decrypted[w] == Init(cfg).c.retRingDropped[w] == 0
  {
  }

  /** Worker `w` starts at the start of the pipeline. */
  method StartWorker(cfg: Config, w: nat, pool: Pool) returns (worker: CryptoWorker)
    requires w < cfg.workers
    ensures worker.Valid() && Holds(worker, Init(cfg), w) && worker.pool == pool
    ensures Distinct(worker.rxToCrypto.q + worker.cryptoToTx.q) && worker.rxToCrypto != worker.cryptoToTx
  {
    var rx := new Ring();
    var tx := new Ring();
    worker := new CryptoWorker(cfg, rx, tx, pool);
    LaneAtStart(cfg, w);
  }

  /** Run without interruption, the loop of worker `w` takes rings that hold the packets of some
      state to rings that hold those of a state reached by moves of that worker. */
  method RunWorker(worker: CryptoWorker, ghost v: State, ghost w: nat)
      returns (inBounds: bool, ghost acts: seq<Action>, ghost r: State)
    requires worker.Valid() && Holds(worker, v, w)
    requires Distinct(worker.rxToCrypto.q + worker.cryptoToTx.q) && worker.rxToCrypto != worker.cryptoToTx
    requires |v.sys.lanes[w].retRing| <= RING_USABLE
    modifies worker`encryptedCount, worker`decryptedCount, worker`dropped
    modifies worker.pool, worker.encryptCtx, worker.decryptCtx, worker.rxToCrypto, worker.cryptoToTx
    modifies worker.rxToCrypto.q[..Min(BURST, |worker.rxToCrypto.q|)]
    ensures worker.Valid()
    ensures var n := Min(BURST, old(|worker.rxToCrypto.q|));
            n <= |v.sys.lanes[w].rxRing|
            && (inBounds <==> Roomy(old(worker.rxToCrypto.q)[..n], v.sys.lanes[w].rxRing[..n]))
    ensures inBounds ==>
              && Holds(worker, r, w) && Distinct(worker.rxToCrypto.q + worker.cryptoToTx.q)
              && Leads(worker.cfg, v, acts, r) && AllOfWorker(acts, w)
  {
    hide Shows, Distinct, Roomy, Takes, Leads, AllOfWorker, WorkerAt, Fwd;
    ghost var l := v.sys.lanes[w];
    hide Shaped;
    ghost var n, k;
    ShownLength(worker.rxToCrypto.q, l.rxRing);
    inBounds, n, k := worker.Iterate(l.rxRing, l.retRing);
    acts, r := [], v;
    if !inBounds {
      return;
    }
    acts, r := IterationIsMoves(worker.cfg, v, w, l, n, k);
    ghost var xs := l.rxRing[..n];
    ghost var f, c := Forwards(worker.cfg, xs), Consumes(worker.cfg, xs);
    TakesCounts(worker.cfg, v, acts, r, w, Served(worker.cfg, l, n, k), f, c, f - k);
    TakesTo(worker.cfg, v, acts, r, w, Served(worker.cfg, l, n, k), f, c, f - k);
    TakesLeads(worker.cfg, v, acts, r, w, Served(worker.cfg, l, n, k), f, c, f - k);
  }
}
