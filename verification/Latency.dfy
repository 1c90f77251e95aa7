/** The software-latency callbacks: stamp on reception, average on transmission. All arithmetic
    is that of 64-bit unsigned integers. */
module Latency {
  import opened Prelude

  const LIMIT: nat := 0x1_0000_0000_0000_0000

  const WINDOW: nat := 100

  /** A burst has a 16-bit length. */
  const MAX_BURST: nat := 0xFFFF

  function Wrap(x: int): nat {
    x % LIMIT
  }

  /** A packet carries the counter value read when it was received. */
  class Packet {
    var tsc: nat
    constructor ()
      ensures tsc == 0
    {
      tsc := 0;
    }
  }

  lemma {:induction false} SumAppend(a: seq<nat>, b: seq<nat>)
    ensures Sum(a + b) == Sum(a) + Sum(b)
  {
    if b == [] {
      assert a + b == a;
    } else {
      assert (a + b)[..|a + b| - 1] == a + b[..|b| - 1];
      SumAppend(a, b[..|b| - 1]);
    }
  }

  ghost predicate AtMost(xs: seq<nat>, most: nat) {
    forall i | 0 <= i < |xs| :: xs[i] <= most
  }

  lemma {:induction false} SumAtMost(xs: seq<nat>, most: nat)
    requires AtMost(xs, most)
    ensures Sum(xs) <= |xs| * most
  {
    if xs != [] {
      SumAtMost(xs[..|xs| - 1], most);
      assert |xs| * most == (|xs| - 1) * most + most;
    }
  }

  /** The counter value a packet was stamped with, at true time `t`. */
  predicate StampedAt(p: Packet, t: nat)
    reads p
  {
    p.tsc == Wrap(t)
  }

  /** Stamping with a counter that has wrapped: `t` is the true time of reception. */
  method AddTimestamps(pkts: seq<Packet>, t: nat)
    modifies pkts
    ensures forall p <- pkts :: p.tsc == Wrap(t) && StampedAt(p, t)
  {
    var now := Wrap(t);
    for index := 0 to |pkts|
      invariant forall i | 0 <= i < index :: pkts[i].tsc == now
    {
      pkts[index].tsc := now;
    }
  }

  lemma WrapMultiple(x: int, k: int)
    ensures Wrap(x + LIMIT * k) == Wrap(x)
  {
  }

  /** The subtraction recovers a latency below the wrap-around, whatever wrapped in between. */
  lemma WrapDifference(t: nat, latency: nat)
    ensures Wrap(Wrap(t + latency) - Wrap(t)) == Wrap(latency)
  {
    assert Wrap(t + latency) - Wrap(t) == latency + LIMIT * ((t / LIMIT) - (t + latency) / LIMIT);
    WrapMultiple(latency, (t / LIMIT) - (t + latency) / LIMIT);
  }

  lemma WrapLess(a: int)
    ensures a == Wrap(a) + LIMIT * (a / LIMIT)
  {
  }

  lemma WrapSum(a: int, b: int)
    ensures Wrap(Wrap(a) + Wrap(b)) == Wrap(a + b)
    ensures Wrap(Wrap(a) + b) == Wrap(a + b)
  {
    hide Wrap;
    WrapLess(a);
    WrapLess(b);
    var i, j := a / LIMIT, b / LIMIT;
    WrapMultiple(Wrap(a) + b, i);
    WrapMultiple(Wrap(a) + Wrap(b), i + j);
    assert Wrap(a) + Wrap(b) + LIMIT * (i + j) == a + b;
  }

  /** The loop over one burst sent at true time `t`; packet `i` has spent `latencies[i]` inside. */
  method BurstCycles(pkts: seq<Packet>, t: nat, ghost latencies: seq<nat>) returns (cycles: nat)
    requires |latencies| == |pkts|
    requires forall i | 0 <= i < |pkts| :: latencies[i] <= t && StampedAt(pkts[i], t - latencies[i])
    ensures cycles == Wrap(Sum(latencies))
  {
    cycles := 0;
    var now := Wrap(t);
    for index := 0 to |pkts|
      invariant cycles == Wrap(Sum(latencies[..index]))
    {
      WrapDifference(t - latencies[index], latencies[index]);
      SumAppend(latencies[..index], [latencies[index]]);
      assert latencies[..index + 1] == latencies[..index] + [latencies[index]];
      assert Sum([latencies[index]]) == latencies[index];
      WrapSum(Sum(latencies[..index]), latencies[index]);
      cycles := Wrap(cycles + Wrap(now - pkts[index].tsc));
    }
    assert latencies[..|latencies|] == latencies;
  }

  lemma EmptySum()
    ensures Wrap(Sum([])) == 0
  {
  }

  predicate Closes(window: seq<nat>, burst: seq<nat>) {
    |window + burst| > WINDOW
  }

  function NextWindow(window: seq<nat>, burst: seq<nat>): seq<nat> {
    if Closes(window, burst) then [] else window + burst
  }

  function Quotient(a: nat, n: nat): nat
    requires n > 0
  {
    a / n
  }

  /** What is shown for a window. */
  function Average(all: seq<nat>): nat
    requires all != []
  {
    Quotient(Wrap(Sum(all)), |all|)
  }

  /** `f` is the mean of `all`, rounded down. */
  predicate IsMean(f: nat, all: seq<nat>) {
    f * |all| <= Sum(all) < (f + 1) * |all|
  }

  lemma ProductGrows(x: nat, y: nat, n: nat)
    ensures x >= y ==> x * n >= y * n
  {
  }

  lemma QuotientBounds(a: nat, n: nat)
    requires n > 0
    ensures Quotient(a, n) * n <= a < (Quotient(a, n) + 1) * n
  {
  }

  lemma {:induction false} MeanIs(f: nat, all: seq<nat>)
    requires all != []
    ensures IsMean(f, all) <==> f == Sum(all) / |all|
  {
    hide Sum;
    var g, n := Sum(all) / |all|, |all|;
    QuotientBounds(Sum(all), n);
    ProductGrows(f, g + 1, n);
    ProductGrows(g, f + 1, n);
  }

  lemma WrapBelow(a: nat)
    ensures if a < LIMIT then Wrap(a) == a else Wrap(a) + LIMIT <= a
  {
  }

  /** The figure shown is the mean rounded down exactly when the true latencies add up to less
      than the wrap-around. */
  lemma ShownIsMeanIff(all: seq<nat>)
    requires 0 < |all| <= WINDOW + MAX_BURST
    ensures IsMean(Average(all), all) <==> Sum(all) < LIMIT
  {
    hide Sum, Quotient, Wrap;
    WrapBelow(Sum(all));
    QuotientBounds(Wrap(Sum(all)), |all|);
    var f := Average(all);
    assert (f + 1) * |all| == f * |all| + |all|;
  }

  /** The running totals of the current window. */
  class Numbers {
    var totalCycles: nat
    var totalPkts: nat

    /** The true latencies since the last average was shown. */
    ghost var window: seq<nat>

    ghost predicate Valid()
      reads this
    {
      totalCycles == Wrap(Sum(window)) && totalPkts == |window| <= WINDOW
    }

    constructor ()
      ensures Valid() && window == []
    {
      totalCycles, totalPkts, window := 0, 0, [];
    }

    method CalcLatency(pkts: seq<Packet>, t: nat, ghost latencies: seq<nat>) returns (shown: seq<nat>)
      requires Valid() && |latencies| == |pkts| <= MAX_BURST
      requires forall i | 0 <= i < |pkts| :: latencies[i] <= t && StampedAt(pkts[i], t - latencies[i])
      modifies this
      ensures Valid() && window == NextWindow(old(window), latencies)
      ensures shown == if Closes(old(window), latencies) then [Average(old(window) + latencies)] else []
      ensures var all := old(window) + latencies;
              if |all| > WINDOW then |shown| == 1 && (IsMean(shown[0], all) <==> Sum(all) < LIMIT) else shown == []
    {
      hide Wrap, Sum, IsMean, Quotient, StampedAt;
      var cycles := BurstCycles(pkts, t, latencies);
      SumAppend(window, latencies);
      WrapSum(Sum(window), Sum(latencies));
      if Closes(window, latencies) {
        ShownIsMeanIff(window + latencies);
      }
      totalCycles := Wrap(totalCycles + cycles);
      totalPkts := totalPkts + |pkts|;
      window := window + latencies;
      shown := [];
      if totalPkts > WINDOW {
        shown := [Quotient(totalCycles, totalPkts)];
        totalCycles, totalPkts, window := 0, 0, [];
        EmptySum();
      }
    }
  }

  // ---- Whole runs ----

  /** The window left open by a run of bursts. */
  function Open(bursts: seq<seq<nat>>): seq<nat> {
    if bursts == [] then [] else NextWindow(Open(bursts[..|bursts| - 1]), bursts[|bursts| - 1])
  }

  /** The windows closed by a run of bursts, each of which shows one average. */
  function Closed(bursts: seq<seq<nat>>): seq<seq<nat>> {
    if bursts == [] then []
    else
      var before, last := bursts[..|bursts| - 1], bursts[|bursts| - 1];
      Closed(before) + if Closes(Open(before), last) then [Open(before) + last] else []
  }

  function Flatten(xss: seq<seq<nat>>): seq<nat> {
    if xss == [] then [] else Flatten(xss[..|xss| - 1]) + xss[|xss| - 1]
  }

  lemma FlattenMore(xss: seq<seq<nat>>, xs: seq<nat>)
    ensures Flatten(xss + [xs]) == Flatten(xss) + xs
  {
    assert (xss + [xs])[..|xss|] == xss;
  }

  /** Every packet is averaged once, in order, in a window of more than a hundred, except those of
      the window still open, which never holds more than a hundred. */
  lemma {:induction false} WindowsPartition(bursts: seq<seq<nat>>)
    ensures Flatten(Closed(bursts)) + Open(bursts) == Flatten(bursts)
    ensures |Open(bursts)| <= WINDOW && forall all <- Closed(bursts) :: |all| > WINDOW
  {
    if bursts != [] {
      var before, last := bursts[..|bursts| - 1], bursts[|bursts| - 1];
      WindowsPartition(before);
      var closed, open := Closed(before), Open(before);
      assert Flatten(closed) + (open + last) == Flatten(closed) + open + last;
      if Closes(open, last) {
        assert Closed(bursts) == closed + [open + last];
        FlattenMore(closed, open + last);
      } else {
        assert Closed(bursts) == closed;
      }
    }
  }

  lemma MeanShown(all: seq<nat>, burstSize: nat, most: nat)
    requires 0 < |all| <= WINDOW + burstSize && burstSize <= MAX_BURST && (WINDOW + burstSize) * most < LIMIT
    requires AtMost(all, most)
    ensures IsMean(Average(all), all)
  {
    hide Average, Sum, IsMean;
    SumAtMost(all, most);
    ProductGrows(WINDOW + burstSize, |all|, most);
    ShownIsMeanIff(all);
  }

  /** In a run of bursts of at most `burstSize` packets, whose latencies stay below the
      wrap-around divided by the largest window, every figure shown is the mean rounded down. */
  lemma {:induction false} EveryFigureIsMean(bursts: seq<seq<nat>>, burstSize: nat, most: nat)
    requires burstSize <= MAX_BURST && (WINDOW + burstSize) * most < LIMIT
    requires forall burst <- bursts :: |burst| <= burstSize && AtMost(burst, most)
    ensures forall all <- Closed(bursts) :: all != [] && IsMean(Average(all), all)
    ensures AtMost(Open(bursts), most)
  {
    hide IsMean, Average;
    if bursts != [] {
      var before, last := bursts[..|bursts| - 1], bursts[|bursts| - 1];
      EveryFigureIsMean(before, burstSize, most);
      WindowsPartition(before);
      assert last in bursts;
      if Closes(Open(before), last) {
        MeanShown(Open(before) + last, burstSize, most);
      }
    }
  }
}
