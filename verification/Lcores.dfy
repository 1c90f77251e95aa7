/** Which lcore polls which ports, and which lcore is started with which loop. */
module Lcores {
  import opened Prelude

  const MAX_LCORES: nat := 128

  /** Largest number of ports one lcore may be given. */
  const MAX_QUEUES: nat := 15

  /** Enabled lcores among the first `k`. */
  function Count(enabled: seq<bool>, k: nat): nat
    requires k <= |enabled|
  {
    if k == 0 then 0 else Count(enabled, k - 1) + if enabled[k - 1] then 1 else 0
  }

  /** Places for ports on the first `k` lcores. */
  function Slots(enabled: seq<bool>, q: nat, k: nat): nat
    requires k <= |enabled|
  {
    if k == 0 then 0 else Slots(enabled, q, k - 1) + if enabled[k - 1] then q else 0
  }

  lemma {:induction false} SlotsAreMultiples(enabled: seq<bool>, q: nat, k: nat)
    requires k <= |enabled|
    ensures Slots(enabled, q, k) == q * Count(enabled, k)
  {
    if k > 0 {
      SlotsAreMultiples(enabled, q, k - 1);
    }
  }

  lemma {:induction false} SlotsMonotone(enabled: seq<bool>, q: nat, j: nat, k: nat)
    requires j <= k <= |enabled|
    ensures Slots(enabled, q, j) <= Slots(enabled, q, k)
  {
    if j < k {
      SlotsMonotone(enabled, q, j, k - 1);
    }
  }

  /** The ports of lcore `x`: those that fall into its own places. */
  function Share(ports: seq<nat>, enabled: seq<bool>, q: nat, x: nat): seq<nat>
    requires x < |enabled|
  {
    ports[Min(|ports|, Slots(enabled, q, x))..Min(|ports|, Slots(enabled, q, x + 1))]
  }

  /** Lcores among the first `k` with at least one port. */
  function Busy(conf: seq<seq<nat>>, k: nat): nat
    requires k <= |conf|
  {
    if k == 0 then 0 else Busy(conf, k - 1) + if conf[k - 1] != [] then 1 else 0
  }

  /** No fewer than `used` lcores of `q` places hold `n` ports. */
  predicate Fewest(used: nat, n: nat, q: nat) {
    n <= q * used && (used > 0 ==> q * (used - 1) < n)
  }

  // ---- The assignment loop ----

  /** Lcores below `rx` are full, those above it are unused, and `rx` holds the rest. */
  ghost predicate Filled(conf: seq<seq<nat>>, enabled: seq<bool>, q: nat, ports: seq<nat>, rx: nat) {
    && |conf| == |enabled| && rx < |enabled|
    && Slots(enabled, q, rx) <= |ports| <= Slots(enabled, q, rx + 1)
    && forall x | 0 <= x < |conf| :: conf[x] == Share(ports, enabled, q, x)
  }

  lemma FillsAt(enabled: seq<bool>, q: nat, ports: seq<nat>, rx: nat, x: nat)
    requires rx < |enabled| && x < |enabled|
    requires Slots(enabled, q, rx) <= |ports| <= Slots(enabled, q, rx + 1)
    ensures x == rx ==> Share(ports, enabled, q, x) == ports[Slots(enabled, q, rx)..]
    ensures x > rx ==> Share(ports, enabled, q, x) == []
  {
    if x > rx {
      SlotsMonotone(enabled, q, rx + 1, x);
      SlotsMonotone(enabled, q, x, x + 1);
    }
  }

  lemma AddPort(conf: seq<seq<nat>>, enabled: seq<bool>, q: nat, ports: seq<nat>, rx: nat, p: nat)
    requires Filled(conf, enabled, q, ports, rx) && enabled[rx] && |conf[rx]| != q
    ensures |conf[rx]| < q
    ensures Filled(conf[rx := conf[rx] + [p]], enabled, q, ports + [p], rx)
  {
    var more := ports + [p];
    FillsAt(enabled, q, ports, rx, rx);
    forall x | 0 <= x < |conf|
      ensures conf[rx := conf[rx] + [p]][x] == Share(more, enabled, q, x)
    {
      FillsAt(enabled, q, ports, rx, x);
      FillsAt(enabled, q, more, rx, x);
      if x < rx {
        SlotsMonotone(enabled, q, x, x + 1);
        SlotsMonotone(enabled, q, x + 1, rx);
      }
    }
  }

  lemma LcoreFull(conf: seq<seq<nat>>, enabled: seq<bool>, q: nat, ports: seq<nat>, rx: nat)
    requires Filled(conf, enabled, q, ports, rx) && (!enabled[rx] || |conf[rx]| == q)
    ensures |ports| == Slots(enabled, q, rx + 1)
    ensures rx + 1 < |enabled| ==> Filled(conf, enabled, q, ports, rx + 1)
  {
    FillsAt(enabled, q, ports, rx, rx);
  }

  /** The lcores in use are the full ones and, unless it is still empty, the current one. */
  lemma {:induction false} BusyIs(conf: seq<seq<nat>>, enabled: seq<bool>, q: nat, ports: seq<nat>, rx: nat, k: nat)
    requires q > 0 && k <= |conf| && Filled(conf, enabled, q, ports, rx)
    ensures Busy(conf, k) == if k <= rx then Count(enabled, k)
                             else Count(enabled, rx) + if conf[rx] != [] then 1 else 0
  {
    if k > 0 {
      BusyIs(conf, enabled, q, ports, rx, k - 1);
      FillsAt(enabled, q, ports, rx, k - 1);
      if k <= rx {
        SlotsMonotone(enabled, q, k, rx);
      }
    }
  }

  /** Lcores in use up to `rx`, which may still be empty. */
  ghost function InUse(conf: seq<seq<nat>>, enabled: seq<bool>, rx: nat): nat
    requires rx < |conf| == |enabled|
  {
    Count(enabled, rx) + if conf[rx] != [] then 1 else 0
  }

  /** One step of the inner loop: a disabled lcore is unused, a full one has been counted. */
  lemma Advance(conf: seq<seq<nat>>, enabled: seq<bool>, q: nat, ports: seq<nat>, rx: nat)
    requires q > 0 && Filled(conf, enabled, q, ports, rx) && (!enabled[rx] || |conf[rx]| == q)
    ensures |ports| == Slots(enabled, q, rx + 1)
    ensures rx + 1 < |enabled| ==> Filled(conf, enabled, q, ports, rx + 1) && conf[rx + 1] == []
    ensures Count(enabled, rx + 1) == Count(enabled, rx) + if conf[rx] != [] then 1 else 0
  {
    LcoreFull(conf, enabled, q, ports, rx);
    FillsAt(enabled, q, ports, rx, rx);
    if rx + 1 < |enabled| {
      FillsAt(enabled, q, ports, rx, rx + 1);
    }
  }

  /** The inner loop: go to the first enabled lcore, from `from` on, that has a place left. */
  method FindPlace(conf: array<seq<nat>>, ghost ports: seq<nat>, enabled: seq<bool>, q: nat, from: nat)
      returns (rx: nat)
    requires conf.Length == |enabled| == MAX_LCORES && q > 0 && from < MAX_LCORES
    requires Filled(conf[..], enabled, q, ports, from)
    ensures from <= rx <= MAX_LCORES
    ensures rx == MAX_LCORES ==> |ports| == Slots(enabled, q, MAX_LCORES)
    ensures rx < MAX_LCORES ==>
              && enabled[rx] && |conf[rx]| != q && Filled(conf[..], enabled, q, ports, rx)
              && InUse(conf[..], enabled, rx) == InUse(conf[..], enabled, from)
              && (rx != from ==> conf[rx] == [])
  {
    rx := from;
    hide Count, Share, Slots, Filled;
    while !enabled[rx] || |conf[rx]| == q
      invariant from <= rx < MAX_LCORES && Filled(conf[..], enabled, q, ports, rx)
      invariant InUse(conf[..], enabled, rx) == InUse(conf[..], enabled, from)
      invariant rx != from ==> conf[rx] == []
      decreases MAX_LCORES - rx
    {
      Advance(conf[..], enabled, q, ports, rx);
      rx := rx + 1;
      if rx >= MAX_LCORES {
        return;
      }
    }
  }

  lemma Unused(conf: seq<seq<nat>>, enabled: seq<bool>, q: nat, ports: seq<nat>)
    requires |conf| == |enabled| > 0 && forall x | 0 <= x < |conf| :: conf[x] == []
    ensures Filled(conf, enabled, q, ports[..0], 0) && InUse(conf, enabled, 0) == 0
  {
    forall x | 0 <= x < |conf|
      ensures Share([], enabled, q, x) == []
    {
    }
  }

  lemma FewestIs(q: nat, full: nat, rest: nat)
    requires 0 < q && rest <= q
    ensures Fewest(full + if rest > 0 then 1 else 0, q * full + rest, q)
  {
    assert q * (full + 1) == q * full + q && q * (full - 1) == q * full - q;
  }

  lemma SlotsNext(enabled: seq<bool>, q: nat, k: nat)
    requires k < |enabled|
    ensures Slots(enabled, q, k + 1) <= Slots(enabled, q, k) + q
  {
  }

  lemma Finished(conf: seq<seq<nat>>, enabled: seq<bool>, q: nat, ports: seq<nat>, rx: nat)
    requires q > 0 && Filled(conf, enabled, q, ports, rx)
    ensures |ports| <= Slots(enabled, q, |enabled|)
    ensures forall x | 0 <= x < |conf| :: conf[x] == Share(ports, enabled, q, x)
    ensures Busy(conf, |conf|) == InUse(conf, enabled, rx)
    ensures Fewest(Busy(conf, |conf|), |ports|, q)
  {
    hide Fewest, Slots, Share, Busy, Count;
    BusyIs(conf, enabled, q, ports, rx, |conf|);
    SlotsMonotone(enabled, q, rx + 1, |enabled|);
    SlotsAreMultiples(enabled, q, rx);
    FillsAt(enabled, q, ports, rx, rx);
    SlotsNext(enabled, q, rx);
    FewestIs(q, Count(enabled, rx), |conf[rx]|);
  }

  /** Port number `i` goes to lcore `rx`, which is in use from then on. */
  lemma PlacePort(conf: seq<seq<nat>>, enabled: seq<bool>, q: nat, ports: seq<nat>, i: nat, rx: nat)
    requires i < |ports| && Filled(conf, enabled, q, ports[..i], rx) && enabled[rx] && |conf[rx]| != q
    ensures Filled(conf[rx := conf[rx] + [ports[i]]], enabled, q, ports[..i + 1], rx)
    ensures InUse(conf[rx := conf[rx] + [ports[i]]], enabled, rx)
         == InUse(conf, enabled, rx) + if conf[rx] == [] then 1 else 0
  {
    assert ports[..i + 1] == ports[..i] + [ports[i]];
    AddPort(conf, enabled, q, ports[..i], rx, ports[i]);
    hide Filled, Count;
  }

  /** First fit. It succeeds exactly when there are enough places; then lcore `x` has exactly the
      ports of its own places, and the lcores in use are counted. */
  method AssignPorts(conf: array<seq<nat>>, ports: seq<nat>, enabled: seq<bool>, q: nat)
      returns (r: Result<nat, string>)
    requires conf.Length == |enabled| == MAX_LCORES && 1 <= q <= MAX_QUEUES
    requires forall x | 0 <= x < conf.Length :: conf[x] == []
    modifies conf
    ensures r.Success? <==> |ports| <= q * Count(enabled, MAX_LCORES)
    ensures r.Success? ==> forall x | 0 <= x < conf.Length :: conf[x] == Share(ports, enabled, q, x)
    ensures r.Success? ==> r.value == Busy(conf[..], MAX_LCORES) && Fewest(r.value, |ports|, q)
  {
    hide Count, Share, Slots, Filled, Fewest, Busy, InUse;
    SlotsAreMultiples(enabled, q, MAX_LCORES);
    var rxLcoreId := 0;
    var qconf := -1;
    var nbLcores := 0;
    Unused(conf[..], enabled, q, ports);
    for i := 0 to |ports|
      invariant rxLcoreId < MAX_LCORES && Filled(conf[..], enabled, q, ports[..i], rxLcoreId)
      invariant qconf <= rxLcoreId && (qconf == rxLcoreId <==> conf[rxLcoreId] != [])
      invariant nbLcores == InUse(conf[..], enabled, rxLcoreId)
    {
      ghost var before := conf[..];
      rxLcoreId := FindPlace(conf, ports[..i], enabled, q, rxLcoreId);
      if rxLcoreId == MAX_LCORES {
        return Failure("Not enough cores");
      }
      PlacePort(before, enabled, q, ports, i, rxLcoreId);
      if qconf != rxLcoreId {
        qconf := rxLcoreId;
        nbLcores := nbLcores + 1;
      }
      conf[rxLcoreId] := conf[rxLcoreId] + [ports[i]];
      assert conf[..] == before[rxLcoreId := before[rxLcoreId] + [ports[i]]];
    }
    assert ports[..|ports|] == ports;
    Finished(conf[..], enabled, q, ports, rxLcoreId);
    r := Success(nbLcores);
  }

  // ---- What first fit promises ----

  ghost predicate Distinct(ports: seq<nat>) {
    forall i, j | 0 <= i < j < |ports| :: ports[i] != ports[j]
  }

  /** The lcore on which port number `i` lands. */
  function LcoreOf(enabled: seq<bool>, q: nat, i: nat, k: nat): (x: nat)
    requires k <= |enabled| && i < Slots(enabled, q, k)
    ensures x < k && enabled[x] && Slots(enabled, q, x) <= i < Slots(enabled, q, x + 1)
  {
    if i >= Slots(enabled, q, k - 1) then k - 1 else LcoreOf(enabled, q, i, k - 1)
  }

  lemma InSlice(ports: seq<nat>, from: nat, to: nat, i: nat)
    requires Distinct(ports) && from <= to <= |ports| && i < |ports|
    ensures ports[i] in ports[from..to] <==> from <= i < to
  {
    if from <= i < to {
      assert ports[from..to][i - from] == ports[i];
    }
  }

  /** Every port is on exactly one lcore, which is enabled. */
  lemma PortOnOneLcore(ports: seq<nat>, enabled: seq<bool>, q: nat, i: nat, x: nat)
    requires Distinct(ports) && i < |ports| <= Slots(enabled, q, |enabled|) && x < |enabled|
    ensures ports[i] in Share(ports, enabled, q, x) <==> x == LcoreOf(enabled, q, i, |enabled|)
  {
    var y := LcoreOf(enabled, q, i, |enabled|);
    var n := |ports|;
    var from, to := Min(n, Slots(enabled, q, x)), Min(n, Slots(enabled, q, x + 1));
    SlotsMonotone(enabled, q, x, x + 1);
    if x < y {
      SlotsMonotone(enabled, q, x + 1, y);
    } else if y < x {
      SlotsMonotone(enabled, q, y + 1, x);
    }
    InSlice(ports, from, to, i);
    hide Slots;
  }

  /** No lcore exceeds `q` ports, and a disabled one has none. */
  lemma ShareIsBounded(ports: seq<nat>, enabled: seq<bool>, q: nat, x: nat)
    requires x < |enabled|
    ensures |Share(ports, enabled, q, x)| <= q
    ensures !enabled[x] ==> Share(ports, enabled, q, x) == []
  {
  }

  // ---- Launching the loops ----

  datatype Role = Io | Crypto(worker: nat)

  datatype Launch = Launch(lcore: nat, role: Role)

  /** Enabled lcores above `main` and below `k`, with or without ports. */
  function Above(conf: seq<seq<nat>>, enabled: seq<bool>, main: nat, k: nat, idle: bool): seq<nat>
    requires k <= |enabled| == |conf|
  {
    if k == 0 then []
    else
      Above(conf, enabled, main, k - 1, idle)
      + if k - 1 > main && enabled[k - 1] && (conf[k - 1] == []) == idle then [k - 1] else []
  }

  function CryptoLaunches(lcores: seq<nat>): seq<Launch> {
    seq(|lcores|, i requires 0 <= i < |lcores| => Launch(lcores[i], Crypto(i)))
  }

  function IoLaunches(lcores: seq<nat>): seq<Launch> {
    seq(|lcores|, i requires 0 <= i < |lcores| => Launch(lcores[i], Io))
  }

  /** The launches, in order: crypto workers, I/O workers, and the main lcore if it has ports. */
  function Launches(conf: seq<seq<nat>>, enabled: seq<bool>, main: nat): seq<Launch>
    requires main < |enabled| == |conf|
  {
    CryptoLaunches(Above(conf, enabled, main, |conf|, true))
    + IoLaunches(Above(conf, enabled, main, |conf|, false))
    + if conf[main] != [] then [Launch(main, Io)] else []
  }

  lemma {:induction false} InAbove(conf: seq<seq<nat>>, enabled: seq<bool>, main: nat, k: nat, idle: bool, x: nat)
    requires k <= |enabled| == |conf|
    ensures x in Above(conf, enabled, main, k, idle) <==>
            main < x < k && enabled[x] && (conf[x] == []) == idle
  {
    if k > 0 {
      InAbove(conf, enabled, main, k - 1, idle, x);
    }
  }

  /** The next enabled lcore after `i` other than `main`, or MAX_LCORES. */
  method NextLcore(i: nat, main: nat, enabled: seq<bool>) returns (l: nat)
    requires |enabled| == MAX_LCORES && i < MAX_LCORES
    ensures i < l <= MAX_LCORES
    ensures l < MAX_LCORES ==> enabled[l] && l != main
    ensures forall x | i < x < l :: !enabled[x] || x == main
  {
    l := i + 1;
    while l < MAX_LCORES && (!enabled[l] || l == main)
      invariant i < l <= MAX_LCORES
      invariant forall x | i < x < l :: !enabled[x] || x == main
    {
      l := l + 1;
    }
  }

  lemma {:induction false} AboveSkips(conf: seq<seq<nat>>, enabled: seq<bool>, main: nat, j: nat, k: nat, idle: bool)
    requires j <= k <= |enabled| == |conf|
    requires forall x | j <= x < k :: !enabled[x] || x == main
    ensures Above(conf, enabled, main, k, idle) == Above(conf, enabled, main, j, idle)
  {
    if j < k {
      AboveSkips(conf, enabled, main, j, k - 1, idle);
    }
  }

  method Contains(lcores: seq<nat>, x: nat) returns (found: bool)
    ensures found <==> x in lcores
  {
    for i := 0 to |lcores|
      invariant x !in lcores[..i]
    {
      if x == lcores[i] {
        return true;
      }
    }
    found := false;
  }

  lemma OneMore(lcores: seq<nat>, x: nat)
    ensures CryptoLaunches(lcores + [x]) == CryptoLaunches(lcores) + [Launch(x, Crypto(|lcores|))]
    ensures IoLaunches(lcores + [x]) == IoLaunches(lcores) + [Launch(x, Io)]
  {
  }

  lemma AboveNone(conf: seq<seq<nat>>, enabled: seq<bool>, main: nat, idle: bool)
    requires main < |enabled| == |conf|
    ensures Above(conf, enabled, main, main + 1, idle) == []
  {
    var up := Above(conf, enabled, main, main + 1, idle);
    if up != [] {
      InAbove(conf, enabled, main, main + 1, idle, up[0]);
    }
  }

  /** Above, after looking at `l`, when the next enabled lcore is `next`. */
  lemma AboveNext(conf: seq<seq<nat>>, enabled: seq<bool>, main: nat, l: nat, next: nat, idle: bool)
    requires l < next <= |enabled| == |conf| && main <= l && (l == main || enabled[l])
    requires forall x | l < x < next :: !enabled[x] || x == main
    ensures Above(conf, enabled, main, next, idle)
            == if l == main then []
               else Above(conf, enabled, main, l, idle) + if (conf[l] == []) == idle then [l] else []
  {
    AboveSkips(conf, enabled, main, l + 1, next, idle);
    if l == main {
      AboveNone(conf, enabled, main, idle);
    }
  }

  /** The lcores that become crypto workers. */
  method PickCrypto(conf: seq<seq<nat>>, enabled: seq<bool>, main: nat) returns (crypto: seq<nat>)
    requires |conf| == |enabled| == MAX_LCORES && main < MAX_LCORES
    ensures crypto == Above(conf, enabled, main, MAX_LCORES, true)
  {
    crypto := [];
    var l := NextLcore(main, main, enabled);
    AboveNext(conf, enabled, main, main, l, true);
    hide Above;
    while l != MAX_LCORES
      invariant main < l <= MAX_LCORES && (l < MAX_LCORES ==> enabled[l])
      invariant crypto == Above(conf, enabled, main, l, true)
      decreases MAX_LCORES - l
    {
      ghost var was := l;
      if conf[l] == [] {
        crypto := crypto + [l];
      }
      l := NextLcore(l, main, enabled);
      AboveNext(conf, enabled, main, was, l, true);
    }
  }

  /** The other lcores above the main one run the I/O loop. */
  method LaunchIo(conf: seq<seq<nat>>, enabled: seq<bool>, main: nat, crypto: seq<nat>) returns (launched: seq<Launch>)
    requires |conf| == |enabled| == MAX_LCORES && main < MAX_LCORES
    requires crypto == Above(conf, enabled, main, MAX_LCORES, true)
    ensures launched == IoLaunches(Above(conf, enabled, main, MAX_LCORES, false))
  {
    launched := [];
    var l := NextLcore(main, main, enabled);
    AboveNext(conf, enabled, main, main, l, false);
    while l != MAX_LCORES
      invariant main < l <= MAX_LCORES && (l < MAX_LCORES ==> enabled[l])
      invariant launched == IoLaunches(Above(conf, enabled, main, l, false))
      decreases MAX_LCORES - l
    {
      hide Above, IoLaunches, CryptoLaunches;
      ghost var was := l;
      var isCryptoWorker := Contains(crypto, l);
      InAbove(conf, enabled, main, MAX_LCORES, true, l);
      OneMore(Above(conf, enabled, main, l, false), l);
      if !isCryptoWorker && conf[l] != [] {
        launched := launched + [Launch(l, Io)];
      }
      l := NextLcore(l, main, enabled);
      AboveNext(conf, enabled, main, was, l, false);
    }
  }

  /** Starting the loops makes exactly the launches above. */
  method LaunchAll(conf: seq<seq<nat>>, enabled: seq<bool>, main: nat) returns (launched: seq<Launch>)
    requires |conf| == |enabled| == MAX_LCORES && main < MAX_LCORES
    ensures launched == Launches(conf, enabled, main)
  {
    var crypto := PickCrypto(conf, enabled, main);
    launched := [];
    for i := 0 to |crypto|
      invariant launched == CryptoLaunches(crypto[..i])
    {
      OneMore(crypto[..i], crypto[i]);
      assert crypto[..i + 1] == crypto[..i] + [crypto[i]];
      launched := launched + [Launch(crypto[i], Crypto(i))];
    }
    assert crypto[..|crypto|] == crypto;
    var io := LaunchIo(conf, enabled, main, crypto);
    launched := launched + io;
    var mainIsCrypto := Contains(crypto, main);
    InAbove(conf, enabled, main, MAX_LCORES, true, main);
    if !mainIsCrypto && conf[main] != [] {
      launched := launched + [Launch(main, Io)];
    }
  }

  /** The lcores started, one entry a launch. */
  function Started(launches: seq<Launch>): seq<nat> {
    seq(|launches|, i requires 0 <= i < |launches| => launches[i].lcore)
  }

  function Occurrences(lcores: seq<nat>, x: nat): nat {
    if lcores == [] then 0
    else Occurrences(lcores[..|lcores| - 1], x) + if lcores[|lcores| - 1] == x then 1 else 0
  }

  /** How often lcore `x` is started. */
  function Times(launches: seq<Launch>, x: nat): nat {
    Occurrences(Started(launches), x)
  }

  lemma {:induction false} OccurrencesAppend(a: seq<nat>, b: seq<nat>, x: nat)
    ensures Occurrences(a + b, x) == Occurrences(a, x) + Occurrences(b, x)
  {
    if b == [] {
      assert a + b == a;
    } else {
      assert (a + b)[..|a + b| - 1] == a + b[..|b| - 1];
      OccurrencesAppend(a, b[..|b| - 1], x);
    }
  }

  lemma AboveStep(conf: seq<seq<nat>>, enabled: seq<bool>, main: nat, k: nat, idle: bool)
    requires k <= |enabled| == |conf|
    ensures Above(conf, enabled, main, k, idle)
            == if k == 0 then []
               else if k - 1 > main && enabled[k - 1] && (conf[k - 1] == []) == idle
               then Above(conf, enabled, main, k - 1, idle) + [k - 1] else Above(conf, enabled, main, k - 1, idle)
  {
  }

  lemma {:induction false} AboveOnce(conf: seq<seq<nat>>, enabled: seq<bool>, main: nat, k: nat, idle: bool, x: nat)
    requires k <= |enabled| == |conf|
    ensures Occurrences(Above(conf, enabled, main, k, idle), x)
            == if main < x < k && enabled[x] && (conf[x] == []) == idle then 1 else 0
  {
    AboveStep(conf, enabled, main, k, idle);
    hide Above;
    if k > 0 {
      AboveOnce(conf, enabled, main, k - 1, idle, x);
      OccurrencesAppend(Above(conf, enabled, main, k - 1, idle), [k - 1], x);
    }
  }

  /** Started once: every enabled lcore above the main one, and the main one if it has ports.
      The rest never. */
  lemma StartedOnce(conf: seq<seq<nat>>, enabled: seq<bool>, main: nat, x: nat)
    requires main < |enabled| == |conf|
    ensures Times(Launches(conf, enabled, main), x)
            == if (main < x < |conf| && enabled[x]) || (x == main && conf[main] != []) then 1 else 0
  {
    var idle, busy := Above(conf, enabled, main, |conf|, true), Above(conf, enabled, main, |conf|, false);
    var last := if conf[main] != [] then [main] else [];
    assert Started(Launches(conf, enabled, main)) == idle + busy + last;
    AboveOnce(conf, enabled, main, |conf|, true, x);
    AboveOnce(conf, enabled, main, |conf|, false, x);
    OccurrencesAppend(idle + busy, last, x);
    OccurrencesAppend(idle, busy, x);
  }

  /** I/O on the lcores with ports and crypto on the rest; worker numbers count up from zero, so
      no two workers share a ring pair. */
  lemma RolesFit(conf: seq<seq<nat>>, enabled: seq<bool>, main: nat, i: nat)
    requires main < |enabled| == |conf| && i < |Launches(conf, enabled, main)|
    ensures var launch := Launches(conf, enabled, main)[i];
            var workers := |Above(conf, enabled, main, |conf|, true)|;
            && launch.lcore < |conf|
            && (launch.role == Io <==> conf[launch.lcore] != [])
            && (launch.role == Crypto(i) <==> i < workers)
            && (launch.role == Io <==> i >= workers)
  {
    var idle, busy := Above(conf, enabled, main, |conf|, true), Above(conf, enabled, main, |conf|, false);
    if i < |idle| {
      InAbove(conf, enabled, main, |conf|, true, idle[i]);
    } else if i < |idle| + |busy| {
      InAbove(conf, enabled, main, |conf|, false, busy[i - |idle|]);
    }
  }

  /** Ring pairs created. */
  const MAX_CRYPTO_WORKERS: nat := 8

  /** Every worker has a ring pair of its own. */
  ghost predicate AllHaveRings(launches: seq<Launch>) {
    forall launch | launch in launches && launch.role.Crypto? :: launch.role.worker < MAX_CRYPTO_WORKERS
  }

  lemma RingsByNumber(conf: seq<seq<nat>>, enabled: seq<bool>, main: nat)
    requires main < |enabled| == |conf|
    ensures AllHaveRings(Launches(conf, enabled, main))
            <==> |Above(conf, enabled, main, |conf|, true)| <= MAX_CRYPTO_WORKERS
  {
    var launches, workers := Launches(conf, enabled, main), |Above(conf, enabled, main, |conf|, true)|;
    assert |launches| >= workers;
    forall i | 0 <= i < |launches|
      ensures launches[i].role == (if i < workers then Crypto(i) else Io)
    {
      RolesFit(conf, enabled, main, i);
    }
    hide Launches, Above;
    if workers > MAX_CRYPTO_WORKERS {
      assert launches[MAX_CRYPTO_WORKERS] in launches;
    }
  }

  /** With the main lcore lowest and a port assigned, the workers are the enabled lcores that were
      not given ports; `nb_lcores` of them were. */
  lemma {:induction false} WorkersAreTheRest(conf: seq<seq<nat>>, enabled: seq<bool>, main: nat, ports: seq<nat>,
                                             q: nat, k: nat)
    requires k <= |enabled| == |conf| && main < |conf| && conf[main] != []
    requires forall x | 0 <= x < |conf| :: conf[x] == Share(ports, enabled, q, x)
    requires forall x | 0 <= x < |conf| && enabled[x] :: main <= x
    ensures |Above(conf, enabled, main, k, true)| == Count(enabled, k) - Busy(conf, k)
  {
    hide Share;
    if k > 0 {
      WorkersAreTheRest(conf, enabled, main, ports, q, k - 1);
      ShareIsBounded(ports, enabled, q, k - 1);
      assert conf[k - 1] == Share(ports, enabled, q, k - 1);
    }
  }

  lemma ProductGrows(q: nat, a: nat, b: nat)
    ensures a <= b ==> q * a <= q * b
  {
  }

  /** `used` lcores hold `n` ports: more than `spare` of them are needed exactly when `n` ports do
      not fit on `spare`. */
  lemma MoreThanSpare(used: nat, n: nat, q: nat, spare: nat)
    requires q > 0 && Fewest(used, n, q)
    ensures used > spare <==> n > q * spare
  {
    ProductGrows(q, used, spare);
    if used > spare {
      ProductGrows(q, spare, used - 1);
    }
  }

  /** With the main lcore lowest and a port assigned, no worker indexes past the ring pairs exactly
      when at most eight lcores are enabled, or so many ports that at most eight are left over. */
  lemma WorkersHaveRingsIff(conf: seq<seq<nat>>, enabled: seq<bool>, main: nat, ports: seq<nat>, q: nat)
    requires main < |enabled| == |conf| && q > 0 && conf[main] != []
    requires forall x | 0 <= x < |conf| :: conf[x] == Share(ports, enabled, q, x)
    requires forall x | 0 <= x < |conf| && enabled[x] :: main <= x
    requires Fewest(Busy(conf, |conf|), |ports|, q)
    ensures var lcores := Count(enabled, |enabled|);
            AllHaveRings(Launches(conf, enabled, main))
            <==> lcores <= MAX_CRYPTO_WORKERS || |ports| > q * (lcores - MAX_CRYPTO_WORKERS - 1)
  {
    hide Share, Launches, Above, AllHaveRings, Count, Busy, Fewest;
    RingsByNumber(conf, enabled, main);
    WorkersAreTheRest(conf, enabled, main, ports, q, |conf|);
    var lcores := Count(enabled, |enabled|);
    if lcores > MAX_CRYPTO_WORKERS {
      MoreThanSpare(Busy(conf, |conf|), |ports|, q, lcores - MAX_CRYPTO_WORKERS - 1);
    }
  }

  /** Lcores 0 to 9, main 0, one port: nine workers. */
  function TenLcores(): (enabled: seq<bool>)
    ensures |enabled| == MAX_LCORES && forall x | 0 <= x < MAX_LCORES :: enabled[x] <==> x < 10
  {
    seq(MAX_LCORES, x => x < 10)
  }

  function OnePort(): (conf: seq<seq<nat>>)
    ensures |conf| == MAX_LCORES && forall x | 0 <= x < MAX_LCORES :: conf[x] == Share([5], TenLcores(), 1, x)
  {
    seq(MAX_LCORES, x requires 0 <= x < MAX_LCORES => Share([5], TenLcores(), 1, x))
  }

  lemma OnePortOnFirst(x: nat)
    requires x < MAX_LCORES
    ensures OnePort()[x] == if x == 0 then [5] else []
  {
    var enabled := TenLcores();
    assert Slots(enabled, 1, 0) == 0 && Slots(enabled, 1, 1) == 1;
    if x > 0 {
      SlotsMonotone(enabled, 1, 1, x);
      SlotsMonotone(enabled, 1, x, x + 1);
    }
  }

  lemma {:induction false} TenAbove(k: nat)
    requires 1 <= k <= 10
    ensures Above(OnePort(), TenLcores(), 0, k, true) == seq(k - 1, i => i + 1)
  {
    hide OnePort, TenLcores;
    if k == 1 {
      AboveNone(OnePort(), TenLcores(), 0, true);
    } else {
      TenAbove(k - 1);
      OnePortOnFirst(k - 1);
    }
  }

  /** Ten lcores and one port start a worker number 8, past the eight ring pairs. */
  lemma NineWorkersOverrun()
    ensures Launch(9, Crypto(8)) in Launches(OnePort(), TenLcores(), 0)
    ensures !AllHaveRings(Launches(OnePort(), TenLcores(), 0))
  {
    hide OnePort, TenLcores;
    TenAbove(10);
    AboveSkips(OnePort(), TenLcores(), 0, 10, MAX_LCORES, true);
    hide Above;
    var launches := Launches(OnePort(), TenLcores(), 0);
    assert launches[8] == Launch(9, Crypto(8));
  }

  lemma {:induction false} NoSlotsBelow(enabled: seq<bool>, q: nat, k: nat)
    requires k <= |enabled| && forall x | 0 <= x < k :: !enabled[x]
    ensures Slots(enabled, q, k) == 0
  {
    if k > 0 {
      NoSlotsBelow(enabled, q, k - 1);
    }
  }

  /** With at least one port assigned, all enabled lcores are started, each once, exactly when
      the main lcore is the lowest enabled one; the main lcore then does I/O. */
  lemma PartitionIffMainIsLowest(conf: seq<seq<nat>>, enabled: seq<bool>, main: nat, ports: seq<nat>, q: nat)
    requires main < |enabled| == |conf| && enabled[main] && ports != [] && q > 0
    requires forall x | 0 <= x < |conf| :: conf[x] == Share(ports, enabled, q, x)
    ensures (forall x | 0 <= x < |conf| && enabled[x] :: Times(Launches(conf, enabled, main), x) == 1)
            <==> (forall x | 0 <= x < |conf| && enabled[x] :: main <= x)
    ensures (forall x | 0 <= x < |conf| && enabled[x] :: main <= x) ==> conf[main] != []
  {
    forall x | 0 <= x < |conf|
      ensures Times(Launches(conf, enabled, main), x)
              == if (main < x && enabled[x]) || (x == main && conf[main] != []) then 1 else 0
    {
      StartedOnce(conf, enabled, main, x);
    }
    if forall x | 0 <= x < |conf| && enabled[x] :: main <= x {
      NoSlotsBelow(enabled, q, main);
      assert Slots(enabled, q, main + 1) == q;
    }
  }

  /** With lcores 0 and 1 enabled and 1 as main, lcore 0 is given the only port and never started. */
  lemma LowerLcoreIsNotStarted()
    ensures var enabled := seq(MAX_LCORES, i => i < 2);
            var conf := seq(MAX_LCORES, x requires 0 <= x < MAX_LCORES => Share([5], enabled, 1, x));
            conf[0] == [5] && Times(Launches(conf, enabled, 1), 0) == 0
  {
    var enabled := seq(MAX_LCORES, i => i < 2);
    var conf := seq(MAX_LCORES, x requires 0 <= x < MAX_LCORES => Share([5], enabled, 1, x));
    StartedOnce(conf, enabled, 1, 0);
    assert Slots(enabled, 1, 0) == 0 && Slots(enabled, 1, 1) == 1;
    hide Times, Launches;
  }
}
