/** Which port forwards to which: checking of explicit pairs, and the two ways to fill the
    destination table. The 32-bit port mask is the set of its bits. */
module Ports {
  import opened Prelude
  import opened Traffic

  datatype Pair = Pair(a: nat, b: nat)

  function Both(p: Pair): set<nat> {
    {p.a, p.b}
  }

  function Elements(ports: seq<nat>): (r: set<nat>)
    ensures forall p :: p in r <==> p in ports
  {
    set p | p in ports
  }

  function PortsOf(pairs: seq<Pair>): set<nat> {
    if pairs == [] then {} else PortsOf(pairs[..|pairs| - 1]) + Both(pairs[|pairs| - 1])
  }

  ghost predicate Small(pairs: seq<Pair>) {
    forall i | 0 <= i < |pairs| :: pairs[i].a < MAX_PORTS && pairs[i].b < MAX_PORTS
  }

  /** What the checker is to accept: enabled, present ports, no port in two pairs. */
  ghost predicate Acceptable(enabled: set<nat>, present: set<nat>, pairs: seq<Pair>) {
    && (forall i | 0 <= i < |pairs| :: Both(pairs[i]) <= enabled && Both(pairs[i]) <= present)
    && (forall i, j | 0 <= i < j < |pairs| :: Both(pairs[i]) !! Both(pairs[j]))
  }

  lemma {:induction false} InPortsOf(pairs: seq<Pair>, p: nat)
    ensures p in PortsOf(pairs) <==> exists i :: 0 <= i < |pairs| && p in Both(pairs[i])
  {
    if pairs != [] {
      var n := |pairs| - 1;
      InPortsOf(pairs[..n], p);
      assert forall i | 0 <= i < n :: pairs[..n][i] == pairs[i];
    }
  }

  lemma PairInPortsOf(pairs: seq<Pair>, j: nat)
    requires j < |pairs|
    ensures Both(pairs[j]) <= PortsOf(pairs)
  {
    forall p | p in Both(pairs[j])
      ensures p in PortsOf(pairs)
    {
      InPortsOf(pairs, p);
    }
  }

  /** The checker accepts exactly the acceptable lists, and then leaves exactly the paired
      ports enabled. */
  method CheckPortPairConfig(enabled: set<nat>, present: set<nat>, pairs: seq<Pair>)
      returns (ok: bool, mask: set<nat>)
    ensures ok <==> Acceptable(enabled, present, pairs)
    ensures mask == if ok then PortsOf(pairs) else enabled
  {
    var configMask: set<nat> := {};
    for index := 0 to |pairs|
      invariant configMask == PortsOf(pairs[..index]) && configMask <= enabled
      invariant Acceptable(enabled, present, pairs[..index])
    {
      var pairMask: set<nat> := {};
      for i := 0 to 2
        invariant pairMask == if i == 0 then {} else if i == 1 then {pairs[index].a} else Both(pairs[index])
        invariant pairMask <= enabled && pairMask <= present
      {
        var portid := if i == 0 then pairs[index].a else pairs[index].b;
        if portid !in enabled || portid !in present {
          assert portid in Both(pairs[index]);
          return false, enabled;
        }
        pairMask := pairMask + {portid};
      }
      if configMask * pairMask != {} {
        var p :| p in configMask * pairMask;
        InPortsOf(pairs[..index], p);
        var j :| 0 <= j < index && p in Both(pairs[..index][j]);
        assert p in Both(pairs[j]) * Both(pairs[index]);
        return false, enabled;
      }
      configMask := configMask + pairMask;
      assert pairs[..index + 1][..index] == pairs[..index];
      forall j | 0 <= j < index
        ensures Both(pairs[j]) !! Both(pairs[index])
      {
        PairInPortsOf(pairs[..index], j);
      }
    }
    assert pairs[..|pairs|] == pairs;
    mask := enabled * configMask;
    ok := true;
  }

  // ---- The destination table ----

  /** The table links every port of `mask` to a partner that links back. */
  ghost predicate Involution(dst: seq<nat>, mask: set<nat>) {
    && |dst| == MAX_PORTS
    && forall p | p in mask :: p < MAX_PORTS && dst[p] in mask && dst[p] < MAX_PORTS && dst[dst[p]] == p
  }

  /** Each pair is linked both ways and every other entry is zero. */
  ghost predicate LinksPairs(dst: seq<nat>, pairs: seq<Pair>)
  {
    && |dst| == MAX_PORTS
    && (forall i | 0 <= i < |pairs| ::
          pairs[i].a < MAX_PORTS && pairs[i].b < MAX_PORTS
          && dst[pairs[i].a] == pairs[i].b && dst[pairs[i].b] == pairs[i].a)
    && (forall p | 0 <= p < MAX_PORTS && p !in PortsOf(pairs) :: dst[p] == 0)
  }

  /** Part-way: the first `idx` entries have been written. */
  ghost predicate LinksPairs'(dst: seq<nat>, pairs: seq<Pair>, idx: nat)
    requires |dst| == MAX_PORTS
  {
    && (forall i | 0 <= i < |pairs| && 2 * i < idx :: pairs[i].a < MAX_PORTS && dst[pairs[i].a] == pairs[i].b)
    && (forall i | 0 <= i < |pairs| && 2 * i + 1 < idx :: pairs[i].b < MAX_PORTS && dst[pairs[i].b] == pairs[i].a)
    && (forall p | 0 <= p < MAX_PORTS && p !in PortsOf(pairs) :: dst[p] == 0)
  }

  method TableFromPairs(dst: array<nat>, enabled: set<nat>, present: set<nat>, pairs: seq<Pair>)
    requires dst.Length == MAX_PORTS && Small(pairs) && Acceptable(enabled, present, pairs)
    requires forall p | 0 <= p < MAX_PORTS :: dst[p] == 0
    modifies dst
    ensures LinksPairs(dst[..], pairs)
  {
    for idx := 0 to 2 * |pairs|
      invariant LinksPairs'(dst[..], pairs, idx)
    {
      var pair := pairs[idx / 2];
      var p: nat, q: nat := if idx % 2 == 0 then pair.a else pair.b, if idx % 2 == 0 then pair.b else pair.a;
      PairInPortsOf(pairs, idx / 2);
      forall i | 0 <= i < |pairs| && 2 * i < idx && i != idx / 2
        ensures p !in Both(pairs[i])
      {
        assert p in Both(pair);
      }
      ghost var before: seq<nat> := dst[..];
      dst[p] := q;
      assert dst[..] == before[p := q];
    }
  }

  lemma PairsInvolution(dst: seq<nat>, pairs: seq<Pair>)
    requires LinksPairs(dst, pairs)
    ensures Involution(dst, PortsOf(pairs))
  {
    forall p | p in PortsOf(pairs)
      ensures p < MAX_PORTS && dst[p] in PortsOf(pairs) && dst[p] < MAX_PORTS && dst[dst[p]] == p
    {
      InPortsOf(pairs, p);
      var i :| 0 <= i < |pairs| && p in Both(pairs[i]);
      PairInPortsOf(pairs, i);
    }
  }

  // ---- The default pairing ----

  /** The enabled devices, in the order the loops visit them. */
  function Select(devs: seq<nat>, enabled: set<nat>): seq<nat> {
    if devs == [] then []
    else
      Select(devs[..|devs| - 1], enabled)
      + if devs[|devs| - 1] in enabled then [devs[|devs| - 1]] else []
  }

  ghost predicate Ascending(xs: seq<nat>) {
    forall i, j | 0 <= i < j < |xs| :: xs[i] < xs[j]
  }

  lemma {:induction false} SelectMembers(devs: seq<nat>, enabled: set<nat>, p: nat)
    ensures p in Select(devs, enabled) <==> p in devs && p in enabled
  {
    if devs != [] {
      var n := |devs| - 1;
      SelectMembers(devs[..n], enabled, p);
      assert devs == devs[..n] + [devs[n]];
    }
  }

  lemma {:induction false} SelectAscending(devs: seq<nat>, enabled: set<nat>)
    requires Ascending(devs)
    ensures Ascending(Select(devs, enabled))
    ensures forall p :: p in Select(devs, enabled) <==> p in devs && p in enabled
  {
    forall p
      ensures p in Select(devs, enabled) <==> p in devs && p in enabled
    {
      SelectMembers(devs, enabled, p);
    }
    if devs != [] {
      var n := |devs| - 1;
      var init := Select(devs[..n], enabled);
      SelectAscending(devs[..n], enabled);
      forall i | 0 <= i < |init|
        ensures init[i] < devs[n]
      {
        assert init[i] in init;
      }
    }
  }

  /** Position `i` of `n` is paired with its neighbour; an odd last position with itself. */
  function Partner(i: nat, n: nat): nat
    requires i < n
  {
    if i % 2 == 1 then i - 1 else if i + 1 < n then i + 1 else i
  }

  /** The first `m` ports are linked among themselves. */
  ghost predicate LinkedUpTo(dst: seq<nat>, ports: seq<nat>, m: nat) {
    && |dst| == MAX_PORTS
    && m <= |ports|
    && forall i {:trigger Partner(i, m)} | 0 <= i < m :: ports[i] < MAX_PORTS && dst[ports[i]] == ports[Partner(i, m)]
  }

  ghost predicate LinksNeighbours(dst: seq<nat>, ports: seq<nat>) {
    LinkedUpTo(dst, ports, |ports|)
  }

  lemma LinkTwo(dst: seq<nat>, ports: seq<nat>, m: nat)
    requires Ascending(ports) && m % 2 == 0 && m + 2 <= |ports| && LinkedUpTo(dst, ports, m)
    requires ports[m] < MAX_PORTS && ports[m + 1] < MAX_PORTS
    ensures LinkedUpTo(dst[ports[m + 1] := ports[m]][ports[m] := ports[m + 1]], ports, m + 2)
  {
    var after := dst[ports[m + 1] := ports[m]][ports[m] := ports[m + 1]];
    forall i | 0 <= i < m + 2
      ensures ports[i] < MAX_PORTS && after[ports[i]] == ports[Partner(i, m + 2)]
    {
      if i < m {
        assert ports[i] < ports[m] < ports[m + 1];
        assert Partner(i, m) == Partner(i, m + 2);
      }
    }
  }

  lemma LinkLast(dst: seq<nat>, ports: seq<nat>, m: nat)
    requires Ascending(ports) && m % 2 == 0 && m + 1 == |ports| && LinkedUpTo(dst, ports, m)
    requires ports[m] < MAX_PORTS
    ensures LinksNeighbours(dst[ports[m] := ports[m]], ports)
  {
    var after := dst[ports[m] := ports[m]];
    forall i | 0 <= i < m + 1
      ensures ports[i] < MAX_PORTS && after[ports[i]] == ports[Partner(i, m + 1)]
    {
      if i < m {
        assert ports[i] < ports[m];
        assert Partner(i, m) == Partner(i, m + 1);
      }
    }
  }

  lemma LinkedPrefix(dst: seq<nat>, ports: seq<nat>, more: seq<nat>, m: nat)
    requires LinkedUpTo(dst, ports, m)
    ensures LinkedUpTo(dst, ports + more, m)
  {
    var all := ports + more;
    forall i | 0 <= i < m
      ensures ports[i] < MAX_PORTS && dst[all[i]] == all[Partner(i, m)]
    {
      var k := Partner(i, m);
      assert all[i] == ports[i] && all[k] == ports[k];
    }
  }

  /** `n` enabled ports seen; whole pairs are linked and an odd one waits in `lastPort`. */
  ghost predicate Progress(dst: seq<nat>, ports: seq<nat>, n: nat, lastPort: nat) {
    && n == |ports|
    && LinkedUpTo(dst, ports, n - n % 2)
    && (n % 2 == 1 ==> lastPort == ports[n - 1] && lastPort < MAX_PORTS)
  }

  lemma ProgressOdd(dst: seq<nat>, ports: seq<nat>, n: nat, lastPort: nat, port: nat)
    requires Progress(dst, ports, n, lastPort) && n % 2 == 1 && Ascending(ports + [port]) && port < MAX_PORTS
    ensures Progress(dst[port := lastPort][lastPort := port], ports + [port], n + 1, lastPort)
  {
    var all := ports + [port];
    LinkedPrefix(dst, ports, [port], n - 1);
    hide LinkedUpTo, Ascending, Partner;
    assert all[n - 1] == lastPort && all[n] == port;
    LinkTwo(dst, all, n - 1);
  }

  lemma ProgressEven(dst: seq<nat>, ports: seq<nat>, n: nat, lastPort: nat, port: nat)
    requires Progress(dst, ports, n, lastPort) && n % 2 == 0 && port < MAX_PORTS
    ensures Progress(dst, ports + [port], n + 1, port)
  {
    LinkedPrefix(dst, ports, [port], n);
    hide LinkedUpTo;
  }

  lemma SelectNext(devs: seq<nat>, enabled: set<nat>, k: nat)
    requires Ascending(devs) && k < |devs|
    ensures var before := Select(devs[..k], enabled);
            Select(devs[..k + 1], enabled) == if devs[k] in enabled then before + [devs[k]] else before
    ensures Ascending(Select(devs[..k + 1], enabled))
  {
    assert devs[..k + 1][..k] == devs[..k];
    SelectAscending(devs[..k + 1], enabled);
  }

  lemma ProgressInRange(dst: seq<nat>, ports: seq<nat>, n: nat, lastPort: nat)
    requires Progress(dst, ports, n, lastPort)
    ensures |dst| == MAX_PORTS && (n % 2 == 1 ==> lastPort < |dst|)
  {
  }

  lemma ProgressDone(dst: seq<nat>, ports: seq<nat>, n: nat, lastPort: nat)
    requires Progress(dst, ports, n, lastPort) && Ascending(ports)
    ensures LinksNeighbours(if n % 2 == 1 && lastPort < |dst| then dst[lastPort := lastPort] else dst, ports)
  {
    if n % 2 == 1 {
      LinkLast(dst, ports, n - 1);
    }
  }

  method DefaultTable(dst: array<nat>, devs: seq<nat>, enabled: set<nat>)
    requires dst.Length == MAX_PORTS
    requires Ascending(devs) && forall i | 0 <= i < |devs| :: devs[i] < MAX_PORTS
    modifies dst
    ensures LinksNeighbours(dst[..], Select(devs, enabled))
  {
    var lastPort: nat, nbPortsInMask: nat := 0, 0;
    assert Progress(dst[..], Select(devs[..0], enabled), nbPortsInMask, lastPort);
    hide Select, LinkedUpTo, Progress, Ascending;
    for k := 0 to |devs|
      invariant Progress(dst[..], Select(devs[..k], enabled), nbPortsInMask, lastPort)
    {
      SelectNext(devs, enabled, k);
      ProgressInRange(dst[..], Select(devs[..k], enabled), nbPortsInMask, lastPort);
      if devs[k] in enabled {
        ghost var before: seq<nat> := dst[..];
        if nbPortsInMask % 2 == 1 {
          ProgressOdd(before, Select(devs[..k], enabled), nbPortsInMask, lastPort, devs[k]);
          dst[devs[k]] := lastPort;
          dst[lastPort] := devs[k];
          assert dst[..] == before[devs[k] := lastPort][lastPort := devs[k]];
        } else {
          ProgressEven(before, Select(devs[..k], enabled), nbPortsInMask, lastPort, devs[k]);
          lastPort := devs[k];
        }
        nbPortsInMask := nbPortsInMask + 1;
      }
    }
    assert devs[..|devs|] == devs;
    SelectAscending(devs, enabled);
    ProgressInRange(dst[..], Select(devs, enabled), nbPortsInMask, lastPort);
    ProgressDone(dst[..], Select(devs, enabled), nbPortsInMask, lastPort);
    if nbPortsInMask % 2 == 1 {
      ghost var before: seq<nat> := dst[..];
      dst[lastPort] := lastPort;
      assert dst[..] == before[lastPort := lastPort];
    }
  }

  /** Consecutive enabled ports are linked both ways; only an odd last port links to itself. */
  lemma DefaultInvolution(dst: seq<nat>, ports: seq<nat>)
    requires LinksNeighbours(dst, ports) && Ascending(ports)
    ensures Involution(dst, Elements(ports))
    ensures forall i | 0 <= i < |ports| :: ports[i] < |dst|
    ensures forall i | 0 <= i < |ports| ::
              dst[ports[i]] == ports[i] <==> i == |ports| - 1 && |ports| % 2 == 1
  {
    forall i | 0 <= i < |ports|
      ensures ports[i] < MAX_PORTS
      ensures dst[ports[i]] in ports && dst[ports[i]] < MAX_PORTS && dst[dst[ports[i]]] == ports[i]
      ensures dst[ports[i]] == ports[i] <==> i == |ports| - 1 && |ports| % 2 == 1
    {
      var k := Partner(i, |ports|);
      assert Partner(k, |ports|) == i;
    }
  }

  // ---- Set-up of the ports as a whole ----

  datatype SetUpError = NoPorts | InvalidPairs | InvalidMask

  lemma PairedArePresent(mask: set<nat>, devs: seq<nat>, pairs: seq<Pair>)
    requires Ascending(devs) && Acceptable(mask, Elements(devs), pairs)
    ensures Elements(Select(devs, PortsOf(pairs))) == PortsOf(pairs)
  {
    SelectAscending(devs, PortsOf(pairs));
    forall p | p in PortsOf(pairs)
      ensures p in devs
    {
      InPortsOf(pairs, p);
      var i :| 0 <= i < |pairs| && p in Both(pairs[i]);
      assert p in Elements(devs);
    }
  }

  function FinalMask(mask: set<nat>, pairs: Option<seq<Pair>>): set<nat> {
    if pairs.Some? then PortsOf(pairs.value) else mask
  }

  /** The port part of `main`: fills the destination table and yields the final mask. `devs` are
      the present ports in ascending order. */
  method SetUpPorts(dst: array<nat>, devs: seq<nat>, mask: set<nat>, pairs: Option<seq<Pair>>)
      returns (r: Result<set<nat>, SetUpError>)
    requires dst.Length == MAX_PORTS
    requires Ascending(devs) && forall i | 0 <= i < |devs| :: devs[i] < MAX_PORTS
    requires pairs.Some? ==> Small(pairs.value)
    modifies dst
    ensures r.Success? <==>
              && devs != []
              && (pairs.Some? ==> Acceptable(mask, Elements(devs), pairs.value))
              && (forall p <- FinalMask(mask, pairs) :: p < |devs|)
    ensures r.Success? ==>
              && r.value == FinalMask(mask, pairs)
              && Involution(dst[..], Elements(Select(devs, r.value)))
    ensures r.Success? && pairs == None ==> LinksNeighbours(dst[..], Select(devs, mask))
    ensures r.Success? && pairs.Some? ==> LinksPairs(dst[..], pairs.value)
  {
    if |devs| == 0 {
      return Failure(NoPorts);
    }
    var final := mask;
    if pairs.Some? {
      var ok;
      ok, final := CheckPortPairConfig(mask, Elements(devs), pairs.value);
      if !ok {
        return Failure(InvalidPairs);
      }
    }
    assert final == FinalMask(mask, pairs);
    if exists p <- final :: p >= |devs| {
      return Failure(InvalidMask);
    }
    for portid := 0 to MAX_PORTS
      invariant forall p | 0 <= p < portid :: dst[p] == 0
    {
      dst[portid] := 0;
    }
    SelectAscending(devs, final);
    if pairs.Some? {
      TableFromPairs(dst, mask, Elements(devs), pairs.value);
      PairsInvolution(dst[..], pairs.value);
      PairedArePresent(mask, devs, pairs.value);
    } else {
      DefaultTable(dst, devs, final);
      DefaultInvolution(dst[..], Select(devs, final));
    }
    r := Success(final);
  }
}
