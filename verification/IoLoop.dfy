/** The I/O lcore's loop. A received burst is handed to a worker's ring; a burst taken from a
    return ring is grouped by destination port and each group offered to its NIC. What is refused
    is freed. */
module IoLoop {
  import opened Prelude
  import opened Frames
  import opened Traffic
  import opened Mbufs
  import Pipeline
  import System

  /** The TX queue of every port; a burst may be accepted only in part. */
  class Nic {
    var txq: seq<seq<Mbuf>>

    method TxBurst(p: nat, ms: seq<Mbuf>) returns (sent: nat)
      requires p < |txq|
      modifies this
      ensures sent <= |ms| && txq == old(txq)[p := old(txq)[p] + ms[..sent]]
    {
      sent :| 0 <= sent <= |ms|;
      txq := txq[p := txq[p] + ms[..sent]];
    }
  }

  /** The mbufs of a burst, holding `xs`, that are destined for port `p`, in order. */
  function Grouped(ms: seq<Mbuf>, xs: seq<Pkt>, p: nat): (r: seq<Mbuf>)
    requires |ms| == |xs|
    ensures |r| <= |ms|
  {
    if ms == [] then []
    else
      var k := |ms| - 1;
      Grouped(ms[..k], xs[..k], p) + if xs[k].port == p then [ms[k]] else []
  }

  /** Those destined for no port. */
  function Astray(ms: seq<Mbuf>, xs: seq<Pkt>): seq<Mbuf>
    requires |ms| == |xs|
  {
    if ms == [] then []
    else
      var k := |ms| - 1;
      Astray(ms[..k], xs[..k]) + if xs[k].port < MAX_PORTS then [] else [ms[k]]
  }

  /** Every queue holds what it is said to. */
  ghost predicate AllShow(txq: seq<seq<Mbuf>>, held: seq<seq<Pkt>>)
    reads set q, i | 0 <= q < |txq| && 0 <= i < |txq[q]| :: txq[q][i]
  {
    |txq| == |held| && forall q | 0 <= q < |txq| :: Shows(txq[q], held[q])
  }

  /** The packets of a burst by destination. */
  ghost function Shares(xs: seq<Pkt>): (r: seq<seq<Pkt>>)
    ensures |r| == MAX_PORTS && forall p | 0 <= p < MAX_PORTS :: r[p] == ToPort(xs, p)
  {
    seq(MAX_PORTS, p requires 0 <= p < MAX_PORTS => ToPort(xs, p))
  }

  ghost predicate Within(accepted: seq<nat>, shown: seq<seq<Pkt>>) {
    |accepted| == |shown| && forall p | 0 <= p < |shown| :: accepted[p] <= |shown[p]|
  }

  /** What the queues hold once they have taken the accepted prefixes. */
  ghost function After(held: seq<seq<Pkt>>, shown: seq<seq<Pkt>>, accepted: seq<nat>): (r: seq<seq<Pkt>>)
    requires |held| == |shown| && Within(accepted, shown)
    ensures |r| == |held| && forall p | 0 <= p < |held| :: r[p] == held[p] + shown[p][..accepted[p]]
  {
    seq(|held|, p requires 0 <= p < |held| => held[p] + shown[p][..accepted[p]])
  }

  /** The first `n` ports have sent their groups, the others nothing. */
  ghost predicate Sends(txq0: seq<seq<Mbuf>>, txq: seq<seq<Mbuf>>, tx0: seq<nat>, tx: seq<nat>,
                        groups: seq<seq<Mbuf>>, accepted: seq<nat>, n: nat)
  {
    && |txq0| == |txq| == |tx0| == |tx| == |groups| == MAX_PORTS && |accepted| == n <= MAX_PORTS
    && (forall p | 0 <= p < n ::
          && accepted[p] <= |groups[p]| && txq[p] == txq0[p] + groups[p][..accepted[p]]
          && tx[p] == tx0[p] + accepted[p])
    && (forall p | n <= p < MAX_PORTS :: txq[p] == txq0[p] && tx[p] == tx0[p])
  }

  /** The buffers the NICs took. */
  ghost function TakenBag(groups: seq<seq<Mbuf>>, accepted: seq<nat>): multiset<Mbuf> {
    if groups == [] || |accepted| != |groups| then multiset{}
    else
      var n := |groups| - 1;
      TakenBag(groups[..n], accepted[..n])
      + if accepted[n] <= |groups[n]| then multiset(groups[n][..accepted[n]]) else multiset{}
  }

  /** After `k` packets, every group is the in-order sub-sequence for its port. */
  ghost predicate AllGrouped(portPkts: seq<seq<Mbuf>>, ms: seq<Mbuf>, xs: seq<Pkt>, k: nat) {
    && k <= |ms| == |xs| && |portPkts| == MAX_PORTS
    && forall p | 0 <= p < MAX_PORTS :: portPkts[p] == Grouped(ms[..k], xs[..k], p)
  }

  ghost function Groups(ms: seq<Mbuf>, xs: seq<Pkt>, n: nat): (r: seq<seq<Mbuf>>)
    requires n <= |ms| == |xs|
    ensures |r| == MAX_PORTS && forall p | 0 <= p < MAX_PORTS :: r[p] == Grouped(ms[..n], xs[..n], p)
  {
    seq(MAX_PORTS, p requires 0 <= p < MAX_PORTS => Grouped(ms[..n], xs[..n], p))
  }

  lemma Snoc<T>(s: seq<T>, k: nat)
    requires k < |s|
    ensures s[..k + 1][..k] == s[..k] && s[..k + 1][k] == s[k] && |s[..k + 1]| == k + 1
  {
  }

  /** A group shows exactly the packets the whole burst holds for that port, in order. */
  lemma {:induction false} GroupShows(ms: seq<Mbuf>, xs: seq<Pkt>, p: nat)
    requires Shows(ms, xs)
    ensures Shows(Grouped(ms, xs, p), ToPort(xs, p))
  {
    if ms == [] {
      assert ToPort(xs, p) == [];
    } else {
      var k := |ms| - 1;
      GroupShows(ms[..k], xs[..k], p);
      assert xs == xs[..k] + [xs[k]];
      ToPortAppend(xs[..k], [xs[k]], p);
      assert [xs[k]][1..] == [];
      assert ToPort([xs[k]], p) == if xs[k].port == p then [xs[k]] else [];
      hide ToPort, Grouped;
      if xs[k].port == p {
        ShowsMore(Grouped(ms[..k], xs[..k], p), ToPort(xs[..k], p), ms[k]);
      }
    }
  }

  ghost function GroupsBag(groups: seq<seq<Mbuf>>): multiset<Mbuf> {
    if groups == [] then multiset{}
    else GroupsBag(groups[..|groups| - 1]) + multiset(groups[|groups| - 1])
  }

  lemma {:induction false} GroupsBagUpdate(groups: seq<seq<Mbuf>>, p: nat, m: Mbuf)
    requires p < |groups|
    ensures GroupsBag(groups[p := groups[p] + [m]]) == GroupsBag(groups) + multiset{m}
  {
    var n := |groups| - 1;
    var groups' := groups[p := groups[p] + [m]];
    if p < n {
      assert groups'[..n] == groups[..n][p := groups[..n][p] + [m]];
      GroupsBagUpdate(groups[..n], p, m);
    } else {
      assert groups'[..n] == groups[..n];
    }
  }

  lemma {:induction false} GroupsBagEmpty(groups: seq<seq<Mbuf>>)
    requires forall p | 0 <= p < |groups| :: groups[p] == []
    ensures GroupsBag(groups) == multiset{}
  {
    if groups != [] {
      GroupsBagEmpty(groups[..|groups| - 1]);
    }
  }

  ghost function MarksIn(shown: seq<seq<Pkt>>): nat {
    if shown == [] then 0 else MarksIn(shown[..|shown| - 1]) + Pipeline.CountMarked(shown[|shown| - 1])
  }

  lemma {:induction false} CountMarkedNext(xs: seq<Pkt>, k: nat)
    requires k < |xs|
    ensures Pipeline.CountMarked(xs[..k + 1])
         == Pipeline.CountMarked(xs[..k]) + if Marked(xs[k].frame) then 1 else 0
  {
    if k > 0 {
      assert xs[..k + 1][1..] == xs[1..][..k] && xs[..k][1..] == xs[1..][..k - 1];
      CountMarkedNext(xs[1..], k - 1);
    } else {
      assert xs[..1][1..] == [];
    }
  }

  lemma GroupsShow(groups: seq<seq<Mbuf>>, shown: seq<seq<Pkt>>, ms: seq<Mbuf>, xs: seq<Pkt>)
    requires |groups| == |shown| == MAX_PORTS && Shows(ms, xs)
    requires forall p | 0 <= p < MAX_PORTS :: groups[p] == Grouped(ms, xs, p) && shown[p] == ToPort(xs, p)
    ensures AllShow(groups, shown)
  {
    hide Grouped, ToPort, Shows;
    forall p | 0 <= p < MAX_PORTS
      ensures Shows(groups[p], shown[p])
    {
      GroupShows(ms, xs, p);
    }
  }

  lemma ShowsSent(txq: seq<seq<Mbuf>>, held: seq<seq<Pkt>>, groups: seq<seq<Mbuf>>, shown: seq<seq<Pkt>>,
                  accepted: seq<nat>, txq': seq<seq<Mbuf>>)
    requires AllShow(txq, held) && AllShow(groups, shown) && |txq| == |groups| == |accepted| == |txq'|
    requires forall p | 0 <= p < |txq| :: accepted[p] <= |groups[p]| && txq'[p] == txq[p] + groups[p][..accepted[p]]
    ensures |held| == |shown| && Within(accepted, shown) && AllShow(txq', After(held, shown, accepted))
  {
    forall p | 0 <= p < |txq|
      ensures accepted[p] <= |shown[p]| && Shows(txq'[p], held[p] + shown[p][..accepted[p]])
    {
      ShownLength(groups[p], shown[p]);
      hide Shows;
      ShowsCut(groups[p], shown[p], accepted[p]);
      ShowsJoin(txq[p], held[p], groups[p][..accepted[p]], shown[p][..accepted[p]]);
    }
    hide Shows;
  }

  lemma NothingSent(txq: seq<seq<Mbuf>>, tx: seq<nat>, groups: seq<seq<Mbuf>>, shown: seq<seq<Pkt>>)
    requires |txq| == |tx| == |groups| == |shown| == MAX_PORTS
    ensures Sends(txq, txq, tx, tx, groups, [], 0)
    ensures MarksIn(shown[..0]) == 0 && TakenBag(groups[..0], []) == GroupsBag(groups[..0])
  {
  }

  lemma SendsNext(txq0: seq<seq<Mbuf>>, txq: seq<seq<Mbuf>>, tx0: seq<nat>, tx: seq<nat>,
                  groups: seq<seq<Mbuf>>, accepted: seq<nat>, n: nat, sent: nat)
    requires n < MAX_PORTS && Sends(txq0, txq, tx0, tx, groups, accepted, n) && sent <= |groups[n]|
    ensures Sends(txq0, txq[n := txq[n] + groups[n][..sent]], tx0, tx[n := tx[n] + sent],
                  groups, accepted + [sent], n + 1)
  {
  }

  lemma SendsAll(txq0: seq<seq<Mbuf>>, txq: seq<seq<Mbuf>>, tx0: seq<nat>, tx: seq<nat>,
                 groups: seq<seq<Mbuf>>, accepted: seq<nat>)
    requires Sends(txq0, txq, tx0, tx, groups, accepted, MAX_PORTS)
    ensures forall p | 0 <= p < MAX_PORTS ::
              && accepted[p] <= |groups[p]| && txq[p] == txq0[p] + groups[p][..accepted[p]]
              && tx[p] == tx0[p] + accepted[p]
  {
  }

  lemma PortNext(groups: seq<seq<Mbuf>>, shown: seq<seq<Pkt>>, n: nat)
    requires n < |groups| && n < |shown|
    ensures MarksIn(shown[..n + 1]) == MarksIn(shown[..n]) + Pipeline.CountMarked(shown[n])
  {
    Snoc(shown, n);
  }

  lemma TakenNext(groups: seq<seq<Mbuf>>, accepted: seq<nat>, n: nat, sent: nat,
                  free: multiset<Mbuf>, free': multiset<Mbuf>, start: multiset<Mbuf>)
    requires n < |groups| && |accepted| == n && sent <= |groups[n]|
    requires free + TakenBag(groups[..n], accepted) == start + GroupsBag(groups[..n])
    requires free' == free + multiset(groups[n][sent..])
    ensures free' + TakenBag(groups[..n + 1], accepted + [sent]) == start + GroupsBag(groups[..n + 1])
  {
    Snoc(groups, n);
    Snoc(accepted + [sent], n);
    assert (accepted + [sent])[..n] == accepted;
    assert (accepted + [sent])[..n + 1] == accepted + [sent];
    var g := groups[n];
    assert multiset(g) == multiset(g[..sent]) + multiset(g[sent..]) by {
      assert g == g[..sent] + g[sent..];
    }
    assert GroupsBag(groups[..n + 1]) == GroupsBag(groups[..n]) + multiset(g);
    assert TakenBag(groups[..n + 1], accepted + [sent])
        == TakenBag(groups[..n], accepted) + multiset(g[..sent]);
    hide TakenBag, GroupsBag;
    var t, b := TakenBag(groups[..n], accepted), GroupsBag(groups[..n]);
    assert (free + multiset(g[sent..])) + (t + multiset(g[..sent])) == (free + t) + multiset(g);
    assert (start + b) + multiset(g) == start + (b + multiset(g));
  }

  lemma BagSwap<T>(groups: multiset<T>, astray: multiset<T>, all: multiset<T>, free: multiset<T>)
    requires all == groups + astray
    ensures groups + (free + astray) == all + free
  {
  }

  lemma NoneGrouped(portPkts: seq<seq<Mbuf>>, ms: seq<Mbuf>, xs: seq<Pkt>)
    requires |ms| == |xs| && |portPkts| == MAX_PORTS && forall p | 0 <= p < MAX_PORTS :: portPkts[p] == []
    ensures AllGrouped(portPkts, ms, xs, 0) && Astray(ms[..0], xs[..0]) == []
  {
  }

  lemma GroupedNext(ms: seq<Mbuf>, xs: seq<Pkt>, k: nat, p: nat)
    requires k < |ms| == |xs|
    ensures Grouped(ms[..k + 1], xs[..k + 1], p)
         == Grouped(ms[..k], xs[..k], p) + if xs[k].port == p then [ms[k]] else []
    ensures Astray(ms[..k + 1], xs[..k + 1])
         == Astray(ms[..k], xs[..k]) + if xs[k].port < MAX_PORTS then [] else [ms[k]]
  {
    Snoc(ms, k);
    Snoc(xs, k);
  }

  lemma GroupNext(portPkts: seq<seq<Mbuf>>, ms: seq<Mbuf>, xs: seq<Pkt>, k: nat)
    requires AllGrouped(portPkts, ms, xs, k) && k < |ms| <= BURST && Shows(ms, xs)
    ensures ms[k].port == xs[k].port
    ensures
      var dst := xs[k].port;
      if dst < MAX_PORTS then
        && |portPkts[dst]| < BURST
        && AllGrouped(portPkts[dst := portPkts[dst] + [ms[k]]], ms, xs, k + 1)
        && Astray(ms[..k + 1], xs[..k + 1]) == Astray(ms[..k], xs[..k])
      else
        && AllGrouped(portPkts, ms, xs, k + 1)
        && multiset(Astray(ms[..k + 1], xs[..k + 1])) == multiset(Astray(ms[..k], xs[..k])) + multiset{ms[k]}
  {
    assert ms[k].View() == xs[k];
    hide Shows, Grouped, Astray;
    forall p | 0 <= p < MAX_PORTS
      ensures Grouped(ms[..k + 1], xs[..k + 1], p)
           == Grouped(ms[..k], xs[..k], p) + if xs[k].port == p then [ms[k]] else []
    {
      GroupedNext(ms, xs, k, p);
    }
    GroupedNext(ms, xs, k, 0);
  }

  lemma GroupsNext(ms: seq<Mbuf>, xs: seq<Pkt>, k: nat)
    requires k < |ms| == |xs|
    ensures
      var dst, before := xs[k].port, Groups(ms, xs, k);
      Groups(ms, xs, k + 1) == if dst < MAX_PORTS then before[dst := before[dst] + [ms[k]]] else before
  {
    hide Grouped, Astray;
    var dst, before, after := xs[k].port, Groups(ms, xs, k), Groups(ms, xs, k + 1);
    var expected := if dst < MAX_PORTS then before[dst := before[dst] + [ms[k]]] else before;
    forall p | 0 <= p < MAX_PORTS
      ensures after[p] == expected[p]
    {
      GroupedNext(ms, xs, k, p);
    }
    assert after == expected;
  }

  lemma NoGroupsAtStart(ms: seq<Mbuf>, xs: seq<Pkt>)
    requires |ms| == |xs|
    ensures GroupsBag(Groups(ms, xs, 0)) == multiset{}
  {
    var groups := Groups(ms, xs, 0);
    assert ms[..0] == [] && xs[..0] == [];
    forall p | 0 <= p < |groups|
      ensures groups[p] == []
    {
      assert Grouped([], [], p) == [];
    }
    GroupsBagEmpty(groups);
  }

  lemma {:induction false} PartitionUpTo(ms: seq<Mbuf>, xs: seq<Pkt>, n: nat)
    requires n <= |ms| == |xs|
    ensures multiset(ms[..n]) == GroupsBag(Groups(ms, xs, n)) + multiset(Astray(ms[..n], xs[..n]))
  {
    hide GroupsBag, Grouped, Groups;
    if n == 0 {
      NoGroupsAtStart(ms, xs);
    } else {
      hide Astray;
      var k, dst := n - 1, xs[n - 1].port;
      PartitionUpTo(ms, xs, k);
      assert ms[..n] == ms[..k] + [ms[k]];
      GroupedNext(ms, xs, k, dst);
      GroupsNext(ms, xs, k);
      var before, astray := Groups(ms, xs, k), multiset(Astray(ms[..k], xs[..k]));
      if dst < MAX_PORTS {
        GroupsBagUpdate(before, dst, ms[k]);
        BagSwap(multiset{ms[k]}, GroupsBag(before), GroupsBag(before) + multiset{ms[k]}, astray);
      } else {
        BagSwap(astray, multiset{ms[k]}, astray + multiset{ms[k]}, GroupsBag(before));
      }
    }
  }

  /** The groups and the stray packets make up the burst. */
  lemma GroupsPartition(portPkts: seq<seq<Mbuf>>, ms: seq<Mbuf>, xs: seq<Pkt>)
    requires |ms| == |xs| && |portPkts| == MAX_PORTS
    requires forall p | 0 <= p < MAX_PORTS :: portPkts[p] == Grouped(ms, xs, p)
    ensures multiset(ms) == GroupsBag(portPkts) + multiset(Astray(ms, xs))
  {
    hide Grouped, Astray, GroupsBag;
    PartitionUpTo(ms, xs, |ms|);
    assert ms[..|ms|] == ms && xs[..|xs|] == xs;
    assert portPkts == Groups(ms, xs, |ms|);
  }

  class IoLcore {
    const pool: Pool
    const nic: Nic
    const rxToCrypto: seq<Ring>
    const cryptoToTx: seq<Ring>
    var rx: seq<nat>
    var rxRingDropped: seq<nat>
    var tx: seq<nat>
    var txEncryptedMarked: nat

    constructor (pool: Pool, nic: Nic, rings: seq<Ring>, returnRings: seq<Ring>)
      ensures this.pool == pool && this.nic == nic && rxToCrypto == rings && cryptoToTx == returnRings
      ensures rx == tx == seq(MAX_PORTS, _ => 0) && txEncryptedMarked == 0
      ensures rxRingDropped == seq(|rings|, _ => 0)
    {
      this.pool, this.nic, rxToCrypto, cryptoToTx := pool, nic, rings, returnRings;
      rx, tx, txEncryptedMarked := seq(MAX_PORTS, _ => 0), seq(MAX_PORTS, _ => 0), 0;
      rxRingDropped := seq(|rings|, _ => 0);
    }

    /** Records the receiving port in every mbuf of a burst. */
    method SetPorts(burst: seq<Mbuf>, portid: nat, ghost xs: seq<Pkt>)
      requires Distinct(burst) && Shows(burst, xs)
      modifies burst
      ensures Shows(burst, OnPort(xs, portid))
    {
      for j := 0 to |burst|
        invariant forall i | 0 <= i < j :: burst[i].Valid() && burst[i].View() == xs[i].(port := portid)
        invariant forall i | j <= i < |burst| :: burst[i].Valid() && burst[i].View() == xs[i]
      {
        burst[j].port := portid;
      }
    }

    /** A burst holding `xs` has been received on one port. */
    method Accept(portid: nat, burst: seq<Mbuf>, ghost xs: seq<Pkt>)
      requires portid < MAX_PORTS == |rx| && Shows(burst, xs) && Distinct(burst)
      modifies this`rx, burst
      ensures Shows(burst, OnPort(xs, portid))
      ensures rx == old(rx)[portid := old(rx[portid]) + |xs|]
    {
      ShownLength(burst, xs);
      hide Distinct, Shows, OnPort;
      rx := rx[portid := rx[portid] + |burst|];
      SetPorts(burst, portid, xs);
    }

    /** The ring of worker `w` takes the first part of a burst; the rest is counted and freed. */
    method Dispatch(w: nat, burst: seq<Mbuf>, ghost xs: seq<Pkt>, ghost ys: seq<Pkt>) returns (enqueued: nat)
      requires w < |rxToCrypto| == |rxRingDropped| && |ys| <= System.RING_USABLE
      requires Shows(burst, xs) && Shows(rxToCrypto[w].q, ys)
      modifies this`rxRingDropped, rxToCrypto[w], pool
      ensures enqueued == Min(|xs|, System.RING_USABLE - |ys|)
      ensures Shows(rxToCrypto[w].q, ys + xs[..enqueued])
      ensures rxToCrypto[w].q == old(rxToCrypto[w].q) + burst[..enqueued]
      ensures pool.free == old(pool.free) + multiset(burst[enqueued..])
      ensures rxRingDropped == old(rxRingDropped)[w := old(rxRingDropped[w]) + |xs| - enqueued]
    {
      ghost var k := Min(|xs|, System.RING_USABLE - |ys|);
      ShowsCut(burst, xs, k);
      ShowsJoin(rxToCrypto[w].q, ys, burst[..k], xs[..k]);
      assert |burst| == |xs| && |rxToCrypto[w].q| == |ys|;
      hide Shows;
      enqueued := rxToCrypto[w].EnqueueBurst(burst);
      if enqueued < |burst| {
        rxRingDropped := rxRingDropped[w := rxRingDropped[w] + |burst| - enqueued];
        pool.PutFrom(burst, enqueued);
      }
    }

    /** A burst holding `xs`, received on one port, goes to worker `w`, whose ring holds `ys`. */
    method Receive(portid: nat, w: nat, burst: seq<Mbuf>, ghost xs: seq<Pkt>, ghost ys: seq<Pkt>)
        returns (enqueued: nat)
      requires portid < MAX_PORTS == |rx| && w < |rxToCrypto| == |rxRingDropped|
      requires Shows(burst, xs) && Shows(rxToCrypto[w].q, ys) && Distinct(burst) && Apart(burst, rxToCrypto[w].q)
      requires |ys| <= System.RING_USABLE
      modifies this`rx, this`rxRingDropped, rxToCrypto[w], pool, burst
      ensures enqueued == Min(|xs|, System.RING_USABLE - |ys|)
      ensures Shows(rxToCrypto[w].q, ys + OnPort(xs, portid)[..enqueued])
      ensures rxToCrypto[w].q == old(rxToCrypto[w].q) + burst[..enqueued]
      ensures pool.free == old(pool.free) + multiset(burst[enqueued..])
      ensures rx == old(rx)[portid := old(rx[portid]) + |xs|]
      ensures rxRingDropped == old(rxRingDropped)[w := old(rxRingDropped[w]) + |xs| - enqueued]
    {
      hide Distinct, Shows, OnPort;
      Accept(portid, burst, xs);
      enqueued := Dispatch(w, burst, OnPort(xs, portid), ys);
    }

    /** A burst taken from the return ring of worker `w`, which holds `ys`. */
    method Collect(w: nat, ghost ys: seq<Pkt>) returns (txPkts: seq<Mbuf>)
      requires w < |cryptoToTx| && Shows(cryptoToTx[w].q, ys)
      modifies cryptoToTx[w]
      ensures |txPkts| == Min(BURST, |ys|) && txPkts + cryptoToTx[w].q == old(cryptoToTx[w].q)
      ensures Shows(txPkts, ys[..|txPkts|]) && Shows(cryptoToTx[w].q, ys[|txPkts|..])
    {
      ShownLength(cryptoToTx[w].q, ys);
      ShowsCut(cryptoToTx[w].q, ys, Min(BURST, |ys|));
      hide Shows;
      txPkts := cryptoToTx[w].DequeueBurst(BURST);
    }

    /** Groups a burst by destination. The test that a group still has room never fails, so
        only packets without a port are freed. */
    method Group(txPkts: seq<Mbuf>, ghost xs: seq<Pkt>) returns (portPkts: seq<seq<Mbuf>>)
      requires |txPkts| == |xs| <= BURST && Shows(txPkts, xs)
      modifies pool
      ensures |portPkts| == MAX_PORTS
      ensures forall p | 0 <= p < MAX_PORTS :: portPkts[p] == Grouped(txPkts, xs, p)
      ensures pool.free == old(pool.free) + multiset(Astray(txPkts, xs))
      ensures GroupsBag(portPkts) + pool.free == multiset(txPkts) + old(pool.free)
    {
      hide Grouped, Astray, GroupsBag, Shows;
      portPkts := seq(MAX_PORTS, _ => []);
      NoneGrouped(portPkts, txPkts, xs);
      for k := 0 to |txPkts|
        invariant AllGrouped(portPkts, txPkts, xs, k)
        invariant pool.free == old(pool.free) + multiset(Astray(txPkts[..k], xs[..k]))
      {
        GroupNext(portPkts, txPkts, xs, k);
        var dst := txPkts[k].port;
        if dst < MAX_PORTS && |portPkts[dst]| < BURST {
          portPkts := portPkts[dst := portPkts[dst] + [txPkts[k]]];
        } else {
          pool.Put(txPkts[k]);
        }
      }
      assert txPkts[..|txPkts|] == txPkts && xs[..|xs|] == xs;
      GroupsPartition(portPkts, txPkts, xs);
      BagSwap(GroupsBag(portPkts), multiset(Astray(txPkts, xs)), multiset(txPkts), old(pool.free));
    }

    /** Counts the marked frames of a group before it is offered to the NIC. */
    method CountMarks(pkts: seq<Mbuf>, ghost xs: seq<Pkt>)
      requires Shows(pkts, xs)
      modifies this`txEncryptedMarked
      ensures txEncryptedMarked == old(txEncryptedMarked) + Pipeline.CountMarked(xs)
    {
      for k := 0 to |pkts|
        invariant txEncryptedMarked == old(txEncryptedMarked) + Pipeline.CountMarked(xs[..k])
      {
        assert pkts[k].View() == xs[k];
        CountMarkedNext(xs, k);
        if pkts[k].etherType == MARK_ETHER_TYPE {
          txEncryptedMarked := txEncryptedMarked + 1;
        }
      }
      assert xs[..|pkts|] == xs;
    }

    /** One port: count the marks, offer the group, free what the NIC did not take. */
    method SendPort(dst: nat, pkts: seq<Mbuf>, ghost xs: seq<Pkt>) returns (sent: nat)
      requires dst < MAX_PORTS == |nic.txq| == |tx| && Shows(pkts, xs)
      modifies this`tx, this`txEncryptedMarked, nic, pool
      ensures sent <= |pkts| && nic.txq == old(nic.txq)[dst := old(nic.txq)[dst] + pkts[..sent]]
      ensures tx == old(tx)[dst := old(tx)[dst] + sent]
      ensures txEncryptedMarked == old(txEncryptedMarked) + Pipeline.CountMarked(xs)
      ensures pool.free == old(pool.free) + multiset(pkts[sent..])
    {
      hide Shows;
      CountMarks(pkts, xs);
      sent := nic.TxBurst(dst, pkts);
      tx := tx[dst := tx[dst] + sent];
      pool.PutFrom(pkts, sent);
    }

    /** Every port in turn. `accepted[p]` is how much of its group port `p` took. */
    method SendGroups(portPkts: seq<seq<Mbuf>>, ghost shown: seq<seq<Pkt>>) returns (ghost accepted: seq<nat>)
      requires |portPkts| == |shown| == MAX_PORTS == |nic.txq| == |tx| && AllShow(portPkts, shown)
      modifies this`tx, this`txEncryptedMarked, nic, pool
      ensures |accepted| == |nic.txq| == |tx| == MAX_PORTS
      ensures forall p | 0 <= p < MAX_PORTS ::
                && accepted[p] <= |portPkts[p]|
                && nic.txq[p] == old(nic.txq)[p] + portPkts[p][..accepted[p]]
                && tx[p] == old(tx)[p] + accepted[p]
      ensures txEncryptedMarked == old(txEncryptedMarked) + MarksIn(shown)
      ensures pool.free + TakenBag(portPkts, accepted) == old(pool.free) + GroupsBag(portPkts)
    {
      hide Shows, MarksIn, TakenBag, GroupsBag, Sends, Pipeline.CountMarked;
      ghost var txq0, tx0 := nic.txq, tx;
      accepted := [];
      NothingSent(txq0, tx0, portPkts, shown);
      for dst := 0 to MAX_PORTS
        invariant Sends(txq0, nic.txq, tx0, tx, portPkts, accepted, dst)
        invariant |nic.txq| == |tx| == MAX_PORTS && |accepted| == dst
        invariant txEncryptedMarked == old(txEncryptedMarked) + MarksIn(shown[..dst])
        invariant pool.free + TakenBag(portPkts[..dst], accepted) == old(pool.free) + GroupsBag(portPkts[..dst])
      {
        PortNext(portPkts, shown, dst);
        ghost var free, txq1, tx1 := pool.free, nic.txq, tx;
        var sent := SendPort(dst, portPkts[dst], shown[dst]);
        TakenNext(portPkts, accepted, dst, sent, free, pool.free, old(pool.free));
        SendsNext(txq0, txq1, tx0, tx1, portPkts, accepted, dst, sent);
        accepted := accepted + [sent];
      }
      assert portPkts[..MAX_PORTS] == portPkts && shown[..MAX_PORTS] == shown;
      SendsAll(txq0, nic.txq, tx0, tx, portPkts, accepted);
    }

    /** The whole transmit half for one returned burst holding `xs`, with NICs whose queues hold
        `held`. Each port takes a prefix of the in-order sub-sequence addressed to it; every buffer
        of the burst ends up with a NIC or free, exactly once. */
    method SendReturned(txPkts: seq<Mbuf>, ghost xs: seq<Pkt>, ghost held: seq<seq<Pkt>>)
        returns (ghost accepted: seq<nat>, ghost groups: seq<seq<Mbuf>>)
      requires |txPkts| == |xs| <= BURST && Shows(txPkts, xs)
      requires |nic.txq| == |tx| == |held| == MAX_PORTS && AllShow(nic.txq, held)
      modifies this`tx, this`txEncryptedMarked, nic, pool
      ensures |accepted| == |groups| == |nic.txq| == |tx| == MAX_PORTS
      ensures forall p | 0 <= p < MAX_PORTS ::
                && accepted[p] <= |groups[p]|
                && nic.txq[p] == old(nic.txq)[p] + groups[p][..accepted[p]]
                && tx[p] == old(tx)[p] + accepted[p]
      ensures Within(accepted, Shares(xs)) && AllShow(nic.txq, After(held, Shares(xs), accepted))
      ensures txEncryptedMarked == old(txEncryptedMarked) + MarksIn(Shares(xs))
      ensures pool.free + TakenBag(groups, accepted) == multiset(txPkts) + old(pool.free)
    {
      hide Shows, Grouped, Astray, MarksIn, GroupsBag, TakenBag, ToPort, AllShow, Within, Shares, After;
      ghost var txq := nic.txq;
      var portPkts := Group(txPkts, xs);
      groups := portPkts;
      ghost var shown := Shares(xs);
      GroupsShow(portPkts, shown, txPkts, xs);
      accepted := SendGroups(portPkts, shown);
      ShowsSent(txq, held, portPkts, shown, accepted, nic.txq);
    }
  }
}
