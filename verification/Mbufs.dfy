/** Rings and the mempool, and sequences of mbufs.

    `Ring` and `Pool` stand for rte_ring and the mempool: a bounded FIFO that accepts as much
    of a batch as fits, and a bag of free buffers.
  */
module Mbufs {
  import opened Prelude
  import opened Frames
  import System

  class Ring {
    var q: seq<Mbuf>

    constructor ()
      ensures q == []
    {
      q := [];
    }

    method DequeueBurst(max: nat) returns (burst: seq<Mbuf>)
      modifies this
      ensures burst == old(q)[..Min(max, old(|q|))] && q == old(q)[|burst|..]
    {
      var n := Min(max, |q|);
      burst := q[..n];
      q := q[n..];
    }

    method EnqueueBurst(ms: seq<Mbuf>) returns (enqueued: nat)
      requires |q| <= System.RING_USABLE
      modifies this
      ensures enqueued == Min(|ms|, System.RING_USABLE - old(|q|))
      ensures q == old(q) + ms[..enqueued] && |q| <= System.RING_USABLE
    {
      enqueued := Min(|ms|, System.RING_USABLE - |q|);
      q := q + ms[..enqueued];
    }
  }

  class Pool {
    var free: multiset<Mbuf>

    method Put(m: Mbuf)
      modifies this
      ensures free == old(free) + multiset{m}
    {
      free := free + multiset{m};
    }

    /** Frees the buffers of a batch that were not accepted. */
    method PutFrom(batch: seq<Mbuf>, k: nat)
      requires k <= |batch|
      modifies this
      ensures free == old(free) + multiset(batch[k..])
    {
      for i := k to |batch|
        invariant free == old(free) + multiset(batch[k..i])
      {
        assert batch[k..i + 1] == batch[k..i] + [batch[i]];
        Put(batch[i]);
      }
      assert batch[k..|batch|] == batch[k..];
    }
  }

  ghost predicate Distinct(ms: seq<Mbuf>) {
    forall i, j | 0 <= i < j < |ms| :: ms[i] != ms[j]
  }

  /** The mbufs hold these packets. */
  ghost predicate Shows(ms: seq<Mbuf>, xs: seq<Pkt>)
    reads ms
  {
    |ms| == |xs| && forall i | 0 <= i < |ms| :: ms[i].Valid() && ms[i].View() == xs[i]
  }

  lemma ShowsMore(ms: seq<Mbuf>, xs: seq<Pkt>, m: Mbuf)
    requires Shows(ms, xs) && m.Valid()
    ensures Shows(ms + [m], xs + [m.View()])
  {
  }

  lemma ShowsHead(ms: seq<Mbuf>, xs: seq<Pkt>, i: nat)
    requires i < |ms| && i < |xs| && Shows(ms[i..], xs[i..])
    ensures ms[i].Valid() && ms[i].View() == xs[i] && Shows(ms[i + 1..], xs[i + 1..])
  {
    assert ms[i..][0] == ms[i] && xs[i..][0] == xs[i];
    assert ms[i + 1..] == ms[i..][1..] && xs[i + 1..] == xs[i..][1..];
  }

  lemma ShowsCut(ms: seq<Mbuf>, xs: seq<Pkt>, n: nat)
    requires Shows(ms, xs) && n <= |ms|
    ensures Shows(ms[..n], xs[..n]) && Shows(ms[n..], xs[n..])
  {
  }

  lemma ShowsJoin(ms: seq<Mbuf>, xs: seq<Pkt>, ms': seq<Mbuf>, xs': seq<Pkt>)
    requires Shows(ms, xs) && Shows(ms', xs')
    ensures Shows(ms + ms', xs + xs')
  {
  }

  ghost predicate Apart(ms: seq<Mbuf>, rest: seq<Mbuf>) {
    forall i | 0 <= i < |rest| :: rest[i] !in ms
  }

  lemma DistinctAt(ms: seq<Mbuf>, i: nat)
    requires Distinct(ms) && i < |ms|
    ensures ms[i] !in ms[i + 1..]
  {
  }

  /** Cutting a burst off the front of distinct mbufs. */
  lemma DistinctCut(ms: seq<Mbuf>, rest: seq<Mbuf>, n: nat)
    requires Distinct(ms + rest) && n <= |ms|
    ensures Distinct(ms[..n])
    ensures Apart(ms[..n], ms[n..]) && Apart(ms[..n], rest)
  {
    var all := ms + rest;
    forall i, j | 0 <= i < n && n <= j < |all|
      ensures ms[..n][i] != all[j]
    {
      assert ms[..n][i] == all[i];
    }
    forall i | 0 <= i < |rest|
      ensures rest[i] !in ms[..n]
    {
      assert rest[i] == all[|ms| + i];
    }
    forall i | n <= i < |ms|
      ensures ms[i] !in ms[..n]
    {
      assert ms[i] == all[i];
    }
    assert forall i | 0 <= i < n :: ms[..n][i] == all[i];
  }

  lemma {:induction false} DistinctBag(ms: seq<Mbuf>)
    ensures Distinct(ms) <==> forall m :: multiset(ms)[m] <= 1
  {
    if ms != [] {
      var k := |ms| - 1;
      var init, last := ms[..k], ms[k];
      DistinctBag(init);
      assert ms == init + [last];
      assert forall m :: multiset(ms)[m] == multiset(init)[m] + if m == last then 1 else 0;
      assert Distinct(ms) <==> Distinct(init) && last !in init;
      assert last in init <==> multiset(init)[last] > 0;
      if Distinct(init) && last !in init {
        assert forall m :: multiset(ms)[m] <= 1;
      }
    }
  }

  /** Each packet that is to be encrypted leaves room for its padding in its mbuf. */
  ghost predicate Roomy(ms: seq<Mbuf>, xs: seq<Pkt>) {
    |ms| == |xs| && forall i | 0 <= i < |ms| :: Marked(xs[i].frame) || HasRoom(ms[i].capacity, xs[i].frame)
  }

  lemma ShownLength(ms: seq<Mbuf>, xs: seq<Pkt>)
    requires Shows(ms, xs)
    ensures |ms| == |xs|
  {
  }

  /** Room for one more packet. */
  lemma RoomyNext(ms: seq<Mbuf>, xs: seq<Pkt>, i: nat)
    requires |ms| == |xs| && i < |ms|
    ensures Roomy(ms[..i + 1], xs[..i + 1])
       <==> Roomy(ms[..i], xs[..i]) && (Marked(xs[i].frame) || HasRoom(ms[i].capacity, xs[i].frame))
    ensures Roomy(ms, xs) ==> Roomy(ms[..i + 1], xs[..i + 1])
  {
    var ms', xs' := ms[..i + 1], xs[..i + 1];
    assert forall k | 0 <= k < i :: ms'[k] == ms[..i][k] && xs'[k] == xs[..i][k];
    assert ms'[i] == ms[i] && xs'[i] == xs[i];
  }
}
