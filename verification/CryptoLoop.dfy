/** One iteration of a crypto lcore's loop, on mbufs updated in place. */
module CryptoLoop {
  import opened Prelude
  import opened Cipher
  import opened Frames
  import opened Traffic
  import opened Mbufs
  import System

  /** What one packet contributes to the packets returned. */
  function Outcome(cfg: Config, x: Pkt): (r: seq<Pkt>)
    ensures |r| <= 1
  {
    if Marked(x.frame) then [] else [Encrypted(cfg, x)]
  }

  /** Of the buffers `done` so far, those not in `hand` have been freed, each once. */
  ghost predicate Tally(hand: multiset<Mbuf>, free: multiset<Mbuf>, done: multiset<Mbuf>, start: multiset<Mbuf>) {
    hand + free == done + start && hand <= done
  }

  lemma NothingYet(cfg: Config, pkts: seq<Mbuf>, xs: seq<Pkt>, free: multiset<Mbuf>)
    requires Shows(pkts, xs)
    ensures Shows([], Fwd(cfg, xs[..0])) && Shows(pkts[0..], xs[0..])
    ensures Tally(multiset([]), free, multiset(pkts[..0]), free) && Roomy(pkts[..0], xs[..0])
  {
    assert pkts[..0] == [] && xs[..0] == [] && pkts[0..] == pkts && xs[0..] == xs;
  }

  lemma TallyNext(hand': multiset<Mbuf>, free': multiset<Mbuf>, hand: multiset<Mbuf>, free: multiset<Mbuf>,
                  m: Mbuf, done: multiset<Mbuf>, start: multiset<Mbuf>)
    requires Tally(hand, free, done, start)
    requires hand' + free' == hand + multiset{m} + free && hand' <= hand + multiset{m}
    ensures Tally(hand', free', done + multiset{m}, start)
  {
    assert hand + multiset{m} + free == (hand + free) + multiset{m};
    assert (done + start) + multiset{m} == (done + multiset{m}) + start;
  }

  lemma TallyAbsent(hand: multiset<Mbuf>, free: multiset<Mbuf>, pkts: seq<Mbuf>, i: nat, start: multiset<Mbuf>)
    requires Distinct(pkts) && i < |pkts| && Tally(hand, free, multiset(pkts[..i]), start)
    ensures pkts[i] !in hand && pkts[i] !in pkts[i + 1..]
    ensures multiset(pkts[..i + 1]) == multiset(pkts[..i]) + multiset{pkts[i]}
  {
    assert pkts[..i + 1] == pkts[..i] + [pkts[i]];
  }

  lemma BagCut<T>(xs: seq<T>, k: nat, free: multiset<T>, free': multiset<T>)
    requires k <= |xs| && free' == free + multiset(xs[k..])
    ensures multiset(xs[..k]) + free' == multiset(xs) + free
  {
    assert xs == xs[..k] + xs[k..];
  }

  lemma FwdNext(cfg: Config, xs: seq<Pkt>, i: nat)
    requires i < |xs|
    ensures Fwd(cfg, xs[..i + 1])
         == Fwd(cfg, xs[..i]) + Outcome(cfg, xs[i])
  {
    assert xs[..i + 1] == xs[..i] + [xs[i]];
    FwdAppend(cfg, xs[..i], [xs[i]]);
    assert [xs[i]][1..] == [];
  }

  /** The buffers of a burst end up in the return ring or free. */
  lemma Accounted(burst: seq<Mbuf>, txq: seq<Mbuf>, hand: seq<Mbuf>, returned: seq<Mbuf>,
                  free: multiset<Mbuf>, freed: multiset<Mbuf>, free': multiset<Mbuf>)
    requires returned <= hand && Tally(multiset(hand), freed, multiset(burst), free)
    requires multiset(returned) + free' == multiset(hand) + freed
    ensures multiset(txq + returned) + free' == multiset(txq) + free + multiset(burst)
    ensures multiset(returned) <= multiset(burst)
  {
    assert hand == returned + hand[|returned|..];
    assert multiset(txq) + multiset(returned) + free' == multiset(txq) + (multiset(returned) + free');
  }

  lemma BagBelow<T>(burst: multiset<T>, rest: multiset<T>, there: multiset<T>, returned: multiset<T>)
    requires returned <= burst
    ensures forall x :: (rest + (there + returned))[x] <= ((burst + rest) + there)[x]
  {
  }

  /** So the rings still hold each buffer at most once. */
  lemma StillDistinct(burst: seq<Mbuf>, rest: seq<Mbuf>, txq: seq<Mbuf>, returned: seq<Mbuf>)
    requires Distinct(burst + rest + txq) && multiset(returned) <= multiset(burst)
    ensures Distinct(rest + (txq + returned))
  {
    DistinctBag(burst + rest + txq);
    DistinctBag(rest + (txq + returned));
    assert multiset(rest + (txq + returned)) == multiset(rest) + (multiset(txq) + multiset(returned));
    assert multiset(burst + rest + txq) == (multiset(burst) + multiset(rest)) + multiset(txq);
    BagBelow(multiset(burst), multiset(rest), multiset(txq), multiset(returned));
    hide Distinct;
  }

  lemma Regroup<T>(burst: multiset<T>, rest: multiset<T>, there: multiset<T>, free: multiset<T>,
                   there': multiset<T>, free': multiset<T>)
    requires there' + free' == there + free + burst
    ensures rest + there' + free' == (burst + rest) + there + free
  {
    assert rest + there' + free' == rest + (there' + free');
  }

  lemma CutBurst(rxq: seq<Mbuf>, xs: seq<Pkt>, txq: seq<Mbuf>, n: nat)
    requires Shows(rxq, xs) && Distinct(rxq + txq) && n <= |xs|
    ensures |rxq| == |xs| && rxq[..n] + rxq[n..] == rxq
    ensures Shows(rxq[..n], xs[..n]) && Shows(rxq[n..], xs[n..])
    ensures Distinct(rxq[..n]) && Apart(rxq[..n], rxq[n..]) && Apart(rxq[..n], txq)
  {
    DistinctCut(rxq, txq, n);
    ShowsCut(rxq, xs, n);
  }

  class CryptoWorker {
    const cfg: Config
    const rxToCrypto: Ring
    const cryptoToTx: Ring
    const pool: Pool
    const encryptCtx: EncryptContext
    const decryptCtx: DecryptContext
    var encryptedCount: nat
    var decryptedCount: nat
    var dropped: nat

    ghost predicate Valid()
      reads this, encryptCtx, decryptCtx
    {
      && encryptCtx.Valid() && decryptCtx.Valid() && encryptCtx.key == decryptCtx.key == cfg.key
    }

    constructor (cfg: Config, rx: Ring, tx: Ring, pool: Pool)
      ensures Valid() && this.cfg == cfg && rxToCrypto == rx && cryptoToTx == tx && this.pool == pool
      ensures fresh(encryptCtx) && fresh(decryptCtx)
      ensures encryptedCount == decryptedCount == dropped == 0
    {
      this.cfg, rxToCrypto, cryptoToTx, this.pool := cfg, rx, tx, pool;
      encryptCtx := new EncryptContext(cfg.key);
      decryptCtx := new DecryptContext(cfg.key);
      encryptedCount, decryptedCount, dropped := 0, 0, 0;
    }

    /** One packet of a burst: decrypted and freed when marked, else encrypted and retargeted, if
        its mbuf has the room. */
    method Process(m: Mbuf) returns (forwarded: bool, inBounds: bool)
      requires Valid() && m.Valid()
      modifies this`encryptedCount, this`decryptedCount, pool, encryptCtx, decryptCtx, m
      ensures Valid()
      ensures inBounds <==> Marked(old(m.View()).frame) || HasRoom(m.capacity, old(m.View()).frame)
      ensures inBounds ==>
                && m.Valid() && forwarded == !Marked(old(m.View()).frame)
                && m.View() == (if forwarded then Encrypted(cfg, old(m.View())) else Decrypted(cfg, old(m.View())))
                && encryptedCount == old(encryptedCount) + (if forwarded then 1 else 0)
                && decryptedCount == old(decryptedCount) + (if forwarded then 0 else 1)
                && pool.free == old(pool.free) + if forwarded then multiset{} else multiset{m}
    {
      if m.etherType == MARK_ETHER_TYPE {
        RealDecrypt(m, decryptCtx);
        decryptedCount := decryptedCount + 1;
        pool.Put(m);
        forwarded, inBounds := false, true;
      } else {
        inBounds := RealEncrypt(m, encryptCtx);
        encryptedCount := encryptedCount + 1;
        m.port := DstOf(cfg, m.port);
        forwarded := true;
      }
    }

    /** The loop body: `m` joins the packets to return or is freed, and no other packet changes. */
    method HandleNext(m: Mbuf, pkts: seq<Mbuf>, ghost out: seq<Pkt>, ghost rest: seq<Mbuf>, ghost restOut: seq<Pkt>)
        returns (encryptedPkts: seq<Mbuf>, inBounds: bool)
      requires Valid() && m.Valid() && Shows(pkts, out) && Shows(rest, restOut)
      requires m !in pkts && m !in rest
      modifies this`encryptedCount, this`decryptedCount, pool, encryptCtx, decryptCtx, m
      ensures Valid()
      ensures inBounds <==> Marked(old(m.View()).frame) || HasRoom(m.capacity, old(m.View()).frame)
      ensures inBounds ==>
                && Shows(rest, restOut) && Shows(encryptedPkts, out + Outcome(cfg, old(m.View())))
                && encryptedPkts == pkts + (if Marked(old(m.View()).frame) then [] else [m])
                && encryptedCount == old(encryptedCount) + |encryptedPkts| - |pkts|
                && decryptedCount == old(decryptedCount) + 1 - (|encryptedPkts| - |pkts|)
                && multiset(encryptedPkts) + pool.free == multiset(pkts) + multiset{m} + old(pool.free)
                && multiset(encryptedPkts) <= multiset(pkts) + multiset{m}
    {
      hide Shows, Encrypted, Decrypted, Marked, HasRoom, Valid;
      var forwarded;
      forwarded, inBounds := Process(m);
      if !inBounds {
        return pkts, false;
      }
      if forwarded {
        ShowsMore(pkts, out, m);
        encryptedPkts := pkts + [m];
      } else {
        encryptedPkts := pkts;
        assert out + [] == out && pkts + [] == pkts;
      }
    }

    /** The loop over a burst, collecting the packets to return. It stays in bounds exactly when
        every unmarked packet has room; after an overrun nothing is promised. */
    method ProcessBurst(pkts: seq<Mbuf>, ghost xs: seq<Pkt>) returns (encryptedPkts: seq<Mbuf>, inBounds: bool)
      requires Valid() && |pkts| == |xs| <= BURST && Distinct(pkts) && Shows(pkts, xs)
      modifies this`encryptedCount, this`decryptedCount, pool, encryptCtx, decryptCtx, pkts
      ensures Valid() && (inBounds <==> Roomy(pkts, xs))
      ensures inBounds ==>
                && Shows(encryptedPkts, Fwd(cfg, xs))
                && encryptedCount == old(encryptedCount) + |encryptedPkts|
                && decryptedCount == old(decryptedCount) + |pkts| - |encryptedPkts|
                && Tally(multiset(encryptedPkts), pool.free, multiset(pkts), old(pool.free))
    {
      hide Fwd, Outcome, Shows, Tally, Distinct, Marked, Roomy, HasRoom, Valid;
      encryptedPkts := [];
      NothingYet(cfg, pkts, xs, pool.free);
      for i := 0 to |pkts|
        invariant Valid() && Roomy(pkts[..i], xs[..i])
        invariant Shows(encryptedPkts, Fwd(cfg, xs[..i])) && Shows(pkts[i..], xs[i..])
        invariant encryptedCount == old(encryptedCount) + |encryptedPkts|
        invariant decryptedCount == old(decryptedCount) + i - |encryptedPkts|
        invariant Tally(multiset(encryptedPkts), pool.free, multiset(pkts[..i]), old(pool.free))
      {
        FwdNext(cfg, xs, i);
        ShowsHead(pkts, xs, i);
        RoomyNext(pkts, xs, i);
        ghost var hand, free := multiset(encryptedPkts), pool.free;
        TallyAbsent(hand, free, pkts, i, old(pool.free));
        assert pkts[i] !in encryptedPkts;
        encryptedPkts, inBounds := HandleNext(pkts[i], encryptedPkts, Fwd(cfg, xs[..i]), pkts[i + 1..], xs[i + 1..]);
        if !inBounds {
          return;
        }
        TallyNext(multiset(encryptedPkts), pool.free, hand, free, pkts[i], multiset(pkts[..i]), old(pool.free));
      }
      assert xs[..|pkts|] == xs && pkts[..|pkts|] == pkts;
      inBounds := true;
    }

    /** Hands the encrypted packets to the return ring and frees those it has no room for. */
    method Return(encryptedPkts: seq<Mbuf>) returns (ghost returned: seq<Mbuf>)
      requires Valid() && |cryptoToTx.q| <= System.RING_USABLE
      modifies this`dropped, pool, cryptoToTx
      ensures Valid()
      ensures returned <= encryptedPkts
      ensures |returned| == Min(|encryptedPkts|, System.RING_USABLE - old(|cryptoToTx.q|))
      ensures cryptoToTx.q == old(cryptoToTx.q) + returned && |cryptoToTx.q| <= System.RING_USABLE
      ensures dropped == old(dropped) + |encryptedPkts| - |returned|
      ensures multiset(returned) + pool.free == multiset(encryptedPkts) + old(pool.free)
    {
      ghost var free := pool.free;
      var enqueued := cryptoToTx.EnqueueBurst(encryptedPkts);
      returned := encryptedPkts[..enqueued];
      dropped := dropped + (|encryptedPkts| - enqueued);
      pool.PutFrom(encryptedPkts, enqueued);
      BagCut(encryptedPkts, enqueued, free, pool.free);
    }

    /** After a burst holding `xs`, of whose forwarding the first `k` packets found room in the
        return ring behind `ys`: the ring's packets and the counters. */
    ghost predicate Served(encrypted: nat, decrypted: nat, drops: nat, xs: seq<Pkt>, ys: seq<Pkt>, k: nat)
      reads this, cryptoToTx, cryptoToTx.q
    {
      var out := Fwd(cfg, xs);
      && |ys| <= System.RING_USABLE && k == Min(|out|, System.RING_USABLE - |ys|)
      && Shows(cryptoToTx.q, ys + out[..k])
      && encryptedCount == encrypted + |out|
      && decryptedCount == decrypted + |xs| - |out|
      && dropped == drops + |out| - k
    }

    /** The loop body for one burst: the part of its forwarding for which the return ring has room
        joins that ring, the other buffers are free. */
    method Serve(pkts: seq<Mbuf>, ghost xs: seq<Pkt>, ghost ys: seq<Pkt>)
        returns (inBounds: bool, ghost returned: seq<Mbuf>)
      requires Valid() && Shows(pkts, xs) && Distinct(pkts) && |xs| <= BURST
      requires Shows(cryptoToTx.q, ys) && |ys| <= System.RING_USABLE && Apart(pkts, cryptoToTx.q)
      modifies this`encryptedCount, this`decryptedCount, this`dropped, pool, encryptCtx, decryptCtx, cryptoToTx, pkts
      ensures Valid() && (inBounds <==> Roomy(pkts, xs))
      ensures inBounds ==>
                && Served(old(encryptedCount), old(decryptedCount), old(dropped), xs, ys, |returned|)
                && cryptoToTx.q == old(cryptoToTx.q) + returned && multiset(returned) <= multiset(pkts)
                && multiset(cryptoToTx.q) + pool.free == old(multiset(cryptoToTx.q) + pool.free) + multiset(pkts)
    {
      hide Fwd, Shows, Tally, Distinct, Roomy, Valid;
      ghost var txq, out, free := cryptoToTx.q, Fwd(cfg, xs), pool.free;
      ShownLength(pkts, xs);
      ShownLength(txq, ys);
      returned := [];
      var encryptedPkts;
      encryptedPkts, inBounds := ProcessBurst(pkts, xs);
      if !inBounds {
        return;
      }
      ghost var freed := pool.free;
      ShownLength(encryptedPkts, out);
      returned := Return(encryptedPkts);
      ShowsCut(encryptedPkts, out, |returned|);
      ShowsJoin(txq, ys, returned, out[..|returned|]);
      Accounted(pkts, txq, encryptedPkts, returned, free, freed, pool.free);
    }

    /** One iteration of the crypto loop, on rings whose buffers hold `xs` and `ys`. It stays in
        bounds exactly when every unmarked packet of the burst has room. Then the burst leaves the
        receive ring, and the part of its forwarding for which the return ring has room joins that
        ring. Every buffer is then in a ring or free, and none stays in hand. */
    method Iterate(ghost xs: seq<Pkt>, ghost ys: seq<Pkt>) returns (inBounds: bool, ghost n: nat, ghost k: nat)
      requires Valid() && Shows(rxToCrypto.q, xs) && Shows(cryptoToTx.q, ys)
      requires Distinct(rxToCrypto.q + cryptoToTx.q) && |ys| <= System.RING_USABLE && rxToCrypto != cryptoToTx
      modifies this`encryptedCount, this`decryptedCount, this`dropped
      modifies pool, encryptCtx, decryptCtx, rxToCrypto, cryptoToTx, rxToCrypto.q[..Min(BURST, |rxToCrypto.q|)]
      ensures Valid() && n == Min(BURST, |xs|) && n <= old(|rxToCrypto.q|)
      ensures inBounds <==> Roomy(old(rxToCrypto.q)[..n], xs[..n])
      ensures inBounds ==>
                && Served(old(encryptedCount), old(decryptedCount), old(dropped), xs[..n], ys, k)
                && Shows(rxToCrypto.q, xs[n..]) && rxToCrypto.q == old(rxToCrypto.q)[n..]
                && old(cryptoToTx.q) <= cryptoToTx.q && Distinct(rxToCrypto.q + cryptoToTx.q)
                && multiset(rxToCrypto.q) + multiset(cryptoToTx.q) + pool.free
                   == old(multiset(rxToCrypto.q) + multiset(cryptoToTx.q) + pool.free)
    {
      hide Fwd, Shows, Distinct, Roomy, Apart, Valid, Served;
      ghost var rxq, txq, free := rxToCrypto.q, cryptoToTx.q, pool.free;
      n := Min(BURST, |xs|);
      ShownLength(rxq, xs);
      ghost var burst, rest := rxq[..n], rxq[n..];
      CutBurst(rxq, xs, txq, n);
      var pkts := rxToCrypto.DequeueBurst(BURST);
      ghost var returned;
      inBounds, returned := Serve(pkts, xs[..n], ys);
      k := |returned|;
      if !inBounds {
        return;
      }
      StillDistinct(burst, rest, txq, returned);
      Regroup(multiset(burst), multiset(rest), multiset(txq), free, multiset(cryptoToTx.q), pool.free);
    }
  }
}
