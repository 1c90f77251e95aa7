/** The run-to-completion program: the lcore that receives a frame also encrypts and sends it. */
module SingleThread {
  import opened Cipher
  import opened Frames
  import opened Traffic
  import opened Mbufs

  /** MAC updating, when on, with the Ethernet address of each port. */
  datatype Macs = Keep | Update(portMacs: seq<seq<byte>>)

  /** 02:00:00:00:00:xx as destination, the sending port's address as source. */
  function MacUpdating(f: Frame, dst: nat, portMacs: seq<seq<byte>>): Frame {
    f.(macs := [2, 0, 0, 0, 0, (dst % 256) as byte]
             + if dst < |portMacs| then portMacs[dst] else f.macs[|f.macs| / 2..])
  }

  /** The frame that leaves for packet `x`: with MAC updating on, the encrypted frame with the
      addresses of its destination port. */
  function Outgoing(cfg: Config, macs: Macs, x: Pkt): (r: Frame)
    ensures Marked(r) && r.payload == Encrypted(cfg, x).frame.payload
    ensures macs.Keep? ==> r == Encrypted(cfg, x).frame
    ensures var dst := DstOf(cfg, x.port);
            macs.Update? && dst < |macs.portMacs| ==>
              |r.macs| >= 6 && r.macs[..6] == [2, 0, 0, 0, 0, (dst % 256) as byte] && r.macs[6..] == macs.portMacs[dst]
  {
    var f := EncryptFrame(cfg.key, x.frame);
    match macs
    case Keep => f
    case Update(a) => MacUpdating(f, DstOf(cfg, x.port), a)
  }

  /** The part of one packet that goes to port `q`. */
  function Share(cfg: Config, macs: Macs, x: Pkt, q: nat): seq<Frame> {
    if !Marked(x.frame) && DstOf(cfg, x.port) == q then [Outgoing(cfg, macs, x)] else []
  }

  /** The frames handed to port `q`, in order, when `xs` has been received: the specification
      of both programs. */
  function Forwarded(cfg: Config, macs: Macs, xs: seq<Pkt>, q: nat): seq<Frame> {
    if xs == [] then [] else Share(cfg, macs, xs[0], q) + Forwarded(cfg, macs, xs[1..], q)
  }

  lemma OutgoingIs(cfg: Config, macs: Macs, x: Pkt)
    ensures var f := EncryptFrame(cfg.key, x.frame);
            Outgoing(cfg, macs, x) == if macs.Update? then MacUpdating(f, DstOf(cfg, x.port), macs.portMacs) else f
  {
  }

  lemma ShareOf(cfg: Config, macs: Macs, x: Pkt)
    requires !Marked(x.frame)
    ensures forall q :: Share(cfg, macs, x, q) == if q == DstOf(cfg, x.port) then [Outgoing(cfg, macs, x)] else []
  {
    hide Outgoing;
  }

  lemma {:induction false} ForwardedAppend(cfg: Config, macs: Macs, a: seq<Pkt>, b: seq<Pkt>, q: nat)
    ensures Forwarded(cfg, macs, a + b, q) == Forwarded(cfg, macs, a, q) + Forwarded(cfg, macs, b, q)
  {
    if a == [] {
      assert a + b == b;
    } else {
      assert (a + b)[0] == a[0] && (a + b)[1..] == a[1..] + b;
      ForwardedAppend(cfg, macs, a[1..], b, q);
    }
  }

  function FramesOf(xs: seq<Pkt>): (r: seq<Frame>)
    ensures |r| == |xs| && forall i | 0 <= i < |r| :: r[i] == xs[i].frame
  {
    seq(|xs|, i requires 0 <= i < |xs| => xs[i].frame)
  }

  /** With MAC updating off the frames forwarded are what the crypto workers make of `xs`. */
  lemma {:induction false} ForwardedIsFwd(cfg: Config, xs: seq<Pkt>, q: nat)
    ensures Forwarded(cfg, Keep, xs, q) == FramesOf(ToPort(Fwd(cfg, xs), q))
  {
    if xs != [] {
      ForwardedIsFwd(cfg, xs[1..], q);
      if !Marked(xs[0].frame) {
        var x := Encrypted(cfg, xs[0]);
        assert Fwd(cfg, xs) == [x] + Fwd(cfg, xs[1..]);
        ToPortAppend([x], Fwd(cfg, xs[1..]), q);
        ToPortUniform([x], x.port, q);
      }
    }
  }

  /** Everything forwarded to a port has been flushed or waits in its TX buffer, and the port's
      counters say what became of the flushed frames. */
  ghost predicate Books(forwarded: seq<Frame>, buffer: seq<Frame>, sent: seq<Frame>, flushed: seq<Frame>,
                        tx: nat, dropped: nat)
  {
    && forwarded == flushed + buffer
    && tx == |sent| && tx + dropped == |flushed|
    && (dropped == 0 ==> sent == flushed)
  }

  lemma BooksFlush(forwarded: seq<Frame>, buffer: seq<Frame>, sent: seq<Frame>, flushed: seq<Frame>,
                   tx: nat, dropped: nat, k: nat)
    requires Books(forwarded, buffer, sent, flushed, tx, dropped) && k <= |buffer|
    ensures Books(forwarded, [], sent + buffer[..k], flushed + buffer, tx + k, dropped + (|buffer| - k))
  {
  }

  lemma BooksBuffer(forwarded: seq<Frame>, buffer: seq<Frame>, sent: seq<Frame>, flushed: seq<Frame>,
                    tx: nat, dropped: nat, f: Frame)
    requires Books(forwarded, buffer, sent, flushed, tx, dropped)
    ensures Books(forwarded + [f], buffer + [f], sent, flushed, tx, dropped)
  {
  }

  /** The mbufs of a burst that hold marked frames, in order. */
  function Consumed(ms: seq<Mbuf>, xs: seq<Pkt>): seq<Mbuf>
    requires |ms| == |xs|
  {
    if ms == [] then []
    else
      var k := |ms| - 1;
      Consumed(ms[..k], xs[..k]) + if Marked(xs[k].frame) then [ms[k]] else []
  }

  lemma ConsumedNext(ms: seq<Mbuf>, xs: seq<Pkt>, k: nat)
    requires |ms| == |xs| && k < |ms|
    ensures Consumed(ms[..k + 1], xs[..k + 1])
         == Consumed(ms[..k], xs[..k]) + if Marked(xs[k].frame) then [ms[k]] else []
  {
    assert ms[..k + 1][..k] == ms[..k] && xs[..k + 1][..k] == xs[..k];
  }

  lemma NoneConsumed(ms: seq<Mbuf>, xs: seq<Pkt>)
    requires |ms| == |xs|
    ensures Consumed(ms[..0], xs[..0]) == [] && Roomy(ms[..0], xs[..0])
  {
  }

  /** The buffers and statistics of all ports, and the frames each NIC has accepted. */
  datatype Lines = Lines(buffer: seq<seq<Frame>>, sent: seq<seq<Frame>>, tx: seq<nat>, dropped: seq<nat>)

  /** From `a` to `b` nothing changes but for port `dst`, and what that has sent only grows. */
  ghost predicate OnlyPort(a: Lines, b: Lines, dst: nat) {
    && |a.buffer| == |a.sent| == |a.tx| == |a.dropped| == MAX_PORTS
    && |b.buffer| == |b.sent| == |b.tx| == |b.dropped| == MAX_PORTS
    && dst < MAX_PORTS && a.sent[dst] <= b.sent[dst]
    && forall q | 0 <= q < MAX_PORTS && q != dst ::
         a.buffer[q] == b.buffer[q] && a.sent[q] == b.sent[q] && a.tx[q] == b.tx[q] && a.dropped[q] == b.dropped[q]
  }

  lemma OnlyPortThen(a: Lines, b: Lines, c: Lines, dst: nat)
    requires OnlyPort(a, b, dst) && OnlyPort(b, c, dst)
    ensures OnlyPort(a, c, dst)
  {
  }

  /** The forwarding state of the polling lcores: one TX buffer and one statistics record per
      port. The NIC may accept any prefix of a burst; the rest is dropped and counted. */
  class Forwarder {
    const cfg: Config
    const macs: Macs
    const pool: Pool
    var txBuffer: seq<seq<Frame>>
    var sent: seq<seq<Frame>>
    var rx: seq<nat>
    var tx: seq<nat>
    var dropped: seq<nat>
    ghost var handled: seq<Pkt>
    ghost var flushed: seq<seq<Frame>>

    ghost predicate Balanced()
      reads this
    {
      && |cfg.dst| == MAX_PORTS && (forall p | 0 <= p < MAX_PORTS :: cfg.dst[p] < MAX_PORTS)
      && |txBuffer| == |sent| == |rx| == |tx| == |dropped| == |flushed| == MAX_PORTS
      && forall q | 0 <= q < MAX_PORTS ::
           Books(Forwarded(cfg, macs, handled, q), txBuffer[q], sent[q], flushed[q], tx[q], dropped[q])
    }

    ghost predicate Valid()
      reads this
    {
      Balanced() && forall q | 0 <= q < MAX_PORTS :: |txBuffer[q]| < BURST
    }

    ghost function Kept(): Lines
      reads this
    {
      Lines(txBuffer, sent, tx, dropped)
    }

    constructor (cfg: Config, macs: Macs, pool: Pool)
      requires |cfg.dst| == MAX_PORTS && (forall p | 0 <= p < MAX_PORTS :: cfg.dst[p] < MAX_PORTS)
      ensures Valid() && this.cfg == cfg && this.macs == macs && this.pool == pool && handled == []
    {
      this.cfg, this.macs, this.pool := cfg, macs, pool;
      txBuffer, sent, flushed := seq(MAX_PORTS, _ => []), seq(MAX_PORTS, _ => []), seq(MAX_PORTS, _ => []);
      rx, tx, dropped := seq(MAX_PORTS, _ => 0), seq(MAX_PORTS, _ => 0), seq(MAX_PORTS, _ => 0);
      handled := [];
    }

    /** `rte_eth_tx_buffer_flush` on one port, with the statistics the caller adds. */
    method Flush(q: nat) returns (k: nat)
      requires Balanced() && q < MAX_PORTS
      requires forall p | 0 <= p < MAX_PORTS && p != q :: |txBuffer[p]| < BURST
      modifies this`txBuffer, this`sent, this`tx, this`dropped, this`flushed
      ensures Valid() && txBuffer == old(txBuffer)[q := []]
      ensures flushed == old(flushed)[q := old(flushed[q]) + old(txBuffer[q])]
      ensures k <= old(|txBuffer[q]|) && sent == old(sent)[q := old(sent[q]) + old(txBuffer[q])[..k]]
      ensures tx == old(tx)[q := old(tx[q]) + k]
      ensures dropped == old(dropped)[q := old(dropped[q]) + (old(|txBuffer[q]|) - k)]
    {
      hide Forwarded;
      var burst := txBuffer[q];
      k :| 0 <= k <= |burst|;
      BooksFlush(Forwarded(cfg, macs, handled, q), burst, sent[q], flushed[q], tx[q], dropped[q], k);
      txBuffer := txBuffer[q := []];
      sent := sent[q := sent[q] + burst[..k]];
      tx := tx[q := tx[q] + k];
      dropped := dropped[q := dropped[q] + (|burst| - k)];
      flushed := flushed[q := flushed[q] + burst];
    }

    /** What handling `x` adds to each port. */
    lemma HandledOne(x: Pkt)
      ensures forall q ::
                Forwarded(cfg, macs, handled + [x], q)
                == Forwarded(cfg, macs, handled, q) + Share(cfg, macs, x, q)
      ensures forall q | Share(cfg, macs, x, q) == [] ::
                Forwarded(cfg, macs, handled + [x], q) == Forwarded(cfg, macs, handled, q)
    {
      forall q: nat
        ensures Forwarded(cfg, macs, handled + [x], q)
             == Forwarded(cfg, macs, handled, q) + Share(cfg, macs, x, q)
        ensures Share(cfg, macs, x, q) == [] ==>
                  Forwarded(cfg, macs, handled + [x], q) == Forwarded(cfg, macs, handled, q)
      {
        ForwardedAppend(cfg, macs, handled, [x], q);
        assert [x][1..] == [];
      }
    }

    /** `rte_eth_tx_buffer`: the frame joins the buffer, which is flushed when full and only then. */
    method Buffer(dst: nat, f: Frame, ghost x: Pkt)
      requires Valid() && dst < MAX_PORTS
      requires Share(cfg, macs, x, dst) == [f] && forall q | q != dst :: Share(cfg, macs, x, q) == []
      modifies this`txBuffer, this`sent, this`tx, this`dropped, this`flushed, this`handled
      ensures Valid() && handled == old(handled) + [x]
      ensures var buffered := old(txBuffer[dst]) + [f];
              if |buffered| < BURST
              then txBuffer == old(txBuffer)[dst := buffered]
                   && sent == old(sent) && tx == old(tx) && dropped == old(dropped) && flushed == old(flushed)
              else txBuffer == old(txBuffer)[dst := []] && flushed == old(flushed)[dst := old(flushed[dst]) + buffered]
      ensures OnlyPort(old(Kept()), Kept(), dst)
    {
      HandledOne(x);
      hide Forwarded, Share, Books;
      BooksBuffer(Forwarded(cfg, macs, handled, dst), txBuffer[dst], sent[dst], flushed[dst], tx[dst], dropped[dst], f);
      handled := handled + [x];
      txBuffer := txBuffer[dst := txBuffer[dst] + [f]];
      if |txBuffer[dst]| == BURST {
        var accepted := Flush(dst);
      }
    }

    /** `l2fwd_simple_forward`: MAC updating, the mark, and the destination's TX buffer. */
    method Forward(m: Mbuf, portid: nat, ghost x: Pkt)
      requires Valid() && m.Valid() && portid < MAX_PORTS && !Marked(x.frame) && x.port == portid
      requires m.View().frame == EncryptFrame(cfg.key, x.frame)
      modifies this`txBuffer, this`sent, this`tx, this`dropped, this`flushed, this`handled
      ensures Valid() && handled == old(handled) + [x]
      ensures var dst := cfg.dst[portid];
              var buffered := old(txBuffer[dst]) + [Outgoing(cfg, macs, x)];
              if |buffered| < BURST
              then txBuffer == old(txBuffer)[dst := buffered]
                   && sent == old(sent) && tx == old(tx) && dropped == old(dropped) && flushed == old(flushed)
              else txBuffer == old(txBuffer)[dst := []] && flushed == old(flushed)[dst := old(flushed[dst]) + buffered]
      ensures var dst := cfg.dst[portid];
              macs.Update? && dst < |macs.portMacs| ==>
                var f := Outgoing(cfg, macs, x);
                && |f.macs| >= 6 && f.macs[..6] == [2, 0, 0, 0, 0, (dst % 256) as byte]
                && f.macs[6..] == macs.portMacs[dst]
      ensures OnlyPort(old(Kept()), Kept(), cfg.dst[portid])
    {
      var dst := cfg.dst[portid];
      var f := Frame(m.macs, MARK_ETHER_TYPE, m.Payload());
      assert f == EncryptFrame(cfg.key, x.frame) && dst == DstOf(cfg, x.port);
      OutgoingIs(cfg, macs, x);
      ShareOf(cfg, macs, x);
      hide EncryptFrame, MacUpdating, Outgoing, Forwarded, Books, Share;
      if macs.Update? {
        f := MacUpdating(f, dst, macs.portMacs);
      }
      Buffer(dst, f, x);
    }

    /** One received packet: decrypted and freed when marked, else, if its mbuf has the room,
        encrypted and forwarded. */
    method Handle(m: Mbuf, portid: nat, ectx: EncryptContext, dctx: DecryptContext) returns (inBounds: bool)
      requires Valid() && m.Valid() && m.port == portid < MAX_PORTS
      requires ectx.Valid() && dctx.Valid() && ectx.key == dctx.key == cfg.key
      modifies this`txBuffer, this`sent, this`tx, this`dropped, this`flushed, this`handled, m, ectx, dctx, pool
      ensures Valid() && ectx.Valid() && dctx.Valid()
      ensures inBounds <==> Marked(old(m.View()).frame) || HasRoom(m.capacity, old(m.View()).frame)
      ensures inBounds ==>
                && m.Valid() && handled == old(handled) + [old(m.View())]
                && pool.free == old(pool.free) + if Marked(old(m.View()).frame) then multiset{m} else multiset{}
      ensures inBounds && Marked(old(m.View()).frame) ==>
                && m.View() == Decrypted(cfg, old(m.View()))
                && txBuffer == old(txBuffer) && sent == old(sent) && tx == old(tx) && dropped == old(dropped)
      ensures inBounds && !Marked(old(m.View()).frame) ==> m.View().frame == Encrypted(cfg, old(m.View())).frame
      ensures OnlyPort(old(Kept()), Kept(), cfg.dst[portid])
    {
      ghost var x := m.View();
      hide Forwarded, Share, Books;
      if m.etherType == MARK_ETHER_TYPE {
        RealDecrypt(m, dctx);
        pool.Put(m);
        HandledOne(x);
        handled := handled + [x];
        inBounds := true;
      } else {
        inBounds := RealEncrypt(m, ectx);
        if inBounds {
          Forward(m, portid, x);
        }
      }
    }

    method CountRx(portid: nat, nbRx: nat)
      requires Valid() && portid < MAX_PORTS
      modifies this`rx
      ensures Valid() && rx == old(rx)[portid := old(rx[portid]) + nbRx]
    {
      rx := rx[portid := rx[portid] + nbRx];
    }

    lemma Destination(portid: nat)
      requires Valid() && portid < MAX_PORTS
      ensures |cfg.dst| == MAX_PORTS && OnlyPort(Kept(), Kept(), cfg.dst[portid])
    {
    }

    /** The loop body: packet `j` of a burst; the packets behind it do not change. */
    method HandleNext(m: Mbuf, portid: nat, ectx: EncryptContext, dctx: DecryptContext,
                      ghost ms: seq<Mbuf>, ghost xs: seq<Pkt>, ghost j: nat) returns (inBounds: bool)
      requires Valid() && ectx.Valid() && dctx.Valid() && ectx.key == dctx.key == cfg.key && portid < MAX_PORTS
      requires |ms| == |xs| && j < |ms| && m == ms[j] && xs[j].port == portid
      requires Distinct(ms) && Shows(ms[j..], xs[j..])
      modifies this`txBuffer, this`sent, this`tx, this`dropped, this`flushed, this`handled, m, ectx, dctx, pool
      ensures Valid() && ectx.Valid() && dctx.Valid()
      ensures inBounds <==> Marked(xs[j].frame) || HasRoom(m.capacity, xs[j].frame)
      ensures inBounds ==>
                && Shows(ms[j + 1..], xs[j + 1..]) && handled == old(handled) + [xs[j]]
                && pool.free == old(pool.free) + if Marked(xs[j].frame) then multiset{m} else multiset{}
      ensures OnlyPort(old(Kept()), Kept(), cfg.dst[portid])
    {
      ShowsHead(ms, xs, j);
      DistinctAt(ms, j);
      hide Shows, Distinct, Valid, Balanced, Marked, HasRoom;
      inBounds := Handle(m, portid, ectx, dctx);
    }

    /** One pass over a received burst holding `xs`. It stays in bounds exactly when every unmarked
        packet has room; after an overrun nothing is promised. */
    method HandleBurst(pkts: array<Mbuf>, nbRx: nat, portid: nat, ectx: EncryptContext, dctx: DecryptContext,
                       ghost xs: seq<Pkt>) returns (inBounds: bool)
      requires Valid() && nbRx == |xs| <= pkts.Length && portid < MAX_PORTS == |rx|
      requires ectx.Valid() && dctx.Valid() && ectx.key == dctx.key == cfg.key
      requires Shows(pkts[..nbRx], xs) && Distinct(pkts[..nbRx])
      requires forall i | 0 <= i < nbRx :: xs[i].port == portid
      modifies this`txBuffer, this`sent, this`rx, this`tx, this`dropped, this`flushed, this`handled
      modifies ectx, dctx, pool, pkts[..nbRx]
      ensures Valid() && ectx.Valid() && dctx.Valid()
      ensures rx == old(rx)[portid := old(rx[portid]) + nbRx]
      ensures inBounds <==> Roomy(pkts[..nbRx], xs)
      ensures inBounds ==>
                && handled == old(handled) + xs
                && pool.free == old(pool.free) + multiset(Consumed(pkts[..nbRx], xs))
      ensures OnlyPort(old(Kept()), Kept(), cfg.dst[portid])
    {
      hide Forwarded, Share, Books, Consumed, Shows, Roomy, Distinct, Valid, Balanced, Marked, HasRoom;
      hide OnlyPort;
      Destination(portid);
      ghost var dst, start := cfg.dst[portid], Kept();
      CountRx(portid, nbRx);
      ghost var ms := pkts[..nbRx];
      NoneConsumed(ms, xs);
      assert ms[0..] == ms && xs[0..] == xs;
      for j := 0 to nbRx
        invariant Valid() && ectx.Valid() && dctx.Valid()
        invariant rx == old(rx)[portid := old(rx[portid]) + nbRx]
        invariant handled == old(handled) + xs[..j]
        invariant pool.free == old(pool.free) + multiset(Consumed(ms[..j], xs[..j]))
        invariant Shows(ms[j..], xs[j..]) && Roomy(ms[..j], xs[..j])
        invariant OnlyPort(start, Kept(), dst)
      {
        ConsumedNext(ms, xs, j);
        RoomyNext(ms, xs, j);
        assert xs[..j + 1] == xs[..j] + [xs[j]];
        ghost var before := Kept();
        inBounds := HandleNext(pkts[j], portid, ectx, dctx, ms, xs, j);
        OnlyPortThen(start, before, Kept(), dst);
        if !inBounds {
          return;
        }
      }
      assert ms[..nbRx] == ms && xs[..nbRx] == xs;
      inBounds := true;
    }

    /** When the buffers have drained and no NIC refused a frame, each port has sent exactly
        what the specification says, in order. */
    lemma DrainedSends(q: nat)
      requires Valid() && q < MAX_PORTS && txBuffer[q] == [] && dropped[q] == 0
      ensures sent[q] == Forwarded(cfg, macs, handled, q) && tx[q] == |sent[q]|
    {
      assert Books(Forwarded(cfg, macs, handled, q), txBuffer[q], sent[q], flushed[q], tx[q], dropped[q]);
    }
  }
}
