/** Ethernet frames, the mbufs that carry them, and the two in-place crypto routines. */
module Frames {
  import opened Prelude
  import opened Cipher

  const MARK_ETHER_TYPE := 0x88B5
  const IPV4_ETHER_TYPE := 0x0800
  const ETHER_HDR := 14
  const EVP_MAX_BLOCK_LENGTH := 32
  const U16 := 0x1_0000

  datatype Frame = Frame(macs: seq<byte>, etherType: nat, payload: seq<byte>)

  /** A frame together with the port number its mbuf records. */
  datatype Pkt = Pkt(port: nat, frame: Frame)

  predicate Marked(f: Frame) {
    f.etherType == MARK_ETHER_TYPE
  }

  function EncryptFrame(k: Key, f: Frame): (r: Frame)
    ensures Marked(r) && r.macs == f.macs
  {
    Frame(f.macs, MARK_ETHER_TYPE, Encrypt(k, f.payload))
  }

  function DecryptFrame(k: Key, f: Frame): (r: Frame)
    ensures !Marked(r) && r.macs == f.macs
  {
    Frame(f.macs, IPV4_ETHER_TYPE, Decrypt(k, f.payload))
  }

  // ---- Room in the buffer ----

  /** Bytes from the start of the frame to the end of the mbuf's buffer; the length of a buffer is
      a 16-bit number. */
  type Capacity = n: nat | ETHER_HDR <= n < U16 witness ETHER_HDR

  /** What a buffer of the program's pool leaves for a frame. */
  const DATA_ROOM: Capacity := 2048

  function Size(f: Frame): nat {
    ETHER_HDR + |f.payload|
  }

  /** The encrypted frame ends within the buffer. */
  predicate HasRoom(capacity: Capacity, f: Frame) {
    ETHER_HDR + BLOCK * (|f.payload| / BLOCK + 1) <= capacity
  }

  /** Replacing a frame in its buffer; None when the copy would leave the buffer, after which
      nothing is promised. */
  function InBuffer(capacity: Capacity, f: Frame): Option<Frame> {
    if Size(f) <= capacity then Some(f) else None
  }

  /** Encryption and then decryption in a buffer stays in bounds and restores the payload exactly
      when the padded payload fits. */
  lemma PayloadRoundTrip(k: Key, capacity: Capacity, f: Frame)
    requires Invertible(k) && Size(f) <= capacity
    ensures HasRoom(capacity, f) <==> InBuffer(capacity, EncryptFrame(k, f)).Some?
    ensures HasRoom(capacity, f) ==>
              var back := InBuffer(capacity, DecryptFrame(k, EncryptFrame(k, f)));
              back.Some? && back.value.payload == f.payload
  {
    DecryptInvertsEncrypt(k, f.payload);
    hide Encrypt, Decrypt;
  }

  /** The whole frame comes back only when it was IPv4: the original type is not kept. */
  lemma FrameRoundTrip(k: Key, capacity: Capacity, f: Frame)
    requires Invertible(k) && Size(f) <= capacity
    ensures InBuffer(capacity, EncryptFrame(k, f)).Some?
            && InBuffer(capacity, DecryptFrame(k, EncryptFrame(k, f))) == Some(f)
       <==> HasRoom(capacity, f) && f.etherType == IPV4_ETHER_TYPE
  {
    PayloadRoundTrip(k, capacity, f);
    hide Encrypt, Decrypt;
  }

  /** In the program's buffers the limit is 2031 bytes of payload, well above the 1500 that the
      default MTU lets in. */
  lemma DataRoomHolds(f: Frame)
    ensures HasRoom(DATA_ROOM, f) <==> |f.payload| <= 2031
  {
  }

  /** 2032 zero bytes fit the program's buffers, but not once encrypted. */
  lemma FullBufferOverruns(k: Key)
    ensures var f := Frame([], IPV4_ETHER_TYPE, seq(2032, _ => 0));
            Size(f) <= DATA_ROOM && InBuffer(DATA_ROOM, EncryptFrame(k, f)) == None
  {
    hide Encrypt;
  }

  /** An ARP frame comes back as IPv4. */
  lemma ArpTypeIsLost(k: Key)
    ensures var f := Frame([], 0x0806, []); DecryptFrame(k, EncryptFrame(k, f)) != f
  {
  }

  /** A buffer of fixed size. Bytes beyond `dataLen` are whatever was there before. */
  class Mbuf {
    const capacity: Capacity
    var port: nat
    var macs: seq<byte>
    var etherType: nat
    var room: seq<byte>
    var dataLen: nat
    var pktLen: nat

    constructor (p: Pkt, capacity: Capacity)
      requires Size(p.frame) <= capacity
      ensures Valid() && View() == p && this.capacity == capacity
    {
      port, macs, etherType := p.port, p.frame.macs, p.frame.etherType;
      room := p.frame.payload + seq(capacity - Size(p.frame), _ => 0);
      dataLen, pktLen := Size(p.frame), Size(p.frame);
      this.capacity := capacity;
    }

    ghost predicate Valid()
      reads this
    {
      dataLen <= capacity && |room| == capacity - ETHER_HDR
    }

    /** A frame shorter than its header has no payload: the length the code computes is then
        negative, and the library processes nothing. */
    function Payload(): seq<byte>
      requires Valid()
      reads this
    {
      if dataLen < ETHER_HDR then [] else room[..dataLen - ETHER_HDR]
    }

    ghost function View(): Pkt
      requires Valid()
      reads this
    {
      Pkt(port, Frame(macs, etherType, Payload()))
    }

    /** Copies `out` over the payload and sets both lengths, as the two routines end. When `out`
        is longer than the buffer, the buffer is full and the copy runs past it. */
    method WriteBack(out: seq<byte>) returns (inBounds: bool)
      requires Valid()
      modifies this`room, this`dataLen, this`pktLen
      ensures inBounds <==> ETHER_HDR + |out| <= capacity
      ensures pktLen == ETHER_HDR + |out|
      ensures inBounds ==> Valid() && Payload() == out && dataLen == pktLen
      ensures !inBounds ==> room < out && |room| == old(|room|)
    {
      inBounds := |out| <= |room|;
      room := if inBounds then out + room[|out|..] else out[..|room|];
      pktLen := ETHER_HDR + |out|;
      dataLen := pktLen % U16;
    }
  }

  lemma PadOfRest(payload: seq<byte>)
    ensures WholePart(payload) + Pad(Leftover(payload)) == Pad(payload)
  {
    hide Padding;
  }

  lemma EncryptAssembles(k: Key, payload: seq<byte>)
    ensures
      var out1 := CbcEncrypt(k, k.iv, WholePart(payload));
      out1 + CbcEncrypt(k, LastBlock(k.iv, out1), Pad(Leftover(payload))) == Encrypt(k, payload)
  {
    PadOfRest(payload);
    hide CbcEncrypt, Pad, WholePart, Leftover, LastBlock;
    CbcEncryptSplits(k, k.iv, WholePart(payload), Pad(Leftover(payload)));
  }

  /** Update releases the whole blocks and Final the padded rest: together the one-shot
      result, whatever the context processed before. */
  method EncryptPayload(payload: seq<byte>, ctx: EncryptContext) returns (out: seq<byte>)
    modifies ctx
    ensures ctx.Valid() && out == Encrypt(ctx.key, payload)
  {
    hide CbcEncrypt, LastBlock, Pad;
    ctx.Reset();
    assert ctx.pending + payload == payload;
    var out1 := ctx.Update(payload);
    var out2 := ctx.Final();
    EncryptAssembles(ctx.key, payload);
    out := out1 + out2;
  }

  /** In bounds exactly when the padded payload fits the mbuf; the output buffer on the stack
      always fits. */
  method RealEncrypt(m: Mbuf, ctx: EncryptContext) returns (inBounds: bool)
    requires m.Valid() && ctx.Valid()
    modifies m`room, m`dataLen, m`pktLen, m`etherType, ctx
    ensures ctx.Valid()
    ensures inBounds <==> HasRoom(m.capacity, old(m.View()).frame)
    ensures inBounds ==>
              && m.Valid() && m.dataLen == m.pktLen
              && m.View() == Pkt(old(m.port), EncryptFrame(ctx.key, old(m.View()).frame))
    ensures m.pktLen - ETHER_HDR == BLOCK * (old(|m.Payload()|) / BLOCK + 1)
                                 <= old(|m.Payload()|) + EVP_MAX_BLOCK_LENGTH
  {
    hide Encrypt;
    var out := EncryptPayload(m.Payload(), ctx);
    inBounds := m.WriteBack(out);
    m.etherType := MARK_ETHER_TYPE;
  }

  lemma CutAtEnd(a: seq<byte>, b: seq<byte>, k: nat)
    requires k <= |b|
    ensures (a + b)[|a + b| - k..] == b[|b| - k..]
    ensures (a + b)[..|a + b| - k] == a + b[..|b| - k]
  {
  }

  /** Only the last sixteen bytes decide whether data is validly padded. */
  lemma UnpadLooksAtLastBlock(a: seq<byte>, b: seq<byte>)
    requires |b| == BLOCK
    ensures Unpad(a + b) == match Unpad(b) case Some(p) => Some(a + p) case None => None
  {
    hide Padding;
    var ab := a + b;
    assert |ab| == |a| + |b| && ab[|ab| - 1] == b[|b| - 1];
    var k := b[|b| - 1] as int;
    if 0 < k <= BLOCK {
      CutAtEnd(a, b, k);
    } else {
      assert Unpad(ab) == None && Unpad(b) == None;
    }
  }

  /** What Update releases and what Final adds make up the one-shot result. */
  lemma DecryptAssembles(k: Key, payload: seq<byte>, out1: seq<byte>, held: seq<byte>, out2: seq<byte>)
    requires out1 + held == CbcDecrypt(k, k.iv, WholePart(payload))
    requires Leftover(payload) != [] ==> held == []
    requires Leftover(payload) == [] && out1 + held != [] ==> |held| == BLOCK
    requires out2 == if Leftover(payload) == [] && Unpad(held).Some? then Unpad(held).value else []
    ensures out1 + out2 == Decrypt(k, payload)
  {
    var plain := CbcDecrypt(k, k.iv, WholePart(payload));
    if Leftover(payload) == [] && payload != [] {
      assert WholePart(payload) == payload;
      assert |held| == BLOCK && out1 == plain[..|plain| - BLOCK];
      UnpadLooksAtLastBlock(out1, held);
    } else {
      assert out1 == plain && held == [];
    }
  }

  method DecryptPayload(payload: seq<byte>, ctx: DecryptContext) returns (out: seq<byte>)
    modifies ctx
    ensures ctx.Valid() && out == Decrypt(ctx.key, payload)
  {
    ctx.Reset();
    assert ctx.pending + payload == payload;
    var out1 := ctx.Update(payload);
    ghost var held := ctx.held;
    assert out1 + held == CbcDecrypt(ctx.key, ctx.key.iv, WholePart(payload));
    var out2 := ctx.Final();
    DecryptAssembles(ctx.key, payload, out1, held, out2);
    out := out1 + out2;
  }

  /** Always in bounds: decryption never lengthens a payload. */
  method RealDecrypt(m: Mbuf, ctx: DecryptContext)
    requires m.Valid() && ctx.Valid()
    modifies m`room, m`dataLen, m`pktLen, m`etherType, ctx
    ensures m.Valid() && ctx.Valid()
    ensures m.View() == Pkt(old(m.port), DecryptFrame(ctx.key, old(m.View()).frame))
    ensures m.dataLen == m.pktLen && (old(m.dataLen) >= ETHER_HDR ==> m.dataLen <= old(m.dataLen))
  {
    hide Decrypt;
    var payload := m.Payload();
    var out := DecryptPayload(payload, ctx);
    var inBounds := m.WriteBack(out);
    m.etherType := IPV4_ETHER_TYPE;
  }
}
