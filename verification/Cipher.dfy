/** CBC encryption with PKCS#7 padding, over an abstract invertible block function.

    CBC follows section 6.2 of NIST SP 800-38A, the padding section 6.3 of RFC 5652.
    `Encrypt` and `Decrypt` are the one-shot definitions; `EncryptContext` and `DecryptContext`
    are the streaming contexts that the lcores keep, with their Update and Final calls.
  */
module Cipher {
  import opened Prelude

  type byte = bv8

  const BLOCK := 16

  type Block = b: seq<byte> | |b| == BLOCK witness seq(BLOCK, _ => 0)

  /** A block function under a fixed key, with the initial vector. */
  datatype Key = Key(enc: Block -> Block, dec: Block -> Block, iv: Block)

  /** The inverse undoes the block function on every block. */
  ghost predicate Invertible(k: Key) {
    forall b: Block :: k.dec(k.enc(b)) == b
  }

  function Xor(a: Block, b: Block): Block {
    seq(BLOCK, i requires 0 <= i < BLOCK => a[i] ^ b[i])
  }

  lemma XorCancels(a: Block, b: Block)
    ensures Xor(a, Xor(a, b)) == b
  {
    forall i | 0 <= i < BLOCK
      ensures Xor(a, Xor(a, b))[i] == b[i]
    {
      assert a[i] ^ (a[i] ^ b[i]) == b[i];
    }
  }

  /** Bit `t` of `x`, counted from the lowest. */
  predicate Bit(x: byte, t: nat)
    requires t < 8
  {
    (x >> t) & 1 == 1
  }

  /** A byte is made of its bits. */
  lemma BitsDetermine(x: byte, y: byte)
    requires forall t | 0 <= t < 8 :: Bit(x, t) <==> Bit(y, t)
    ensures x == y
  {
    assert Bit(x, 0) == Bit(y, 0) && Bit(x, 1) == Bit(y, 1) && Bit(x, 2) == Bit(y, 2) && Bit(x, 3) == Bit(y, 3);
    assert Bit(x, 4) == Bit(y, 4) && Bit(x, 5) == Bit(y, 5) && Bit(x, 6) == Bit(y, 6) && Bit(x, 7) == Bit(y, 7);
  }

  lemma BitOfXor(x: byte, y: byte, t: nat)
    requires t < 8
    ensures Bit(x ^ y, t) <==> Bit(x, t) != Bit(y, t)
  {
    if t == 0 {} else if t == 1 {} else if t == 2 {} else if t == 3 {}
    else if t == 4 {} else if t == 5 {} else if t == 6 {} else {}
  }

  /** A bit is set exactly where the two blocks differ. */
  lemma XorBits(a: Block, b: Block, i: nat, t: nat)
    requires i < BLOCK && t < 8
    ensures Bit(Xor(a, b)[i], t) <==> Bit(a[i], t) != Bit(b[i], t)
  {
    BitOfXor(a[i], b[i], t);
    hide Bit;
  }

  // ---- CBC on whole blocks ----

  /** Block number `j`. */
  function BlockAt(data: seq<byte>, j: nat): Block
    requires BLOCK * (j + 1) <= |data|
  {
    data[BLOCK * j..BLOCK * (j + 1)]
  }

  /** The block before number `j`; before the first one the chaining value. */
  function BlockBefore(chain: Block, data: seq<byte>, j: nat): Block
    requires BLOCK * j <= |data|
  {
    if j == 0 then chain else BlockAt(data, j - 1)
  }

  function CbcEncrypt(k: Key, chain: Block, data: seq<byte>): (r: seq<byte>)
    requires |data| % BLOCK == 0
    ensures |r| == |data|
    decreases |data|
  {
    if data == [] then []
    else
      var c: Block := k.enc(Xor(chain, data[..BLOCK]));
      c + CbcEncrypt(k, c, data[BLOCK..])
  }

  function CbcDecrypt(k: Key, chain: Block, data: seq<byte>): (r: seq<byte>)
    requires |data| % BLOCK == 0
    ensures |r| == |data|
    decreases |data|
  {
    if data == [] then []
    else
      Xor(chain, k.dec(data[..BLOCK])) + CbcDecrypt(k, data[..BLOCK], data[BLOCK..])
  }

  lemma BlockOfSum(a: Block, b: seq<byte>, j: nat)
    requires BLOCK * (j + 1) <= BLOCK + |b|
    ensures BlockAt(a + b, j) == if j == 0 then a else BlockAt(b, j - 1)
  {
  }

  lemma BlockOfRest(data: seq<byte>, j: nat)
    requires j > 0 && BLOCK * (j + 1) <= |data|
    ensures BlockAt(data[BLOCK..], j - 1) == BlockAt(data, j)
  {
  }

  /** Ciphertext block `j` encrypts plaintext block `j` combined with the ciphertext block before it
      (section 6.2 of NIST SP 800-38A). */
  lemma {:induction false} CbcEncryptBlock(k: Key, chain: Block, p: seq<byte>, j: nat)
    requires |p| % BLOCK == 0 && BLOCK * (j + 1) <= |p|
    ensures var c := CbcEncrypt(k, chain, p);
            BlockAt(c, j) == k.enc(Xor(BlockBefore(chain, c, j), BlockAt(p, j)))
    decreases j
  {
    var c1 := k.enc(Xor(chain, p[..BLOCK]));
    var rest: seq<byte> := CbcEncrypt(k, c1, p[BLOCK..]);
    BlockOfSum(c1, rest, j);
    if j > 0 {
      CbcEncryptBlock(k, c1, p[BLOCK..], j - 1);
      BlockOfRest(p, j);
      BlockOfSum(c1, rest, j - 1);
      hide Xor, BlockAt;
    }
  }

  /** Plaintext block `j` is ciphertext block `j` decrypted, combined with the one before it. */
  lemma {:induction false} CbcDecryptBlock(k: Key, chain: Block, c: seq<byte>, j: nat)
    requires |c| % BLOCK == 0 && BLOCK * (j + 1) <= |c|
    ensures BlockAt(CbcDecrypt(k, chain, c), j) == Xor(BlockBefore(chain, c, j), k.dec(BlockAt(c, j)))
    decreases j
  {
    var p1 := Xor(chain, k.dec(c[..BLOCK]));
    var rest: seq<byte> := CbcDecrypt(k, c[..BLOCK], c[BLOCK..]);
    BlockOfSum(p1, rest, j);
    if j > 0 {
      CbcDecryptBlock(k, c[..BLOCK], c[BLOCK..], j - 1);
      BlockOfRest(c, j);
      if j > 1 {
        BlockOfRest(c, j - 1);
      }
      hide Xor;
    }
  }

  /** The chaining value after processing ciphertext `c`. */
  function LastBlock(chain: Block, c: seq<byte>): Block
    requires |c| % BLOCK == 0
  {
    if c == [] then chain else c[|c| - BLOCK..]
  }

  lemma {:induction false} CbcInverse(k: Key, chain: Block, data: seq<byte>)
    requires Invertible(k) && |data| % BLOCK == 0
    ensures CbcDecrypt(k, chain, CbcEncrypt(k, chain, data)) == data
    decreases |data|
  {
    if data != [] {
      var p: Block := data[..BLOCK];
      var c := k.enc(Xor(chain, p));
      var rest: seq<byte> := CbcEncrypt(k, c, data[BLOCK..]);
      var all: seq<byte> := CbcEncrypt(k, chain, data);
      assert all[..BLOCK] == c && all[BLOCK..] == rest;
      CbcInverse(k, c, data[BLOCK..]);
      XorCancels(chain, p);
      assert data == p + data[BLOCK..];
    }
  }

  lemma FirstBlockOfSum(a: seq<byte>, b: seq<byte>)
    requires |a| >= BLOCK
    ensures (a + b)[..BLOCK] == a[..BLOCK] && (a + b)[BLOCK..] == a[BLOCK..] + b
  {
  }

  /** Encrypting in two pieces, carrying the chaining value over, is encrypting at once. */
  lemma {:induction false} CbcEncryptSplits(k: Key, chain: Block, a: seq<byte>, b: seq<byte>)
    requires |a| % BLOCK == 0 && |b| % BLOCK == 0
    ensures (|a| + |b|) % BLOCK == 0
    ensures CbcEncrypt(k, chain, a + b)
         == CbcEncrypt(k, chain, a) + CbcEncrypt(k, LastBlock(chain, CbcEncrypt(k, chain, a)), b)
    decreases |a|
  {
    if a == [] {
      assert a + b == b;
    } else {
      var c := k.enc(Xor(chain, a[..BLOCK]));
      var rest: seq<byte> := CbcEncrypt(k, c, a[BLOCK..]);
      var all: seq<byte> := CbcEncrypt(k, chain, a);
      FirstBlockOfSum(a, b);
      CbcEncryptSplits(k, c, a[BLOCK..], b);
      assert LastBlock(chain, all) == LastBlock(c, rest);
    }
  }

  lemma {:induction false} CbcDecryptSplits(k: Key, chain: Block, a: seq<byte>, b: seq<byte>)
    requires |a| % BLOCK == 0 && |b| % BLOCK == 0
    ensures (|a| + |b|) % BLOCK == 0
    ensures CbcDecrypt(k, chain, a + b)
         == CbcDecrypt(k, chain, a) + CbcDecrypt(k, LastBlock(chain, a), b)
    decreases |a|
  {
    if a == [] {
      assert a + b == b;
    } else {
      FirstBlockOfSum(a, b);
      CbcDecryptSplits(k, a[..BLOCK], a[BLOCK..], b);
      assert LastBlock(a[..BLOCK], a[BLOCK..]) == LastBlock(chain, a);
      hide LastBlock;
    }
  }

  // ---- Padding ----

  function PadCount(n: nat): (k: nat)
    ensures 1 <= k <= BLOCK && (n + k) % BLOCK == 0
  {
    BLOCK - n % BLOCK
  }

  /** `k` bytes, each holding `k`. */
  function Padding(k: nat): seq<byte>
    requires 1 <= k <= BLOCK
  {
    seq(k, _ => k as byte)
  }

  function Pad(p: seq<byte>): (r: seq<byte>)
    ensures |r| == BLOCK * (|p| / BLOCK + 1) && |r| % BLOCK == 0
  {
    p + Padding(PadCount(|p|))
  }

  /** The data without its padding, or None when the last block is not validly padded. */
  function Unpad(data: seq<byte>): Option<seq<byte>> {
    if data == [] then None
    else
      var k := data[|data| - 1] as int;
      if k == 0 || k > BLOCK || k > |data| then None
      else if data[|data| - k..] == Padding(k) then Some(data[..|data| - k])
      else None
  }

  lemma SmallByte(k: nat)
    requires k <= BLOCK
    ensures (k as byte) as int == k
  {
    if k == 0 {} else if k == 1 {} else if k == 2 {} else if k == 3 {} else if k == 4 {}
    else if k == 5 {} else if k == 6 {} else if k == 7 {} else if k == 8 {} else if k == 9 {}
    else if k == 10 {} else if k == 11 {} else if k == 12 {} else if k == 13 {} else if k == 14 {}
    else if k == 15 {} else {}
  }

  /** `d` ends in `k` bytes that each hold `k`. */
  predicate EndsPadded(d: seq<byte>, k: nat) {
    1 <= k <= BLOCK && k <= |d| && forall i | |d| - k <= i < |d| :: d[i] as int == k
  }

  lemma EndsIn(d: seq<byte>, k: nat)
    requires 1 <= k <= BLOCK && k <= |d|
    ensures EndsPadded(d, k) <==> d[|d| - k..] == Padding(k)
  {
    SmallByte(k);
    var last := d[|d| - k..];
    assert forall i | 0 <= i < k :: last[i] == d[|d| - k + i];
    if last == Padding(k) {
      assert forall i | |d| - k <= i < |d| :: d[i] == last[i - (|d| - k)];
    }
  }

  /** The last byte says how much padding there is. */
  lemma PaddedBy(d: seq<byte>, k: nat)
    requires EndsPadded(d, k)
    ensures d != [] && d[|d| - 1] as int == k && 1 <= k <= BLOCK && k <= |d|
  {
  }

  /** Padding is removed exactly when all its bytes are right, and then nothing else is. */
  lemma UnpadIff(d: seq<byte>)
    ensures Unpad(d).Some? <==> exists k: nat :: EndsPadded(d, k)
    ensures forall k: nat | EndsPadded(d, k) :: k <= |d| && Unpad(d) == Some(d[..|d| - k])
  {
    hide EndsPadded, Padding;
    forall k: nat | EndsPadded(d, k)
      ensures k <= |d| && Unpad(d) == Some(d[..|d| - k])
    {
      PaddedBy(d, k);
      EndsIn(d, k);
    }
    if Unpad(d).Some? {
      EndsIn(d, d[|d| - 1] as int);
    }
  }

  lemma UnpadPads(p: seq<byte>)
    ensures Unpad(Pad(p)) == Some(p)
  {
    var k := PadCount(|p|);
    SmallByte(k);
    assert Pad(p)[|Pad(p)| - k..] == Padding(k);
    assert Pad(p)[..|Pad(p)| - k] == p;
  }

  // ---- One-shot encryption ----

  function Encrypt(k: Key, p: seq<byte>): (r: seq<byte>)
    ensures |r| == BLOCK * (|p| / BLOCK + 1)
  {
    CbcEncrypt(k, k.iv, Pad(p))
  }

  /** What the code writes back: nothing beyond the released blocks when the padding is bad,
      and when the length is not whole only the blocks that Update released. */
  function Decrypt(k: Key, c: seq<byte>): (r: seq<byte>)
    ensures |r| <= |c|
  {
    if |c| % BLOCK == 0 && c != [] then
      var d := CbcDecrypt(k, k.iv, c);
      match Unpad(d)
      case Some(p) => p
      case None => d[..|d| - BLOCK]
    else
      CbcDecrypt(k, k.iv, c[..|c| - |c| % BLOCK])
  }

  /** Byte `i` of the padded payload (section 6.3 of RFC 5652). */
  function PaddedByte(p: seq<byte>, i: nat): byte {
    if i < |p| then p[i] else (BLOCK - |p| % BLOCK) as byte
  }

  lemma PadBytes(p: seq<byte>, i: nat)
    requires i < BLOCK * (|p| / BLOCK + 1)
    ensures Pad(p)[i] == PaddedByte(p, i)
  {
  }

  /** Every ciphertext block encrypts a block each bit of which says whether the padded payload and
      the ciphertext block before, or the initial vector, differ there. */
  lemma EncryptIsCbc(k: Key, p: seq<byte>, j: nat) returns (x: Block)
    requires j <= |p| / BLOCK
    ensures BlockAt(Encrypt(k, p), j) == k.enc(x)
    ensures forall i, t | 0 <= i < BLOCK && 0 <= t < 8 ::
              Bit(x[i], t) <==> Bit(BlockBefore(k.iv, Encrypt(k, p), j)[i], t) != Bit(PaddedByte(p, BLOCK * j + i), t)
  {
    hide Pad, Xor, Bit, PaddedByte, CbcEncrypt;
    var c := Encrypt(k, p);
    x := Xor(BlockBefore(k.iv, c, j), BlockAt(Pad(p), j));
    CbcEncryptBlock(k, k.iv, Pad(p), j);
    forall i, t | 0 <= i < BLOCK && 0 <= t < 8
      ensures Bit(x[i], t) <==> Bit(BlockBefore(k.iv, c, j)[i], t) != Bit(PaddedByte(p, BLOCK * j + i), t)
    {
      XorBits(BlockBefore(k.iv, c, j), BlockAt(Pad(p), j), i, t);
      PadBytes(p, BLOCK * j + i);
    }
  }

  lemma DecryptInvertsEncrypt(k: Key, p: seq<byte>)
    requires Invertible(k)
    ensures Decrypt(k, Encrypt(k, p)) == p
  {
    CbcInverse(k, k.iv, Pad(p));
    UnpadPads(p);
  }

  // ---- The streaming contexts ----

  /** The part of `data` that fills whole blocks, and the bytes left over. */
  function WholePart(data: seq<byte>): (r: seq<byte>)
    ensures |r| % BLOCK == 0 && r <= data && |data| - |r| < BLOCK
  {
    data[..|data| - |data| % BLOCK]
  }

  function Leftover(data: seq<byte>): (r: seq<byte>)
    ensures |r| < BLOCK && WholePart(data) + r == data
  {
    data[|data| - |data| % BLOCK..]
  }

  /** A per-thread encryption context. Output appears block by block; fewer than sixteen
      bytes wait in `pending`. */
  class EncryptContext {
    const key: Key
    var chain: Block
    var pending: seq<byte>

    ghost predicate Valid()
      reads this
    {
      |pending| < BLOCK
    }

    constructor (key: Key)
      ensures Valid() && this.key == key && chain == key.iv && pending == []
    {
      this.key := key;
      chain, pending := key.iv, [];
    }

    /** Back to the state after Init, as the code's comment on the call intends. */
    method Reset()
      modifies this
      ensures Valid() && chain == key.iv && pending == []
    {
      chain, pending := key.iv, [];
    }

    method Update(input: seq<byte>) returns (out: seq<byte>)
      requires Valid()
      modifies this
      ensures Valid()
      ensures out == CbcEncrypt(key, old(chain), WholePart(old(pending) + input))
      ensures chain == LastBlock(old(chain), out)
      ensures pending == Leftover(old(pending) + input)
    {
      hide CbcEncrypt;
      var data := pending + input;
      out := CbcEncrypt(key, chain, WholePart(data));
      chain, pending := LastBlock(chain, out), Leftover(data);
    }

    method Final() returns (out: seq<byte>)
      requires Valid()
      modifies this
      ensures Valid()
      ensures out == CbcEncrypt(key, old(chain), Pad(old(pending)))
      ensures chain == LastBlock(old(chain), out) && pending == []
    {
      hide CbcEncrypt, Pad, LastBlock;
      out := CbcEncrypt(key, chain, Pad(pending));
      chain, pending := LastBlock(chain, out), [];
    }
  }

  /** A per-thread decryption context. When the input so far is whole, its last plaintext
      block is held back, since it may be padding. */
  class DecryptContext {
    const key: Key
    var chain: Block
    var pending: seq<byte>
    var held: seq<byte>

    ghost predicate Valid()
      reads this
    {
      |pending| < BLOCK && (held == [] || |held| == BLOCK)
    }

    constructor (key: Key)
      ensures Valid() && this.key == key && chain == key.iv && pending == [] && held == []
    {
      this.key := key;
      chain, pending, held := key.iv, [], [];
    }

    method Reset()
      modifies this
      ensures Valid() && chain == key.iv && pending == [] && held == []
    {
      chain, pending, held := key.iv, [], [];
    }

    method Update(input: seq<byte>) returns (out: seq<byte>)
      requires Valid()
      modifies this
      ensures Valid()
      ensures out + held
           == old(held) + CbcDecrypt(key, old(chain), WholePart(old(pending) + input))
      ensures pending == Leftover(old(pending) + input)
      ensures pending != [] ==> held == []
      ensures pending == [] && out + held != [] ==> |held| == BLOCK
      ensures chain == LastBlock(old(chain), WholePart(old(pending) + input))
    {
      hide CbcDecrypt, LastBlock, WholePart, Leftover;
      var data := pending + input;
      var plain := held + CbcDecrypt(key, chain, WholePart(data));
      chain, pending := LastBlock(chain, WholePart(data)), Leftover(data);
      if pending == [] && plain != [] {
        out, held := plain[..|plain| - BLOCK], plain[|plain| - BLOCK..];
      } else {
        out, held := plain, [];
      }
      assert out + held == plain;
    }

    /** On a bad last block the call fails and writes no bytes. */
    method Final() returns (out: seq<byte>)
      requires Valid()
      ensures out == if pending == [] && Unpad(held).Some? then Unpad(held).value else []
    {
      if pending != [] || held == [] {
        out := [];
      } else {
        match Unpad(held)
        case Some(p) => out := p;
        case None => out := [];
      }
    }
  }
}
