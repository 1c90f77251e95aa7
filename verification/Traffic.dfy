/** Sequences of packets as the forwarding programs transform them, and tagged logs. */
module Traffic {
  import opened Cipher
  import opened Frames

  const MAX_PORTS := 32     // RTE_MAX_ETHPORTS
  const BURST := 32         // MAX_PKT_BURST and RTE_RING_BURST

  /** Number of crypto workers, the destination table and the cipher key. */
  datatype Config = Config(workers: nat, dst: seq<nat>, key: Key)

  function DstOf(cfg: Config, p: nat): nat {
    if p < |cfg.dst| then cfg.dst[p] % U16 else p
  }

  // ---- What one packet becomes ----

  function Encrypted(cfg: Config, x: Pkt): (r: Pkt)
    ensures Marked(r.frame)
  {
    Pkt(DstOf(cfg, x.port), EncryptFrame(cfg.key, x.frame))
  }

  function Decrypted(cfg: Config, x: Pkt): Pkt {
    Pkt(x.port, DecryptFrame(cfg.key, x.frame))
  }

  /** The packets a crypto worker returns for input `xs`, in order. */
  function Fwd(cfg: Config, xs: seq<Pkt>): (r: seq<Pkt>)
    ensures |r| <= |xs|
  {
    if xs == [] then []
    else if Marked(xs[0].frame) then Fwd(cfg, xs[1..])
    else [Encrypted(cfg, xs[0])] + Fwd(cfg, xs[1..])
  }

  /** The sub-sequence recorded for port `q`. */
  function ToPort(xs: seq<Pkt>, q: nat): (r: seq<Pkt>)
    ensures |r| <= |xs|
  {
    if xs == [] then []
    else if xs[0].port == q then [xs[0]] + ToPort(xs[1..], q)
    else ToPort(xs[1..], q)
  }

  /** The same packets, all received on port `p`. */
  function OnPort(xs: seq<Pkt>, p: nat): (r: seq<Pkt>)
    ensures |r| == |xs| && forall i | 0 <= i < |r| :: r[i] == xs[i].(port := p)
  {
    seq(|xs|, i requires 0 <= i < |xs| => xs[i].(port := p))
  }

  lemma {:induction false} FwdAppend(cfg: Config, a: seq<Pkt>, b: seq<Pkt>)
    ensures Fwd(cfg, a + b) == Fwd(cfg, a) + Fwd(cfg, b)
  {
    if a == [] {
      assert a + b == b;
    } else {
      assert (a + b)[0] == a[0] && (a + b)[1..] == a[1..] + b;
      FwdAppend(cfg, a[1..], b);
    }
  }

  lemma ToPortFirst(xs: seq<Pkt>, q: nat)
    requires xs != []
    ensures ToPort(xs, q) == if xs[0].port == q then [xs[0]] + ToPort(xs[1..], q) else ToPort(xs[1..], q)
  {
  }

  lemma {:induction false} ToPortAppend(a: seq<Pkt>, b: seq<Pkt>, q: nat)
    ensures ToPort(a + b, q) == ToPort(a, q) + ToPort(b, q)
  {
    if a == [] {
      assert a + b == b;
    } else {
      assert (a + b)[0] == a[0] && (a + b)[1..] == a[1..] + b;
      ToPortAppend(a[1..], b, q);
    }
  }

  lemma {:induction false} ToPortUniform(xs: seq<Pkt>, p: nat, q: nat)
    requires forall i | 0 <= i < |xs| :: xs[i].port == p
    ensures ToPort(xs, q) == if p == q then xs else []
  {
    if xs != [] {
      ToPortUniform(xs[1..], p, q);
      assert xs == [xs[0]] + xs[1..];
    }
  }

  lemma {:induction false} FwdAllMarked(cfg: Config, xs: seq<Pkt>)
    ensures forall x | x in Fwd(cfg, xs) :: Marked(x.frame)
  {
    if xs != [] {
      FwdAllMarked(cfg, xs[1..]);
    }
  }

  // ---- As bags ----

  lemma {:induction false} ToPortBag(xs: seq<Pkt>, q: nat, x: Pkt)
    ensures multiset(ToPort(xs, q))[x] == if x.port == q then multiset(xs)[x] else 0
  {
    if xs != [] {
      ToPortBag(xs[1..], q, x);
      assert xs == [xs[0]] + xs[1..];
    }
  }

  lemma ToPortMonotone(a: seq<Pkt>, b: seq<Pkt>, q: nat)
    requires multiset(a) <= multiset(b)
    ensures multiset(ToPort(a, q)) <= multiset(ToPort(b, q))
  {
    forall x
      ensures multiset(ToPort(a, q))[x] <= multiset(ToPort(b, q))[x]
    {
      ToPortBag(a, q, x);
      ToPortBag(b, q, x);
    }
  }

  lemma FwdExtract(cfg: Config, b: seq<Pkt>, i: nat)
    requires i < |b|
    ensures multiset(Fwd(cfg, b)) == multiset(Fwd(cfg, [b[i]])) + multiset(Fwd(cfg, b[..i] + b[i + 1..]))
  {
    hide Fwd;
    assert b == b[..i] + ([b[i]] + b[i + 1..]);
    FwdAppend(cfg, b[..i], b[i + 1..]);
    FwdAppend(cfg, b[..i], [b[i]] + b[i + 1..]);
    FwdAppend(cfg, [b[i]], b[i + 1..]);
  }

  /** Taking the same packet out of both bags. */
  lemma BagRest(a: seq<Pkt>, b: seq<Pkt>, i: nat)
    requires a != [] && i < |b| && b[i] == a[0] && multiset(a) <= multiset(b)
    ensures multiset(a[1..]) <= multiset(b[..i] + b[i + 1..])
  {
    var b' := b[..i] + b[i + 1..];
    assert a == [a[0]] + a[1..] && b == b[..i] + ([b[i]] + b[i + 1..]);
    assert multiset(b) == multiset{a[0]} + multiset(b') && multiset(a) == multiset{a[0]} + multiset(a[1..]);
    forall x
      ensures multiset(a[1..])[x] <= multiset(b')[x]
    {
      assert multiset(a)[x] <= multiset(b)[x];
    }
  }

  lemma {:induction false} FwdMonotone(cfg: Config, a: seq<Pkt>, b: seq<Pkt>)
    requires multiset(a) <= multiset(b)
    ensures multiset(Fwd(cfg, a)) <= multiset(Fwd(cfg, b))
  {
    if a != [] {
      hide Fwd;
      assert a[0] in multiset(b);
      var i :| 0 <= i < |b| && b[i] == a[0];
      BagRest(a, b, i);
      FwdMonotone(cfg, a[1..], b[..i] + b[i + 1..]);
      FwdExtract(cfg, a, 0);
      FwdExtract(cfg, b, i);
      assert a[..0] + a[0 + 1..] == a[1..];
    }
  }

  // ---- Tagged logs ----

  datatype Tagged = Tagged(tag: nat, pkt: Pkt)

  type Log = seq<Tagged>

  function Tag(t: nat, xs: seq<Pkt>): (r: Log)
    ensures |r| == |xs| && forall i | 0 <= i < |r| :: r[i] == Tagged(t, xs[i])
  {
    seq(|xs|, i requires 0 <= i < |xs| => Tagged(t, xs[i]))
  }

  function Vals(log: Log): (r: seq<Pkt>)
    ensures |r| == |log| && forall i | 0 <= i < |r| :: r[i] == log[i].pkt
  {
    seq(|log|, i requires 0 <= i < |log| => log[i].pkt)
  }

  /** The packets logged under tag `t`, in order. */
  function Pick(log: Log, t: nat): (r: seq<Pkt>)
    ensures |r| <= |log|
  {
    if log == [] then []
    else if log[0].tag == t then [log[0].pkt] + Pick(log[1..], t)
    else Pick(log[1..], t)
  }

  ghost predicate TagsBelow(log: Log, n: nat) {
    forall i | 0 <= i < |log| :: log[i].tag < n
  }

  lemma {:induction false} PickAppend(a: Log, b: Log, t: nat)
    ensures Pick(a + b, t) == Pick(a, t) + Pick(b, t)
    ensures Vals(a + b) == Vals(a) + Vals(b)
  {
    if a == [] {
      assert a + b == b;
    } else {
      assert (a + b)[0] == a[0] && (a + b)[1..] == a[1..] + b;
      PickAppend(a[1..], b, t);
    }
  }

  lemma {:induction false} PickTag(u: nat, xs: seq<Pkt>, t: nat)
    ensures Pick(Tag(u, xs), t) == if t == u then xs else []
    ensures Vals(Tag(u, xs)) == xs
  {
    if xs != [] {
      assert Tag(u, xs)[1..] == Tag(u, xs[1..]);
      PickTag(u, xs[1..], t);
      assert xs == [xs[0]] + xs[1..];
    }
  }

  /** Appending one batch under one tag. */
  lemma Logged(log: Log, u: nat, xs: seq<Pkt>, t: nat)
    ensures Pick(log + Tag(u, xs), t) == Pick(log, t) + if t == u then xs else []
    ensures Vals(log + Tag(u, xs)) == Vals(log) + xs
  {
    PickAppend(log, Tag(u, xs), t);
    PickTag(u, xs, t);
  }

  /** Appending one batch, its first `k` packets under tag `u` and the rest under `v`. */
  function Split(u: nat, v: nat, xs: seq<Pkt>, k: nat): Log
    requires k <= |xs|
  {
    Tag(u, xs[..k]) + Tag(v, xs[k..])
  }

  lemma LoggedSplit(log: Log, u: nat, v: nat, xs: seq<Pkt>, k: nat, t: nat)
    requires k <= |xs| && u != v
    ensures Pick(log + Split(u, v, xs, k), t)
         == Pick(log, t) + if t == u then xs[..k] else if t == v then xs[k..] else []
    ensures Vals(log + Split(u, v, xs, k)) == Vals(log) + xs
  {
    hide Pick;
    var a, b := Tag(u, xs[..k]), Tag(v, xs[k..]);
    PickAppend(log, a + b, t);
    PickAppend(a, b, t);
    PickTag(u, xs[..k], t);
    PickTag(v, xs[k..], t);
    assert xs[..k] + xs[k..] == xs;
  }

  // ---- A log is the sum of its parts ----

  ghost function PartsBag(log: Log, n: nat): multiset<Pkt> {
    if n == 0 then multiset{} else PartsBag(log, n - 1) + multiset(Pick(log, n - 1))
  }

  ghost function PartsLen(log: Log, n: nat): nat {
    if n == 0 then 0 else PartsLen(log, n - 1) + |Pick(log, n - 1)|
  }

  lemma {:induction false} PartsCons(x: Tagged, log: Log, n: nat)
    ensures PartsBag([x] + log, n)
         == PartsBag(log, n) + if x.tag < n then multiset{x.pkt} else multiset{}
    ensures PartsLen([x] + log, n) == PartsLen(log, n) + if x.tag < n then 1 else 0
  {
    if n != 0 {
      PartsCons(x, log, n - 1);
      assert ([x] + log)[1..] == log;
    }
  }

  lemma {:induction false} PartsNil(n: nat)
    ensures PartsBag([], n) == multiset{} && PartsLen([], n) == 0
  {
    if n != 0 {
      PartsNil(n - 1);
    }
  }

  lemma {:induction false} PartsMakeLog(log: Log, n: nat)
    requires TagsBelow(log, n)
    ensures multiset(Vals(log)) == PartsBag(log, n) && |log| == PartsLen(log, n)
  {
    if log == [] {
      PartsNil(n);
    } else {
      var rest: Log := log[1..];
      assert log == [log[0]] + rest;
      PartsMakeLog(rest, n);
      PartsCons(log[0], rest, n);
      assert Vals(log) == [log[0].pkt] + Vals(rest);
    }
  }

  lemma {:induction false} PartsMonotone(a: Log, b: Log, n: nat)
    requires forall t | 0 <= t < n :: multiset(Pick(a, t)) <= multiset(Pick(b, t))
    ensures PartsBag(a, n) <= PartsBag(b, n)
  {
    if n != 0 {
      PartsMonotone(a, b, n - 1);
    }
  }

  lemma {:induction false} PartsPrefix(log: Log, m: nat, n: nat)
    requires m <= n
    ensures PartsBag(log, m) <= PartsBag(log, n)
  {
    if m < n {
      PartsPrefix(log, m, n - 1);
    }
  }

  /** Logs with the same parts hold the same packets. */
  lemma SamePartsSameBag(a: Log, b: Log, n: nat)
    requires TagsBelow(a, n) && TagsBelow(b, n)
    requires forall t | 0 <= t < n :: Pick(a, t) == Pick(b, t)
    ensures multiset(Vals(a)) == multiset(Vals(b))
  {
    PartsMakeLog(a, n);
    PartsMakeLog(b, n);
    PartsMonotone(a, b, n);
    PartsMonotone(b, a, n);
  }

  lemma {:induction false} OneTag(log: Log)
    requires TagsBelow(log, 1)
    ensures Vals(log) == Pick(log, 0)
  {
    if log != [] {
      OneTag(log[1..]);
      assert Vals(log) == [log[0].pkt] + Vals(log[1..]);
    }
  }

  lemma {:induction false} PickBelow(log: Log, n: nat, m: nat)
    requires TagsBelow(log, m)
    requires forall t | n <= t < m :: Pick(log, t) == []
    ensures TagsBelow(log, n)
  {
    if log != [] {
      assert Pick(log, log[0].tag) != [];
      forall t | n <= t < m
        ensures Pick(log[1..], t) == []
      {
        assert Pick(log, t) == [];
      }
      PickBelow(log[1..], n, m);
    }
  }

  lemma {:induction false} PickInBag(log: Log, t: nat)
    ensures multiset(Pick(log, t)) <= multiset(Vals(log))
  {
    if log != [] {
      PickInBag(log[1..], t);
      assert Vals(log) == [log[0].pkt] + Vals(log[1..]);
    }
  }

  // ---- Forwarding and port selection on tagged logs ----

  function FwdLog(cfg: Config, log: Log): Log {
    if log == [] then []
    else if Marked(log[0].pkt.frame) then FwdLog(cfg, log[1..])
    else [Tagged(log[0].tag, Encrypted(cfg, log[0].pkt))] + FwdLog(cfg, log[1..])
  }

  function PortLog(log: Log, q: nat): Log {
    if log == [] then []
    else if log[0].pkt.port == q then [log[0]] + PortLog(log[1..], q)
    else PortLog(log[1..], q)
  }

  lemma {:induction false} FwdLogVals(cfg: Config, log: Log)
    ensures Vals(FwdLog(cfg, log)) == Fwd(cfg, Vals(log))
  {
    if log != [] {
      FwdLogVals(cfg, log[1..]);
      assert Vals(log)[1..] == Vals(log[1..]);
    }
  }

  lemma {:induction false} FwdLogPick(cfg: Config, log: Log, t: nat)
    ensures Pick(FwdLog(cfg, log), t) == Fwd(cfg, Pick(log, t))
  {
    if log != [] {
      FwdLogPick(cfg, log[1..], t);
    }
  }

  lemma {:induction false} FwdLogTags(cfg: Config, log: Log, n: nat)
    requires TagsBelow(log, n)
    ensures TagsBelow(FwdLog(cfg, log), n)
  {
    if log != [] {
      FwdLogTags(cfg, log[1..], n);
    }
  }

  lemma FwdLogParts(cfg: Config, log: Log, n: nat)
    ensures Vals(FwdLog(cfg, log)) == Fwd(cfg, Vals(log))
    ensures forall t :: Pick(FwdLog(cfg, log), t) == Fwd(cfg, Pick(log, t))
    ensures TagsBelow(log, n) ==> TagsBelow(FwdLog(cfg, log), n)
  {
    hide Pick, Fwd, FwdLog, TagsBelow;
    FwdLogVals(cfg, log);
    forall t
      ensures Pick(FwdLog(cfg, log), t) == Fwd(cfg, Pick(log, t))
    {
      FwdLogPick(cfg, log, t);
    }
    if TagsBelow(log, n) {
      FwdLogTags(cfg, log, n);
    }
  }

  lemma {:induction false} PortLogParts(log: Log, q: nat, n: nat)
    ensures Vals(PortLog(log, q)) == ToPort(Vals(log), q)
    ensures forall t :: Pick(PortLog(log, q), t) == ToPort(Pick(log, t), q)
    ensures TagsBelow(log, n) ==> TagsBelow(PortLog(log, q), n)
  {
    if log != [] {
      PortLogParts(log[1..], q, n);
      assert Vals(log)[1..] == Vals(log[1..]);
    }
  }
}
