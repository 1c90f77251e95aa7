/** Two processes that send each other messages through shared memory: one buffer pool and two
    crossed rings. Each process has one command prompt that sends and any number of lcores that
    receive; their steps interleave arbitrarily. */
module SimpleMp {
  const POOL_SIZE: nat := 1024

  /** A ring of 64 slots holds 63 entries. */
  const RING_USABLE: nat := 63

  const STR_TOKEN_SIZE: nat := 128

  datatype Sender =
    | Prompt
    | Holding(id: nat, text: string)
    | Written(id: nat, text: string)
    | Discarding(id: nat)

  /** `k` numbers the received message among those sent through the ring. */
  datatype Receiver =
    | Head
    | Looking
    | Got(id: nat, k: nat)
    | Printed(id: nat)
    | Stopped

  datatype Print = Print(k: nat, text: string)

  /** `ring` is the ring this process sends into; the other one has dequeued `taken` of the
      messages `sent` through it. */
  datatype Process = Process(
    quit: bool, sender: Sender, ring: seq<nat>, sent: seq<string>, taken: nat,
    receivers: seq<Receiver>, printed: seq<Print>)

  datatype State = State(pool: set<nat>, mem: map<nat, string>, procs: seq<Process>, panicked: bool)

  datatype Action =
    | Get(s: nat, id: nat, text: string)
    | Panic(s: nat)
    | Copy(s: nat)
    | Enqueue(s: nat)
    | Discard(s: nat)
    | Quit(s: nat)
    | Test(s: nat, i: nat)
    | Dequeue(s: nat, i: nat)
    | Show(s: nat, i: nat)
    | Put(s: nat, i: nat)

  /** What `strlcpy` leaves of a text. */
  function Truncated(text: string): (r: string)
    ensures r <= text && |r| < STR_TOKEN_SIZE
    ensures r == text || |r| == STR_TOKEN_SIZE - 1
  {
    if |text| < STR_TOKEN_SIZE then text else text[..STR_TOKEN_SIZE - 1]
  }

  function Text(mem: map<nat, string>, id: nat): string {
    if id in mem then mem[id] else ""
  }

  function Ids(n: nat): set<nat> {
    if n == 0 then {} else Ids(n - 1) + {n - 1}
  }

  lemma {:induction false} IdsMembers(n: nat, id: nat)
    ensures id in Ids(n) <==> id < n
  {
    if n > 0 {
      IdsMembers(n - 1, id);
    }
  }

  lemma {:induction false} IdsAre(n: nat)
    ensures |Ids(n)| == n && forall id: nat :: id in Ids(n) <==> id < n
  {
    forall id: nat
      ensures id in Ids(n) <==> id < n
    {
      IdsMembers(n, id);
    }
    if n > 0 {
      IdsAre(n - 1);
    }
  }

  predicate IsFresh(p: Process) {
    && !p.quit && p.sender == Prompt && p.ring == [] && p.sent == [] && p.taken == 0 && p.printed == []
    && forall i | 0 <= i < |p.receivers| :: p.receivers[i] == Head
  }

  predicate IsInit(st: State) {
    && st.pool == Ids(POOL_SIZE)
    && |st.procs| == 2 && !st.panicked
    && IsFresh(st.procs[0]) && IsFresh(st.procs[1])
  }

  predicate Enabled(st: State, a: Action) {
    && |st.procs| == 2 && a.s < 2 && !st.panicked
    && var p := st.procs[a.s];
       match a
       case Get(_, id, _) => p.sender == Prompt && !p.quit && id in st.pool
       case Panic(_) => p.sender == Prompt && !p.quit && st.pool == {}
       case Copy(_) => p.sender.Holding?
       case Enqueue(_) => p.sender.Written?
       case Discard(_) => p.sender.Discarding?
       case Quit(_) => p.sender == Prompt && !p.quit
       case Test(_, i) => i < |p.receivers| && p.receivers[i] == Head
       case Dequeue(_, i) => i < |p.receivers| && p.receivers[i] == Looking
       case Show(_, i) => i < |p.receivers| && p.receivers[i].Got?
       case Put(_, i) => i < |p.receivers| && p.receivers[i].Printed?
  }

  function WithSender(p: Process, sender: Sender): Process {
    p.(sender := sender)
  }

  function WithReceiver(p: Process, i: nat, r: Receiver): Process
    requires i < |p.receivers|
  {
    p.(receivers := p.receivers[i := r])
  }

  function Set(st: State, s: nat, p: Process): State
    requires |st.procs| == 2 && s < 2
  {
    st.(procs := st.procs[s := p])
  }

  function Do(st: State, a: Action): State
    requires Enabled(st, a)
  {
    var p := st.procs[a.s];
    var o := 1 - a.s;
    match a
    case Get(s, id, text) => Set(st, s, WithSender(p, Holding(id, text))).(pool := st.pool - {id})
    case Panic(s) => st.(panicked := true)
    case Copy(s) =>
      Set(st, s, WithSender(p, Written(p.sender.id, p.sender.text)))
      .(mem := st.mem[p.sender.id := Truncated(p.sender.text)])
    case Enqueue(s) =>
      if |p.ring| < RING_USABLE then
        Set(st, s, p.(sender := Prompt, ring := p.ring + [p.sender.id], sent := p.sent + [Truncated(p.sender.text)]))
      else
        Set(st, s, WithSender(p, Discarding(p.sender.id)))
    case Discard(s) => Set(st, s, WithSender(p, Prompt)).(pool := st.pool + {p.sender.id})
    case Quit(s) => Set(st, s, p.(quit := true))
    case Test(s, i) => Set(st, s, WithReceiver(p, i, if p.quit then Stopped else Looking))
    case Dequeue(s, i) =>
      var from := st.procs[o];
      if from.ring == [] then
        Set(st, s, WithReceiver(p, i, Head))
      else
        Set(Set(st, o, from.(ring := from.ring[1..], taken := from.taken + 1)),
            s, WithReceiver(p, i, Got(from.ring[0], from.taken)))
    case Show(s, i) =>
      var r := p.receivers[i];
      Set(st, s, WithReceiver(p, i, Printed(r.id)).(printed := p.printed + [Print(r.k, Text(st.mem, r.id))]))
    case Put(s, i) => Set(st, s, WithReceiver(p, i, Head)).(pool := st.pool + {p.receivers[i].id})
  }

  // ---- Who holds a buffer ----

  function SenderHas(x: Sender, id: nat): nat {
    if x != Prompt && x.id == id then 1 else 0
  }

  function ReceiverHas(r: Receiver, id: nat): nat {
    if (r.Got? || r.Printed?) && r.id == id then 1 else 0
  }

  function ReceiversHave(rs: seq<Receiver>, id: nat): nat {
    if rs == [] then 0 else ReceiversHave(rs[..|rs| - 1], id) + ReceiverHas(rs[|rs| - 1], id)
  }

  function RingHas(ring: seq<nat>, id: nat): nat {
    multiset(ring)[id]
  }

  function ProcessHas(p: Process, id: nat): nat {
    SenderHas(p.sender, id) + RingHas(p.ring, id) + ReceiversHave(p.receivers, id)
  }

  function InPool(pool: set<nat>, id: nat): nat {
    if id in pool then 1 else 0
  }

  /** In how many places buffer `id` is. */
  function Places(pool: set<nat>, procs: seq<Process>, id: nat): nat
    requires |procs| == 2
  {
    InPool(pool, id) + ProcessHas(procs[0], id) + ProcessHas(procs[1], id)
  }

  ghost predicate Owned(st: State) {
    && |st.procs| == 2
    && forall id: nat :: Places(st.pool, st.procs, id) == if id < POOL_SIZE then 1 else 0
  }

  lemma PlacesSet(pool: set<nat>, procs: seq<Process>, s: nat, p: Process, id: nat)
    requires |procs| == 2 && s < 2
    ensures Places(pool, procs[s := p], id) + ProcessHas(procs[s], id) == Places(pool, procs, id) + ProcessHas(p, id)
  {
    hide ProcessHas, InPool;
  }

  lemma PlacesPool(pool: set<nat>, pool': set<nat>, procs: seq<Process>, id: nat)
    requires |procs| == 2
    ensures Places(pool', procs, id) + InPool(pool, id) == Places(pool, procs, id) + InPool(pool', id)
  {
    hide ProcessHas, InPool;
  }

  lemma {:induction false} ReceiversUpdate(rs: seq<Receiver>, i: nat, r: Receiver, id: nat)
    requires i < |rs|
    ensures ReceiversHave(rs[i := r], id) + ReceiverHas(rs[i], id) == ReceiversHave(rs, id) + ReceiverHas(r, id)
  {
    var n := |rs| - 1;
    if i < n {
      assert rs[i := r][..n] == rs[..n][i := r];
      ReceiversUpdate(rs[..n], i, r, id);
    } else {
      assert rs[i := r][..n] == rs[..n];
    }
  }

  lemma RingUpdate(ring: seq<nat>, id: nat, x: nat)
    ensures RingHas(ring + [id], x) == RingHas(ring, x) + if id == x then 1 else 0
    ensures ring != [] ==> RingHas(ring, x) == RingHas(ring[1..], x) + if ring[0] == x then 1 else 0
  {
    if ring != [] {
      assert ring == [ring[0]] + ring[1..];
    }
  }

  /** A buffer held by a process is not in the pool. */
  lemma HeldNotPooled(st: State, s: nat, id: nat)
    requires Owned(st) && s < 2 && ProcessHas(st.procs[s], id) > 0
    ensures id !in st.pool
  {
    assert Places(st.pool, st.procs, id) <= 1;
    hide ProcessHas;
  }

  ghost predicate KeepsPlaces(st: State, st': State, id: nat)
    requires |st.procs| == 2
  {
    |st'.procs| == 2 && Places(st'.pool, st'.procs, id) == Places(st.pool, st.procs, id)
  }

  /** A step that changes one process and the pool, and moves buffers only between the two. */
  lemma OneProcess(st: State, st': State, s: nat, p: Process, id: nat)
    requires |st.procs| == 2 && s < 2 && st'.procs == st.procs[s := p]
    requires ProcessHas(p, id) + InPool(st'.pool, id) == ProcessHas(st.procs[s], id) + InPool(st.pool, id)
    ensures KeepsPlaces(st, st', id)
  {
    PlacesSet(st.pool, st.procs, s, p, id);
    PlacesPool(st.pool, st'.pool, st'.procs, id);
    hide Places, ProcessHas, InPool;
  }

  lemma SenderBalance(st: State, a: Action, id: nat)
    requires Enabled(st, a) && !(a.Test? || a.Dequeue? || a.Show? || a.Put?)
    requires a.Discard? ==> st.procs[a.s].sender.id !in st.pool
    ensures var p, p' := st.procs[a.s], Do(st, a).procs[a.s];
            && Do(st, a).procs == st.procs[a.s := p']
            && ProcessHas(p', id) + InPool(Do(st, a).pool, id) == ProcessHas(p, id) + InPool(st.pool, id)
  {
    hide RingHas, ReceiversHave;
    var p := st.procs[a.s];
    if a.Enqueue? {
      RingUpdate(p.ring, p.sender.id, id);
    }
  }

  lemma SenderStep(st: State, a: Action, id: nat)
    requires Enabled(st, a) && Owned(st) && !(a.Test? || a.Dequeue? || a.Show? || a.Put?)
    ensures KeepsPlaces(st, Do(st, a), id)
  {
    if a.Discard? {
      HeldNotPooled(st, a.s, st.procs[a.s].sender.id);
    }
    SenderBalance(st, a, id);
    hide *;
    OneProcess(st, Do(st, a), a.s, Do(st, a).procs[a.s], id);
  }

  lemma ReceiverBalance(st: State, a: Action, id: nat)
    requires Enabled(st, a) && (a.Test? || a.Show? || a.Put?)
    requires a.Put? ==> st.procs[a.s].receivers[a.i].id !in st.pool
    ensures var p, p' := st.procs[a.s], Do(st, a).procs[a.s];
            && Do(st, a).procs == st.procs[a.s := p']
            && ProcessHas(p', id) + InPool(Do(st, a).pool, id) == ProcessHas(p, id) + InPool(st.pool, id)
  {
    var p, p' := st.procs[a.s], Do(st, a).procs[a.s];
    ReceiversUpdate(p.receivers, a.i, p'.receivers[a.i], id);
    hide RingHas, ReceiversHave;
  }

  lemma ReceiverStep(st: State, a: Action, id: nat)
    requires Enabled(st, a) && Owned(st) && (a.Test? || a.Show? || a.Put?)
    ensures KeepsPlaces(st, Do(st, a), id)
  {
    if a.Put? {
      var rs := st.procs[a.s].receivers;
      ReceiversUpdate(rs, a.i, Head, rs[a.i].id);
      HeldNotPooled(st, a.s, rs[a.i].id);
    }
    ReceiverBalance(st, a, id);
    hide *;
    OneProcess(st, Do(st, a), a.s, Do(st, a).procs[a.s], id);
  }

  /** One receiver changes hands or is idle throughout. */
  lemma ReceiverHands(p: Process, i: nat, r: Receiver, id: nat)
    requires i < |p.receivers|
    ensures ProcessHas(WithReceiver(p, i, r), id) + ReceiverHas(p.receivers[i], id)
         == ProcessHas(p, id) + ReceiverHas(r, id)
  {
    hide ReceiversHave, RingHas, ReceiverHas;
    ReceiversUpdate(p.receivers, i, r, id);
  }

  lemma RingHands(q: Process, id: nat)
    requires q.ring != []
    ensures ProcessHas(q.(ring := q.ring[1..], taken := q.taken + 1), id) + (if q.ring[0] == id then 1 else 0)
         == ProcessHas(q, id)
  {
    hide ReceiversHave, RingHas;
    RingUpdate(q.ring, 0, id);
  }

  lemma DequeueBalance(st: State, a: Action, id: nat)
    requires Enabled(st, a) && a.Dequeue?
    ensures var o := 1 - a.s;
            var p', q' := Do(st, a).procs[a.s], Do(st, a).procs[o];
            && Do(st, a).procs == st.procs[o := q'][a.s := p'] && Do(st, a).pool == st.pool
            && ProcessHas(p', id) + ProcessHas(q', id) == ProcessHas(st.procs[a.s], id) + ProcessHas(st.procs[o], id)
  {
    hide ProcessHas;
    var p, q := st.procs[a.s], st.procs[1 - a.s];
    if q.ring == [] {
      ReceiverHands(p, a.i, Head, id);
    } else {
      ReceiverHands(p, a.i, Got(q.ring[0], q.taken), id);
      RingHands(q, id);
    }
  }

  /** A step that moves buffers only between the two processes. */
  lemma TwoProcesses(st: State, st': State, s: nat, p: Process, o: nat, q: Process, id: nat)
    requires |st.procs| == 2 && s < 2 && o == 1 - s && st'.procs == st.procs[o := q][s := p] && st'.pool == st.pool
    requires ProcessHas(p, id) + ProcessHas(q, id) == ProcessHas(st.procs[s], id) + ProcessHas(st.procs[o], id)
    ensures KeepsPlaces(st, st', id)
  {
    PlacesSet(st.pool, st.procs, o, q, id);
    PlacesSet(st.pool, st.procs[o := q], s, p, id);
    hide Places, ProcessHas;
  }

  lemma DequeueStep(st: State, a: Action, id: nat)
    requires Enabled(st, a) && a.Dequeue?
    ensures KeepsPlaces(st, Do(st, a), id)
  {
    DequeueBalance(st, a, id);
    hide *;
    var o := 1 - a.s;
    TwoProcesses(st, Do(st, a), a.s, Do(st, a).procs[a.s], o, Do(st, a).procs[o], id);
  }

  lemma OwnedFrom(st: State, st': State)
    requires Owned(st) && |st'.procs| == 2 && forall id: nat :: KeepsPlaces(st, st', id)
    ensures Owned(st')
  {
    forall id: nat
      ensures Places(st'.pool, st'.procs, id) == if id < POOL_SIZE then 1 else 0
    {
      assert KeepsPlaces(st, st', id);
    }
  }

  /** No step creates, loses or duplicates a buffer. */
  lemma StepKeepsOwned(st: State, a: Action)
    requires Enabled(st, a) && Owned(st)
    ensures Owned(Do(st, a))
  {
    forall id: nat
      ensures KeepsPlaces(st, Do(st, a), id)
    {
      if a.Dequeue? {
        DequeueStep(st, a, id);
      } else if a.Test? || a.Show? || a.Put? {
        ReceiverStep(st, a, id);
      } else {
        SenderStep(st, a, id);
      }
    }
    OwnedFrom(st, Do(st, a));
  }

  // ---- How many buffers are out ----

  function SenderBusy(x: Sender): nat {
    if x == Prompt then 0 else 1
  }

  function ReceiverBusy(r: Receiver): nat {
    if r.Got? || r.Printed? then 1 else 0
  }

  function ReceiversBusy(rs: seq<Receiver>): (n: nat)
    ensures n <= |rs|
  {
    if rs == [] then 0 else ReceiversBusy(rs[..|rs| - 1]) + ReceiverBusy(rs[|rs| - 1])
  }

  function Out(p: Process): nat {
    SenderBusy(p.sender) + |p.ring| + ReceiversBusy(p.receivers)
  }

  ghost predicate Sized(st: State) {
    && |st.procs| == 2
    && |st.pool| + Out(st.procs[0]) + Out(st.procs[1]) == POOL_SIZE
    && |st.procs[0].ring| <= RING_USABLE && |st.procs[1].ring| <= RING_USABLE
  }

  lemma {:induction false} BusyUpdate(rs: seq<Receiver>, i: nat, r: Receiver)
    requires i < |rs|
    ensures ReceiversBusy(rs[i := r]) + ReceiverBusy(rs[i]) == ReceiversBusy(rs) + ReceiverBusy(r)
  {
    var n := |rs| - 1;
    if i < n {
      assert rs[i := r][..n] == rs[..n][i := r];
      BusyUpdate(rs[..n], i, r);
    } else {
      assert rs[i := r][..n] == rs[..n];
    }
  }

  lemma SizedSet(st: State, st': State, s: nat, p: Process)
    requires Sized(st) && s < 2 && st'.procs == st.procs[s := p] && |p.ring| <= RING_USABLE
    requires |st'.pool| + Out(p) == |st.pool| + Out(st.procs[s])
    ensures Sized(st')
  {
    hide Out;
  }

  lemma SizedMove(st: State, st': State, s: nat, p: Process, o: nat, q: Process)
    requires Sized(st) && s < 2 && o == 1 - s && st'.procs == st.procs[o := q][s := p] && st'.pool == st.pool
    requires |p.ring| <= RING_USABLE && |q.ring| <= RING_USABLE
    requires Out(p) + Out(q) == Out(st.procs[s]) + Out(st.procs[o])
    ensures Sized(st')
  {
    hide Out;
  }

  lemma SenderKeepsSized(st: State, a: Action)
    requires Enabled(st, a) && Sized(st) && !(a.Test? || a.Dequeue? || a.Show? || a.Put?)
    requires a.Discard? ==> st.procs[a.s].sender.id !in st.pool
    ensures Sized(Do(st, a))
  {
    hide ReceiversBusy;
    SizedSet(st, Do(st, a), a.s, Do(st, a).procs[a.s]);
  }

  lemma ReceiverOut(p: Process, i: nat, r: Receiver)
    requires i < |p.receivers|
    ensures Out(WithReceiver(p, i, r)) + ReceiverBusy(p.receivers[i]) == Out(p) + ReceiverBusy(r)
  {
    hide ReceiversBusy, ReceiverBusy;
    BusyUpdate(p.receivers, i, r);
  }

  lemma SamePrinted(p: Process, p': Process)
    ensures Out(p'.(printed := p.printed)) == Out(p')
  {
  }

  lemma ReceiverKeepsSized(st: State, a: Action)
    requires Enabled(st, a) && Sized(st) && (a.Test? || a.Show? || a.Put?)
    requires a.Put? ==> st.procs[a.s].receivers[a.i].id !in st.pool
    ensures Sized(Do(st, a))
  {
    hide Out;
    var p, p' := st.procs[a.s], Do(st, a).procs[a.s];
    ReceiverOut(p, a.i, p'.receivers[a.i]);
    SamePrinted(p, p');
    SizedSet(st, Do(st, a), a.s, p');
  }

  lemma RingOut(q: Process)
    requires q.ring != []
    ensures Out(q.(ring := q.ring[1..], taken := q.taken + 1)) + 1 == Out(q)
  {
    hide ReceiversBusy;
  }

  lemma DequeueKeepsSized(st: State, a: Action)
    requires Enabled(st, a) && Sized(st) && a.Dequeue?
    ensures Sized(Do(st, a))
  {
    hide Out;
    var o := 1 - a.s;
    var p, q := st.procs[a.s], st.procs[o];
    if q.ring == [] {
      ReceiverOut(p, a.i, Head);
      SizedSet(st, Do(st, a), a.s, WithReceiver(p, a.i, Head));
    } else {
      var p', q' := WithReceiver(p, a.i, Got(q.ring[0], q.taken)), q.(ring := q.ring[1..], taken := q.taken + 1);
      ReceiverOut(p, a.i, Got(q.ring[0], q.taken));
      RingOut(q);
      SizedMove(st, Do(st, a), a.s, p', o, q');
    }
  }

  lemma StepKeepsSized(st: State, a: Action)
    requires Enabled(st, a) && Owned(st) && Sized(st)
    ensures Sized(Do(st, a))
  {
    if a.Dequeue? {
      DequeueKeepsSized(st, a);
    } else if a.Test? || a.Show? || a.Put? {
      if a.Put? {
        var rs := st.procs[a.s].receivers;
        ReceiversUpdate(rs, a.i, Head, rs[a.i].id);
        HeldNotPooled(st, a.s, rs[a.i].id);
      }
      ReceiverKeepsSized(st, a);
    } else {
      if a.Discard? {
        HeldNotPooled(st, a.s, st.procs[a.s].sender.id);
      }
      SenderKeepsSized(st, a);
    }
  }

  /** The pool cannot be found empty while two full rings, all receivers and the other sender
      together hold less than the whole pool. */
  lemma PanicUnreachable(st: State, s: nat)
    requires Sized(st) && s < 2
    requires 2 * RING_USABLE + |st.procs[0].receivers| + |st.procs[1].receivers| + 1 < POOL_SIZE
    ensures !Enabled(st, Panic(s))
  {
  }

  // ---- Messages ----

  /** From the copy until a receiver returns the buffer, the buffer holds the text sent. Here `p`
      sends to `q`. */
  ghost predicate TextsHold(mem: map<nat, string>, p: Process, q: Process) {
    && p.taken + |p.ring| == |p.sent|
    && (p.sender.Written? ==> Text(mem, p.sender.id) == Truncated(p.sender.text))
    && (forall j | 0 <= j < |p.ring| :: Text(mem, p.ring[j]) == p.sent[p.taken + j])
    && (forall i | 0 <= i < |q.receivers| && q.receivers[i].Got? ::
          q.receivers[i].k < p.taken && Text(mem, q.receivers[i].id) == p.sent[q.receivers[i].k])
    && (forall x | x in q.printed :: x.k < p.taken && x.text == p.sent[x.k])
  }

  /** How often message `k` has been printed. */
  function Prints(printed: seq<Print>, k: nat): nat {
    if printed == [] then 0
    else Prints(printed[..|printed| - 1], k) + if printed[|printed| - 1].k == k then 1 else 0
  }

  function IsPending(r: Receiver, k: nat): nat {
    if r.Got? && r.k == k then 1 else 0
  }

  /** How many receivers hold message `k` and are yet to print it. */
  function Pending(rs: seq<Receiver>, k: nat): nat {
    if rs == [] then 0 else Pending(rs[..|rs| - 1], k) + IsPending(rs[|rs| - 1], k)
  }

  /** Every dequeued message is printed once or about to be, and no other is. */
  ghost predicate Once(p: Process, q: Process) {
    forall k: nat :: Prints(q.printed, k) + Pending(q.receivers, k) == if k < p.taken then 1 else 0
  }

  function ReceiverPending(r: Receiver): nat {
    if r.Got? then 1 else 0
  }

  /** A lone receiver prints in the order sent. */
  ghost predicate InOrder(p: Process, q: Process) {
    |q.receivers| == 1 ==>
      && |q.printed| + ReceiverPending(q.receivers[0]) == p.taken
      && (q.receivers[0].Got? ==> q.receivers[0].k == |q.printed|)
      && forall j | 0 <= j < |q.printed| :: q.printed[j].k == j
  }

  ghost predicate Link(mem: map<nat, string>, p: Process, q: Process) {
    TextsHold(mem, p, q) && Once(p, q) && InOrder(p, q)
  }

  ghost predicate Linked(st: State) {
    && |st.procs| == 2
    && Link(st.mem, st.procs[0], st.procs[1])
    && Link(st.mem, st.procs[1], st.procs[0])
  }

  lemma {:induction false} PendingUpdate(rs: seq<Receiver>, i: nat, r: Receiver, k: nat)
    requires i < |rs|
    ensures Pending(rs[i := r], k) + IsPending(rs[i], k) == Pending(rs, k) + IsPending(r, k)
  {
    var n := |rs| - 1;
    if i < n {
      assert rs[i := r][..n] == rs[..n][i := r];
      PendingUpdate(rs[..n], i, r, k);
    } else {
      assert rs[i := r][..n] == rs[..n];
    }
  }

  lemma {:induction false} HolderHas(rs: seq<Receiver>, i: nat)
    requires i < |rs| && (rs[i].Got? || rs[i].Printed?)
    ensures ReceiversHave(rs, rs[i].id) > 0
  {
    var n := |rs| - 1;
    if i < n {
      assert rs[i] == rs[..n][i];
      HolderHas(rs[..n], i);
    }
  }

  /** What the sender writes is in no ring and in no receiver's hand. */
  lemma OnlySenderHas(st: State, s: nat)
    requires Owned(st) && s < 2 && st.procs[s].sender != Prompt
    ensures forall t | 0 <= t < 2 :: st.procs[s].sender.id !in st.procs[t].ring
    ensures forall t, i | 0 <= t < 2 && 0 <= i < |st.procs[t].receivers| && st.procs[t].receivers[i].Got? ::
              st.procs[t].receivers[i].id != st.procs[s].sender.id
    ensures st.procs[1 - s].sender.Written? ==> st.procs[1 - s].sender.id != st.procs[s].sender.id
  {
    var id := st.procs[s].sender.id;
    assert Places(st.pool, st.procs, id) <= 1;
    forall t, i | 0 <= t < 2 && 0 <= i < |st.procs[t].receivers| && st.procs[t].receivers[i].Got?
      ensures st.procs[t].receivers[i].id != id
    {
      HolderHas(st.procs[t].receivers, i);
    }
    hide ReceiversHave;
  }

  /** A step of neither end of a link, or one that only the sender's own state shows. */
  lemma LinkSame(mem: map<nat, string>, p: Process, q: Process, p': Process, q': Process)
    requires Link(mem, p, q)
    requires p'.ring == p.ring && p'.sent == p.sent && p'.taken == p.taken
    requires p'.sender.Written? ==> p'.sender == p.sender
    requires q'.receivers == q.receivers && q'.printed == q.printed
    ensures Link(mem, p', q')
  {
  }

  lemma LinkWrite(mem: map<nat, string>, p: Process, q: Process, id: nat, text: string)
    requires Link(mem, p, q) && id !in p.ring && (p.sender.Written? ==> p.sender.id != id)
    requires forall i | 0 <= i < |q.receivers| && q.receivers[i].Got? :: q.receivers[i].id != id
    ensures Link(mem[id := text], p, q)
  {
    hide Once, InOrder;
  }

  lemma LinkCopied(mem: map<nat, string>, p: Process, q: Process)
    requires Link(mem, p.(sender := Prompt), q)
    requires p.sender.Written? ==> Text(mem, p.sender.id) == Truncated(p.sender.text)
    ensures Link(mem, p, q)
  {
    var p0 := p.(sender := Prompt);
    assert Once(p0, q) && InOrder(p0, q) && TextsHold(mem, p0, q);
  }

  lemma LinkEnqueue(mem: map<nat, string>, p: Process, q: Process)
    requires Link(mem, p, q) && p.sender.Written?
    ensures Link(mem, p.(sender := Prompt, ring := p.ring + [p.sender.id],
                         sent := p.sent + [Truncated(p.sender.text)]), q)
  {
    var p' := p.(sender := Prompt, ring := p.ring + [p.sender.id], sent := p.sent + [Truncated(p.sender.text)]);
    assert Once(p', q) && InOrder(p', q);
    hide Once, InOrder;
  }

  lemma LinkIdle(mem: map<nat, string>, p: Process, q: Process, i: nat, r: Receiver)
    requires Link(mem, p, q) && i < |q.receivers| && !q.receivers[i].Got? && !r.Got?
    ensures Link(mem, p, WithReceiver(q, i, r))
  {
    var q' := WithReceiver(q, i, r);
    assert Once(p, q') by {
      forall k: nat
        ensures Pending(q'.receivers, k) == Pending(q.receivers, k)
      {
        PendingUpdate(q.receivers, i, r, k);
      }
    }
    hide Once;
  }

  lemma LinkDequeue(mem: map<nat, string>, p: Process, q: Process, i: nat)
    requires Link(mem, p, q) && i < |q.receivers| && !q.receivers[i].Got? && p.ring != []
    ensures Link(mem, p.(ring := p.ring[1..], taken := p.taken + 1), WithReceiver(q, i, Got(p.ring[0], p.taken)))
  {
    var p', q' := p.(ring := p.ring[1..], taken := p.taken + 1), WithReceiver(q, i, Got(p.ring[0], p.taken));
    assert Once(p', q') by {
      forall k: nat
        ensures Pending(q'.receivers, k) == Pending(q.receivers, k) + if k == p.taken then 1 else 0
      {
        PendingUpdate(q.receivers, i, Got(p.ring[0], p.taken), k);
      }
    }
    hide Once;
  }

  lemma LinkShow(mem: map<nat, string>, p: Process, q: Process, i: nat)
    requires Link(mem, p, q) && i < |q.receivers| && q.receivers[i].Got?
    ensures var r := q.receivers[i];
            Link(mem, p, WithReceiver(q, i, Printed(r.id)).(printed := q.printed + [Print(r.k, Text(mem, r.id))]))
  {
    var r := q.receivers[i];
    var x := Print(r.k, Text(mem, r.id));
    var q' := WithReceiver(q, i, Printed(r.id)).(printed := q.printed + [x]);
    assert Once(p, q') by {
      forall k: nat
        ensures Prints(q'.printed, k) + Pending(q'.receivers, k) == Prints(q.printed, k) + Pending(q.receivers, k)
      {
        PendingUpdate(q.receivers, i, Printed(r.id), k);
        assert q'.printed[..|q.printed|] == q.printed;
      }
    }
    hide Once;
  }

  /** The process at the other end. */
  function Other(st: State, s: nat): Process
    requires |st.procs| == 2 && s < 2
  {
    st.procs[1 - s]
  }

  lemma SetKeepsLinked(st: State, st': State, s: nat, p: Process)
    requires |st.procs| == 2 && s < 2 && st'.procs == st.procs[s := p]
    requires Link(st'.mem, p, Other(st, s)) && Link(st'.mem, Other(st, s), p)
    ensures Linked(st')
  {
    hide Link;
  }

  lemma CopyKeepsLinked(st: State, a: Action)
    requires Enabled(st, a) && Owned(st) && Linked(st) && a.Copy?
    ensures Linked(Do(st, a))
  {
    var p, q, mem := st.procs[a.s], Other(st, a.s), Do(st, a).mem;
    var p' := Do(st, a).procs[a.s];
    OnlySenderHas(st, a.s);
    hide Owned, Link;
    LinkWrite(st.mem, q, p, p.sender.id, Truncated(p.sender.text));
    LinkSame(mem, q, p, q, p');
    LinkSame(st.mem, p, q, p.(sender := Prompt), q);
    LinkWrite(st.mem, p.(sender := Prompt), q, p.sender.id, Truncated(p.sender.text));
    assert p'.(sender := Prompt) == p.(sender := Prompt);
    LinkCopied(mem, p', q);
    SetKeepsLinked(st, Do(st, a), a.s, p');
  }

  lemma SenderKeepsLinked(st: State, a: Action)
    requires Enabled(st, a) && Linked(st) && !(a.Copy? || a.Test? || a.Dequeue? || a.Show? || a.Put?)
    ensures Linked(Do(st, a))
  {
    var p, q, p' := st.procs[a.s], Other(st, a.s), Do(st, a).procs[a.s];
    hide Link;
    if a.Enqueue? && |p.ring| < RING_USABLE {
      LinkEnqueue(st.mem, p, q);
    } else {
      LinkSame(st.mem, p, q, p', q);
    }
    LinkSame(st.mem, q, p, q, p');
    SetKeepsLinked(st, Do(st, a), a.s, p');
  }

  lemma ReceiverKeepsLinked(st: State, a: Action)
    requires Enabled(st, a) && Linked(st) && (a.Test? || a.Show? || a.Put? || (a.Dequeue? && Other(st, a.s).ring == []))
    ensures Linked(Do(st, a))
  {
    var p, q, p' := st.procs[a.s], Other(st, a.s), Do(st, a).procs[a.s];
    hide Link;
    LinkSame(st.mem, p, q, p', q);
    if a.Show? {
      LinkShow(st.mem, q, p, a.i);
    } else {
      LinkIdle(st.mem, q, p, a.i, p'.receivers[a.i]);
    }
    SetKeepsLinked(st, Do(st, a), a.s, p');
  }

  lemma MoveKeepsLinked(st: State, s: nat, p: Process, o: nat, q: Process)
    requires |st.procs| == 2 && s < 2 && o == 1 - s && st.procs[s] == p && st.procs[o] == q
    requires Link(st.mem, p, q) && Link(st.mem, q, p)
    ensures Linked(st)
  {
    hide Link;
  }

  lemma DequeueKeepsLinked(st: State, a: Action)
    requires Enabled(st, a) && Linked(st) && a.Dequeue? && Other(st, a.s).ring != []
    ensures Linked(Do(st, a))
  {
    var o := 1 - a.s;
    var p, q, p', q' := st.procs[a.s], st.procs[o], Do(st, a).procs[a.s], Do(st, a).procs[o];
    hide Link;
    LinkSame(st.mem, p, q, p', q');
    LinkDequeue(st.mem, q, p, a.i);
    MoveKeepsLinked(Do(st, a), a.s, p', o, q');
  }

  // ---- Every run ----

  ghost predicate Inv(st: State) {
    Owned(st) && Sized(st) && Linked(st)
  }

  lemma StepKeepsLinked(st: State, a: Action)
    requires Enabled(st, a) && Owned(st) && Linked(st)
    ensures Linked(Do(st, a))
  {
    hide Owned, Linked, Do;
    if a.Copy? {
      CopyKeepsLinked(st, a);
    } else if a.Dequeue? && Other(st, a.s).ring != [] {
      DequeueKeepsLinked(st, a);
    } else if a.Test? || a.Show? || a.Put? || a.Dequeue? {
      ReceiverKeepsLinked(st, a);
    } else {
      SenderKeepsLinked(st, a);
    }
  }

  /** Receiving lcores of process `s`. */
  function Receivers(st: State, s: nat): nat {
    if s < |st.procs| then |st.procs[s].receivers| else 0
  }

  lemma SameReceivers(st: State, a: Action)
    requires Enabled(st, a)
    ensures forall s: nat :: Receivers(Do(st, a), s) == Receivers(st, s)
  {
  }

  ghost predicate IsStep(st: State, st': State) {
    exists a :: Enabled(st, a) && st' == Do(st, a)
  }

  lemma StepKeepsInv(st: State, st': State)
    requires IsStep(st, st') && Inv(st)
    ensures Inv(st') && forall s: nat :: Receivers(st', s) == Receivers(st, s)
  {
    var a :| Enabled(st, a) && st' == Do(st, a);
    StepKeepsOwned(st, a);
    StepKeepsSized(st, a);
    StepKeepsLinked(st, a);
    SameReceivers(st, a);
    hide Owned, Sized, Linked, Receivers, Do, Enabled;
  }

  lemma {:induction false} FreshReceivers(rs: seq<Receiver>, id: nat)
    requires forall i | 0 <= i < |rs| :: rs[i] == Head
    ensures ReceiversHave(rs, id) == Pending(rs, id) == ReceiversBusy(rs) == 0
  {
    if rs != [] {
      FreshReceivers(rs[..|rs| - 1], id);
    }
  }

  lemma FreshLink(mem: map<nat, string>, p: Process, q: Process)
    requires IsFresh(p) && IsFresh(q)
    ensures Link(mem, p, q)
  {
    forall k: nat
      ensures Pending(q.receivers, k) == 0
    {
      FreshReceivers(q.receivers, k);
    }
  }

  lemma FreshHolds(p: Process, id: nat)
    requires IsFresh(p)
    ensures ProcessHas(p, id) == 0 && Out(p) == 0
  {
    FreshReceivers(p.receivers, id);
  }

  lemma InitOwned(st: State)
    requires IsInit(st)
    ensures Owned(st)
  {
    hide ProcessHas, IsFresh, Ids;
    IdsAre(POOL_SIZE);
    forall id: nat
      ensures ProcessHas(st.procs[0], id) == 0 && ProcessHas(st.procs[1], id) == 0
    {
      FreshHolds(st.procs[0], id);
      FreshHolds(st.procs[1], id);
    }
  }

  lemma InitSized(st: State)
    requires IsInit(st)
    ensures Sized(st)
  {
    IdsAre(POOL_SIZE);
    FreshHolds(st.procs[0], 0);
    FreshHolds(st.procs[1], 0);
    hide Ids, Out;
  }

  lemma InitInv(st: State)
    requires IsInit(st)
    ensures Inv(st)
  {
    hide Ids, IsFresh, Owned, Sized, Link;
    InitOwned(st);
    InitSized(st);
    FreshLink(st.mem, st.procs[0], st.procs[1]);
    FreshLink(st.mem, st.procs[1], st.procs[0]);
  }

  /** The states of a run, oldest first. */
  ghost predicate IsRun(run: seq<State>) {
    run != [] && IsInit(run[0]) && forall i | 0 <= i < |run| - 1 :: IsStep(run[i], run[i + 1])
  }

  lemma {:induction false} RunInv(run: seq<State>, n: nat)
    requires IsRun(run) && n < |run|
    ensures Inv(run[n]) && forall s: nat :: Receivers(run[n], s) == Receivers(run[0], s)
  {
    hide Inv, IsStep, Receivers;
    if n == 0 {
      InitInv(run[0]);
    } else {
      RunInv(run, n - 1);
      assert IsStep(run[n - 1], run[n - 1 + 1]);
      StepKeepsInv(run[n - 1], run[n]);
    }
  }

  /** In every run each buffer is in exactly one place. */
  lemma EveryBufferOwnedOnce(run: seq<State>, n: nat, id: nat)
    requires IsRun(run) && n < |run|
    ensures |run[n].procs| == 2
    ensures Places(run[n].pool, run[n].procs, id) == if id < POOL_SIZE then 1 else 0
  {
    RunInv(run, n);
    hide Places, IsRun;
  }

  lemma StepNoPanic(st: State, st': State)
    requires Inv(st) && IsStep(st, st') && !st.panicked
    requires 2 * RING_USABLE + Receivers(st, 0) + Receivers(st, 1) + 1 < POOL_SIZE
    ensures !st'.panicked
  {
    PanicUnreachable(st, 0);
    PanicUnreachable(st, 1);
    hide Sized, Owned, Linked;
  }

  /** The prompt never panics while the rings, the receivers and the other prompt leave a buffer
      over. */
  lemma {:induction false} NeverPanics(run: seq<State>, n: nat)
    requires IsRun(run) && n < |run|
    requires 2 * RING_USABLE + Receivers(run[0], 0) + Receivers(run[0], 1) + 1 < POOL_SIZE
    ensures !run[n].panicked
  {
    hide Inv, IsStep, Receivers;
    if n > 0 {
      NeverPanics(run, n - 1);
      RunInv(run, n - 1);
      assert IsStep(run[n - 1], run[n - 1 + 1]);
      StepNoPanic(run[n - 1], run[n]);
    }
  }

  /** Lcores of a process besides the one that runs the prompt. */
  const MAX_WORKERS: nat := 127

  /** A process has too few lcores to use the pool up: the prompt never panics. */
  lemma NeverPanicsAtAll(run: seq<State>, n: nat)
    requires IsRun(run) && n < |run|
    requires Receivers(run[0], 0) <= MAX_WORKERS && Receivers(run[0], 1) <= MAX_WORKERS
    ensures !run[n].panicked
  {
    NeverPanics(run, n);
  }

  lemma LinkedBothWays(st: State, s: nat)
    requires Linked(st) && s < 2
    ensures |st.procs| == 2
    ensures TextsHold(st.mem, st.procs[s], st.procs[1 - s])
    ensures Once(st.procs[s], st.procs[1 - s])
  {
    hide TextsHold, Once, InOrder;
  }

  /** Messages taken from a ring are a prefix of those sent through it, the rest wait in order;
      each taken one is printed once, or is about to be, with the text copied when it was sent. */
  lemma ExactFifo(run: seq<State>, n: nat, s: nat)
    requires IsRun(run) && n < |run| && s < 2
    ensures |run[n].procs| == 2
    ensures TextsHold(run[n].mem, run[n].procs[s], run[n].procs[1 - s])
    ensures Once(run[n].procs[s], run[n].procs[1 - s])
  {
    RunInv(run, n);
    hide IsRun, TextsHold, Once, InOrder, Owned, Sized, Linked;
    LinkedBothWays(run[n], s);
  }

  // ---- After quit ----

  /** The prompt of process `s` has ended; it held no message. */
  ghost predicate HasQuit(st: State, s: nat) {
    s < |st.procs| && st.procs[s].quit && st.procs[s].sender == Prompt
  }

  ghost predicate QuitsIdle(st: State) {
    forall s | 0 <= s < |st.procs| :: st.procs[s].quit ==> st.procs[s].sender == Prompt
  }

  lemma ActorStaysQuit(st: State, a: Action)
    requires Enabled(st, a) && QuitsIdle(st)
    ensures st.procs[a.s].quit ==>
              var p, p' := st.procs[a.s], Do(st, a).procs[a.s]; p'.quit && p'.sent == p.sent && p'.sender == Prompt
    ensures !st.procs[a.s].quit && Do(st, a).procs[a.s].quit ==> Do(st, a).procs[a.s].sender == Prompt
  {
  }

  lemma OtherStaysQuit(st: State, a: Action)
    requires Enabled(st, a)
    ensures var o := 1 - a.s;
            var p, p' := st.procs[o], Do(st, a).procs[o];
            p'.quit == p.quit && p'.sent == p.sent && p'.sender == p.sender
  {
  }

  lemma TwoProcs(st: State, a: Action)
    requires Enabled(st, a)
    ensures |st.procs| == |Do(st, a).procs| == 2 && a.s < 2
  {
  }

  lemma DoAfterQuit(st: State, a: Action, s: nat)
    requires Enabled(st, a) && QuitsIdle(st)
    ensures QuitsIdle(Do(st, a))
    ensures HasQuit(st, s) ==> HasQuit(Do(st, a), s) && Do(st, a).procs[s].sent == st.procs[s].sent
  {
    ActorStaysQuit(st, a);
    OtherStaysQuit(st, a);
    TwoProcs(st, a);
    hide Do, Enabled;
  }

  lemma StepAfterQuit(st: State, st': State, s: nat)
    requires IsStep(st, st') && QuitsIdle(st)
    ensures QuitsIdle(st')
    ensures HasQuit(st, s) ==> HasQuit(st', s) && st'.procs[s].sent == st.procs[s].sent
  {
    hide Do, Enabled, QuitsIdle;
    var a :| Enabled(st, a) && st' == Do(st, a);
    DoAfterQuit(st, a, s);
  }

  lemma StartQuitsIdle(st: State)
    requires IsInit(st)
    ensures QuitsIdle(st)
  {
    hide Ids;
    assert IsFresh(st.procs[0]) && IsFresh(st.procs[1]);
  }

  lemma RunStep(run: seq<State>, i: nat)
    requires IsRun(run) && i + 1 < |run|
    ensures IsStep(run[i], run[i + 1])
  {
    hide IsStep, IsInit;
  }

  lemma {:induction false} RunQuitsIdle(run: seq<State>, n: nat)
    requires IsRun(run) && n < |run|
    ensures QuitsIdle(run[n])
  {
    if n == 0 {
      StartQuitsIdle(run[0]);
    } else {
      hide QuitsIdle, IsStep, IsRun;
      RunQuitsIdle(run, n - 1);
      RunStep(run, n - 1);
      StepAfterQuit(run[n - 1], run[n], 0);
    }
  }

  lemma QuitShows(st: State, s: nat)
    requires QuitsIdle(st) && s < |st.procs| && st.procs[s].quit
    ensures HasQuit(st, s)
  {
  }

  /** Once a process has quit it sends nothing more, for good. */
  lemma {:induction false} NothingSentAfterQuit(run: seq<State>, i: nat, n: nat, s: nat)
    requires IsRun(run) && i <= n < |run| && s < |run[i].procs| && run[i].procs[s].quit
    ensures HasQuit(run[n], s) && run[n].procs[s].sent == run[i].procs[s].sent
  {
    hide IsStep, QuitsIdle, IsRun;
    RunQuitsIdle(run, i);
    QuitShows(run[i], s);
    if i < n {
      NothingSentAfterQuit(run, i, n - 1, s);
      RunQuitsIdle(run, n - 1);
      RunStep(run, n - 1);
      StepAfterQuit(run[n - 1], run[n], s);
    }
  }

  /** The texts printed, in order. */
  function TextsOf(printed: seq<Print>): seq<string> {
    seq(|printed|, i requires 0 <= i < |printed| => printed[i].text)
  }

  /** Printed: what was sent, in order, up to the message in hand. */
  ghost predicate PrintsInOrder(p: Process, q: Process) {
    && p.taken - 1 <= |q.printed| <= p.taken <= |p.sent|
    && TextsOf(q.printed) == p.sent[..|q.printed|]
  }

  lemma LinkPrintsInOrder(mem: map<nat, string>, p: Process, q: Process)
    requires Link(mem, p, q) && |q.receivers| == 1
    ensures PrintsInOrder(p, q)
  {
    hide Once;
    forall i | 0 <= i < |q.printed|
      ensures q.printed[i].text == p.sent[i]
    {
      assert q.printed[i] in q.printed;
    }
  }

  lemma InvPrintsInOrder(st: State, s: nat)
    requires Linked(st) && s < 2 && Receivers(st, 1 - s) == 1
    ensures PrintsInOrder(st.procs[s], st.procs[1 - s])
  {
    hide Link, PrintsInOrder;
    LinkPrintsInOrder(st.mem, st.procs[s], st.procs[1 - s]);
  }

  lemma OneReceiverPrintsInOrder(run: seq<State>, n: nat, s: nat)
    requires IsRun(run) && n < |run| && s < 2 && Receivers(run[0], 1 - s) == 1
    ensures |run[n].procs| == 2 && PrintsInOrder(run[n].procs[s], run[n].procs[1 - s])
  {
    RunInv(run, n);
    hide IsRun, Link, Owned, Sized, PrintsInOrder, Receivers;
    InvPrintsInOrder(run[n], s);
  }
}
