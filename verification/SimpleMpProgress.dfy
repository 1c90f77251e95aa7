/** What the messaging protocol gets done: a text sent is received and printed, a full ring gives the
    buffer back, an empty pool panics, and receivers go on until their process has quit. */
module SimpleMpProgress {
  import opened SimpleMp

  // ---- Several steps in a row ----

  ghost predicate Leads(st: State, acts: seq<Action>, r: State)
    decreases |acts|
  {
    if acts == [] then r == st else Enabled(st, acts[0]) && Leads(Do(st, acts[0]), acts[1..], r)
  }

  lemma LeadsNone(st: State)
    ensures Leads(st, [], st)
  {
  }

  lemma LeadsLast(st: State, a: Action)
    requires Enabled(st, a)
    ensures Leads(st, [a], Do(st, a))
  {
    assert [a][1..] == [];
    hide Enabled, Do;
  }

  lemma LeadsFirst(st: State, a: Action, acts: seq<Action>, r: State)
    requires Enabled(st, a) && Leads(Do(st, a), acts, r)
    ensures Leads(st, [a] + acts, r)
  {
    assert ([a] + acts)[1..] == acts;
    hide Enabled, Do;
  }

  lemma {:induction false} LeadsOn(st: State, a: seq<Action>, m: State, b: seq<Action>, r: State)
    requires Leads(st, a, m) && Leads(m, b, r)
    ensures Leads(st, a + b, r)
    decreases |a|
  {
    hide Enabled, Do;
    if a == [] {
      assert a + b == b;
    } else {
      LeadsOn(Do(st, a[0]), a[1..], m, b, r);
      assert (a + b)[1..] == a[1..] + b;
    }
  }

  lemma {:induction false} LeadsKeepsInv(st: State, acts: seq<Action>, r: State)
    requires Inv(st) && Leads(st, acts, r)
    ensures Inv(r)
    decreases |acts|
  {
    hide Inv, Enabled, Do;
    if acts != [] {
      assert IsStep(st, Do(st, acts[0]));
      StepKeepsInv(st, Do(st, acts[0]));
      LeadsKeepsInv(Do(st, acts[0]), acts[1..], r);
    }
  }

  /** What is reached from a state of a run is a state of a run. */
  lemma {:induction false} LeadsInRun(run: seq<State>, acts: seq<Action>, r: State) returns (run': seq<State>)
    requires IsRun(run) && Leads(run[|run| - 1], acts, r)
    ensures IsRun(run') && run <= run' && |run'| == |run| + |acts| && run'[|run'| - 1] == r
    decreases |acts|
  {
    hide IsInit, Enabled, Do;
    if acts == [] {
      run' := run;
    } else {
      var st := run[|run| - 1];
      var more := run + [Do(st, acts[0])];
      assert IsStep(st, Do(st, acts[0]));
      assert IsRun(more);
      run' := LeadsInRun(more, acts[1..], r);
    }
  }

  // ---- Starting ----

  /** Any numbers of receiving lcores, and anything in the buffers. */
  lemma StartsWith(receivers: seq<nat>, mem: map<nat, string>) returns (st: State)
    requires |receivers| == 2
    ensures IsInit(st) && st.mem == mem && forall s | 0 <= s < 2 :: Receivers(st, s) == receivers[s]
  {
    var start := (n: nat) => Process(false, Prompt, [], [], 0, seq(n, _ => Head), []);
    st := State(Ids(POOL_SIZE), mem, [start(receivers[0]), start(receivers[1])], false);
    hide Ids;
  }

  // ---- Receiving ----

  /** Receiver `i` of process `s` is at the head of its loop and may go on. */
  predicate MayReceive(st: State, s: nat, i: nat) {
    && |st.procs| == 2 && s < 2 && !st.panicked && !st.procs[s].quit
    && i < |st.procs[s].receivers| && st.procs[s].receivers[i] == Head
  }

  lemma FirstText(st: State, s: nat)
    requires Linked(st) && s < 2 && st.procs[s].ring != []
    ensures var q := st.procs[s]; q.taken < |q.sent| && Text(st.mem, q.ring[0]) == q.sent[q.taken]
  {
    hide Once, InOrder;
  }

  lemma FirstNotPooled(st: State, s: nat)
    requires Owned(st) && s < 2 && st.procs[s].ring != []
    ensures st.procs[s].ring[0] !in st.pool
  {
    RingUpdate(st.procs[s].ring, 0, st.procs[s].ring[0]);
    HeldNotPooled(st, s, st.procs[s].ring[0]);
  }

  /** Process `s` and the other one, and what both share. */
  ghost predicate Is(st: State, s: nat, p: Process, q: Process, pool: set<nat>, mem: map<nat, string>) {
    && |st.procs| == 2 && s < 2 && !st.panicked
    && st.procs[s] == p && st.procs[1 - s] == q && st.pool == pool && st.mem == mem
  }

  lemma TestOne(st: State, s: nat, i: nat, p: Process, q: Process)
    requires Is(st, s, p, q, st.pool, st.mem) && !p.quit && i < |p.receivers| && p.receivers[i] == Head
    ensures Enabled(st, Test(s, i))
    ensures Is(Do(st, Test(s, i)), s, WithReceiver(p, i, Looking), q, st.pool, st.mem)
  {
  }

  lemma DequeueOne(st: State, s: nat, i: nat, p: Process, q: Process)
    requires Is(st, s, p, q, st.pool, st.mem) && i < |p.receivers| && p.receivers[i] == Looking && q.ring != []
    ensures Enabled(st, Dequeue(s, i))
    ensures Is(Do(st, Dequeue(s, i)), s, WithReceiver(p, i, Got(q.ring[0], q.taken)),
               q.(ring := q.ring[1..], taken := q.taken + 1), st.pool, st.mem)
  {
  }

  lemma ShowOne(st: State, s: nat, i: nat, p: Process, q: Process, id: nat, k: nat)
    requires Is(st, s, p, q, st.pool, st.mem) && i < |p.receivers| && p.receivers[i] == Got(id, k)
    ensures Enabled(st, Show(s, i))
    ensures Is(Do(st, Show(s, i)), s,
               WithReceiver(p, i, Printed(id)).(printed := p.printed + [Print(k, Text(st.mem, id))]), q,
               st.pool, st.mem)
  {
  }

  lemma PutOne(st: State, s: nat, i: nat, p: Process, q: Process, id: nat)
    requires Is(st, s, p, q, st.pool, st.mem) && i < |p.receivers| && p.receivers[i] == Printed(id)
    ensures Enabled(st, Put(s, i))
    ensures Is(Do(st, Put(s, i)), s, WithReceiver(p, i, Head), q, st.pool + {id}, st.mem)
  {
  }

  lemma BackAtHead(p: Process, i: nat, a: Receiver, b: Receiver, c: Receiver)
    requires i < |p.receivers| && p.receivers[i] == Head
    ensures p.receivers[i := a][i := b][i := c][i := Head] == p.receivers
  {
  }

  /** While its process has not quit, a receiver at the head of its loop takes the oldest message
      that waits, prints the text that was sent, and returns the buffer, by its own steps alone. */
  lemma Receives(st: State, s: nat, i: nat) returns (r: State)
    requires Inv(st) && MayReceive(st, s, i) && st.procs[1 - s].ring != []
    ensures Leads(st, [Test(s, i), Dequeue(s, i), Show(s, i), Put(s, i)], r)
    ensures var p, q := st.procs[s], st.procs[1 - s];
            && q.taken < |q.sent| && |r.procs| == 2
            && r.procs[s] == p.(printed := p.printed + [Print(q.taken, q.sent[q.taken])])
            && r.procs[1 - s] == q.(ring := q.ring[1..], taken := q.taken + 1)
            && q.ring[0] !in st.pool && r.pool == st.pool + {q.ring[0]} && r.mem == st.mem && !r.panicked
  {
    FirstText(st, 1 - s);
    FirstNotPooled(st, 1 - s);
    hide Inv, Do, Enabled, Leads, Text;
    var p, q := st.procs[s], st.procs[1 - s];
    var id, text := q.ring[0], q.sent[q.taken];
    var q' := q.(ring := q.ring[1..], taken := q.taken + 1);
    var p1 := WithReceiver(p, i, Looking);
    var p2 := WithReceiver(p1, i, Got(id, q.taken));
    var p3 := WithReceiver(p2, i, Printed(id)).(printed := p.printed + [Print(q.taken, text)]);
    TestOne(st, s, i, p, q);
    var st1 := Do(st, Test(s, i));
    DequeueOne(st1, s, i, p1, q);
    var st2 := Do(st1, Dequeue(s, i));
    ShowOne(st2, s, i, p2, q', id, q.taken);
    var st3 := Do(st2, Show(s, i));
    PutOne(st3, s, i, p3, q', id);
    r := Do(st3, Put(s, i));
    BackAtHead(p, i, Looking, Got(id, q.taken), Printed(id));
    LeadsLast(st3, Put(s, i));
    LeadsFirst(st2, Show(s, i), [Put(s, i)], r);
    LeadsFirst(st1, Dequeue(s, i), [Show(s, i), Put(s, i)], r);
    LeadsFirst(st, Test(s, i), [Dequeue(s, i), Show(s, i), Put(s, i)], r);
  }

  /** Only receiver `i` of process `s` acts. */
  ghost predicate AllOf(acts: seq<Action>, s: nat, i: nat) {
    forall a <- acts :: a in {Test(s, i), Dequeue(s, i), Show(s, i), Put(s, i)}
  }

  lemma NoneOf(s: nat, i: nat)
    ensures AllOf([], s, i)
  {
  }

  lemma FourOf(rest: seq<Action>, s: nat, i: nat)
    requires AllOf(rest, s, i)
    ensures AllOf([Test(s, i), Dequeue(s, i), Show(s, i), Put(s, i)] + rest, s, i)
  {
  }

  lemma InvLinked(st: State)
    requires Inv(st)
    ensures Linked(st)
  {
  }

  lemma TextsMore(printed: seq<Print>, x: Print)
    ensures TextsOf(printed + [x]) == TextsOf(printed) + [x.text]
  {
  }

  lemma SentWaiting(st: State, s: nat)
    requires Linked(st) && s < 2
    ensures st.procs[s].taken + |st.procs[s].ring| == |st.procs[s].sent|
  {
    hide Once, InOrder;
  }

  lemma MoreTexts(before: seq<string>, sent: seq<string>, k: nat)
    requires k < |sent|
    ensures before + [sent[k]] + sent[k + 1..] == before + sent[k..]
  {
  }

  /** ... and so, by its own steps alone, all that waits, in the order sent. */
  lemma {:induction false} Delivers(st: State, s: nat, i: nat) returns (acts: seq<Action>, r: State)
    requires Inv(st) && MayReceive(st, s, i)
    ensures Leads(st, acts, r) && AllOf(acts, s, i) && MayReceive(r, s, i)
    ensures var q := st.procs[1 - s];
            && q.taken <= |q.sent| && r.procs[1 - s] == q.(ring := [], taken := |q.sent|)
            && TextsOf(r.procs[s].printed) == TextsOf(st.procs[s].printed) + q.sent[q.taken..]
    decreases |st.procs[1 - s].ring|
  {
    hide Inv, Enabled, Do, Leads, TextsOf, AllOf;
    var q := st.procs[1 - s];
    assert Linked(st) by { InvLinked(st); }
    SentWaiting(st, 1 - s);
    hide Linked;
    if q.ring == [] {
      acts, r := [], st;
      LeadsNone(st);
      NoneOf(s, i);
      assert TextsOf(st.procs[s].printed) + q.sent[q.taken..] == TextsOf(st.procs[s].printed);
    } else {
      var four := [Test(s, i), Dequeue(s, i), Show(s, i), Put(s, i)];
      var m := Receives(st, s, i);
      LeadsKeepsInv(st, four, m);
      var rest;
      rest, r := Delivers(m, s, i);
      LeadsOn(st, four, m, rest, r);
      acts := four + rest;
      FourOf(rest, s, i);
      TextsMore(st.procs[s].printed, Print(q.taken, q.sent[q.taken]));
      MoreTexts(TextsOf(st.procs[s].printed), q.sent, q.taken);
    }
  }

  /** With an empty ring a receiver goes back to the head of its loop. */
  lemma FindsNothing(st: State, s: nat, i: nat)
    requires MayReceive(st, s, i) && st.procs[1 - s].ring == []
    ensures Leads(st, [Test(s, i), Dequeue(s, i)], st)
  {
    var st1 := Do(st, Test(s, i));
    TestOne(st, s, i, st.procs[s], st.procs[1 - s]);
    assert Enabled(st1, Dequeue(s, i));
    var st2 := Do(st1, Dequeue(s, i));
    assert st2.procs[s].receivers == st.procs[s].receivers;
    assert st2.procs == st.procs;
    assert st2 == st;
    hide Enabled, Do;
    LeadsLast(st1, Dequeue(s, i));
    LeadsFirst(st, Test(s, i), [Dequeue(s, i)], st);
  }

  // ---- Sending ----

  /** Process `s` is at its prompt. */
  predicate MaySend(st: State, s: nat) {
    |st.procs| == 2 && s < 2 && !st.panicked && !st.procs[s].quit && st.procs[s].sender == Prompt
  }

  lemma GetOne(st: State, s: nat, id: nat, text: string, p: Process, q: Process)
    requires Is(st, s, p, q, st.pool, st.mem) && p.sender == Prompt && !p.quit && id in st.pool
    ensures Enabled(st, Get(s, id, text))
    ensures Is(Do(st, Get(s, id, text)), s, WithSender(p, Holding(id, text)), q, st.pool - {id}, st.mem)
  {
  }

  lemma CopyOne(st: State, s: nat, id: nat, text: string, p: Process, q: Process)
    requires Is(st, s, p, q, st.pool, st.mem) && p.sender == Holding(id, text)
    ensures Enabled(st, Copy(s))
    ensures Is(Do(st, Copy(s)), s, WithSender(p, Written(id, text)), q, st.pool, st.mem[id := Truncated(text)])
  {
  }

  lemma EnqueueOne(st: State, s: nat, id: nat, text: string, p: Process, q: Process)
    requires Is(st, s, p, q, st.pool, st.mem) && p.sender == Written(id, text)
    ensures Enabled(st, Enqueue(s))
    ensures var p' := if |p.ring| < RING_USABLE
                      then p.(sender := Prompt, ring := p.ring + [id], sent := p.sent + [Truncated(text)])
                      else WithSender(p, Discarding(id));
            Is(Do(st, Enqueue(s)), s, p', q, st.pool, st.mem)
  {
  }

  lemma DiscardOne(st: State, s: nat, id: nat, p: Process, q: Process)
    requires Is(st, s, p, q, st.pool, st.mem) && p.sender == Discarding(id)
    ensures Enabled(st, Discard(s))
    ensures Is(Do(st, Discard(s)), s, WithSender(p, Prompt), q, st.pool + {id}, st.mem)
  {
  }

  /** With a free buffer and room in the ring a text is copied, enqueued and so sent. */
  lemma Sends(st: State, s: nat, id: nat, text: string) returns (r: State)
    requires MaySend(st, s) && id in st.pool && |st.procs[s].ring| < RING_USABLE
    ensures Leads(st, [Get(s, id, text), Copy(s), Enqueue(s)], r)
    ensures var p := st.procs[s];
            Is(r, s, p.(ring := p.ring + [id], sent := p.sent + [Truncated(text)]), st.procs[1 - s],
               st.pool - {id}, st.mem[id := Truncated(text)])
  {
    hide Do, Enabled, Leads, Truncated;
    var p, q := st.procs[s], st.procs[1 - s];
    var p1, p2 := WithSender(p, Holding(id, text)), WithSender(p, Written(id, text));
    GetOne(st, s, id, text, p, q);
    var st1 := Do(st, Get(s, id, text));
    CopyOne(st1, s, id, text, p1, q);
    var st2 := Do(st1, Copy(s));
    EnqueueOne(st2, s, id, text, p2, q);
    r := Do(st2, Enqueue(s));
    LeadsLast(st2, Enqueue(s));
    LeadsFirst(st1, Copy(s), [Enqueue(s)], r);
    assert [Copy(s)] + [Enqueue(s)] == [Copy(s), Enqueue(s)];
    LeadsFirst(st, Get(s, id, text), [Copy(s), Enqueue(s)], r);
    assert [Get(s, id, text)] + [Copy(s), Enqueue(s)] == [Get(s, id, text), Copy(s), Enqueue(s)];
  }

  /** With a full ring the message is discarded: nothing is sent and the buffer is free again. */
  lemma Discards(st: State, s: nat, id: nat, text: string) returns (r: State)
    requires MaySend(st, s) && id in st.pool && |st.procs[s].ring| >= RING_USABLE
    ensures Leads(st, [Get(s, id, text), Copy(s), Enqueue(s), Discard(s)], r)
    ensures Is(r, s, st.procs[s], st.procs[1 - s], st.pool, st.mem[id := Truncated(text)])
  {
    hide Do, Enabled, Leads, Truncated;
    var p, q := st.procs[s], st.procs[1 - s];
    var p1, p2 := WithSender(p, Holding(id, text)), WithSender(p, Written(id, text));
    GetOne(st, s, id, text, p, q);
    var st1 := Do(st, Get(s, id, text));
    CopyOne(st1, s, id, text, p1, q);
    var st2 := Do(st1, Copy(s));
    EnqueueOne(st2, s, id, text, p2, q);
    var st3 := Do(st2, Enqueue(s));
    DiscardOne(st3, s, id, WithSender(p, Discarding(id)), q);
    r := Do(st3, Discard(s));
    assert st.pool - {id} + {id} == st.pool;
    LeadsLast(st3, Discard(s));
    LeadsFirst(st2, Enqueue(s), [Discard(s)], r);
    assert [Enqueue(s)] + [Discard(s)] == [Enqueue(s), Discard(s)];
    LeadsFirst(st1, Copy(s), [Enqueue(s), Discard(s)], r);
    assert [Copy(s)] + [Enqueue(s), Discard(s)] == [Copy(s), Enqueue(s), Discard(s)];
    LeadsFirst(st, Get(s, id, text), [Copy(s), Enqueue(s), Discard(s)], r);
    assert [Get(s, id, text)] + [Copy(s), Enqueue(s), Discard(s)]
        == [Get(s, id, text), Copy(s), Enqueue(s), Discard(s)];
  }

  /** At an empty pool the prompt can only panic, and then everything stands still. */
  lemma EmptyPoolPanics(st: State, s: nat)
    requires MaySend(st, s) && st.pool == {}
    ensures Enabled(st, Panic(s)) && Do(st, Panic(s)).panicked
    ensures forall id, text :: !Enabled(st, Get(s, id, text))
    ensures forall a :: !Enabled(Do(st, Panic(s)), a)
  {
  }

  /** A text sent is printed at the other end, behind all that was sent before. */
  lemma SentIsPrinted(st: State, s: nat, id: nat, text: string, i: nat) returns (acts: seq<Action>, r: State)
    requires Inv(st) && MaySend(st, s) && id in st.pool && |st.procs[s].ring| < RING_USABLE
    requires MayReceive(st, 1 - s, i)
    ensures Leads(st, acts, r) && |r.procs| == 2
    ensures var p := st.procs[s];
            && p.taken <= |p.sent|
            && TextsOf(r.procs[1 - s].printed)
               == TextsOf(st.procs[1 - s].printed) + p.sent[p.taken..] + [Truncated(text)]
  {
    hide Inv, Leads, TextsOf, Do, Enabled, Truncated;
    var p := st.procs[s];
    assert Linked(st) by { InvLinked(st); }
    SentWaiting(st, s);
    hide Linked;
    var send := [Get(s, id, text), Copy(s), Enqueue(s)];
    var m := Sends(st, s, id, text);
    LeadsKeepsInv(st, send, m);
    var receive;
    receive, r := Delivers(m, 1 - s, i);
    LeadsOn(st, send, m, receive, r);
    acts := send + receive;
    var before, waiting := TextsOf(st.procs[1 - s].printed), p.sent[p.taken..];
    assert (p.sent + [Truncated(text)])[p.taken..] == waiting + [Truncated(text)];
    assert before + (waiting + [Truncated(text)]) == before + waiting + [Truncated(text)];
  }

  // ---- Quitting ----

  /** A process can quit at its prompt, which changes nothing else. */
  lemma Quits(st: State, s: nat)
    requires MaySend(st, s)
    ensures Enabled(st, Quit(s))
    ensures Is(Do(st, Quit(s)), s, st.procs[s].(quit := true), st.procs[1 - s], st.pool, st.mem)
  {
  }

  /** Once its process has quit, a receiver stops when it next tests. */
  lemma StopsAfterQuit(st: State, s: nat, i: nat)
    requires |st.procs| == 2 && s < 2 && !st.panicked && st.procs[s].quit
    requires i < |st.procs[s].receivers| && st.procs[s].receivers[i] == Head
    ensures Enabled(st, Test(s, i))
    ensures Is(Do(st, Test(s, i)), s, WithReceiver(st.procs[s], i, Stopped), st.procs[1 - s], st.pool, st.mem)
  {
  }

  /** At start nobody has quit and both prompts wait. */
  lemma StartsAtPrompts(st: State)
    requires IsInit(st)
    ensures MaySend(st, 0) && MaySend(st, 1)
  {
    hide Ids;
    assert IsFresh(st.procs[0]) && IsFresh(st.procs[1]);
  }

  /** After quitting, a process does nothing but receive. */
  lemma PromptEnds(st: State, a: Action)
    requires HasQuit(st, a.s) && Enabled(st, a)
    ensures a.Test? || a.Dequeue? || a.Show? || a.Put?
  {
  }

  /** No receiver has stopped but those of processes that quit. */
  ghost predicate StoppedQuit(st: State) {
    forall s, i | 0 <= s < |st.procs| && 0 <= i < |st.procs[s].receivers| && st.procs[s].receivers[i] == Stopped ::
      st.procs[s].quit
  }

  lemma ActorStops(st: State, a: Action, i: nat)
    requires Enabled(st, a) && i < |st.procs[a.s].receivers|
    ensures var p, p' := st.procs[a.s], Do(st, a).procs[a.s];
            && |p'.receivers| == |p.receivers| && (p.quit ==> p'.quit)
            && (p'.receivers[i] == Stopped ==> p.receivers[i] == Stopped || p.quit)
  {
    hide Text, Truncated;
  }

  lemma OtherStops(st: State, a: Action)
    requires Enabled(st, a)
    ensures var o := 1 - a.s;
            Do(st, a).procs[o].receivers == st.procs[o].receivers && Do(st, a).procs[o].quit == st.procs[o].quit
  {
    hide Text, Truncated;
  }

  lemma StepKeepsStopped(st: State, st': State)
    requires IsStep(st, st') && StoppedQuit(st)
    ensures StoppedQuit(st')
  {
    hide Do;
    var a :| Enabled(st, a) && st' == Do(st, a);
    TwoProcs(st, a);
    OtherStops(st, a);
    SameReceivers(st, a);
    hide Enabled;
    forall s, i | 0 <= s < |st'.procs| && 0 <= i < |st'.procs[s].receivers| && st'.procs[s].receivers[i] == Stopped
      ensures st'.procs[s].quit
    {
      if s == a.s {
        assert Receivers(st', s) == Receivers(st, s);
        ActorStops(st, a, i);
      }
    }
  }

  lemma StartStopped(st: State)
    requires IsInit(st)
    ensures StoppedQuit(st)
  {
    hide Ids;
    assert IsFresh(st.procs[0]) && IsFresh(st.procs[1]);
  }

  /** In every run a receiver stops only after its process has quit. */
  lemma {:induction false} StopsOnlyAfterQuit(run: seq<State>, n: nat)
    requires IsRun(run) && n < |run|
    ensures StoppedQuit(run[n])
  {
    hide IsStep, StoppedQuit, IsInit;
    if n == 0 {
      StartStopped(run[0]);
    } else {
      StopsOnlyAfterQuit(run, n - 1);
      RunStep(run, n - 1);
      StepKeepsStopped(run[n - 1], run[n]);
    }
  }

  // ---- Nothing sent need wait for ever ----

  /** The step a receiver that is not at its head takes next. */
  function NextOf(s: nat, i: nat, r: Receiver): Action {
    match r
    case Looking => Dequeue(s, i)
    case Got(_, _) => Show(s, i)
    case _ => Put(s, i)
  }

  /** Steps from the head of the loop, at most. */
  function FromHead(r: Receiver): nat {
    match r
    case Looking => 3
    case Got(_, _) => 2
    case Printed(_) => 1
    case _ => 0
  }

  lemma NextStep(st: State, s: nat, i: nat)
    requires |st.procs| == 2 && s < 2 && !st.panicked && i < |st.procs[s].receivers|
    requires st.procs[s].receivers[i] !in {Head, Stopped}
    ensures var p, a := st.procs[s], NextOf(s, i, st.procs[s].receivers[i]);
            && Enabled(st, a)
            && var st' := Do(st, a);
               && |st'.procs| == 2 && !st'.panicked
               && st'.procs[s].quit == p.quit && |st'.procs[s].receivers| == |p.receivers|
               && st'.procs[s].receivers[i] != Stopped
               && FromHead(st'.procs[s].receivers[i]) < FromHead(p.receivers[i])
               && st'.procs[1 - s].sent == st.procs[1 - s].sent
  {
    hide Text;
  }

  /** A receiver that has not stopped comes back to the head of its loop by its own steps. */
  lemma {:induction false} ComesRound(st: State, s: nat, i: nat) returns (acts: seq<Action>, r: State)
    requires |st.procs| == 2 && s < 2 && !st.panicked && !st.procs[s].quit
    requires i < |st.procs[s].receivers| && st.procs[s].receivers[i] != Stopped
    ensures Leads(st, acts, r) && MayReceive(r, s, i) && r.procs[1 - s].sent == st.procs[1 - s].sent
    decreases FromHead(st.procs[s].receivers[i])
  {
    hide Leads, Do, Enabled;
    if st.procs[s].receivers[i] == Head {
      acts, r := [], st;
      LeadsNone(st);
    } else {
      var a := NextOf(s, i, st.procs[s].receivers[i]);
      NextStep(st, s, i);
      var rest;
      rest, r := ComesRound(Do(st, a), s, i);
      LeadsFirst(st, a, rest, r);
      acts := [a] + rest;
    }
  }

  /** While a process has not quit, any one of its receivers can, by its own steps, empty the ring to
      it, and so have all that was sent printed or, by other receivers, about to be. */
  lemma EverythingArrives(run: seq<State>, s: nat, i: nat) returns (run': seq<State>)
    requires run != [] && IsRun(run) && s < 2 && !run[|run| - 1].panicked
    requires |run[|run| - 1].procs| == 2 && !run[|run| - 1].procs[s].quit
    requires i < |run[|run| - 1].procs[s].receivers|
    ensures IsRun(run') && run <= run' && run' != []
    ensures var st, r := run[|run| - 1], run'[|run'| - 1];
            && |r.procs| == 2 && r.procs[1 - s].ring == [] && r.procs[1 - s].sent == st.procs[1 - s].sent
            && TextsHold(r.mem, r.procs[1 - s], r.procs[s]) && Once(r.procs[1 - s], r.procs[s])
  {
    hide IsRun, Leads, Inv, Do, Enabled, TextsHold, Once, TextsOf;
    var st := run[|run| - 1];
    RunInv(run, |run| - 1);
    StopsOnlyAfterQuit(run, |run| - 1);
    var a, m := ComesRound(st, s, i);
    LeadsKeepsInv(st, a, m);
    var b, r := Delivers(m, s, i);
    LeadsOn(st, a, m, b, r);
    run' := LeadsInRun(run, a + b, r);
    ExactFifo(run', |run'| - 1, 1 - s);
  }
}
