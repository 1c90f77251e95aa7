/** Which lcore of the run-to-completion program touches which queue, buffer and counter. The
    program takes no locks, so this is what keeps its lcores apart. */
module RaceFree {
  import opened Prelude
  import opened Traffic
  import opened Ports
  import opened Lcores

  datatype Resource =
    | RxQueue(port: nat)
    | RxCounter(port: nat)
    | TxQueue(port: nat)
    | TxBuffer(port: nat)
    | TxCounter(port: nat)
    | DropCounter(port: nat)

  /** Everything set-up leaves behind for the main loops. */
  datatype Plan = Plan(ports: seq<nat>, dst: seq<nat>, enabled: seq<bool>, q: nat, conf: seq<seq<nat>>)
  {
    ghost predicate Valid() {
      && Distinct(ports) && Involution(dst, Elements(ports))
      && |enabled| == |conf| == MAX_LCORES && q > 0
      && |ports| <= Slots(enabled, q, MAX_LCORES)
      && forall x | 0 <= x < MAX_LCORES :: conf[x] == Share(ports, enabled, q, x)
    }

    /** The lcore that polls port number `i`. */
    ghost function Poller(i: nat): nat
      requires Valid() && i < |ports|
    {
      LcoreOf(enabled, q, i, MAX_LCORES)
    }
  }

  lemma SelectDistinct(devs: seq<nat>, mask: set<nat>)
    requires Ascending(devs)
    ensures Distinct(Select(devs, mask))
  {
    SelectAscending(devs, mask);
    hide Select;
  }

  /** Set-up yields a valid plan, on exactly the inputs that pass its checks. */
  method SetUpAll(devs: seq<nat>, mask: set<nat>, pairs: Option<seq<Pair>>, enabled: seq<bool>, q: nat)
      returns (r: Option<Plan>)
    requires Ascending(devs) && forall i | 0 <= i < |devs| :: devs[i] < MAX_PORTS
    requires pairs.Some? ==> Small(pairs.value)
    requires |enabled| == MAX_LCORES && 1 <= q <= MAX_QUEUES
    ensures r.Some? ==> r.value.Valid() && r.value.q == q && r.value.enabled == enabled
    ensures r.Some? ==> r.value.ports == Select(devs, FinalMask(mask, pairs))
    ensures r.Some? && pairs == None ==> LinksNeighbours(r.value.dst, r.value.ports)
    ensures r.Some? && pairs.Some? ==> LinksPairs(r.value.dst, pairs.value)
    ensures r.Some? <==>
              && devs != []
              && (pairs.Some? ==> Acceptable(mask, Elements(devs), pairs.value))
              && (forall p <- FinalMask(mask, pairs) :: p < |devs|)
              && |Select(devs, FinalMask(mask, pairs))| <= q * Count(enabled, MAX_LCORES)
  {
    hide Select, Involution, Acceptable, LinksNeighbours, LinksPairs, Elements, Ascending;
    hide Slots, Share, Count, Fewest, Busy;
    var dst := new nat[MAX_PORTS];
    var setUp := SetUpPorts(dst, devs, mask, pairs);
    if setUp.Failure? {
      return None;
    }
    var ports := Select(devs, setUp.value);
    SelectDistinct(devs, setUp.value);
    SlotsAreMultiples(enabled, q, MAX_LCORES);
    var conf := new seq<nat>[MAX_LCORES](_ => []);
    var used := AssignPorts(conf, ports, enabled, q);
    if used.Failure? {
      return None;
    }
    r := Some(Plan(ports, dst[..], enabled, q, conf[..]));
  }

  // ---- What one main loop touches ----

  /** Writes made on behalf of received port `p`: polling, forwarding and draining. */
  ghost predicate WritesFor(plan: Plan, p: nat, r: Resource)
    requires p < |plan.dst|
  {
    match r
    case RxQueue(port) => port == p
    case RxCounter(port) => port == p
    case _ => r.port == plan.dst[p]
  }

  /** The throughput test reads the transmit counter of the received port itself. */
  ghost predicate ReadsFor(p: nat, r: Resource) {
    r == TxCounter(p)
  }

  ghost predicate IsCounter(r: Resource) {
    r.RxCounter? || r.TxCounter? || r.DropCounter?
  }

  ghost predicate Writes(plan: Plan, x: nat, r: Resource)
    requires plan.Valid() && x < MAX_LCORES
  {
    exists p :: p in plan.conf[x] && p < |plan.dst| && WritesFor(plan, p, r)
  }

  /** With the statistics timer on, the main lcore's loop reads every counter. */
  ghost predicate Reads(plan: Plan, main: nat, timer: bool, x: nat, r: Resource)
    requires plan.Valid() && x < MAX_LCORES
  {
    || (exists p :: p in plan.conf[x] && ReadsFor(p, r))
    || (timer && x == main && plan.conf[x] != [] && IsCounter(r))
  }

  ghost predicate Uses(plan: Plan, main: nat, timer: bool, x: nat, r: Resource)
    requires plan.Valid() && x < MAX_LCORES
  {
    Writes(plan, x, r) || Reads(plan, main, timer, x, r)
  }

  // ---- One writer each ----

  lemma PortsInTable(plan: Plan, i: nat)
    requires plan.Valid() && i < |plan.ports|
    ensures plan.ports[i] < |plan.dst| && plan.dst[plan.ports[i]] in plan.ports
  {
    assert plan.ports[i] in Elements(plan.ports);
  }

  /** Port number `i` is polled by its own lcore and no other. */
  lemma PolledBy(plan: Plan, i: nat, x: nat)
    requires plan.Valid() && i < |plan.ports| && x < MAX_LCORES
    ensures plan.ports[i] in plan.conf[x] <==> x == plan.Poller(i)
  {
    PortOnOneLcore(plan.ports, plan.enabled, plan.q, i, x);
  }

  /** Whose received frames lead to a write of a resource of port number `i`: its own for the
      receive side, its partner's for the transmit side. */
  ghost function Feeder(plan: Plan, i: nat, r: Resource): (j: nat)
    requires plan.Valid() && i < |plan.ports|
    ensures j < |plan.ports|
  {
    PortsInTable(plan, i);
    if r.RxQueue? || r.RxCounter? then i
    else var j :| 0 <= j < |plan.ports| && plan.ports[j] == plan.dst[plan.ports[i]]; j
  }

  /** Every queue, buffer and counter is written by exactly one lcore. */
  lemma OneWriter(plan: Plan, i: nat, r: Resource, x: nat)
    requires plan.Valid() && i < |plan.ports| && r.port == plan.ports[i] && x < MAX_LCORES
    ensures Writes(plan, x, r) <==> x == plan.Poller(Feeder(plan, i, r))
  {
    var j := Feeder(plan, i, r);
    PolledBy(plan, j, x);
    PortsInTable(plan, i);
    PortsInTable(plan, j);
    assert plan.ports[i] in Elements(plan.ports);
    assert WritesFor(plan, plan.ports[j], r);
    if Writes(plan, x, r) {
      var p :| p in plan.conf[x] && p < |plan.dst| && WritesFor(plan, p, r);
      assert p in plan.ports;
      assert p in Elements(plan.ports);
      assert p == plan.ports[j];
    }
  }

  /** Queues and buffers are not even read by another lcore. */
  lemma OneUser(plan: Plan, main: nat, timer: bool, i: nat, r: Resource, x: nat)
    requires plan.Valid() && i < |plan.ports| && r.port == plan.ports[i] && x < MAX_LCORES && !IsCounter(r)
    ensures Uses(plan, main, timer, x, r) <==> x == plan.Poller(Feeder(plan, i, r))
  {
    OneWriter(plan, i, r, x);
  }

  // ---- Counters ----

  /** No counter of an enabled port is used by two lcores. */
  ghost predicate CountersPrivate(plan: Plan, main: nat, timer: bool)
    requires plan.Valid()
  {
    forall r: Resource, x, y | IsCounter(r) && r.port in plan.ports && 0 <= x < MAX_LCORES && 0 <= y < MAX_LCORES ::
      Uses(plan, main, timer, x, r) && Uses(plan, main, timer, y, r) ==> x == y
  }

  ghost predicate PairAt(plan: Plan, i: nat, j: nat)
    requires plan.Valid() && i < |plan.ports| && j < |plan.ports|
  {
    PortsInTable(plan, i);
    plan.dst[plan.ports[i]] == plan.ports[j]
  }

  /** Both ports of every pair are polled by one lcore. */
  ghost predicate PairsTogether(plan: Plan)
    requires plan.Valid()
  {
    forall i, j | 0 <= i < |plan.ports| && 0 <= j < |plan.ports| ::
      PairAt(plan, i, j) ==> plan.Poller(i) == plan.Poller(j)
  }

  ghost predicate OnlyMainPolls(plan: Plan, main: nat)
    requires plan.Valid()
  {
    forall i | 0 <= i < |plan.ports| :: plan.Poller(i) == main
  }

  lemma PairAtFeeder(plan: Plan, i: nat, j: nat, r: Resource)
    requires plan.Valid() && i < |plan.ports| && j < |plan.ports| && !r.RxQueue? && !r.RxCounter?
    ensures PairAt(plan, i, j) <==> j == Feeder(plan, i, r)
  {
  }

  lemma CounterUsers(plan: Plan, main: nat, timer: bool, i: nat, r: Resource, x: nat)
    requires plan.Valid() && i < |plan.ports| && r.port == plan.ports[i] && x < MAX_LCORES && IsCounter(r)
    ensures Uses(plan, main, timer, x, r) <==>
            || x == plan.Poller(Feeder(plan, i, r))
            || (r.TxCounter? && x == plan.Poller(i))
            || (timer && x == main && plan.conf[x] != [])
  {
    OneWriter(plan, i, r, x);
    PolledBy(plan, i, x);
  }

  lemma PrivateNeedsTogether(plan: Plan, main: nat, timer: bool)
    requires plan.Valid() && main < MAX_LCORES && CountersPrivate(plan, main, timer)
    ensures PairsTogether(plan)
    ensures timer && plan.conf[main] != [] ==> OnlyMainPolls(plan, main)
  {
    forall i, j | 0 <= i < |plan.ports| && 0 <= j < |plan.ports|
      ensures PairAt(plan, i, j) ==> plan.Poller(i) == plan.Poller(j)
    {
      var r := TxCounter(plan.ports[i]);
      PairAtFeeder(plan, i, j, r);
      CounterUsers(plan, main, timer, i, r, plan.Poller(i));
      CounterUsers(plan, main, timer, i, r, plan.Poller(j));
    }
    forall i | 0 <= i < |plan.ports|
      ensures timer && plan.conf[main] != [] ==> plan.Poller(i) == main
    {
      var r := RxCounter(plan.ports[i]);
      CounterUsers(plan, main, timer, i, r, plan.Poller(i));
      CounterUsers(plan, main, timer, i, r, main);
    }
  }

  /** Counters are free of races exactly when both ports of every pair are polled by one lcore
      and, with the statistics timer on, the main lcore polls all ports or none. */
  lemma CountersPrivateIff(plan: Plan, main: nat, timer: bool)
    requires plan.Valid() && main < MAX_LCORES
    ensures CountersPrivate(plan, main, timer) <==>
            PairsTogether(plan) && (timer && plan.conf[main] != [] ==> OnlyMainPolls(plan, main))
  {
    if CountersPrivate(plan, main, timer) {
      PrivateNeedsTogether(plan, main, timer);
    } else {
      var r: Resource, x, y :|
        && IsCounter(r) && r.port in plan.ports && 0 <= x < MAX_LCORES && 0 <= y < MAX_LCORES
        && Uses(plan, main, timer, x, r) && Uses(plan, main, timer, y, r) && x != y;
      var i :| 0 <= i < |plan.ports| && plan.ports[i] == r.port;
      CounterUsers(plan, main, timer, i, r, x);
      CounterUsers(plan, main, timer, i, r, y);
      if !r.RxCounter? {
        PairAtFeeder(plan, i, Feeder(plan, i, r), r);
      }
    }
  }

  // ---- Which plans keep pairs together ----

  lemma PollerUnique(plan: Plan, i: nat, x: nat)
    requires plan.Valid() && i < |plan.ports| && x < MAX_LCORES
    requires Slots(plan.enabled, plan.q, x) <= i < Slots(plan.enabled, plan.q, x + 1)
    ensures plan.Poller(i) == x
  {
    var y := plan.Poller(i);
    if y < x {
      SlotsMonotone(plan.enabled, plan.q, y + 1, x);
    } else if x < y {
      SlotsMonotone(plan.enabled, plan.q, x + 1, y);
    }
  }

  lemma {:induction false} EvenSlots(enabled: seq<bool>, q: nat, k: nat)
    requires k <= |enabled| && q % 2 == 0
    ensures Slots(enabled, q, k) % 2 == 0
  {
    if k > 0 {
      EvenSlots(enabled, q, k - 1);
    }
  }

  lemma PartnerWithin(i: nat, n: nat, from: nat, to: nat)
    requires from % 2 == 0 && to % 2 == 0 && from <= i < to && i < n
    ensures from <= Partner(i, n) < to && Partner(i, n) < n
  {
  }

  lemma EvenKeepsPairs(plan: Plan, i: nat)
    requires plan.Valid() && i < |plan.ports| && plan.q % 2 == 0
    ensures plan.Poller(Partner(i, |plan.ports|)) == plan.Poller(i)
  {
    var x := plan.Poller(i);
    hide Slots;
    EvenSlots(plan.enabled, plan.q, x);
    EvenSlots(plan.enabled, plan.q, x + 1);
    PartnerWithin(i, |plan.ports|, Slots(plan.enabled, plan.q, x), Slots(plan.enabled, plan.q, x + 1));
    hide Partner;
    PollerUnique(plan, Partner(i, |plan.ports|), x);
  }

  /** The port at the end of the first lcore's list stays with the first lcore; the next is on
      another. */
  lemma FirstLcore(plan: Plan, i: nat, j: nat)
    requires plan.Valid() && i < |plan.ports| && j < |plan.ports| && i < plan.q
    ensures plan.Poller(i) == plan.Poller(j) <==> j < plan.q
  {
    var x := plan.Poller(i);
    SlotsAreMultiples(plan.enabled, plan.q, x);
    var c := Count(plan.enabled, x);
    assert c > 0 ==> plan.q * c >= plan.q;
    if j < plan.q {
      PollerUnique(plan, j, x);
    }
  }

  lemma NoGap(n: nat, d: nat, b: nat, r: nat, r': nat)
    requires b * n + r == b * d + r' && r < b && r' < b
    ensures n == d
  {
    ProductGrows(b, n + 1, d);
    ProductGrows(b, d + 1, n);
  }

  lemma QuotientIs(a: nat, b: nat, n: nat)
    requires b > 0 && b * n <= a < b * n + b
    ensures a / b == n
  {
    NoGap(n, a / b, b, a - b * n, a % b);
  }

  /** Each lcore in use polls `q` ports in a row, so port `i` is with lcore number `i / q`. */
  lemma PollerIff(plan: Plan, i: nat, j: nat)
    requires plan.Valid() && i < |plan.ports| && j < |plan.ports|
    ensures plan.Poller(i) == plan.Poller(j) <==> i / plan.q == j / plan.q
  {
    var x, y := plan.Poller(i), plan.Poller(j);
    SlotsAreMultiples(plan.enabled, plan.q, x);
    SlotsAreMultiples(plan.enabled, plan.q, y);
    QuotientIs(i, plan.q, Count(plan.enabled, x));
    QuotientIs(j, plan.q, Count(plan.enabled, y));
    if i / plan.q == j / plan.q {
      PollerUnique(plan, j, x);
    }
  }

  /** For any pairing: together exactly when paired ports fall into the same group of `q`
      consecutive enabled ports. */
  lemma PairsTogetherIff(plan: Plan)
    requires plan.Valid()
    ensures PairsTogether(plan) <==>
            forall i, j | 0 <= i < |plan.ports| && 0 <= j < |plan.ports| ::
              PairAt(plan, i, j) ==> i / plan.q == j / plan.q
  {
    forall i, j | 0 <= i < |plan.ports| && 0 <= j < |plan.ports|
      ensures plan.Poller(i) == plan.Poller(j) <==> i / plan.q == j / plan.q
    {
      PollerIff(plan, i, j);
    }
  }

  /** Under the default pairing: together exactly when the ports per lcore are even in number or
      one lcore takes them all. One port per lcore, the default, is neither. */
  lemma DefaultPairsTogetherIff(plan: Plan)
    requires plan.Valid() && LinksNeighbours(plan.dst, plan.ports)
    ensures PairsTogether(plan) <==> plan.q % 2 == 0 || |plan.ports| <= plan.q
  {
    var n := |plan.ports|;
    if plan.q % 2 == 0 || n <= plan.q {
      forall i, j | 0 <= i < n && 0 <= j < n
        ensures PairAt(plan, i, j) ==> plan.Poller(i) == plan.Poller(j)
      {
        if PairAt(plan, i, j) {
          assert j == Partner(i, n);
          if plan.q % 2 == 0 {
            EvenKeepsPairs(plan, i);
          } else {
            FirstLcore(plan, i, j);
          }
        }
      }
    } else {
      assert Partner(plan.q - 1, n) == plan.q;
      assert PairAt(plan, plan.q - 1, plan.q);
      FirstLcore(plan, plan.q - 1, plan.q);
    }
  }

  // ---- The throughput test's own variables ----

  /** Every main loop with ports reads and writes the start and end flags and times of the
      throughput test. */
  ghost predicate UsesTimes(plan: Plan, x: nat)
    requires plan.Valid() && x < MAX_LCORES
  {
    plan.conf[x] != []
  }

  lemma UsesTimesIff(plan: Plan, x: nat)
    requires plan.Valid() && x < MAX_LCORES
    ensures UsesTimes(plan, x) <==> exists i :: 0 <= i < |plan.ports| && plan.Poller(i) == x
  {
    if UsesTimes(plan, x) {
      var p := plan.conf[x][0];
      assert p in plan.conf[x] && p in plan.ports;
      var i :| 0 <= i < |plan.ports| && plan.ports[i] == p;
      PolledBy(plan, i, x);
    } else if i :| 0 <= i < |plan.ports| && plan.Poller(i) == x {
      PolledBy(plan, i, x);
    }
  }

  /** These variables are shared by two lcores, without locks, exactly when there are more ports
      than one lcore takes. */
  lemma TimesSharedIff(plan: Plan)
    requires plan.Valid()
    ensures (exists x, y :: 0 <= x < y < MAX_LCORES && UsesTimes(plan, x) && UsesTimes(plan, y))
            <==> |plan.ports| > plan.q
  {
    if |plan.ports| > plan.q {
      var x, y := plan.Poller(0), plan.Poller(plan.q);
      FirstLcore(plan, 0, plan.q);
      UsesTimesIff(plan, x);
      UsesTimesIff(plan, y);
      assert UsesTimes(plan, x) && UsesTimes(plan, y) && x != y;
      assert 0 <= (if x < y then x else y) < (if x < y then y else x) < MAX_LCORES;
    } else if x, y :| 0 <= x < y < MAX_LCORES && UsesTimes(plan, x) && UsesTimes(plan, y) {
      UsesTimesIff(plan, x);
      UsesTimesIff(plan, y);
      var i :| 0 <= i < |plan.ports| && plan.Poller(i) == x;
      var j :| 0 <= j < |plan.ports| && plan.Poller(j) == y;
      FirstLcore(plan, i, j);
    }
  }

  /** Ports 0 and 1, lcores 0 and 1, one port each. */
  ghost function TwoPortPlan(): Plan {
    var enabled := seq(MAX_LCORES, i => i < 2);
    Plan([0, 1], seq(MAX_PORTS, p => if p == 0 then 1 else 0), enabled, 1,
         seq(MAX_LCORES, x requires 0 <= x < MAX_LCORES => Share([0, 1], enabled, 1, x)))
  }

  lemma TwoPortPlanIsValid()
    ensures TwoPortPlan().Valid() && LinksNeighbours(TwoPortPlan().dst, TwoPortPlan().ports)
  {
    var plan := TwoPortPlan();
    assert Slots(plan.enabled, 1, 0) == 0 && Slots(plan.enabled, 1, 1) == 1 && Slots(plan.enabled, 1, 2) == 2;
    SlotsMonotone(plan.enabled, 1, 2, MAX_LCORES);
    assert Elements(plan.ports) == {0, 1};
    hide Slots, Share;
  }

  /** The default set-up of two ports on two lcores shares a counter between the lcores, even with
      the statistics timer off. */
  lemma TwoPortsShareACounter()
    ensures TwoPortPlan().Valid() && !CountersPrivate(TwoPortPlan(), 0, false)
  {
    TwoPortPlanIsValid();
    var plan := TwoPortPlan();
    DefaultPairsTogetherIff(plan);
    CountersPrivateIff(plan, 0, false);
  }

  /** ... and the flags and times of the throughput test. */
  lemma TwoPortsShareTheTimes()
    ensures TwoPortPlan().Valid()
    ensures exists x, y :: 0 <= x < y < MAX_LCORES && UsesTimes(TwoPortPlan(), x) && UsesTimes(TwoPortPlan(), y)
  {
    TwoPortPlanIsValid();
    TimesSharedIff(TwoPortPlan());
  }
}
