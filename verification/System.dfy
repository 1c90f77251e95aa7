/** Where packets can be while the pipeline runs, and the atomic hand-offs between those places.

    The places are generic in what is moved: the ownership argument moves buffer numbers,
    the forwarding argument moves packets. The receive rings and return rings of worker `w`
    form, with its local arrays, lane `w`; the I/O lcore owns `received`, `collected`,
    `trash` and the per-port send groups.
  */
module System {
  import opened Traffic

  const RING_USABLE := 65535   // a ring of RING_SIZE slots holds one element less

  datatype Lane<T> = Lane(rxRing: seq<T>, pkts: seq<T>, encrypted: seq<T>, trash: seq<T>, retRing: seq<T>)

  datatype Port<T> = Port(nicRx: seq<T>, group: seq<T>, nicTx: seq<T>)

  datatype Sys<T> = Sys(lanes: seq<Lane<T>>, ports: seq<Port<T>>,
                        received: seq<T>, collected: seq<T>, trash: seq<T>)

  function Empty<T>(w: nat, p: nat): Sys<T> {
    Sys(seq(w, _ => Lane([], [], [], [], [])), seq(p, _ => Port([], [], [])), [], [], [])
  }

  /** One atomic hand-off. Counts are how much of a batch is taken or accepted. */
  datatype Move =
    | RxBurst(p: nat, n: nat)
    | Dispatch(w: nat, k: nat)
    | Collect(w: nat, n: nat)
    | GroupTo(d: nat)
    | Send(p: nat, k: nat)
    | IoFree
    | Dequeue(w: nat, n: nat)
    | Consume(w: nat)
    | Forward(w: nat)
    | Enqueue(w: nat, k: nat)
    | WorkerFree(w: nat)
    | TxDone(p: nat)

  predicate NoGroups<T>(s: Sys<T>) {
    forall p | 0 <= p < |s.ports| :: s.ports[p].group == []
  }

  predicate IoAtHead<T>(s: Sys<T>) {
    s.received == [] && s.collected == [] && s.trash == [] && NoGroups(s)
  }

  predicate LaneAtHead<T>(l: Lane<T>) {
    l.pkts == [] && l.encrypted == [] && l.trash == []
  }

  predicate Can<T>(s: Sys<T>, m: Move) {
    match m
    case RxBurst(p, n) =>
      IoAtHead(s) && p < |s.ports| && 1 <= n <= BURST && n <= |s.ports[p].nicRx|
    case Dispatch(w, k) =>
      s.received != [] && s.trash == [] && w < |s.lanes|
      && k <= |s.received| && |s.lanes[w].rxRing| + k <= RING_USABLE
    case Collect(w, n) =>
      IoAtHead(s) && w < |s.lanes| && 1 <= n <= BURST && n <= |s.lanes[w].retRing|
    case GroupTo(d) =>
      s.collected != [] && s.trash == []
    case Send(p, k) =>
      s.collected == [] && s.trash == [] && p < |s.ports| && s.ports[p].group != []
      && k <= |s.ports[p].group|
      && forall r | 0 <= r < p :: s.ports[r].group == []
    case IoFree => s.trash != []
    case Dequeue(w, n) =>
      w < |s.lanes| && LaneAtHead(s.lanes[w]) && 1 <= n <= BURST && n <= |s.lanes[w].rxRing|
    case Consume(w) =>
      w < |s.lanes| && s.lanes[w].pkts != [] && s.lanes[w].trash == []
    case Forward(w) =>
      w < |s.lanes| && s.lanes[w].pkts != [] && s.lanes[w].trash == []
    case Enqueue(w, k) =>
      w < |s.lanes| && s.lanes[w].pkts == [] && s.lanes[w].encrypted != [] && s.lanes[w].trash == []
      && k <= |s.lanes[w].encrypted| && |s.lanes[w].retRing| + k <= RING_USABLE
    case WorkerFree(w) =>
      w < |s.lanes| && s.lanes[w].trash != []
    case TxDone(p) =>
      p < |s.ports| && s.ports[p].nicTx != []
  }

  /** The group of port `d` takes another packet: it exists and is not full. */
  predicate Groupable<T>(s: Sys<T>, d: nat) {
    d < |s.ports| && |s.ports[d].group| < BURST
  }

  function Do<T>(s: Sys<T>, m: Move): Sys<T>
    requires Can(s, m)
  {
    match m
    case RxBurst(p, n) =>
      var port := s.ports[p];
      s.(ports := s.ports[p := port.(nicRx := port.nicRx[n..])], received := port.nicRx[..n])
    case Dispatch(w, k) =>
      var lane := s.lanes[w];
      s.(lanes := s.lanes[w := lane.(rxRing := lane.rxRing + s.received[..k])],
         received := [], trash := s.received[k..])
    case Collect(w, n) =>
      var lane := s.lanes[w];
      s.(lanes := s.lanes[w := lane.(retRing := lane.retRing[n..])], collected := lane.retRing[..n])
    case GroupTo(d) =>
      var head := s.collected[..1];
      if Groupable(s, d) then
        var port := s.ports[d];
        s.(collected := s.collected[1..], ports := s.ports[d := port.(group := port.group + head)])
      else
        s.(collected := s.collected[1..], trash := head)
    case Send(p, k) =>
      var port := s.ports[p];
      s.(ports := s.ports[p := port.(group := [], nicTx := port.nicTx + port.group[..k])],
         trash := port.group[k..])
    case IoFree => s.(trash := s.trash[1..])
    case Dequeue(w, n) =>
      var lane := s.lanes[w];
      s.(lanes := s.lanes[w := lane.(rxRing := lane.rxRing[n..], pkts := lane.rxRing[..n])])
    case Consume(w) =>
      var lane := s.lanes[w];
      s.(lanes := s.lanes[w := lane.(pkts := lane.pkts[1..], trash := lane.pkts[..1])])
    case Forward(w) =>
      var lane := s.lanes[w];
      s.(lanes := s.lanes[w := lane.(pkts := lane.pkts[1..], encrypted := lane.encrypted + lane.pkts[..1])])
    case Enqueue(w, k) =>
      var lane := s.lanes[w];
      s.(lanes := s.lanes[w := lane.(encrypted := [], retRing := lane.retRing + lane.encrypted[..k],
                                     trash := lane.encrypted[k..])])
    case WorkerFree(w) =>
      var lane := s.lanes[w];
      s.(lanes := s.lanes[w := lane.(trash := lane.trash[1..])])
    case TxDone(p) =>
      var port := s.ports[p];
      s.(ports := s.ports[p := port.(nicTx := port.nicTx[1..])])
  }

  /** A frame arrives on port `p`. */
  function Arrive<T>(s: Sys<T>, p: nat, x: T): Sys<T>
    requires p < |s.ports|
  {
    s.(ports := s.ports[p := s.ports[p].(nicRx := s.ports[p].nicRx + [x])])
  }

  /** What a move hands back to the buffer pool. */
  function Freed<T>(s: Sys<T>, m: Move): seq<T>
    requires Can(s, m)
  {
    match m
    case IoFree => s.trash[..1]
    case WorkerFree(w) => s.lanes[w].trash[..1]
    case TxDone(p) => s.ports[p].nicTx[..1]
    case _ => []
  }
}
