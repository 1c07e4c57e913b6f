/** Safety, conservation, draining and delivery order of the port adapter over whole
    runs. */
module PortRuns {
  import opened PortInvariants
  import opened PortProtocol
  import opened Results

  ghost predicate Inv(s: State) {
    Ledger(s) && PortsOk(s, -1) && Books(s)
  }

  lemma InitialInv(n: nat)
    ensures Inv(Initial(n))
  {
    forall addr ensures AddressOk(Initial(n), addr) {
    }
  }

  /** One event keeps the invariant; it fails an assert exactly when a peer refuses a
      response after having a write answered from inside the refused call. */
  lemma StepKeepsInv(s: State, e: Event)
    requires Inv(s) && Enabled(s, e)
    ensures Step(s, e).Ok? <==> Polite(s, e)
    ensures Step(s, e).Ok? ==> Inv(Step(s, e).value) && |Step(s, e).value.ports| == |s.ports|
  {
    match e
    case Request(a) =>
      ReceiveKeepsPorts(s, a, -1);
      ReceiveKeepsBooks(s, a);
    case SendEvent(p, accepts, during) =>
      SendStepExactly(s, e);
      SameBooks(s, Fired(s, p));
      if Step(s, e).Ok? {
        SendKeepsBooks(Fired(s, p), p, accepts, during);
      }
    case RespRetry(p, accepts, during) =>
      SendStepExactly(s, e);
      SameBooks(s, Retried(s, p));
      if Step(s, e).Ok? {
        SendKeepsBooks(Retried(s, p), p, accepts, during);
      }
    case ReadDone(i) =>
      CompleteReadKeepsBooks(s, i);
      ReadDoneKeepsPorts(s, i);
    case WriteDone(i) =>
      CompleteWriteKeepsBooks(s, i);
    case Tick(retries) =>
      RetryKeepsPorts(s, 0, retries);
      RetryKeepsBooks(s, 0, retries);
  }

  lemma ReadDoneKeepsPorts(s: State, i: nat)
    requires Ledger(s) && PortsOk(s, -1) && i < |s.inFlight| && s.inFlight[i].port < |s.ports|
    requires CompleteRead(s, i).Ok?
    ensures Ledger(CompleteRead(s, i).value) && PortsOk(CompleteRead(s, i).value, -1)
  {
    var f := s.inFlight[i];
    var packet, rest := s.pending[f.addr][0], s.pending[f.addr][1..];
    var left := if rest == [] then s.pending - {f.addr} else s.pending[f.addr := rest];
    AccessKeepsPorts(WithoutFlight(s, i).(pending := left, nbrReads := s.nbrReads - 1, answered := s.answered + [packet]), packet, f.port);
  }

  // ---- runs ----

  /** The state after a run, or the assert that stopped it. */
  function Run(s: State, events: seq<Event>): Result<State>
    decreases |events|
  {
    if events == [] then Ok(s)
    else if !Sized(s) || !Enabled(s, events[0]) then Err(BadArgument)
    else if Step(s, events[0]).Err? then Step(s, events[0])
    else Run(Step(s, events[0]).value, events[1..])
  }

  /** Every event is enabled, and polite, when its turn comes. */
  predicate PoliteRun(s: State, events: seq<Event>)
    decreases |events|
  {
    events == [] ||
    (Sized(s) && Enabled(s, events[0]) && Polite(s, events[0])
     && (Step(s, events[0]).Ok? ==> PoliteRun(Step(s, events[0]).value, events[1..])))
  }

  lemma {:induction false} RunFrom(s: State, events: seq<Event>)
    requires Inv(s) && PoliteRun(s, events)
    ensures Run(s, events).Ok? && Inv(Run(s, events).value) && |Run(s, events).value.ports| == |s.ports|
    decreases |events|
  {
    if events != [] {
      StepKeepsInv(s, events[0]);
      RunFrom(Step(s, events[0]).value, events[1..]);
    }
  }

  /** Over every run of polite events from the start no assert fails, and between any
      two events each port has something to send exactly when exactly one of "retry
      awaited" and "send scheduled" holds. */
  lemma NoAssertFails(n: nat, events: seq<Event>)
    requires PoliteRun(Initial(n), events)
    ensures Run(Initial(n), events).Ok?
    ensures var s := Run(Initial(n), events).value;
      forall p :: 0 <= p < |s.ports| ==> (s.ports[p].queue != [] <==> s.ports[p].retryResp != s.ports[p].scheduled)
  {
    InitialInv(n);
    RunFrom(Initial(n), events);
  }

  // ---- conservation ----

  /** Total size of the stored read queues. */
  ghost function StoredReads(pending: map<nat, seq<Packet>>): nat
    decreases |pending|
  {
    if pending == map[] then 0
    else
      var addr :| addr in pending;
      |pending[addr]| + StoredReads(pending - {addr})
  }

  lemma {:induction false} StoredReadsSplit(pending: map<nat, seq<Packet>>, addr: nat)
    requires addr in pending
    ensures StoredReads(pending) == |pending[addr]| + StoredReads(pending - {addr})
    decreases |pending|
  {
    var first :| first in pending && StoredReads(pending) == |pending[first]| + StoredReads(pending - {first});
    if first != addr {
      StoredReadsSplit(pending - {first}, addr);
      StoredReadsSplit(pending - {addr}, first);
      assert pending - {first} - {addr} == pending - {addr} - {first};
    }
  }

  ghost predicate Balanced(flights: seq<Flight>, pending: map<nat, seq<Packet>>) {
    && (forall addr :: |Get(pending, addr)| == Tally(ReadAt(addr), flights))
    && (forall addr :: addr in pending ==> pending[addr] != [])
  }

  lemma WithoutLast(flights: seq<Flight>, pending: map<nat, seq<Packet>>, shorter: map<nat, seq<Packet>>)
    requires flights != [] && Balanced(flights, pending)
    requires var x := flights[|flights| - 1];
      shorter == if !x.isRead then pending
                 else if |Get(pending, x.addr)| == 1 then pending - {x.addr}
                 else pending[x.addr := Get(pending, x.addr)[..|Get(pending, x.addr)| - 1]]
    ensures Balanced(flights[..|flights| - 1], shorter)
  {
    forall addr ensures |Get(shorter, addr)| == Tally(ReadAt(addr), flights[..|flights| - 1]) {
      assert |Get(pending, addr)| == Tally(ReadAt(addr), flights);
    }
  }

  /** When every address stores as many packets as it has reads in flight, the totals
      agree too. */
  lemma {:induction false} BalancedTotals(flights: seq<Flight>, pending: map<nat, seq<Packet>>)
    requires Balanced(flights, pending)
    ensures StoredReads(pending) == Tally(AnyRead(), flights)
    decreases |flights|
  {
    if flights == [] {
      assert forall addr :: addr in pending ==> |Get(pending, addr)| == Tally(ReadAt(addr), flights);
      if pending != map[] {
          assert false;
      }
    } else {
      var x := flights[|flights| - 1];
      if x.isRead {
        assert |Get(pending, x.addr)| == Tally(ReadAt(x.addr), flights);
        var queue := pending[x.addr];
        var shorter := if |queue| == 1 then pending - {x.addr} else pending[x.addr := queue[..|queue| - 1]];
        WithoutLast(flights, pending, shorter);
        BalancedTotals(flights[..|flights| - 1], shorter);
        StoredReadsSplit(pending, x.addr);
        if |queue| != 1 {
          StoredReadsSplit(shorter, x.addr);
          assert shorter - {x.addr} == pending - {x.addr};
        }
      } else {
        WithoutLast(flights, pending, pending);
        BalancedTotals(flights[..|flights| - 1], pending);
      }
    }
  }

  /** In every reachable state the read counter is the total size of the stored queues,
      no stored queue is empty, and no counter has gone below zero. */
  lemma ReadsConserved(n: nat, events: seq<Event>)
    requires PoliteRun(Initial(n), events)
    ensures Run(Initial(n), events).Ok?
    ensures var s := Run(Initial(n), events).value;
      && s.nbrReads == StoredReads(s.pending) && s.nbrReads >= 0 && s.nbrWrites >= 0
      && forall addr :: addr in s.pending ==> s.pending[addr] != []
  {
    InitialInv(n);
    RunFrom(Initial(n), events);
    var s := Run(Initial(n), events).value;
    forall addr ensures |Get(s.pending, addr)| == Tally(ReadAt(addr), s.inFlight) && (addr in s.pending ==> s.pending[addr] != []) {
      assert AddressOk(s, addr);
    }
    BalancedTotals(s.inFlight, s.pending);
  }

  // ---- draining ----

  lemma {:induction false} QueueTotalUpdate(ports: seq<Port>, p: nat, q: Port)
    requires p < |ports|
    ensures QueueTotal(ports[p := q]) == QueueTotal(ports) - |ports[p].queue| + |q.queue|
    decreases |ports|
  {
    var n := |ports| - 1;
    if p < n {
      QueueTotalUpdate(ports[..n], p, q);
      assert ports[p := q][..n] == ports[..n][p := q];
    } else {
      assert ports[p := q][..n] == ports[..n];
    }
  }

  lemma AccessOutstanding(s: State, packet: Packet, p: nat)
    requires Sized(s) && p < |s.ports|
    ensures Outstanding(Access(s, packet, p)) == Outstanding(s) + if packet.needsResponse then 1 else 0
    ensures Access(s, packet, p).signals == s.signals
  {
    if packet.needsResponse {
      QueueTotalUpdate(s.ports, p, Access(s, packet, p).ports[p]);
    }
  }

  lemma ReceiveGrows(s: State, a: Arrival)
    requires Sized(s) && Proper(a, |s.ports|)
    ensures Outstanding(Receive(s, a)) >= Outstanding(s) && Receive(s, a).signals == s.signals
  {
    if s.ports[a.port].retryReq {
    } else if !a.accepted {
      QueueTotalUpdate(s.ports, a.port, Refuse(s, a.port).ports[a.port]);
    } else if !a.packet.isRead {
      AccessOutstanding(s, a.packet, a.port);
    }
  }

  lemma {:induction false} ReceiveAllGrows(s: State, arrivals: seq<Arrival>)
    requires Sized(s) && InRange(arrivals, |s.ports|)
    ensures Outstanding(ReceiveAll(s, arrivals)) >= Outstanding(s) && ReceiveAll(s, arrivals).signals == s.signals
    decreases |arrivals|
  {
    if arrivals != [] {
      ReceiveGrows(s, arrivals[0]);
      ReceiveAllGrows(Receive(s, arrivals[0]), arrivals[1..]);
    }
  }

  lemma {:induction false} RetryGrows(s: State, p: nat, retries: seq<seq<Arrival>>)
    requires Sized(s) && p <= |s.ports| == |retries| && forall i :: 0 <= i < |retries| ==> InRange(retries[i], |s.ports|)
    ensures Outstanding(RetryFrom(s, p, retries)) >= Outstanding(s) && RetryFrom(s, p, retries).signals == s.signals
    decreases |s.ports| - p
  {
    if p < |s.ports| {
      if s.ports[p].retryReq {
        var cleared := s.(ports := s.ports[p := s.ports[p].(retryReq := false)]);
        QueueTotalUpdate(s.ports, p, cleared.ports[p]);
        ReceiveAllGrows(cleared, retries[p]);
        RetryGrows(ReceiveAll(cleared, retries[p]), p + 1, retries);
      } else {
        RetryGrows(s, p + 1, retries);
      }
    }
  }

  lemma SendSignals(s: State, p: nat, accepts: bool, during: seq<Arrival>)
    requires Sized(s) && p < |s.ports| && InRange(during, |s.ports|) && SendResponse(s, p, accepts, during).Ok?
    ensures var t := SendResponse(s, p, accepts, during).value;
      (Outstanding(s) > 0 && Outstanding(t) == 0 ==> t.signals > s.signals)
      && (t.signals > s.signals ==> Outstanding(t) == 0) && t.signals >= s.signals
  {
    ReceiveAllGrows(s, during);
    var called := ReceiveAll(s, during);
    if !accepts {
      QueueTotalUpdate(called.ports, p, Stalled(called, p).ports[p]);
    }
  }

  /** The packet a completing read answers. */
  function Answered(s: State, i: nat): Packet
    requires i < |s.inFlight| && Get(s.pending, s.inFlight[i].addr) != []
  {
    s.pending[s.inFlight[i].addr][0]
  }

  /** A read whose packet expects no response leaves no later event to signal with. */
  predicate SilentRead(s: State, e: Event)
    requires Sized(s) && Enabled(s, e)
  {
    e.ReadDone? && Get(s.pending, s.inFlight[e.index].addr) != [] && !Answered(s, e.index).needsResponse
  }

  /** A step that brings the outstanding count from positive to zero signals that
      draining is done, exactly unless it completes a read that expects no response. */
  lemma DrainSignalledExactly(s: State, e: Event)
    requires Inv(s) && Enabled(s, e) && Polite(s, e)
    ensures Step(s, e).Ok?
    ensures Outstanding(s) > 0 && Outstanding(Step(s, e).value) == 0 ==>
      (Step(s, e).value.signals > s.signals <==> !SilentRead(s, e))
  {
    StepKeepsInv(s, e);
    match e
    case Request(a) => ReceiveGrows(s, a);
    case SendEvent(p, accepts, during) =>
      QueueTotalUpdate(s.ports, p, Fired(s, p).ports[p]);
      SendSignals(Fired(s, p), p, accepts, during);
    case RespRetry(p, accepts, during) =>
      QueueTotalUpdate(s.ports, p, Retried(s, p).ports[p]);
      SendSignals(Retried(s, p), p, accepts, during);
    case ReadDone(i) => ReadSignals(s, i);
    case WriteDone(i) =>
    case Tick(retries) => RetryGrows(s, 0, retries);
  }

  lemma ReadSignals(s: State, i: nat)
    requires Inv(s) && i < |s.inFlight| && s.inFlight[i].isRead && s.inFlight[i].port < |s.ports|
    ensures CompleteRead(s, i).Ok? && Get(s.pending, s.inFlight[i].addr) != []
    ensures CompleteRead(s, i).value.signals == s.signals
    ensures Outstanding(CompleteRead(s, i).value) == Outstanding(s) - if Answered(s, i).needsResponse then 0 else 1
  {
    ReadFound(s, i);
    var f := s.inFlight[i];
    var packet, rest := s.pending[f.addr][0], s.pending[f.addr][1..];
    var left := if rest == [] then s.pending - {f.addr} else s.pending[f.addr := rest];
    AccessOutstanding(WithoutFlight(s, i).(pending := left, nbrReads := s.nbrReads - 1, answered := s.answered + [packet]), packet, f.port);
  }

  /** A single read that expects no response drains the adapter without a signal. */
  lemma SilentReadExample()
    ensures var read := Packet(0, 64, true, false, 0);
      var events := [Request(Arrival(0, read, true)), ReadDone(0)];
      && PoliteRun(Initial(1), events) && Run(Initial(1), events).Ok?
      && Outstanding(Receive(Initial(1), events[0].arrival)) == 1
      && Outstanding(Run(Initial(1), events).value) == 0 && Run(Initial(1), events).value.signals == 0
  {
    var read := Packet(0, 64, true, false, 0);
    var e := Request(Arrival(0, read, true));
    var s := Receive(Initial(1), e.arrival);
    assert Get(map[], 64) + [read] == [read] && Enabled(Initial(1), e) && Step(Initial(1), e) == Ok(s);
    assert s.inFlight == [Flight(true, 64, 0)] && s.pending == map[64 := [read]];
    var t := CompleteRead(s, 0).value;
    assert [e, ReadDone(0)][1..] == [ReadDone(0)] && [ReadDone(0)][1..] == [];
    assert QueueTotal(s.ports) == 0 && QueueTotal(t.ports) == 0;
  }

  // ---- delivery order ----

  /** On every port, what was sent followed by what waits is what was queued, in order:
      refusals and retries neither reorder, drop nor repeat a response. */
  lemma SentInQueueOrder(n: nat, events: seq<Event>, p: nat)
    requires PoliteRun(Initial(n), events) && p < n
    ensures Run(Initial(n), events).Ok?
    ensures var s := Run(Initial(n), events).value;
      |s.ports| == |s.queued| == |s.sent| == n && s.queued[p] == s.sent[p] + s.ports[p].queue
  {
    InitialInv(n);
    RunFrom(Initial(n), events);
  }

  /** Reads of one address are answered in the order in which they arrived, whatever
      order the memory system completes them in. */
  lemma ReadsAnsweredInOrder(n: nat, events: seq<Event>, addr: nat)
    requires PoliteRun(Initial(n), events)
    ensures Run(Initial(n), events).Ok?
    ensures var s := Run(Initial(n), events).value;
      OfAddress(s.answered, addr) <= OfAddress(s.asked, addr)
  {
    InitialInv(n);
    RunFrom(Initial(n), events);
    assert AddressOk(Run(Initial(n), events).value, addr);
  }

  // ---- the port a response goes to ----

  /** Reads of an address arrive on the one port `portOf` gives it. */
  predicate RoutedArrival(a: Arrival, portOf: nat -> nat) {
    a.packet.isRead ==> a.port == portOf(a.packet.addr)
  }

  predicate Routed(arrivals: seq<Arrival>, portOf: nat -> nat) {
    forall i :: 0 <= i < |arrivals| ==> RoutedArrival(arrivals[i], portOf)
  }

  predicate RoutedEvent(e: Event, portOf: nat -> nat) {
    match e
    case Request(a) => RoutedArrival(a, portOf)
    case SendEvent(_, _, during) => Routed(during, portOf)
    case RespRetry(_, _, during) => Routed(during, portOf)
    case Tick(retries) => forall i :: 0 <= i < |retries| ==> Routed(retries[i], portOf)
    case _ => true
  }

  predicate QueueOwn(packets: seq<Packet>, port: nat) {
    forall k :: 0 <= k < |packets| ==> packets[k].origin == port
  }

  /** Every response queued so far is on the port its packet arrived on; stored reads
      and reads in flight belong to the port of their address. */
  ghost predicate OnOwnPort(s: State, portOf: nat -> nat) {
    && Sized(s)
    && (forall p :: 0 <= p < |s.queued| ==> QueueOwn(s.queued[p], p))
    && (forall addr :: addr in s.pending ==> QueueOwn(s.pending[addr], portOf(addr)))
    && (forall i :: 0 <= i < |s.inFlight| && s.inFlight[i].isRead ==> s.inFlight[i].port == portOf(s.inFlight[i].addr))
  }

  lemma AccessOwn(s: State, packet: Packet, p: nat, portOf: nat -> nat)
    requires OnOwnPort(s, portOf) && p < |s.ports| && packet.origin == p
    ensures OnOwnPort(Access(s, packet, p), portOf)
  {
  }

  lemma ReceiveOwn(s: State, a: Arrival, portOf: nat -> nat)
    requires OnOwnPort(s, portOf) && Proper(a, |s.ports|) && RoutedArrival(a, portOf)
    ensures OnOwnPort(Receive(s, a), portOf)
  {
    if !s.ports[a.port].retryReq && a.accepted && !a.packet.isRead {
      AccessOwn(s, a.packet, a.port, portOf);
    }
  }

  lemma {:induction false} ReceiveAllOwn(s: State, arrivals: seq<Arrival>, portOf: nat -> nat)
    requires OnOwnPort(s, portOf) && InRange(arrivals, |s.ports|) && Routed(arrivals, portOf)
    ensures OnOwnPort(ReceiveAll(s, arrivals), portOf)
    decreases |arrivals|
  {
    if arrivals != [] {
      ReceiveOwn(s, arrivals[0], portOf);
      ReceiveAllOwn(Receive(s, arrivals[0]), arrivals[1..], portOf);
    }
  }

  lemma {:induction false} RetryOwn(s: State, p: nat, retries: seq<seq<Arrival>>, portOf: nat -> nat)
    requires OnOwnPort(s, portOf) && p <= |s.ports| == |retries|
    requires forall i :: 0 <= i < |retries| ==> InRange(retries[i], |s.ports|) && Routed(retries[i], portOf)
    ensures OnOwnPort(RetryFrom(s, p, retries), portOf)
    decreases |s.ports| - p
  {
    if p < |s.ports| {
      if s.ports[p].retryReq {
        var cleared := s.(ports := s.ports[p := s.ports[p].(retryReq := false)]);
        ReceiveAllOwn(cleared, retries[p], portOf);
        RetryOwn(ReceiveAll(cleared, retries[p]), p + 1, retries, portOf);
      } else {
        RetryOwn(s, p + 1, retries, portOf);
      }
    }
  }

  lemma ReadDoneOwn(s: State, i: nat, portOf: nat -> nat)
    requires OnOwnPort(s, portOf) && i < |s.inFlight| && s.inFlight[i].isRead && s.inFlight[i].port < |s.ports|
    requires CompleteRead(s, i).Ok?
    ensures OnOwnPort(CompleteRead(s, i).value, portOf)
  {
    var f := s.inFlight[i];
    var packet, rest := s.pending[f.addr][0], s.pending[f.addr][1..];
    var left := if rest == [] then s.pending - {f.addr} else s.pending[f.addr := rest];
    var answered := WithoutFlight(s, i).(pending := left, nbrReads := s.nbrReads - 1, answered := s.answered + [packet]);
    assert OnOwnPort(answered, portOf);
    AccessOwn(answered, packet, f.port, portOf);
  }

  lemma SendOwn(s: State, p: nat, accepts: bool, during: seq<Arrival>, portOf: nat -> nat)
    requires OnOwnPort(s, portOf) && p < |s.ports| && InRange(during, |s.ports|) && Routed(during, portOf)
    requires SendResponse(s, p, accepts, during).Ok?
    ensures OnOwnPort(SendResponse(s, p, accepts, during).value, portOf)
  {
    ReceiveAllOwn(s, during, portOf);
  }

  lemma StepOwn(s: State, e: Event, portOf: nat -> nat)
    requires OnOwnPort(s, portOf) && Enabled(s, e) && RoutedEvent(e, portOf) && Step(s, e).Ok?
    ensures OnOwnPort(Step(s, e).value, portOf)
  {
    match e
    case Request(a) => ReceiveOwn(s, a, portOf);
    case SendEvent(p, accepts, during) => SendOwn(Fired(s, p), p, accepts, during, portOf);
    case RespRetry(p, accepts, during) => SendOwn(Retried(s, p), p, accepts, during, portOf);
    case ReadDone(i) => ReadDoneOwn(s, i, portOf);
    case WriteDone(i) =>
    case Tick(retries) => RetryOwn(s, 0, retries, portOf);
  }

  lemma {:induction false} RunOwn(s: State, events: seq<Event>, portOf: nat -> nat)
    requires Inv(s) && OnOwnPort(s, portOf) && PoliteRun(s, events)
    requires forall i :: 0 <= i < |events| ==> RoutedEvent(events[i], portOf)
    ensures Run(s, events).Ok? && OnOwnPort(Run(s, events).value, portOf)
    decreases |events|
  {
    if events != [] {
      StepKeepsInv(s, events[0]);
      StepOwn(s, events[0], portOf);
      RunOwn(Step(s, events[0]).value, events[1..], portOf);
    }
  }

  /** When every address is read through one port, each response is queued on the port
      its packet arrived on. */
  lemma ResponsesOnOwnPort(n: nat, events: seq<Event>, portOf: nat -> nat)
    requires PoliteRun(Initial(n), events)
    requires forall i :: 0 <= i < |events| ==> RoutedEvent(events[i], portOf)
    ensures Run(Initial(n), events).Ok? && |Run(Initial(n), events).value.queued| == n
    ensures AllQueuesOwn(Run(Initial(n), events).value)
  {
    InitialInv(n);
    RunFrom(Initial(n), events);
    RunOwn(Initial(n), events, portOf);
  }

  predicate AllQueuesOwn(s: State) {
    forall p :: 0 <= p < |s.queued| ==> QueueOwn(s.queued[p], p)
  }

  /** `mayRead(p, addr)`: reads of `addr` may arrive on port `p`. */
  predicate Served(a: Arrival, n: nat, mayRead: (nat, nat) -> bool) {
    a.port < n && (a.packet.isRead ==> mayRead(a.port, a.packet.addr))
  }

  predicate AllServed(arrivals: seq<Arrival>, n: nat, mayRead: (nat, nat) -> bool) {
    forall i :: 0 <= i < |arrivals| ==> Served(arrivals[i], n, mayRead)
  }

  predicate ServedEvent(e: Event, n: nat, mayRead: (nat, nat) -> bool) {
    match e
    case Request(a) => Served(a, n, mayRead)
    case SendEvent(_, _, during) => AllServed(during, n, mayRead)
    case RespRetry(_, _, during) => AllServed(during, n, mayRead)
    case Tick(retries) => forall i :: 0 <= i < |retries| ==> AllServed(retries[i], n, mayRead)
    case _ => true
  }

  predicate ServedRun(n: nat, events: seq<Event>, mayRead: (nat, nat) -> bool) {
    PoliteRun(Initial(n), events) && forall i :: 0 <= i < |events| ==> ServedEvent(events[i], n, mayRead)
  }

  /** No run over `n` ports ever answers on a port the packet did not arrive on. */
  ghost predicate NeverMisroutes(n: nat, mayRead: (nat, nat) -> bool) {
    forall events :: ServedRun(n, events, mayRead) && Run(Initial(n), events).Ok?
                     ==> AllQueuesOwn(Run(Initial(n), events).value)
  }

  ghost predicate OneReader(n: nat, mayRead: (nat, nat) -> bool) {
    forall p: nat, q: nat, addr: nat :: p < n && q < n && mayRead(p, addr) && mayRead(q, addr) ==> p == q
  }

  /** The port that may read an address, if there is one. */
  ghost function ReaderOf(n: nat, mayRead: (nat, nat) -> bool, addr: nat): nat {
    if p: nat :| p < n && mayRead(p, addr) then p else 0
  }

  lemma ServedIsRouted(e: Event, n: nat, mayRead: (nat, nat) -> bool)
    requires OneReader(n, mayRead) && ServedEvent(e, n, mayRead)
    ensures RoutedEvent(e, addr => ReaderOf(n, mayRead, addr))
  {
  }

  /** The shortest run that misroutes: one address read on two ports, the later request
      completed first.  It answers with the other port's packet. */
  function SharedRun(p: nat, q: nat, addr: nat): seq<Event> {
    [Request(Arrival(p, Packet(0, addr, true, true, p), true)),
     Request(Arrival(q, Packet(1, addr, true, true, q), true)),
     ReadDone(1)]
  }

  lemma RunStep(s: State, e: Event, rest: seq<Event>)
    requires Sized(s) && Enabled(s, e) && Polite(s, e) && Step(s, e).Ok?
    ensures Run(s, [e] + rest) == Run(Step(s, e).value, rest)
    ensures PoliteRun(s, [e] + rest) <==> PoliteRun(Step(s, e).value, rest)
  {
    assert ([e] + rest)[1..] == rest;
  }

  /** Both reads have been accepted. */
  lemma BothReading(n: nat, first: Packet, second: Packet) returns (two: State)
    requires first.isRead && second.isRead && first.addr == second.addr
    requires first.origin < n && second.origin < n && first.origin != second.origin
    ensures two == Receive(Receive(Initial(n), Arrival(first.origin, first, true)), Arrival(second.origin, second, true))
    ensures |two.ports| == n && Sized(two) && two.queued == Initial(n).queued
    ensures two.inFlight == [Flight(true, first.addr, first.origin), Flight(true, first.addr, second.origin)]
    ensures Get(two.pending, first.addr) == [first, second]
  {
    var one := Receive(Initial(n), Arrival(first.origin, first, true));
    assert Get(one.pending, first.addr) == [first];
    two := Receive(one, Arrival(second.origin, second, true));
  }

  lemma SharedAddressMisroutes(n: nat, p: nat, q: nat, addr: nat)
    requires p < n && q < n && p != q
    ensures PoliteRun(Initial(n), SharedRun(p, q, addr)) && Run(Initial(n), SharedRun(p, q, addr)).Ok?
    ensures var s := Run(Initial(n), SharedRun(p, q, addr)).value;
      |s.queued| == n && s.queued[q] == [Packet(0, addr, true, true, p)]
  {
    var first, second := Packet(0, addr, true, true, p), Packet(1, addr, true, true, q);
    var e0, e1, e2 := Request(Arrival(p, first, true)), Request(Arrival(q, second, true)), ReadDone(1);
    var two := BothReading(n, first, second);
    RunStep(Initial(n), e0, [e1, e2]);
    RunStep(Receive(Initial(n), e0.arrival), e1, [e2]);
    var done := CompleteRead(two, 1).value;
    assert done.queued[q] == [] + [first];
    RunStep(two, e2, []);
    assert SharedRun(p, q, addr) == [e0] + [e1, e2] && [e1, e2] == [e1] + [e2] && [e2] == [e2] + [];
  }

  /** Over all runs every response is queued on the port its packet arrived on if and
      only if no address may be read through two ports. */
  lemma OwnPortExactly(n: nat, mayRead: (nat, nat) -> bool)
    ensures NeverMisroutes(n, mayRead) <==> OneReader(n, mayRead)
  {
    if OneReader(n, mayRead) {
      forall events | ServedRun(n, events, mayRead)
        ensures Run(Initial(n), events).Ok? && AllQueuesOwn(Run(Initial(n), events).value)
      {
        forall i | 0 <= i < |events|
          ensures RoutedEvent(events[i], addr => ReaderOf(n, mayRead, addr))
        {
          ServedIsRouted(events[i], n, mayRead);
        }
        ResponsesOnOwnPort(n, events, addr => ReaderOf(n, mayRead, addr));
      }
    } else {
      var p: nat, q: nat, addr: nat :| p < n && q < n && mayRead(p, addr) && mayRead(q, addr) && p != q;
      SharedAddressMisroutes(n, p, q, addr);
      SharedRunServed(n, p, q, addr, mayRead);
      var s := Run(Initial(n), SharedRun(p, q, addr)).value;
      assert s.queued[q][0].origin == p;
      assert !AllQueuesOwn(s) by { assert !QueueOwn(s.queued[q], q); }
    }
  }

  lemma SharedRunServed(n: nat, p: nat, q: nat, addr: nat, mayRead: (nat, nat) -> bool)
    requires p < n && q < n && p != q && mayRead(p, addr) && mayRead(q, addr)
    ensures ServedRun(n, SharedRun(p, q, addr), mayRead)
  {
    SharedAddressMisroutes(n, p, q, addr);
  }
}
