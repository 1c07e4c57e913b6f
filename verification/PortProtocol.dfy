/** The gem5 port adapter as a state machine: what each event does to the adapter, with
    the environment (peers, memory system, event queue) as parameters of the event. */
module PortProtocol {
  import opened Results

  /** `origin` is the port the packet arrived on. */
  datatype Packet = Packet(id: int, addr: nat, isRead: bool, needsResponse: bool, origin: nat)

  /** A request the peer sends, and whether the memory system takes it. */
  datatype Arrival = Arrival(port: nat, packet: Packet, accepted: bool)

  /** A request inside the memory system, with the port its callback captured. */
  datatype Flight = Flight(isRead: bool, addr: nat, port: nat)

  datatype Port = Port(retryReq: bool, retryResp: bool, queue: seq<Packet>, scheduled: bool)

  /** The adapter's fields, the requests in flight, and what happened so far: packets
      queued and sent on each port, reads accepted and answered, response retries the
      peers owe. */
  datatype State = State(
    ports: seq<Port>,
    pending: map<nat, seq<Packet>>,
    nbrReads: int,
    nbrWrites: int,
    signals: int,
    inFlight: seq<Flight>,
    queued: seq<seq<Packet>>,
    sent: seq<seq<Packet>>,
    asked: seq<Packet>,
    answered: seq<Packet>,
    owed: seq<bool>)

  datatype Event =
    | Request(arrival: Arrival)
    | SendEvent(port: nat, accepts: bool, during: seq<Arrival>)
    | RespRetry(port: nat, accepts: bool, during: seq<Arrival>)
    | ReadDone(index: nat)
    | WriteDone(index: nat)
    | Tick(retries: seq<seq<Arrival>>)

  function Initial(n: nat): State {
    State(seq(n, _ => Port(false, false, [], false)), map[], 0, 0, 0, [],
          seq(n, _ => []), seq(n, _ => []), [], [], seq(n, _ => false))
  }

  // ---- the methods ----

  function QueueTotal(ports: seq<Port>): nat
    decreases |ports|
  {
    if ports == [] then 0 else QueueTotal(ports[..|ports| - 1]) + |ports[|ports| - 1].queue|
  }

  /** `nbrOutstanding`. */
  function Outstanding(s: State): int {
    s.nbrReads + s.nbrWrites + QueueTotal(s.ports)
  }

  /** `accessAndRespond`: queue a response, and schedule a send unless one is pending. */
  function Access(s: State, packet: Packet, p: nat): State
    requires p < |s.ports| == |s.queued|
  {
    if !packet.needsResponse then s
    else
      var port := s.ports[p];
      s.(ports := s.ports[p := port.(queue := port.queue + [packet], scheduled := port.scheduled || !port.retryResp)],
         queued := s.queued[p := s.queued[p] + [packet]])
  }

  function Get(pending: map<nat, seq<Packet>>, addr: nat): seq<Packet> {
    if addr in pending then pending[addr] else []
  }

  function Refuse(s: State, p: nat): State
    requires p < |s.ports|
  {
    s.(ports := s.ports[p := s.ports[p].(retryReq := true)])
  }

  /** `recvTimingReq`. */
  function Receive(s: State, a: Arrival): State
    requires a.port < |s.ports| == |s.queued|
  {
    var flight := Flight(a.packet.isRead, a.packet.addr, a.port);
    if s.ports[a.port].retryReq then s
    else if !a.accepted then Refuse(s, a.port)
    else if a.packet.isRead then
      s.(pending := s.pending[a.packet.addr := Get(s.pending, a.packet.addr) + [a.packet]],
         nbrReads := s.nbrReads + 1,
         inFlight := s.inFlight + [flight],
         asked := s.asked + [a.packet])
    else
      var answered := Access(s, a.packet, a.port);
      answered.(nbrWrites := answered.nbrWrites + 1, inFlight := answered.inFlight + [flight])
  }

  predicate Proper(a: Arrival, n: nat) {
    a.port < n && a.packet.origin == a.port
  }

  predicate InRange(arrivals: seq<Arrival>, n: nat) {
    forall i :: 0 <= i < |arrivals| ==> Proper(arrivals[i], n)
  }

  /** Requests a peer sends from inside a call the adapter makes to it. */
  function ReceiveAll(s: State, arrivals: seq<Arrival>): (r: State)
    requires |s.ports| == |s.queued| && InRange(arrivals, |s.ports|)
    ensures |r.ports| == |s.ports| && |r.queued| == |s.queued| && r.sent == s.sent && r.owed == s.owed
    decreases |arrivals|
  {
    if arrivals == [] then s else ReceiveAll(Receive(s, arrivals[0]), arrivals[1..])
  }

  function SignalIfDrained(s: State): State {
    if Outstanding(s) == 0 then s.(signals := s.signals + 1) else s
  }

  /** The part of `sendResponse` after the peer accepted. */
  function Popped(s: State, p: nat): State
    requires p < |s.ports| == |s.sent| && s.ports[p].queue != []
  {
    var port := s.ports[p];
    var rest := port.queue[1..];
    SignalIfDrained(
      s.(ports := s.ports[p := port.(queue := rest, scheduled := port.scheduled || rest != [])],
         sent := s.sent[p := s.sent[p] + [port.queue[0]]]))
  }

  /** The part of `sendResponse` after the peer refused. */
  function Stalled(s: State, p: nat): State
    requires p < |s.ports| == |s.owed|
  {
    s.(ports := s.ports[p := s.ports[p].(retryResp := true)], owed := s.owed[p := true])
  }

  predicate Sized(s: State) {
    |s.ports| == |s.queued| == |s.sent| == |s.owed|
  }

  /** `sendResponse`; a failing assert is `AssertionFailed`. */
  function SendResponse(s: State, p: nat, accepts: bool, during: seq<Arrival>): Result<State>
    requires Sized(s) && p < |s.ports| && InRange(during, |s.ports|)
  {
    if s.ports[p].retryResp || s.ports[p].queue == [] then Err(AssertionFailed)
    else
      var called := ReceiveAll(s, during);
      if accepts then
        if called.ports[p].queue == [] then Err(AssertionFailed) else Ok(Popped(called, p))
      else if called.ports[p].scheduled then Err(AssertionFailed)
      else Ok(Stalled(called, p))
  }

  /** The event queue clears the pending flag before it runs `sendResponse`. */
  function Fired(s: State, p: nat): State
    requires p < |s.ports|
  {
    s.(ports := s.ports[p := s.ports[p].(scheduled := false)])
  }

  /** `recvRespRetry` up to its call of `sendResponse`. */
  function Retried(s: State, p: nat): State
    requires p < |s.ports| == |s.owed|
  {
    s.(ports := s.ports[p := s.ports[p].(retryResp := false)], owed := s.owed[p := false])
  }

  function WithoutFlight(s: State, i: nat): State
    requires i < |s.inFlight|
  {
    s.(inFlight := s.inFlight[..i] + s.inFlight[i + 1..])
  }

  /** The callback of a read: the oldest packet of its address is answered on the port
      the callback captured.  Looking up an address without packets is undefined in
      the source and an error here. */
  function CompleteRead(s: State, i: nat): Result<State>
    requires Sized(s) && i < |s.inFlight| && s.inFlight[i].port < |s.ports|
  {
    var f := s.inFlight[i];
    if Get(s.pending, f.addr) == [] then Err(AssertionFailed)
    else
      var packet, rest := s.pending[f.addr][0], s.pending[f.addr][1..];
      var left := if rest == [] then s.pending - {f.addr} else s.pending[f.addr := rest];
      Ok(Access(WithoutFlight(s, i).(pending := left, nbrReads := s.nbrReads - 1, answered := s.answered + [packet]),
                packet, f.port))
  }

  /** The callback of a write. */
  function CompleteWrite(s: State, i: nat): State
    requires i < |s.inFlight|
  {
    SignalIfDrained(WithoutFlight(s, i).(nbrWrites := s.nbrWrites - 1))
  }

  /** The loop of `tick` over the ports from `p` on. */
  function RetryFrom(s: State, p: nat, retries: seq<seq<Arrival>>): (r: State)
    requires Sized(s) && p <= |s.ports| == |retries| && forall i :: 0 <= i < |retries| ==> InRange(retries[i], |s.ports|)
    ensures Sized(r) && |r.ports| == |s.ports|
    decreases |s.ports| - p
  {
    if p == |s.ports| then s
    else if s.ports[p].retryReq then
      RetryFrom(ReceiveAll(s.(ports := s.ports[p := s.ports[p].(retryReq := false)]), retries[p]), p + 1, retries)
    else RetryFrom(s, p + 1, retries)
  }

  // ---- runs ----

  /** What the environment guarantees: events name existing ports; a send event runs
      only when scheduled; a peer asks for a response retry only after it refused; a
      callback fires once, for a request in flight. */
  predicate Enabled(s: State, e: Event)
    requires Sized(s)
  {
    match e
    case Request(a) => Proper(a, |s.ports|)
    case SendEvent(p, _, during) => p < |s.ports| && s.ports[p].scheduled && InRange(during, |s.ports|)
    case RespRetry(p, _, during) => p < |s.ports| && s.owed[p] && InRange(during, |s.ports|)
    case ReadDone(i) => i < |s.inFlight| && s.inFlight[i].isRead && s.inFlight[i].port < |s.ports|
    case WriteDone(i) => i < |s.inFlight| && !s.inFlight[i].isRead
    case Tick(retries) => |retries| == |s.ports| && forall i :: 0 <= i < |retries| ==> InRange(retries[i], |s.ports|)
  }

  function Step(s: State, e: Event): Result<State>
    requires Sized(s) && Enabled(s, e)
  {
    match e
    case Request(a) => Ok(Receive(s, a))
    case SendEvent(p, accepts, during) => SendResponse(Fired(s, p), p, accepts, during)
    case RespRetry(p, accepts, during) =>
      if !s.ports[p].retryResp then Err(AssertionFailed) else SendResponse(Retried(s, p), p, accepts, during)
    case ReadDone(i) => CompleteRead(s, i)
    case WriteDone(i) => Ok(CompleteWrite(s, i))
    case Tick(retries) => Ok(RetryFrom(s, 0, retries))
  }

  /** Whether a peer's calls get a response queued on port `p`, given whether the port
      already waits to retry a request. */
  predicate Answers(waiting: bool, arrivals: seq<Arrival>, p: nat)
    decreases |arrivals|
  {
    if arrivals == [] || waiting then false
    else
      var a := arrivals[0];
      if a.port != p then Answers(waiting, arrivals[1..], p)
      else if !a.accepted then false
      else (!a.packet.isRead && a.packet.needsResponse) || Answers(waiting, arrivals[1..], p)
  }

  /** A peer that refuses a response does not, inside the refused call, have a write
      answered on the same port. */
  predicate Polite(s: State, e: Event)
    requires Sized(s) && Enabled(s, e)
  {
    match e
    case SendEvent(p, accepts, during) => accepts || !Answers(s.ports[p].retryReq, during, p)
    case RespRetry(p, accepts, during) => accepts || !Answers(s.ports[p].retryReq, during, p)
    case _ => true
  }
}
