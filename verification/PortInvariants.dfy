/** Invariants of the port adapter over every run. */
module PortInvariants {
  import opened PortProtocol

  // ---- one port between events, and the port whose response is being sent ----

  /** A port has something to send exactly when exactly one of "waiting for the peer's
      retry" and "send event scheduled" holds. */
  predicate PortOk(q: Port) {
    if q.queue == [] then !q.retryResp && !q.scheduled else q.retryResp != q.scheduled
  }

  predicate Sending(q: Port) {
    q.queue != [] && !q.retryResp && (q.scheduled ==> |q.queue| >= 2)
  }

  /** Every port is in order, except that `p` (if it is a port) is sending. */
  predicate PortsOk(s: State, p: int) {
    forall i :: 0 <= i < |s.ports| ==> if i == p then Sending(s.ports[i]) else PortOk(s.ports[i])
  }

  /** Responses queued on a port are those sent and then those waiting, in order, and
      the adapter waits for a retry exactly when the peer owes one. */
  predicate Ledger(s: State) {
    Sized(s) && forall i :: 0 <= i < |s.ports| ==>
      s.queued[i] == s.sent[i] + s.ports[i].queue && s.ports[i].retryResp == s.owed[i]
  }

  lemma ReceiveKeepsPorts(s: State, a: Arrival, p: int)
    requires Ledger(s) && PortsOk(s, p) && Proper(a, |s.ports|)
    ensures Ledger(Receive(s, a)) && PortsOk(Receive(s, a), p)
  {
  }

  lemma {:induction false} ReceiveAllKeepsPorts(s: State, arrivals: seq<Arrival>, p: int)
    requires Ledger(s) && PortsOk(s, p) && InRange(arrivals, |s.ports|)
    ensures Ledger(ReceiveAll(s, arrivals)) && PortsOk(ReceiveAll(s, arrivals), p)
    decreases |arrivals|
  {
    if arrivals != [] {
      ReceiveKeepsPorts(s, arrivals[0], p);
      ReceiveAllKeepsPorts(Receive(s, arrivals[0]), arrivals[1..], p);
    }
  }

  /** While `p` is sending, requests from inside the call schedule a further send
      exactly when they get a response queued on `p`. */
  lemma {:induction false} AnswersSchedules(s: State, arrivals: seq<Arrival>, p: nat)
    requires Ledger(s) && p < |s.ports| && InRange(arrivals, |s.ports|) && !s.ports[p].retryResp
    ensures ReceiveAll(s, arrivals).ports[p].scheduled == (s.ports[p].scheduled || Answers(s.ports[p].retryReq, arrivals, p))
    decreases |arrivals|
  {
    if arrivals != [] {
      var a := arrivals[0];
      var next := Receive(s, a);
      ReceiveKeepsLedger(s, a);
      AnswersSchedules(next, arrivals[1..], p);
      if s.ports[p].retryReq || (a.port == p && !a.accepted) {
        WaitingAnswersNothing(arrivals[1..], p);
      }
    }
  }

  lemma ReceiveKeepsLedger(s: State, a: Arrival)
    requires Ledger(s) && Proper(a, |s.ports|)
    ensures Ledger(Receive(s, a))
  {
  }

  lemma WaitingAnswersNothing(arrivals: seq<Arrival>, p: nat)
    ensures !Answers(true, arrivals, p)
  {
  }

  lemma {:induction false} ReceiveAllKeepsFront(s: State, arrivals: seq<Arrival>, p: nat)
    requires Ledger(s) && p < |s.ports| && InRange(arrivals, |s.ports|)
    ensures var q := ReceiveAll(s, arrivals).ports[p];
      |q.queue| >= |s.ports[p].queue| && q.queue[..|s.ports[p].queue|] == s.ports[p].queue && q.retryResp == s.ports[p].retryResp
    decreases |arrivals|
  {
    if arrivals != [] {
      ReceiveKeepsLedger(s, arrivals[0]);
      ReceiveAllKeepsFront(Receive(s, arrivals[0]), arrivals[1..], p);
    }
  }

  /** `sendResponse` fails an assert exactly when the peer refuses and its own calls got
      a response queued on the port; otherwise every port is in order again. */
  lemma SendKeepsPorts(s: State, p: nat, accepts: bool, during: seq<Arrival>)
    requires Ledger(s) && p < |s.ports| && InRange(during, |s.ports|)
    requires PortsOk(s, p) && !s.ports[p].scheduled
    ensures SendResponse(s, p, accepts, during).Ok? <==> accepts || !Answers(s.ports[p].retryReq, during, p)
    ensures SendResponse(s, p, accepts, during).Ok? ==>
      Ledger(SendResponse(s, p, accepts, during).value) && PortsOk(SendResponse(s, p, accepts, during).value, -1)
  {
    ReceiveAllKeepsPorts(s, during, p);
    AnswersSchedules(s, during, p);
    var called := ReceiveAll(s, during);
    assert Sending(called.ports[p]);
    if accepts {
      PoppedKeepsPorts(called, p);
    }
  }

  /** What leaves the queue is the packet that was offered to the peer, whatever its
      own calls queued meanwhile. */
  lemma SentIsOffered(s: State, p: nat, during: seq<Arrival>)
    requires Ledger(s) && p < |s.ports| && InRange(during, |s.ports|) && s.ports[p].queue != [] && !s.ports[p].retryResp
    ensures SendResponse(s, p, true, during).Ok?
    ensures SendResponse(s, p, true, during).value.sent[p] == s.sent[p] + [s.ports[p].queue[0]]
  {
    ReceiveAllKeepsFront(s, during, p);
    var called := ReceiveAll(s, during).ports[p].queue;
    assert called[..|s.ports[p].queue|][0] == called[0];
  }

  lemma PoppedKeepsPorts(s: State, p: nat)
    requires Ledger(s) && PortsOk(s, p) && p < |s.ports|
    ensures Ledger(Popped(s, p)) && PortsOk(Popped(s, p), -1)
  {
    var queue := s.ports[p].queue;
    assert queue == [queue[0]] + queue[1..];
    assert s.sent[p] + queue == (s.sent[p] + [queue[0]]) + queue[1..];
  }

  lemma AccessKeepsPorts(s: State, packet: Packet, p: nat)
    requires Ledger(s) && PortsOk(s, -1) && p < |s.ports|
    ensures Ledger(Access(s, packet, p)) && PortsOk(Access(s, packet, p), -1)
  {
  }

  lemma {:induction false} RetryKeepsPorts(s: State, p: nat, retries: seq<seq<Arrival>>)
    requires Ledger(s) && PortsOk(s, -1)
    requires p <= |s.ports| == |retries| && forall i :: 0 <= i < |retries| ==> InRange(retries[i], |s.ports|)
    ensures Ledger(RetryFrom(s, p, retries)) && PortsOk(RetryFrom(s, p, retries), -1)
    decreases |s.ports| - p
  {
    if p < |s.ports| {
      if s.ports[p].retryReq {
        var cleared := s.(ports := s.ports[p := s.ports[p].(retryReq := false)]);
        assert Ledger(cleared) && PortsOk(cleared, -1);
        ReceiveAllKeepsPorts(cleared, retries[p], -1);
        RetryKeepsPorts(ReceiveAll(cleared, retries[p]), p + 1, retries);
      } else {
        RetryKeepsPorts(s, p + 1, retries);
      }
    }
  }

  /** A send event or a response retry fails an assert exactly when it is impolite. */
  lemma SendStepExactly(s: State, e: Event)
    requires Ledger(s) && PortsOk(s, -1) && Enabled(s, e) && (e.SendEvent? || e.RespRetry?)
    ensures Step(s, e).Ok? <==> Polite(s, e)
    ensures Step(s, e).Ok? ==> Ledger(Step(s, e).value) && PortsOk(Step(s, e).value, -1)
  {
    if e.SendEvent? {
      SendKeepsPorts(Fired(s, e.port), e.port, e.accepts, e.during);
    } else {
      SendKeepsPorts(Retried(s, e.port), e.port, e.accepts, e.during);
    }
  }

  // ---- requests in flight ----

  function Tally(f: Flight -> bool, flights: seq<Flight>): nat
    decreases |flights|
  {
    if flights == [] then 0
    else Tally(f, flights[..|flights| - 1]) + if f(flights[|flights| - 1]) then 1 else 0
  }

  function ReadAt(addr: nat): Flight -> bool { (f: Flight) => f.isRead && f.addr == addr }
  function AnyRead(): Flight -> bool { (f: Flight) => f.isRead }
  function AnyWrite(): Flight -> bool { (f: Flight) => !f.isRead }

  lemma TallyAppend(f: Flight -> bool, flights: seq<Flight>, x: Flight)
    ensures Tally(f, flights + [x]) == Tally(f, flights) + if f(x) then 1 else 0
  {
    assert (flights + [x])[..|flights|] == flights;
  }

  lemma {:induction false} TallyRemove(f: Flight -> bool, flights: seq<Flight>, i: nat)
    requires i < |flights|
    ensures Tally(f, flights) == Tally(f, flights[..i] + flights[i + 1..]) + if f(flights[i]) then 1 else 0
    decreases |flights|
  {
    var n := |flights| - 1;
    if i == n {
      assert flights[..i] + flights[i + 1..] == flights[..n];
    } else {
      TallyRemove(f, flights[..n], i);
      var init := flights[..n];
      assert flights[..i] + flights[i + 1..] == (init[..i] + init[i + 1..]) + [flights[n]];
      TallyAppend(f, init[..i] + init[i + 1..], flights[n]);
    }
  }

  lemma {:induction false} TallyPositive(f: Flight -> bool, flights: seq<Flight>, i: nat)
    requires i < |flights| && f(flights[i])
    ensures Tally(f, flights) >= 1
  {
    TallyRemove(f, flights, i);
  }

  function OfAddress(packets: seq<Packet>, addr: nat): seq<Packet>
    decreases |packets|
  {
    if packets == [] then []
    else
      var n := |packets| - 1;
      OfAddress(packets[..n], addr) + if packets[n].addr == addr then [packets[n]] else []
  }

  lemma OfAddressAppend(packets: seq<Packet>, x: Packet, addr: nat)
    ensures OfAddress(packets + [x], addr) == OfAddress(packets, addr) + if x.addr == addr then [x] else []
  {
    assert (packets + [x])[..|packets|] == packets;
  }

  /** The queue of an address holds one packet for each read of it in flight: those
      accepted and not yet answered, in order of arrival. */
  predicate AddressOk(s: State, addr: nat) {
    && |Get(s.pending, addr)| == Tally(ReadAt(addr), s.inFlight)
    && OfAddress(s.asked, addr) == OfAddress(s.answered, addr) + Get(s.pending, addr)
    && (addr in s.pending ==> s.pending[addr] != [])
    && (forall k :: 0 <= k < |Get(s.pending, addr)| ==> Get(s.pending, addr)[k].addr == addr && Get(s.pending, addr)[k].isRead)
  }

  ghost predicate Books(s: State) {
    && (forall addr :: AddressOk(s, addr))
    && s.nbrReads == Tally(AnyRead(), s.inFlight)
    && s.nbrWrites == Tally(AnyWrite(), s.inFlight)
    && (forall i :: 0 <= i < |s.inFlight| ==> s.inFlight[i].port < |s.ports|)
  }

  lemma SameBooks(s: State, t: State)
    requires Books(s) && t.pending == s.pending && t.inFlight == s.inFlight && t.asked == s.asked && t.answered == s.answered
    requires t.nbrReads == s.nbrReads && t.nbrWrites == s.nbrWrites && |t.ports| == |s.ports|
    ensures Books(t)
  {
    forall addr ensures AddressOk(t, addr) {
      assert AddressOk(s, addr);
    }
  }

  lemma ReadAccepted(s: State, a: Arrival)
    requires Books(s) && Sized(s) && Proper(a, |s.ports|) && a.packet.isRead && a.accepted && !s.ports[a.port].retryReq
    ensures Books(Receive(s, a))
  {
    var t := Receive(s, a);
    var flight := Flight(true, a.packet.addr, a.port);
    forall addr ensures AddressOk(t, addr) {
      assert AddressOk(s, addr);
      TallyAppend(ReadAt(addr), s.inFlight, flight);
      OfAddressAppend(s.asked, a.packet, addr);
    }
    TallyAppend(AnyRead(), s.inFlight, flight);
    TallyAppend(AnyWrite(), s.inFlight, flight);
  }

  lemma WriteAccepted(s: State, a: Arrival)
    requires Books(s) && Sized(s) && Proper(a, |s.ports|) && !a.packet.isRead && a.accepted && !s.ports[a.port].retryReq
    ensures Books(Receive(s, a))
  {
    var t := Receive(s, a);
    var flight := Flight(false, a.packet.addr, a.port);
    forall addr ensures AddressOk(t, addr) {
      assert AddressOk(s, addr);
      TallyAppend(ReadAt(addr), s.inFlight, flight);
    }
    TallyAppend(AnyRead(), s.inFlight, flight);
    TallyAppend(AnyWrite(), s.inFlight, flight);
  }

  lemma ReceiveKeepsBooks(s: State, a: Arrival)
    requires Books(s) && Sized(s) && Proper(a, |s.ports|)
    ensures Books(Receive(s, a))
  {
    if s.ports[a.port].retryReq || !a.accepted {
      SameBooks(s, Receive(s, a));
    } else if a.packet.isRead {
      ReadAccepted(s, a);
    } else {
      WriteAccepted(s, a);
    }
  }

  lemma {:induction false} ReceiveAllKeepsBooks(s: State, arrivals: seq<Arrival>)
    requires Books(s) && Sized(s) && InRange(arrivals, |s.ports|)
    ensures Books(ReceiveAll(s, arrivals))
    decreases |arrivals|
  {
    if arrivals != [] {
      ReceiveKeepsBooks(s, arrivals[0]);
      ReceiveAllKeepsBooks(Receive(s, arrivals[0]), arrivals[1..]);
    }
  }

  lemma SendKeepsBooks(s: State, p: nat, accepts: bool, during: seq<Arrival>)
    requires Books(s) && Sized(s) && p < |s.ports| && InRange(during, |s.ports|)
    requires SendResponse(s, p, accepts, during).Ok?
    ensures Books(SendResponse(s, p, accepts, during).value)
  {
    ReceiveAllKeepsBooks(s, during);
    SameBooks(ReceiveAll(s, during), SendResponse(s, p, accepts, during).value);
  }

  lemma {:induction false} RetryKeepsBooks(s: State, p: nat, retries: seq<seq<Arrival>>)
    requires Books(s) && Sized(s)
    requires p <= |s.ports| == |retries| && forall i :: 0 <= i < |retries| ==> InRange(retries[i], |s.ports|)
    ensures Books(RetryFrom(s, p, retries))
    decreases |s.ports| - p
  {
    if p < |s.ports| {
      if s.ports[p].retryReq {
        var cleared := s.(ports := s.ports[p := s.ports[p].(retryReq := false)]);
        SameBooks(s, cleared);
        ReceiveAllKeepsBooks(cleared, retries[p]);
        RetryKeepsBooks(ReceiveAll(cleared, retries[p]), p + 1, retries);
      } else {
        RetryKeepsBooks(s, p + 1, retries);
      }
    }
  }

  /** A read in flight always finds its packet. */
  lemma ReadFound(s: State, i: nat)
    requires Books(s) && i < |s.inFlight| && s.inFlight[i].isRead
    ensures Get(s.pending, s.inFlight[i].addr) != []
  {
    assert AddressOk(s, s.inFlight[i].addr);
    TallyPositive(ReadAt(s.inFlight[i].addr), s.inFlight, i);
  }

  lemma OldestAnswered(asked: seq<Packet>, answered: seq<Packet>, queue: seq<Packet>, addr: nat)
    requires queue != [] && queue[0].addr == addr
    requires OfAddress(asked, addr) == OfAddress(answered, addr) + queue
    ensures OfAddress(asked, addr) == OfAddress(answered + [queue[0]], addr) + queue[1..]
  {
    OfAddressAppend(answered, queue[0], addr);
    FrontMoves(OfAddress(answered, addr), queue);
  }

  lemma FrontMoves(before: seq<Packet>, queue: seq<Packet>)
    requires queue != []
    ensures before + queue == (before + [queue[0]]) + queue[1..]
  {
  }

  lemma OthersUnanswered(answered: seq<Packet>, packet: Packet, addr: nat)
    requires packet.addr != addr
    ensures OfAddress(answered + [packet], addr) == OfAddress(answered, addr)
  {
    OfAddressAppend(answered, packet, addr);
    assert OfAddress(answered, addr) + [] == OfAddress(answered, addr);
  }

  lemma CompleteReadAddress(s: State, i: nat, addr: nat)
    requires Books(s) && Sized(s) && i < |s.inFlight| && s.inFlight[i].isRead && CompleteRead(s, i).Ok?
    ensures AddressOk(CompleteRead(s, i).value, addr)
  {
    var a := s.inFlight[i].addr;
    var queue := Get(s.pending, a);
    assert AddressOk(s, a) && AddressOk(s, addr);
    TallyRemove(ReadAt(addr), s.inFlight, i);
    var t := CompleteRead(s, i).value;
    assert t.pending == if |queue| == 1 then s.pending - {a} else s.pending[a := queue[1..]];
    if addr == a {
      OldestAnswered(s.asked, s.answered, queue, a);
      assert Get(t.pending, a) == queue[1..];
    } else {
      OthersUnanswered(s.answered, queue[0], addr);
      assert Get(t.pending, addr) == Get(s.pending, addr);
    }
  }

  lemma CompleteReadKeepsBooks(s: State, i: nat)
    requires Books(s) && Sized(s) && i < |s.inFlight| && s.inFlight[i].isRead
    ensures CompleteRead(s, i).Ok? && Books(CompleteRead(s, i).value)
  {
    ReadFound(s, i);
    forall addr ensures AddressOk(CompleteRead(s, i).value, addr) {
      CompleteReadAddress(s, i, addr);
    }
    TallyRemove(AnyRead(), s.inFlight, i);
    TallyRemove(AnyWrite(), s.inFlight, i);
  }

  lemma CompleteWriteKeepsBooks(s: State, i: nat)
    requires Books(s) && Sized(s) && i < |s.inFlight| && !s.inFlight[i].isRead
    ensures Books(CompleteWrite(s, i))
  {
    var t := CompleteWrite(s, i);
    forall addr ensures AddressOk(t, addr) {
      assert AddressOk(s, addr);
      TallyRemove(ReadAt(addr), s.inFlight, i);
    }
    TallyRemove(AnyRead(), s.inFlight, i);
    TallyRemove(AnyWrite(), s.inFlight, i);
  }
}
