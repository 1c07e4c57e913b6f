/** `Ramulator2Base`: the gem5 adapter's fields and methods, proved against the state
    machine of PortProtocol.  Peers and the memory system are parameters: what a peer
    answers, what it sends from inside a call, whether a request is taken, and which
    callback fires. */
module PortAdapter {
  import opened PortProtocol
  import opened PortRetries
  import opened Results

  class Adapter {
    var ports: seq<Port>
    var outstandingReads: map<nat, seq<Packet>>
    var nbrOutstandingReads: int
    var nbrOutstandingWrites: int
    var drainSignals: int

    ghost var inFlight: seq<Flight>
    ghost var queued: seq<seq<Packet>>
    ghost var sent: seq<seq<Packet>>
    ghost var asked: seq<Packet>
    ghost var answered: seq<Packet>
    ghost var owed: seq<bool>

    ghost function State(): State
      reads this
    {
      PortProtocol.State(ports, outstandingReads, nbrOutstandingReads, nbrOutstandingWrites, drainSignals, inFlight,
                         queued, sent, asked, answered, owed)
    }

    constructor (n: nat)
      ensures State() == Initial(n)
    {
      ports := seq(n, _ => Port(false, false, [], false));
      outstandingReads := map[];
      nbrOutstandingReads, nbrOutstandingWrites, drainSignals := 0, 0, 0;
      inFlight, asked, answered := [], [], [];
      queued, sent, owed := seq(n, _ => []), seq(n, _ => []), seq(n, _ => false);
    }

    method NbrOutstanding() returns (outstanding: int)
      ensures outstanding == Outstanding(State())
    {
      outstanding := nbrOutstandingReads + nbrOutstandingWrites;
      for i := 0 to |ports|
        invariant outstanding == nbrOutstandingReads + nbrOutstandingWrites + QueueTotal(ports[..i])
      {
        assert ports[..i + 1][..i] == ports[..i];
        outstanding := outstanding + |ports[i].queue|;
      }
      assert ports[..|ports|] == ports;
    }

    method SignalDrainDoneIfIdle()
      modifies this`drainSignals
      ensures State() == SignalIfDrained(old(State()))
    {
      var outstanding := NbrOutstanding();
      if outstanding == 0 {
        drainSignals := drainSignals + 1;
      }
    }

    /** Whether draining is already done. */
    method Drain() returns (drained: bool)
      ensures drained <==> Outstanding(State()) == 0
    {
      var outstanding := NbrOutstanding();
      drained := outstanding == 0;
    }

    method AccessAndRespond(packet: Packet, p: nat)
      requires Sized(State()) && p < |ports|
      modifies this`ports, this`queued
      ensures State() == Access(old(State()), packet, p)
    {
      if packet.needsResponse {
        var port := ports[p];
        port := port.(queue := port.queue + [packet]);
        queued := queued[p := queued[p] + [packet]];
        if !port.retryResp && !port.scheduled {
          port := port.(scheduled := true);
        }
        ports := ports[p := port];
      }
    }

    method RecvTimingReq(a: Arrival) returns (accepted: bool)
      requires Sized(State()) && a.port < |ports|
      modifies this
      ensures State() == Receive(old(State()), a)
      ensures accepted <==> !old(ports[a.port].retryReq) && a.accepted
    {
      if ports[a.port].retryReq {
        return false;
      }
      accepted := a.accepted;
      if a.packet.isRead {
        if accepted {
          var addr := a.packet.addr;
          outstandingReads := outstandingReads[addr := (if addr in outstandingReads then outstandingReads[addr] else []) + [a.packet]];
          nbrOutstandingReads := nbrOutstandingReads + 1;
          inFlight := inFlight + [Flight(true, addr, a.port)];
          asked := asked + [a.packet];
        } else {
          ports := ports[a.port := ports[a.port].(retryReq := true)];
        }
      } else {
        if accepted {
          AccessAndRespond(a.packet, a.port);
          nbrOutstandingWrites := nbrOutstandingWrites + 1;
          inFlight := inFlight + [Flight(false, a.packet.addr, a.port)];
        } else {
          ports := ports[a.port := ports[a.port].(retryReq := true)];
        }
      }
    }

    /** The requests a peer sends from inside a call. */
    method RecvAll(arrivals: seq<Arrival>)
      requires Sized(State()) && InRange(arrivals, |ports|)
      modifies this
      ensures State() == ReceiveAll(old(State()), arrivals)
    {
      ghost var before := State();
      for i := 0 to |arrivals|
        invariant Sized(State()) && |ports| == |before.ports|
        invariant ReceiveAll(State(), arrivals[i..]) == ReceiveAll(before, arrivals)
      {
        assert Proper(arrivals[i], |ports|);
        assert arrivals[i..][1..] == arrivals[i + 1..];
        var accepted := RecvTimingReq(arrivals[i]);
      }
    }

    method Pop(p: nat)
      requires Sized(State()) && p < |ports| && ports[p].queue != []
      modifies this
      ensures State() == Popped(old(State()), p)
    {
      var port := ports[p];
      sent := sent[p := sent[p] + [port.queue[0]]];
      port := port.(queue := port.queue[1..]);
      if port.queue != [] && !port.scheduled {
        port := port.(scheduled := true);
      }
      ports := ports[p := port];
      SignalDrainDoneIfIdle();
    }

    method SendResponse(p: nat, accepts: bool, during: seq<Arrival>) returns (r: Result<bool>)
      requires Sized(State()) && p < |ports| && InRange(during, |ports|)
      modifies this
      ensures r.Ok? <==> PortProtocol.SendResponse(old(State()), p, accepts, during).Ok?
      ensures r.Ok? ==> State() == PortProtocol.SendResponse(old(State()), p, accepts, during).value
    {
      if ports[p].retryResp || ports[p].queue == [] {
        return Err(AssertionFailed);
      }
      RecvAll(during);
      if accepts {
        if ports[p].queue == [] {
          return Err(AssertionFailed);
        }
        Pop(p);
      } else {
        ports := ports[p := ports[p].(retryResp := true)];
        owed := owed[p := true];
        if ports[p].scheduled {
          return Err(AssertionFailed);
        }
      }
      r := Ok(accepts);
    }

    /** The event queue runs a scheduled send. */
    method SendEventFires(p: nat, accepts: bool, during: seq<Arrival>) returns (r: Result<bool>)
      requires Sized(State()) && Enabled(State(), SendEvent(p, accepts, during))
      modifies this
      ensures r.Ok? <==> Step(old(State()), SendEvent(p, accepts, during)).Ok?
      ensures r.Ok? ==> State() == Step(old(State()), SendEvent(p, accepts, during)).value
    {
      ports := ports[p := ports[p].(scheduled := false)];
      r := SendResponse(p, accepts, during);
    }

    method RecvRespRetry(p: nat, accepts: bool, during: seq<Arrival>) returns (r: Result<bool>)
      requires Sized(State()) && Enabled(State(), RespRetry(p, accepts, during))
      modifies this
      ensures r.Ok? <==> Step(old(State()), RespRetry(p, accepts, during)).Ok?
      ensures r.Ok? ==> State() == Step(old(State()), RespRetry(p, accepts, during)).value
    {
      if !ports[p].retryResp {
        return Err(AssertionFailed);
      }
      ports := ports[p := ports[p].(retryResp := false)];
      owed := owed[p := false];
      r := SendResponse(p, accepts, during);
    }

    /** The callback of a read request to `addr` that arrived on port `p`. */
    method ReadCompleted(addr: nat, p: nat, ghost i: nat) returns (r: Result<Packet>)
      requires Sized(State()) && i < |inFlight| && inFlight[i] == Flight(true, addr, p) && p < |ports|
      modifies this
      ensures r.Ok? <==> CompleteRead(old(State()), i).Ok?
      ensures r.Ok? ==> State() == CompleteRead(old(State()), i).value
    {
      if addr !in outstandingReads || outstandingReads[addr] == [] {
        return Err(AssertionFailed);
      }
      var packet := outstandingReads[addr][0];
      outstandingReads := outstandingReads[addr := outstandingReads[addr][1..]];
      if outstandingReads[addr] == [] {
        outstandingReads := outstandingReads - {addr};
      }
      assert outstandingReads == (if old(outstandingReads[addr])[1..] == [] then old(outstandingReads) - {addr}
                                  else old(outstandingReads)[addr := old(outstandingReads[addr])[1..]]);
      nbrOutstandingReads := nbrOutstandingReads - 1;
      answered := answered + [packet];
      inFlight := inFlight[..i] + inFlight[i + 1..];
      AccessAndRespond(packet, p);
      r := Ok(packet);
    }

    /** The callback of a write request. */
    method WriteCompleted(ghost i: nat)
      requires i < |inFlight| && !inFlight[i].isRead
      modifies this
      ensures State() == CompleteWrite(old(State()), i)
    {
      nbrOutstandingWrites := nbrOutstandingWrites - 1;
      inFlight := inFlight[..i] + inFlight[i + 1..];
      SignalDrainDoneIfIdle();
    }

    /** The retry loop of `tick`, after the memory system has ticked. */
    method Tick(retries: seq<seq<Arrival>>)
      requires Sized(State()) && Enabled(State(), PortProtocol.Tick(retries))
      modifies this
      ensures State() == RetryFrom(old(State()), 0, retries)
      ensures Took(old(State()), AdmitInTurn(Owing(old(State())), 0, retries).taken, State())
    {
      ghost var before := State();
      TickTakesRetries(before, retries);
      for i := 0 to |ports|
        invariant Sized(State()) && |ports| == |before.ports|
        invariant RetryFrom(State(), i, retries) == RetryFrom(before, 0, retries)
      {
        if ports[i].retryReq {
          ports := ports[i := ports[i].(retryReq := false)];
          RecvAll(retries[i]);
        }
      }
    }
  }
}
