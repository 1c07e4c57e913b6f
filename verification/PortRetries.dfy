/** Which requests get in, and who is told to retry: what a tick does, in terms of the
    requests themselves. */
module PortRetries {
  import opened PortProtocol
  import opened Results

  /** The requests that were taken, in order, and the ports that owe a retry after them. */
  datatype Admission = Admission(taken: seq<Arrival>, owing: set<nat>)

  /** A port that owes a retry is turned away; a refused request makes its port owe one. */
  function Admit(owing: set<nat>, arrivals: seq<Arrival>): Admission
    decreases |arrivals|
  {
    if arrivals == [] then Admission([], owing)
    else
      var a := arrivals[0];
      if a.port in owing then Admit(owing, arrivals[1..])
      else if !a.accepted then Admit(owing + {a.port}, arrivals[1..])
      else
        var rest := Admit(owing, arrivals[1..]);
        rest.(taken := [a] + rest.taken)
  }

  /** A tick asks the ports in turn; one that owes a retry when its turn comes is relieved
      and sends what it has, the others send nothing. */
  function AdmitInTurn(owing: set<nat>, p: nat, retries: seq<seq<Arrival>>): Admission
    requires p <= |retries|
    decreases |retries| - p
  {
    if p == |retries| then Admission([], owing)
    else if p !in owing then AdmitInTurn(owing, p + 1, retries)
    else
      var here := Admit(owing - {p}, retries[p]);
      var rest := AdmitInTurn(here.owing, p + 1, retries);
      rest.(taken := here.taken + rest.taken)
  }

  function Owing(s: State): set<nat> {
    set p: nat | p < |s.ports| && s.ports[p].retryReq
  }

  // ---- what taking requests does ----

  function Reads(log: seq<Arrival>): seq<Packet>
    decreases |log|
  {
    if log == [] then [] else (if log[0].packet.isRead then [log[0].packet] else []) + Reads(log[1..])
  }

  function ReadsOf(log: seq<Arrival>, addr: nat): seq<Packet>
    decreases |log|
  {
    if log == [] then []
    else (if log[0].packet.isRead && log[0].packet.addr == addr then [log[0].packet] else []) + ReadsOf(log[1..], addr)
  }

  function Flights(log: seq<Arrival>): seq<Flight>
    decreases |log|
  {
    if log == [] then []
    else [Flight(log[0].packet.isRead, log[0].packet.addr, log[0].port)] + Flights(log[1..])
  }

  /** Responses to writes, which are queued at once. */
  function WriteResponses(log: seq<Arrival>, p: nat): seq<Packet>
    decreases |log|
  {
    if log == [] then []
    else
      var a := log[0];
      (if !a.packet.isRead && a.packet.needsResponse && a.port == p then [a.packet] else []) + WriteResponses(log[1..], p)
  }

  /** `r` is `s` after exactly the requests of `log`, in order. */
  ghost predicate Took(s: State, log: seq<Arrival>, r: State) {
    && Sized(s) && Sized(r) && |r.ports| == |s.ports|
    && r.asked == s.asked + Reads(log) && r.nbrReads == s.nbrReads + |Reads(log)|
    && r.inFlight == s.inFlight + Flights(log) && r.nbrWrites == s.nbrWrites + |log| - |Reads(log)|
    && (forall addr: nat :: Get(r.pending, addr) == Get(s.pending, addr) + ReadsOf(log, addr))
    && (forall p: nat :: p < |s.ports| ==> QueueTook(s, log, r, p))
    && r.sent == s.sent && r.answered == s.answered && r.signals == s.signals && r.owed == s.owed
  }

  ghost predicate QueueTook(s: State, log: seq<Arrival>, r: State, p: nat)
    requires Sized(s) && Sized(r) && p < |s.ports| == |r.ports|
  {
    && r.queued[p] == s.queued[p] + WriteResponses(log, p)
    && r.ports[p].queue == s.ports[p].queue + WriteResponses(log, p)
    && r.ports[p].retryResp == s.ports[p].retryResp
  }

  lemma TookNothing(s: State)
    requires Sized(s)
    ensures Took(s, [], s)
  {
  }

  lemma {:induction false} ReadsConcat(a: seq<Arrival>, b: seq<Arrival>)
    ensures Reads(a + b) == Reads(a) + Reads(b)
    decreases |a|
  {
    if a == [] {
      assert a + b == b;
    } else {
      assert (a + b)[1..] == a[1..] + b;
      ReadsConcat(a[1..], b);
    }
  }

  lemma {:induction false} FlightsConcat(a: seq<Arrival>, b: seq<Arrival>)
    ensures Flights(a + b) == Flights(a) + Flights(b)
    decreases |a|
  {
    if a == [] {
      assert a + b == b;
    } else {
      assert (a + b)[1..] == a[1..] + b;
      FlightsConcat(a[1..], b);
    }
  }

  lemma {:induction false} ReadsOfConcat(a: seq<Arrival>, b: seq<Arrival>, addr: nat)
    ensures ReadsOf(a + b, addr) == ReadsOf(a, addr) + ReadsOf(b, addr)
    decreases |a|
  {
    if a == [] {
      assert a + b == b;
    } else {
      assert (a + b)[1..] == a[1..] + b;
      ReadsOfConcat(a[1..], b, addr);
    }
  }

  lemma {:induction false} WriteResponsesConcat(a: seq<Arrival>, b: seq<Arrival>, p: nat)
    ensures WriteResponses(a + b, p) == WriteResponses(a, p) + WriteResponses(b, p)
    decreases |a|
  {
    if a == [] {
      assert a + b == b;
    } else {
      assert (a + b)[1..] == a[1..] + b;
      WriteResponsesConcat(a[1..], b, p);
    }
  }

  lemma QueueTookTwice(s: State, a: seq<Arrival>, m: State, b: seq<Arrival>, r: State, p: nat)
    requires Sized(s) && Sized(m) && Sized(r) && p < |s.ports| == |m.ports| == |r.ports|
    requires QueueTook(s, a, m, p) && QueueTook(m, b, r, p)
    ensures QueueTook(s, a + b, r, p)
  {
    WriteResponsesConcat(a, b, p);
  }

  lemma TookTwice(s: State, a: seq<Arrival>, m: State, b: seq<Arrival>, r: State)
    requires Took(s, a, m) && Took(m, b, r)
    ensures Took(s, a + b, r)
  {
    ReadsConcat(a, b);
    FlightsConcat(a, b);
    forall addr: nat
      ensures Get(r.pending, addr) == Get(s.pending, addr) + ReadsOf(a + b, addr)
    {
      ReadsOfConcat(a, b, addr);
    }
    forall p: nat | p < |s.ports|
      ensures QueueTook(s, a + b, r, p)
    {
      QueueTookTwice(s, a, m, b, r, p);
    }
  }

  lemma TakesOne(s: State, a: Arrival)
    requires Sized(s) && Proper(a, |s.ports|) && !s.ports[a.port].retryReq && a.accepted
    ensures Took(s, [a], Receive(s, a)) && Owing(Receive(s, a)) == Owing(s)
  {
    var r := Receive(s, a);
    assert [a][1..] == [];
    forall p: nat | p < |s.ports|
      ensures QueueTook(s, [a], r, p) && r.ports[p].retryReq == s.ports[p].retryReq
    {
    }
  }

  /** A refused request leaves its port owing a retry, and nothing else behind. */
  lemma RefusedOwes(s: State, a: Arrival)
    requires Sized(s) && Proper(a, |s.ports|) && !s.ports[a.port].retryReq && !a.accepted
    ensures Step(s, Request(a)).Ok?
    ensures Took(s, [], Step(s, Request(a)).value) && Owing(Step(s, Request(a)).value) == Owing(s) + {a.port}
  {
  }

  lemma {:induction false} AdmitTakes(s: State, arrivals: seq<Arrival>)
    requires Sized(s) && InRange(arrivals, |s.ports|)
    ensures Took(s, Admit(Owing(s), arrivals).taken, ReceiveAll(s, arrivals))
    ensures Owing(ReceiveAll(s, arrivals)) == Admit(Owing(s), arrivals).owing
    decreases |arrivals|
  {
    TookNothing(s);
    if arrivals != [] {
      var a := arrivals[0];
      var next := Receive(s, a);
      var rest := Admit(Owing(next), arrivals[1..]);
      if s.ports[a.port].retryReq {
        AdmitTakes(next, arrivals[1..]);
      } else if !a.accepted {
        RefusedOwes(s, a);
        AdmitTakes(next, arrivals[1..]);
        TookTwice(s, [], next, rest.taken, ReceiveAll(next, arrivals[1..]));
        assert [] + rest.taken == rest.taken;
      } else {
        TakesOne(s, a);
        AdmitTakes(next, arrivals[1..]);
        TookTwice(s, [a], next, rest.taken, ReceiveAll(next, arrivals[1..]));
      }
    }
  }

  lemma Relieves(s: State, p: nat)
    requires Sized(s) && p < |s.ports|
    ensures var r := s.(ports := s.ports[p := s.ports[p].(retryReq := false)]); Took(s, [], r) && Owing(r) == Owing(s) - {p}
  {
  }

  lemma {:induction false} TurnsTake(s: State, p: nat, retries: seq<seq<Arrival>>)
    requires Sized(s) && p <= |s.ports| == |retries| && forall i :: 0 <= i < |retries| ==> InRange(retries[i], |s.ports|)
    ensures Took(s, AdmitInTurn(Owing(s), p, retries).taken, RetryFrom(s, p, retries))
    ensures Owing(RetryFrom(s, p, retries)) == AdmitInTurn(Owing(s), p, retries).owing
    decreases |s.ports| - p
  {
    TookNothing(s);
    if p < |s.ports| {
      if s.ports[p].retryReq {
        var relieved := s.(ports := s.ports[p := s.ports[p].(retryReq := false)]);
        var next := ReceiveAll(relieved, retries[p]);
        var here := Admit(Owing(relieved), retries[p]);
        Relieves(s, p);
        AdmitTakes(relieved, retries[p]);
        TookTwice(s, [], relieved, here.taken, next);
        assert [] + here.taken == here.taken;
        TurnsTake(next, p + 1, retries);
        TookTwice(s, here.taken, next, AdmitInTurn(Owing(next), p + 1, retries).taken, RetryFrom(next, p + 1, retries));
      } else {
        TurnsTake(s, p + 1, retries);
      }
    }
  }

  /** A tick takes exactly the requests that the ports owing a retry send when their turn
      comes, in order, and leaves owing the ports whose new request was refused. */
  lemma TickTakesRetries(s: State, retries: seq<seq<Arrival>>)
    requires Sized(s) && Enabled(s, Tick(retries))
    ensures Step(s, Tick(retries)).Ok?
    ensures Took(s, AdmitInTurn(Owing(s), 0, retries).taken, Step(s, Tick(retries)).value)
    ensures Owing(Step(s, Tick(retries)).value) == AdmitInTurn(Owing(s), 0, retries).owing
  {
    TurnsTake(s, 0, retries);
  }

  // ---- one port, no port ----

  lemma {:induction false} NoTurn(owing: set<nat>, p: nat, retries: seq<seq<Arrival>>)
    requires p <= |retries| && forall q :: q in owing ==> q < p
    ensures AdmitInTurn(owing, p, retries) == Admission([], owing)
    decreases |retries| - p
  {
    if p < |retries| {
      NoTurn(owing, p + 1, retries);
    }
  }

  lemma {:induction false} OneTurn(port: nat, p: nat, retries: seq<seq<Arrival>>)
    requires p <= port < |retries|
    ensures (forall q :: q in Admit({}, retries[port]).owing ==> q <= port) ==>
      AdmitInTurn({port}, p, retries) == Admit({}, retries[port])
    decreases port - p
  {
    if p < port {
      OneTurn(port, p + 1, retries);
    } else {
      assert {port} - {port} == {};
      var here := Admit({}, retries[port]);
      if forall q :: q in here.owing ==> q <= port {
        NoTurn(here.owing, port + 1, retries);
        assert here.taken + [] == here.taken;
      }
    }
  }

  /** One port owes a retry and its next read is taken: the tick asks that read and
      nothing else, and no port owes a retry any more. */
  lemma RetriedRead(s: State, retries: seq<seq<Arrival>>, a: Arrival)
    requires Sized(s) && Enabled(s, Tick(retries)) && Owing(s) == {a.port} && a.port < |s.ports|
    requires retries[a.port] == [a] && a.accepted && a.packet.isRead
    ensures Step(s, Tick(retries)).Ok?
    ensures var r := Step(s, Tick(retries)).value;
      && r.asked == s.asked + [a.packet] && r.nbrReads == s.nbrReads + 1 && Owing(r) == {}
      && Get(r.pending, a.packet.addr) == Get(s.pending, a.packet.addr) + [a.packet]
  {
    TickTakesRetries(s, retries);
    assert [a][1..] == [];
    assert Admit({}, [a]) == Admission([a], {});
    OneTurn(a.port, 0, retries);
    assert Reads([a]) == [a.packet] && ReadsOf([a], a.packet.addr) == [a.packet];
  }

  /** When no port owes a retry, a tick asks nobody and changes nothing. */
  lemma IdleTick(s: State, retries: seq<seq<Arrival>>)
    requires Sized(s) && Enabled(s, Tick(retries)) && Owing(s) == {}
    ensures Step(s, Tick(retries)) == Ok(s)
  {
    NobodyOwes(s, 0, retries);
  }

  lemma {:induction false} NobodyOwes(s: State, p: nat, retries: seq<seq<Arrival>>)
    requires Sized(s) && p <= |s.ports| == |retries| && forall i :: 0 <= i < |retries| ==> InRange(retries[i], |s.ports|)
    requires Owing(s) == {}
    ensures RetryFrom(s, p, retries) == s
    decreases |s.ports| - p
  {
    if p < |s.ports| {
      assert p !in Owing(s);
      NobodyOwes(s, p + 1, retries);
    }
  }
}
