/** The gateway as the relay runs it: three maps and the sockets, updated by callbacks. Each
    method is proved to take the corresponding step of the state machine, so every property of
    its runs is a property of these callbacks. */
module RelayGatewayCallbacks {
  import opened Json
  import opened Options
  import opened HarnessStream
  import opened HostAttempt
  import opened Gateway
  import opened GatewayInvariant
  import opened GatewaySteps
  import AA = ActiveAssignment

  /** The calls answered so far while the close callback walks both maps: those of the lost
      host whose entry has already been visited. */
  ghost function SweptSoFar(s: State, hostId: string, turnsLeft: set<string>, resultsLeft: set<string>): seq<Call> {
    seq(|s.calls|, c requires 0 <= c < |s.calls| =>
      if TurnOf(s, c, hostId) && s.calls[c].invocationId in turnsLeft then s.calls[c]
      else if ResultOf(s, c, hostId) && s.calls[c].invocationId in resultsLeft then s.calls[c]
      else SweptCall(s, c, hostId))
  }

  lemma NothingSwept(s: State, hostId: string)
    ensures SweptSoFar(s, hostId, s.attempts.Keys, s.resultAttempts.Keys) == s.calls
  {
  }

  lemma AllSwept(s: State, hostId: string)
    ensures Sweep(s, hostId)
            == s.(hostSockets := s.hostSockets - {hostId},
                  attempts := Unswept(s.attempts, hostId, {}),
                  resultAttempts := UnsweptResults(s.resultAttempts, hostId, {}),
                  assignments := AA.Apply(s.assignments, AA.Disconnect(hostId)),
                  calls := SweptSoFar(s, hostId, {}, {}))
  {
    assert Sweep(s, hostId).calls == SweptSoFar(s, hostId, {}, {});
    assert Sweep(s, hostId).attempts == Unswept(s.attempts, hostId, {});
    assert Sweep(s, hostId).resultAttempts == UnsweptResults(s.resultAttempts, hostId, {});
  }

  /** What is left of a map once every entry outside pending has been visited. */
  ghost function Unswept(turns: Turns, hostId: string, pending: set<string>): Turns {
    map id | id in turns && (id in pending || turns[id].hostId != hostId) :: turns[id]
  }

  ghost function UnsweptResults(results: Results, hostId: string, pending: set<string>): Results {
    map id | id in results && (id in pending || results[id].hostId != hostId) :: results[id]
  }

  /** The part of the invariant the close callback relies on. */
  ghost predicate Linked(s: State) {
    Disjoint(s.attempts, s.resultAttempts) && Tracked(s.attempts, s.resultAttempts, s.calls)
  }

  lemma UnsweepOneTurn(turns: Turns, hostId: string, left: set<string>, id: string)
    requires id in left && left <= turns.Keys
    ensures var before, after := Unswept(turns, hostId, left), Unswept(turns, hostId, left - {id});
            id in before && before[id] == turns[id]
            && after == if turns[id].hostId != hostId then before else before - {id}
  {
  }

  /** Visiting one streamed attempt. */
  lemma SweepOneTurn(s: State, hostId: string, left: set<string>, id: string)
    requires Linked(s) && id in left && left <= s.attempts.Keys
    ensures var a, before, after := s.attempts[id], SweptSoFar(s, hostId, left, s.resultAttempts.Keys),
                                    SweptSoFar(s, hostId, left - {id}, s.resultAttempts.Keys);
            after == if a.hostId != hostId then before
                     else Settle(Deliver(before, a.call, ClosingEvent(a.record)), a.call, Outcome(DisconnectEvents(a.record)))
  {
    assert TurnTracked(s.calls, id, s.attempts[id]);
    var a := s.attempts[id];
    var before, after := SweptSoFar(s, hostId, left, s.resultAttempts.Keys),
                         SweptSoFar(s, hostId, left - {id}, s.resultAttempts.Keys);
    forall c: CallId | c < |s.calls| && c != a.call ensures before[c] == after[c] {
      if TurnOf(s, c, hostId) {
        assert TurnTracked(s.calls, s.calls[c].invocationId, s.attempts[s.calls[c].invocationId]);
      }
    }
    assert id !in s.resultAttempts;
    if a.hostId == hostId {
      assert before[a.call] == s.calls[a.call] && after[a.call] == SweptCall(s, a.call, hostId);
    }
  }

  lemma UnsweepOneResult(results: Results, hostId: string, left: set<string>, id: string)
    requires id in left && left <= results.Keys
    ensures var before, after := UnsweptResults(results, hostId, left), UnsweptResults(results, hostId, left - {id});
            id in before && before[id] == results[id]
            && after == if results[id].hostId != hostId then before else before - {id}
  {
  }

  /** Visiting one result attempt. */
  lemma SweepOneResult(s: State, hostId: string, left: set<string>, id: string)
    requires Linked(s) && id in left && left <= s.resultAttempts.Keys
    ensures var r, before, after := s.resultAttempts[id], SweptSoFar(s, hostId, {}, left),
                                    SweptSoFar(s, hostId, {}, left - {id});
            after == if r.hostId != hostId then before
                     else Settle(before, r.call, Rejected(HostAuthenticationRequired))
  {
    var r := s.resultAttempts[id];
    assert ResultTracked(s.calls, id, r);
    assert id !in s.attempts;
    var before, after := SweptSoFar(s, hostId, {}, left), SweptSoFar(s, hostId, {}, left - {id});
    forall c: CallId | c < |s.calls| && c != r.call ensures before[c] == after[c] {
      if ResultOf(s, c, hostId) { assert ResultTracked(s.calls, s.calls[c].invocationId, s.resultAttempts[s.calls[c].invocationId]); }
    }
    if r.hostId == hostId {
      assert before[r.call] == s.calls[r.call] && after[r.call] == SweptCall(s, r.call, hostId);
    }
  }

  /** Every step keeps the invariant, and with it what single callbacks rely on. */
  lemma StaysSound(s: State, a: Action)
    requires Inv(s)
    ensures Inv(Step(s, a))
    ensures SingleFlight(s.attempts, s.resultAttempts) && Linked(s)
  {
    StepIsGood(s, a);
  }

  class RelayGateway {
    var hostSockets: map<string, SocketId>
    var owner: map<SocketId, string>
    var open: set<SocketId>
    var attempts: map<string, LiveAttempt>
    var resultAttempts: map<string, LiveResultAttempt>
    var assignments: AA.Assignments
    var nextCall: CallId
    /** What every caller has observed so far. */
    ghost var calls: seq<Call>

    ghost function View(): State
      reads this
    {
      State(hostSockets, owner, open, attempts, resultAttempts, assignments, calls)
    }

    ghost predicate Valid()
      reads this
    {
      nextCall == |calls|
    }

    /** The invariant of the state machine, from construction on and across every callback. */
    ghost predicate Sound()
      reads this
    {
      Inv(View())
    }

    /** The state without its history, which no decision looks at. */
    function Current(): State
      reads this
    {
      State(hostSockets, owner, open, attempts, resultAttempts, assignments, [])
    }

    constructor (assignments: AA.Assignments)
      ensures View() == Initial(assignments) && Valid() && Sound()
    {
      hostSockets, owner, open := map[], map[], {};
      attempts, resultAttempts := map[], map[];
      this.assignments := assignments;
      nextCall := 0;
      calls := [];
      new;
      InitialInv(assignments);
    }

    /** hostControl.invoke. None: the returned promise is still pending. */
    method Invoke(inv: Invocation) returns (answer: Option<Answer>)
      requires Valid() && Sound()
      modifies this
      ensures View() == Gateway.Invoke(old(View()), inv) && Valid() && Sound()
      ensures |calls| == |old(calls)| + 1
      ensures calls[|calls| - 1].answers == if answer.Some? then [answer.value] else []
    {
      StaysSound(View(), DoInvoke(inv));
      var admission := AdmissionOf(Current(), inv);
      AdmissionIgnoresHistory(View(), inv);
      answer := CarryOut(inv, admission);
    }

    /** Answering at once, or storing the entry whose settling will answer. */
    method CarryOut(inv: Invocation, admission: Admission) returns (answer: Option<Answer>)
      requires Valid() && SingleFlight(attempts, resultAttempts) && Fits(admission, inv)
      modifies this
      ensures View() == Gateway.CarryOut(old(View()), inv, admission) && Valid()
      ensures |calls| == |old(calls)| + 1
      ensures calls[|calls| - 1].answers == if answer.Some? then [answer.value] else []
    {
      match admission {
        case ForwardCancel =>
          var cancelled := AnswerCancel(inv);
          return Some(cancelled);
        case Refuse(code) =>
          answer := Some(Rejected(code));
          calls := calls + [AnsweredCall(InvocationId(inv), Rejected(code))];
        case CloseUndispatched(q) =>
          var record := NewAttempt(inv.envelope.value, q);
          answer := Some(Outcome(DisconnectEvents(record)));
          calls := calls + [Call(inv.envelope.value.invocationId, Some(record.id), [ClosingEvent(record)],
                                 [Outcome(DisconnectEvents(record))])];
        case AdmitTurn(q) =>
          var e := inv.envelope.value;
          var record := NewAttempt(e, q).(dispatched := true);
          attempts := attempts[e.invocationId :=
            LiveAttempt(nextCall, inv.hostId, inv.providerId, e, q, NewFence(e.generation), [], record)];
          calls := calls + [Call(e.invocationId, Some(record.id), [], [])];
          answer := None;
        case AdmitResult(bindingId) =>
          var e := inv.envelope.value;
          resultAttempts := resultAttempts[e.invocationId :=
            LiveResultAttempt(nextCall, bindingId, inv.hostId, inv.providerId, e)];
          calls := calls + [Call(e.invocationId, None, [], [])];
          answer := None;
      }
      nextCall := nextCall + 1;
    }

    /** hostControl.cancel: it only answers, and sends one frame to the matching attempt. */
    method Cancel(inv: Invocation) returns (answer: Answer)
      requires Valid() && Sound()
      modifies this
      ensures View() == Gateway.Cancel(old(View()), inv) && Valid() && Sound()
      ensures |calls| == |old(calls)| + 1 && calls[|calls| - 1].answers == [answer]
    {
      StaysSound(View(), DoCancel(inv));
      answer := AnswerCancel(inv);
    }

    method AnswerCancel(inv: Invocation) returns (answer: Answer)
      requires Valid() && SingleFlight(attempts, resultAttempts)
      modifies this
      ensures View() == Gateway.Cancel(old(View()), inv) && Valid()
      ensures |calls| == |old(calls)| + 1 && calls[|calls| - 1].answers == [answer]
    {
      var verdict := DecideCancel(inv);
      answer := match verdict
        case CancelRefused(code) => Rejected(code)
        case CancelSent(id) => CancelAccepted(id);
      calls := calls + [AnsweredCall(InvocationId(inv), answer)];
      nextCall := nextCall + 1;
    }

    /** Any matching attempt may be taken, since single flight leaves at most one. */
    method DecideCancel(inv: Invocation) returns (verdict: CancelVerdict)
      requires SingleFlight(attempts, resultAttempts)
      ensures verdict == CancelVerdictOf(View(), inv)
    {
      var checked := CancelRequest(Current(), inv);
      assert checked == CancelRequest(View(), inv);
      if checked.Err? { return CancelRefused(checked.error); }
      var e, q := inv.envelope.value, checked.value;
      if !exists id :: id in attempts && MatchesCancellation(attempts[id], inv.hostId, e, q) {
        return CancelRefused(CancellationMismatch);
      }
      var id :| id in attempts && MatchesCancellation(attempts[id], inv.hostId, e, q);
      MatchIsUnique(View(), inv.hostId, e, q, id);
      if !SocketOpen(Current(), attempts[id].hostId) { return CancelRefused(HostAuthenticationRequired); }
      if inv.sendFails { return CancelRefused(SendFailed); }
      return CancelSent(attempts[id].envelope.invocationId);
    }

    /** acceptInvocationEvent, for a frame that isInvocationEventFrame let through. */
    method AcceptEvent(socket: SocketId, e: Event, public: bool)
      requires Valid() && Sound() && FrameAdmits(e)
      modifies this
      ensures View() == Gateway.AcceptEvent(old(View()), socket, e, public) && Valid() && Sound()
    {
      StaysSound(View(), HostEvent(socket, e, public));
      CheckEvent(socket, e, public);
    }

    /** The tests of an event, in order; the first that fails rejects the attempt. */
    method CheckEvent(socket: SocketId, e: Event, public: bool)
      requires Valid()
      modifies this`open, this`attempts, this`calls
      ensures View() == Gateway.AcceptEvent(old(View()), socket, e, public) && Valid()
    {
      var id := e.id.invocationId;
      if socket !in owner { return; }
      if id !in attempts || attempts[id].hostId != owner[socket] {
        open := open - {socket};
        return;
      }
      var refusal := EventRefusal(Current(), attempts[id], e, public);
      assert refusal == EventRefusal(View(), attempts[id], e, public);
      if refusal.Some? {
        calls := Settle(calls, attempts[id].call, Rejected(refusal.value));
        attempts := attempts - {id};
        open := open - {socket};
        return;
      }
      TakeEvent(id, e);
    }

    /** An accepted event: recorded, handed to the disconnect record unless terminal, delivered,
        and completing the call if terminal. */
    method TakeEvent(id: string, e: Event)
      requires Valid() && id in attempts
      modifies this`attempts, this`calls
      ensures View() == RecordEvent(old(View()), id, e) && Valid()
    {
      var attempt := attempts[id];
      attempt := attempt.(fence := AfterEvent(attempt.fence, e), events := attempt.events + [e]);
      attempts := attempts[id := attempt];
      if !e.kind.Terminal? {
        if !AcceptsPublic(attempt.record, e) { return; }
        attempts := attempts[id := attempt.(record := attempt.record.(events := attempt.record.events + [e]))];
      }
      calls := Deliver(calls, attempt.call, e);
      if e.kind.Terminal? {
        attempts := attempts - {id};
        calls := Settle(calls, attempt.call, Completed(attempt.events));
      }
    }

    /** acceptInvocationResult. */
    method AcceptResult(socket: SocketId, id: string, generation: int, value: Json)
      requires Valid() && Sound()
      modifies this
      ensures View() == Gateway.AcceptResult(old(View()), socket, id, generation, value) && Valid() && Sound()
    {
      StaysSound(View(), HostResultFrame(socket, id, generation, value));
      CheckResult(socket, id, generation, value);
    }

    method CheckResult(socket: SocketId, id: string, generation: int, value: Json)
      requires Valid()
      modifies this`open, this`resultAttempts, this`calls
      ensures View() == Gateway.AcceptResult(old(View()), socket, id, generation, value) && Valid()
    {
      if socket !in owner { return; }
      if id !in resultAttempts {
        open := open - {socket};
        return;
      }
      var attempt := resultAttempts[id];
      resultAttempts := resultAttempts - {id};
      if ResultAccepted(Current(), attempt, owner[socket], generation, value) {
        calls := Settle(calls, attempt.call, HostResult(value));
      } else {
        calls := Settle(calls, attempt.call, Rejected(InvalidHostOutput));
        open := open - {socket};
      }
    }

    /** The upgrade callback: the host's previous socket, if any, is told to close. */
    method Connect(hostId: string, socket: SocketId)
      requires Valid() && Sound() && socket !in owner
      modifies this
      ensures View() == OpenSocket(old(View()), hostId, socket) && Valid() && Sound()
    {
      StaysSound(View(), Gateway.Connect(hostId, socket));
      Register(hostId, socket);
    }

    method Register(hostId: string, socket: SocketId)
      requires socket !in owner
      modifies this`open, this`hostSockets, this`owner
      ensures View() == OpenSocket(old(View()), hostId, socket)
    {
      if hostId in hostSockets { open := open - {hostSockets[hostId]}; }
      open := open + {socket};
      hostSockets := hostSockets[hostId := socket];
      owner := owner[socket := hostId];
    }

    /** The close callback. */
    method Closed(socket: SocketId)
      requires Valid() && Sound()
      modifies this
      ensures View() == SocketClosed(old(View()), socket) && Valid() && Sound()
    {
      StaysSound(View(), CloseSocket(socket));
      SweepLostHost(socket);
    }

    method SweepLostHost(socket: SocketId)
      requires Valid() && Linked(View())
      modifies this
      ensures View() == SocketClosed(old(View()), socket) && Valid()
    {
      open := open - {socket};
      if socket !in owner { return; }
      var hostId := owner[socket];
      if hostId !in hostSockets || hostSockets[hostId] != socket { return; }
      ghost var before := View();
      SweepTurns(hostId, before);
      SweepResults(hostId, before);
      hostSockets := hostSockets - {hostId};
      assignments := AA.Apply(assignments, AA.Disconnect(hostId));
      AllSwept(before, hostId);
    }

    /** The first loop: every streamed attempt of the lost host gets its closing terminal. */
    method SweepTurns(hostId: string, ghost before: State)
      requires Linked(before) && View() == before
      modifies this`attempts, this`calls
      ensures attempts == Unswept(before.attempts, hostId, {})
      ensures calls == SweptSoFar(before, hostId, {}, before.resultAttempts.Keys)
    {
      NothingSwept(before, hostId);
      var turns := attempts.Keys;
      while turns != {}
        invariant turns <= before.attempts.Keys
        invariant attempts == Unswept(before.attempts, hostId, turns)
        invariant calls == SweptSoFar(before, hostId, turns, before.resultAttempts.Keys)
        decreases turns
      {
        var id :| id in turns;
        UnsweepOneTurn(before.attempts, hostId, turns, id);
        SweepOneTurn(before, hostId, turns, id);
        var attempt := attempts[id];
        turns := turns - {id};
        if attempt.hostId == hostId {
          attempts := attempts - {id};
          calls := Deliver(calls, attempt.call, ClosingEvent(attempt.record));
          calls := Settle(calls, attempt.call, Outcome(DisconnectEvents(attempt.record)));
        }
      }
    }

    /** The second loop: every one-shot call of the lost host is rejected. */
    method SweepResults(hostId: string, ghost before: State)
      requires Linked(before) && resultAttempts == before.resultAttempts
      requires calls == SweptSoFar(before, hostId, {}, before.resultAttempts.Keys)
      modifies this`resultAttempts, this`calls
      ensures resultAttempts == UnsweptResults(before.resultAttempts, hostId, {})
      ensures calls == SweptSoFar(before, hostId, {}, {})
    {
      var results := resultAttempts.Keys;
      while results != {}
        invariant results <= before.resultAttempts.Keys
        invariant resultAttempts == UnsweptResults(before.resultAttempts, hostId, results)
        invariant calls == SweptSoFar(before, hostId, {}, results)
        decreases results
      {
        var id :| id in results;
        UnsweepOneResult(before.resultAttempts, hostId, results, id);
        SweepOneResult(before, hostId, results, id);
        var attempt := resultAttempts[id];
        results := results - {id};
        if attempt.hostId == hostId {
          resultAttempts := resultAttempts - {id};
          calls := Settle(calls, attempt.call, Rejected(HostAuthenticationRequired));
        }
      }
    }
  }

  lemma AdmissionIgnoresHistory(s: State, inv: Invocation)
    ensures AdmissionOf(s.(calls := []), inv) == AdmissionOf(s, inv)
  {
    var t := s.(calls := []);
    if inv.envelope.Some? && ValidEnvelope(inv.envelope.value) {
      var e := inv.envelope.value;
      var parsed := ParseRequest(e.invocationId, e.operation, inv.payload);
      if parsed.Some? {
        var found := Lookup(s, inv, e, parsed.value);
        assert Lookup(t, inv, e, parsed.value) == found;
        assert found.Some? ==>
            (ActiveForBinding(t, found.value.record.bindingId) <==> ActiveForBinding(s, found.value.record.bindingId));
      }
    }
  }

  lemma MatchIsUnique(s: State, hostId: string, e: Envelope, q: Request, id: string)
    requires SingleFlight(s.attempts, s.resultAttempts) && q.CancelTurn?
    requires id in s.attempts && MatchesCancellation(s.attempts[id], hostId, e, q)
    ensures forall other | other in s.attempts && MatchesCancellation(s.attempts[other], hostId, e, q) :: other == id
  {
    forall other | other in s.attempts && MatchesCancellation(s.attempts[other], hostId, e, q) ensures other == id {
      assert BindingOf(s.attempts, s.resultAttempts, other) == BindingOf(s.attempts, s.resultAttempts, id);
    }
  }
}
