/** What a frame from a host does to a live entry, stated by the stored records, the turn the entry
    was admitted for and the events recorded so far. */
module GatewayAcceptance {
  import opened Json
  import opened Options
  import opened HarnessStream
  import opened HostAttempt
  import opened Gateway
  import opened GatewayInvariant
  import opened GatewaySteps
  import opened GatewayTheorems
  import opened GatewayAdmission
  import AA = ActiveAssignment

  // ---- events

  /** The binding's record is ready and still held by the attempt's host and provider, for its
      workspace and at its generation. */
  ghost predicate StillHolds(assignments: AA.Assignments, a: LiveAttempt)
    requires a.request.Start?
  {
    exists r :: FirstOfBinding(assignments.records, a.request.id.bindingId, r)
                && r.hostId == a.hostId && r.providerId == Some(a.providerId)
                && r.workspaceBindingId == a.envelope.scopeId && r.generation == a.envelope.generation
                && r.hostId in assignments.connected && ReportedReady(assignments, r)
  }

  lemma FencedExactlyWhen(assignments: AA.Assignments, a: LiveAttempt)
    requires a.request.Start?
    ensures FencedByAssignment(assignments, a) <==> StillHolds(assignments, a)
  {
    FindBindingIsFirst(assignments.records, a.request.id.bindingId);
  }

  predicate Exceeds(e: Event, events: seq<Event>) {
    forall i | 0 <= i < |events| :: events[i].sequence < e.sequence
  }

  /** An event of the attempt's own turn, which the public-output check lets through unless it is
      terminal, numbered above all recorded ones, while the assignment holds. */
  ghost predicate Passes(s: State, a: LiveAttempt, e: Event, public: bool)
    requires a.request.Start?
  {
    StillHolds(s.assignments, a) && e.id == a.request.id && (e.kind.Terminal? || public) && Exceeds(e, a.events)
  }

  /** The entry goes, its caller gets the rejection and nothing else, the socket is no longer read. */
  ghost predicate Drops(s: State, t: State, socket: SocketId, id: string, code: ErrorCode)
    requires id in s.attempts && s.attempts[id].call < |s.calls|
  {
    var c := s.attempts[id].call;
    t == s.(attempts := s.attempts - {id}, open := s.open - {socket},
            calls := s.calls[c := s.calls[c].(answers := [Rejected(code)])])
  }

  lemma TurnOfEvent(s: State, id: string, e: Event)
    requires Inv(s) && id in s.attempts && id == e.id.invocationId && FrameAdmits(e)
    ensures var a := s.attempts[id];
            && a.request.Start? && a.call < |s.calls|
            && a.record.id == a.request.id
            && s.calls[a.call] == Call(id, Some(a.request.id), a.record.events, [])
            && (Correlates(a, e) <==> e.id == a.request.id)
            && (e.id == a.request.id ==> Verdict(a.fence, e) == if Exceeds(e, a.events) then None else Some(OutOfOrderSequence))
            && (AcceptsPublic(a.record, e) <==> e.id == a.request.id && !e.kind.Terminal? && e.sequence == |a.record.events| + 1)
  {
    TurnFacts(s, id);
    FrameAdmitsWhen(e);
    var a := s.attempts[id];
    assert a.fence == FenceOf(a.record.id, a.events);
    if a.events != [] {
      var last := a.events[|a.events| - 1];
      assert forall i | 0 <= i < |a.events| :: a.events[i].sequence <= last.sequence;
    }
  }

  /** A frame from a socket without a host is nothing; one for an invocation its host has no live
      attempt for only stops the socket from being read. */
  lemma ForeignEventIsIgnored(s: State, socket: SocketId, e: Event, public: bool)
    ensures socket !in s.owner ==> AcceptEvent(s, socket, e, public) == s
    ensures socket in s.owner
            && (e.id.invocationId !in s.attempts || s.attempts[e.id.invocationId].hostId != s.owner[socket]) ==>
              AcceptEvent(s, socket, e, public) == s.(open := s.open - {socket})
  {
  }

  /** An event for a live attempt of the socket's host is taken exactly if it passes; otherwise the
      attempt is dropped, with the reason of the first test that fails. */
  lemma EventIsTakenExactlyWhen(s: State, socket: SocketId, e: Event, public: bool)
    requires Inv(s) && FrameAdmits(e) && socket in s.owner
    requires e.id.invocationId in s.attempts && s.attempts[e.id.invocationId].hostId == s.owner[socket]
    ensures var id, t := e.id.invocationId, AcceptEvent(s, socket, e, public);
            var a := s.attempts[id];
            && a.request.Start? && a.call < |s.calls|
            && (Passes(s, a, e, public) ==> Takes(s, t, id, e))
            && (!StillHolds(s.assignments, a) ==> Drops(s, t, socket, id, Fenced(StaleGeneration)))
            && (StillHolds(s.assignments, a) && (e.id != a.request.id || !(e.kind.Terminal? || public)) ==>
                  Drops(s, t, socket, id, InvalidHostOutput))
            && (StillHolds(s.assignments, a) && e.id == a.request.id && (e.kind.Terminal? || public) && !Exceeds(e, a.events) ==>
                  Drops(s, t, socket, id, Fenced(OutOfOrderSequence)))
  {
    var id := e.id.invocationId;
    var a := s.attempts[id];
    TurnOfEvent(s, id, e);
    FencedExactlyWhen(s.assignments, a);
    var refusal := EventRefusal(s, a, e, public);
    if refusal.Some? {
      SettledCall(s.calls, a.call, Rejected(refusal.value));
    } else {
      TakenExactly(s, id, e);
    }
  }

  /** The event is recorded. A terminal one is delivered, removes the entry and answers the call with
      all recorded events; a public one is delivered exactly if it carries the next number. */
  ghost predicate Takes(s: State, t: State, id: string, e: Event)
    requires id in s.attempts && s.attempts[id].call < |s.calls|
  {
    var a := s.attempts[id];
    var call, events := s.calls[a.call], a.events + [e];
    var recorded := a.(events := events, fence := Fence(a.envelope.generation, e.sequence, e.kind.Terminal?));
    if e.kind.Terminal? then
      t == s.(attempts := s.attempts - {id},
              calls := s.calls[a.call := call.(delivered := call.delivered + [e], answers := [Completed(events)])])
    else if e.sequence == |a.record.events| + 1 then
      t == s.(attempts := s.attempts[id := recorded.(record := a.record.(events := a.record.events + [e]))],
              calls := s.calls[a.call := call.(delivered := call.delivered + [e])])
    else
      t == s.(attempts := s.attempts[id := recorded])
  }

  lemma TakenExactly(s: State, id: string, e: Event)
    requires Inv(s) && id in s.attempts && id == e.id.invocationId && FrameAdmits(e)
    requires e.id == s.attempts[id].request.id && Exceeds(e, s.attempts[id].events)
    ensures s.attempts[id].call < |s.calls| && Takes(s, RecordEvent(s, id, e), id, e)
  {
    var a := s.attempts[id];
    TurnOfEvent(s, id, e);
    assert AfterEvent(a.fence, e) == Fence(a.envelope.generation, e.sequence, e.kind.Terminal?) by { TurnFacts(s, id); }
    if e.kind.Terminal? { CompletedCall(s.calls, a.call, e, Completed(a.events + [e])); }
  }

  // ---- results

  /** The first record that the call's host and provider hold for its workspace belongs to a binding
      whose record is ready and at the call's generation. */
  ghost predicate HolderFenced(assignments: AA.Assignments, r: LiveResultAttempt) {
    exists held, own ::
      && FirstOfHolder(assignments.records, r.hostId, r.providerId, r.envelope.scopeId, held)
      && FirstOfBinding(assignments.records, held.bindingId, own)
      && own.hostId in assignments.connected && ReportedReady(assignments, own)
      && own.generation == r.envelope.generation
  }

  lemma HolderFencedExactlyWhen(assignments: AA.Assignments, r: LiveResultAttempt)
    ensures FencedByTuple(assignments, r) <==> HolderFenced(assignments, r)
  {
    FindTupleIsFirst(assignments.records, r.hostId, r.providerId, r.envelope.scopeId);
    var held := AA.FindTuple(assignments.records, r.hostId, r.providerId, r.envelope.scopeId);
    if held.Some? { FindBindingIsFirst(assignments.records, held.value.bindingId); }
  }

  ghost predicate PassesResult(s: State, r: LiveResultAttempt, host: string, generation: int, value: Json) {
    && r.hostId == host && HolderFenced(s.assignments, r)
    && generation == r.envelope.generation
    && value.Obj? && IsProviderNeutral(value)
  }

  /** A result frame ends the one-shot call it names: it resolves with the result exactly if the result
      passes, and is rejected otherwise, when the socket is no longer read either. */
  lemma ResultIsTakenExactlyWhen(s: State, socket: SocketId, id: string, generation: int, value: Json)
    requires Inv(s) && socket in s.owner && id in s.resultAttempts
    ensures var r, t := s.resultAttempts[id], AcceptResult(s, socket, id, generation, value);
            && r.call < |s.calls|
            && t == if PassesResult(s, r, s.owner[socket], generation, value)
                    then s.(resultAttempts := s.resultAttempts - {id},
                            calls := s.calls[r.call := s.calls[r.call].(answers := [HostResult(value)])])
                    else s.(resultAttempts := s.resultAttempts - {id}, open := s.open - {socket},
                            calls := s.calls[r.call := s.calls[r.call].(answers := [Rejected(InvalidHostOutput)])])
  {
    var r := s.resultAttempts[id];
    assert ResultTracked(s.calls, id, r);
    HolderFencedExactlyWhen(s.assignments, r);
    SettledCall(s.calls, r.call, HostResult(value));
    SettledCall(s.calls, r.call, Rejected(InvalidHostOutput));
  }

  lemma ForeignResultIsIgnored(s: State, socket: SocketId, id: string, generation: int, value: Json)
    ensures socket !in s.owner ==> AcceptResult(s, socket, id, generation, value) == s
    ensures socket in s.owner && id !in s.resultAttempts ==>
              AcceptResult(s, socket, id, generation, value) == s.(open := s.open - {socket})
  {
  }

  // ---- losing the host

  ghost predicate AllDispatched(turns: Turns) {
    forall id | id in turns :: turns[id].record.dispatched
  }

  lemma InvokeKeepsDispatched(s: State, inv: Invocation)
    requires AllDispatched(s.attempts)
    ensures AllDispatched(Invoke(s, inv).attempts)
  {
    AdmittedExactlyWhen(s, inv);
    if q, r :| Admits(s, inv, q, r) { AdmittedIsStored(s, inv, q, r); }
  }

  lemma RecordKeepsDispatched(s: State, id: string, e: Event)
    requires AllDispatched(s.attempts) && id in s.attempts
    ensures AllDispatched(RecordEvent(s, id, e).attempts)
  {
  }

  lemma StepKeepsDispatched(s: State, a: Action)
    requires AllDispatched(s.attempts)
    ensures AllDispatched(Step(s, a).attempts)
  {
    match a
    case DoInvoke(inv) => InvokeKeepsDispatched(s, inv);
    case HostEvent(socket, e, public) =>
      if e.id.invocationId in s.attempts { RecordKeepsDispatched(s, e.id.invocationId, e); }
    case _ =>
  }

  lemma {:induction false} RunIsDispatched(assignments: AA.Assignments, actions: seq<Action>)
    ensures AllDispatched(Run(Initial(assignments), actions).attempts)
  {
    if actions != [] {
      RunIsDispatched(assignments, actions[..|actions| - 1]);
      StepKeepsDispatched(Run(Initial(assignments), actions[..|actions| - 1]), actions[|actions| - 1]);
    }
  }

  /** Losing the current socket of a host answers each of its streamed attempts with the events their
      callers were given and one terminal more, with the next number and outcome unknown, since every
      live attempt was dispatched. */
  lemma LostHostClosesTurn(assignments: AA.Assignments, actions: seq<Action>, socket: SocketId, id: string)
    requires var s := Run(Initial(assignments), actions);
             IsCurrent(s, socket) && id in s.attempts && s.attempts[id].hostId == s.owner[socket]
    ensures var s := Run(Initial(assignments), actions);
            var a, t := s.attempts[id], SocketClosed(s, socket);
            var closing := Event(a.record.id, |a.record.events| + 1, Terminal, Obj(map["outcome" := Str("unknown")]));
            && a.request.Start? && a.record.id == a.request.id && a.call < |t.calls|
            && t.calls[a.call]
               == Call(id, Some(a.record.id), a.record.events + [closing], [Outcome(a.record.events + [closing])])
  {
    var s := Run(Initial(assignments), actions);
    var a, mid := s.attempts[id], StopReading(s, socket);
    RunIsDispatched(assignments, actions);
    assert LiveTurn(a, id) && a.call < |s.calls| && s.calls[a.call] == Call(id, Some(a.record.id), a.record.events, []) by {
      ReachableInv(s);
      TurnFacts(s, id);
    }
    assert TurnOf(mid, a.call, s.owner[socket]);
    assert Sweep(mid, s.owner[socket]).calls[a.call] == SweptCall(mid, a.call, s.owner[socket]);
    assert [] + [Outcome(DisconnectEvents(a.record))] == [Outcome(DisconnectEvents(a.record))];
  }

  // ---- sockets

  /** Every socket still read is the current one of its host. */
  ghost predicate OpenAreCurrent(s: State) {
    forall socket | socket in s.open :: IsCurrent(s, socket)
  }

  lemma InvokeLeavesSockets(s: State, inv: Invocation)
    ensures var t := Invoke(s, inv); t.open == s.open && t.owner == s.owner && t.hostSockets == s.hostSockets
  {
    match AdmissionOf(s, inv)
    case AdmitTurn(q) => AdmittedTurn(s, inv, q);
    case AdmitResult(bindingId) => AdmittedResult(s, inv, bindingId);
    case _ =>
  }

  lemma EventLeavesSockets(s: State, socket: SocketId, e: Event, public: bool)
    ensures var t := AcceptEvent(s, socket, e, public);
            t.open <= s.open && t.owner == s.owner && t.hostSockets == s.hostSockets
  {
  }

  lemma ResultLeavesSockets(s: State, socket: SocketId, id: string, generation: int, value: Json)
    ensures var t := AcceptResult(s, socket, id, generation, value);
            t.open <= s.open && t.owner == s.owner && t.hostSockets == s.hostSockets
  {
  }

  lemma StepKeepsOpenCurrent(s: State, a: Action)
    requires OpenAreCurrent(s)
    ensures OpenAreCurrent(Step(s, a))
  {
    match a
    case DoInvoke(inv) => InvokeLeavesSockets(s, inv);
    case HostEvent(socket, e, public) => EventLeavesSockets(s, socket, e, public);
    case HostResultFrame(socket, id, generation, value) => ResultLeavesSockets(s, socket, id, generation, value);
    case _ =>
  }

  /** Over every run at most one socket of a host is read, the last it connected. */
  lemma {:induction false} OpenSocketsAreCurrent(assignments: AA.Assignments, actions: seq<Action>)
    ensures OpenAreCurrent(Run(Initial(assignments), actions))
  {
    if actions != [] {
      OpenSocketsAreCurrent(assignments, actions[..|actions| - 1]);
      StepKeepsOpenCurrent(Run(Initial(assignments), actions[..|actions| - 1]), actions[|actions| - 1]);
    }
  }
}
