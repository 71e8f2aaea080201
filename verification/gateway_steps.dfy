/** Every gateway callback keeps the invariant and only ever extends what callers see. */
module GatewaySteps {
  import opened Json
  import opened Options
  import opened HarnessStream
  import opened HostAttempt
  import opened Gateway
  import opened GatewayInvariant
  import AA = ActiveAssignment

  /** How one caller's view may change: it grows until it is answered, then it is final. */
  ghost predicate Extends(before: Call, after: Call) {
    && after.invocationId == before.invocationId
    && after.attempt == before.attempt
    && before.delivered <= after.delivered
    && before.answers <= after.answers
    && (before.answers != [] ==> after == before)
  }

  ghost predicate Evolves(before: seq<Call>, after: seq<Call>) {
    |before| <= |after| && forall c | 0 <= c < |before| :: Extends(before[c], after[c])
  }

  /** What a callback guarantees. */
  ghost predicate GoodStep(s: State, t: State) {
    Inv(t) && Evolves(s.calls, t.calls)
  }

  lemma AppendIsGood(s: State, call: Call)
    requires Inv(s) && CallSound(call) && call.answers != []
    ensures GoodStep(s, s.(calls := s.calls + [call]))
  {
    AppendKeepsTracked(s.attempts, s.resultAttempts, s.calls, call);
  }

  /** Nothing the invariant speaks of depends on which sockets are still read. */
  lemma StopReadingIsGood(s: State, t: State, socket: SocketId)
    requires GoodStep(s, t)
    ensures GoodStep(s, StopReading(t, socket))
  {
  }

  lemma CancelIsGood(s: State, inv: Invocation)
    requires Inv(s)
    ensures GoodStep(s, Cancel(s, inv))
  {
    AppendIsGood(s, Cancel(s, inv).calls[|s.calls|]);
  }

  // ---- invoke

  /** A request admitted for a turn names the envelope's invocation and generation, and its
      binding is free. */
  lemma AdmittedTurn(s: State, inv: Invocation, q: Request)
    requires AdmissionOf(s, inv) == AdmitTurn(q) || AdmissionOf(s, inv) == CloseUndispatched(q)
    ensures inv.envelope.Some? && ValidEnvelope(inv.envelope.value)
    ensures var e := inv.envelope.value;
            && q.Start?
            && q.id.invocationId == e.invocationId && q.id.generation == e.generation
            && ValidIdentity(q.id)
            && e.invocationId !in Live(s.attempts, s.resultAttempts)
            && !ActiveForBinding(s, q.id.bindingId)
  {
    var e := inv.envelope.value;
    ParsedRequestIsEncoded(e.invocationId, e.operation, inv.payload);
    AA.FoundBindingIsOwn(s.assignments.records, q.id.bindingId);
  }

  lemma AdmittedResult(s: State, inv: Invocation, bindingId: string)
    requires AdmissionOf(s, inv) == AdmitResult(bindingId)
    ensures inv.envelope.Some? && ValidEnvelope(inv.envelope.value)
    ensures var e := inv.envelope.value;
            && e.operation in {"provider.describe", "thread.ensure"}
            && e.invocationId !in Live(s.attempts, s.resultAttempts)
            && !ActiveForBinding(s, bindingId)
  {
    var e := inv.envelope.value;
    ParsedRequestIsEncoded(e.invocationId, e.operation, inv.payload);
  }

  lemma AdmittedHost(s: State, inv: Invocation)
    requires AdmissionOf(s, inv).AdmitTurn? || AdmissionOf(s, inv).AdmitResult?
    ensures inv.hostId in s.hostSockets
  {
  }

  lemma FreeBinding(s: State, bindingId: string)
    requires !ActiveForBinding(s, bindingId)
    ensures forall i | i in Live(s.attempts, s.resultAttempts) ::
              BindingOf(s.attempts, s.resultAttempts, i) != Some(bindingId)
  {
  }

  lemma NewAttemptIsLive(e: Envelope, q: Request)
    requires q.Start? && ValidEnvelope(e) && ValidIdentity(q.id)
    ensures LiveAttemptState(NewAttempt(e, q))
  {
  }

  lemma CloseNowIsGood(s: State, e: Envelope, q: Request)
    requires Inv(s) && q.Start? && ValidEnvelope(e) && ValidIdentity(q.id)
    ensures GoodStep(s, CloseNow(s, e, q))
  {
    var a := NewAttempt(e, q);
    NewAttemptIsLive(e, q);
    DisconnectIsValidStream(a);
    assert DisconnectEvents(a) == [ClosingEvent(a)];
    AppendIsGood(s, CloseNow(s, e, q).calls[|s.calls|]);
  }

  lemma StoredTurnIsLive(s: State, inv: Invocation, q: Request)
    requires AdmissionOf(s, inv) == AdmitTurn(q)
    ensures inv.envelope.Some? && q.Start?
    ensures var id := inv.envelope.value.invocationId;
            && id !in Live(s.attempts, s.resultAttempts)
            && LiveTurn(StoreTurn(s, inv, q).attempts[id], id)
  {
    AdmittedTurn(s, inv, q);
    NewAttemptIsLive(inv.envelope.value, q);
  }

  lemma StoreTurnKeepsMaps(s: State, inv: Invocation, q: Request)
    requires MapsInv(s.attempts, s.resultAttempts, s.hostSockets.Keys)
    requires inv.envelope.Some? && q.Start? && inv.envelope.value.invocationId !in Live(s.attempts, s.resultAttempts)
    requires !ActiveForBinding(s, q.id.bindingId) && inv.hostId in s.hostSockets
    ensures var t := StoreTurn(s, inv, q); MapsInv(t.attempts, t.resultAttempts, t.hostSockets.Keys)
  {
    var id, t := inv.envelope.value.invocationId, StoreTurn(s, inv, q);
    FreeBinding(s, q.id.bindingId);
    assert t.attempts - {id} == s.attempts;
    StoreKeepsMapsInv(s.attempts, s.resultAttempts, t.attempts, t.resultAttempts, s.hostSockets.Keys, id);
  }

  lemma ReplacedTurnKeepsLive(turns: Turns, id: string, a: LiveAttempt)
    requires TurnsLive(turns) && LiveTurn(a, id)
    ensures TurnsLive(turns[id := a])
  {
  }

  lemma WaitingCallKeepsCalls(calls: seq<Call>, call: Call)
    requires CallsSound(calls) && call.answers == []
    ensures CallsSound(calls + [call]) && Evolves(calls, calls + [call])
  {
  }

  lemma StoreTurnIsGood(s: State, inv: Invocation, q: Request)
    requires Inv(s) && AdmissionOf(s, inv) == AdmitTurn(q)
    ensures inv.envelope.Some? && q.Start?
    ensures GoodStep(s, StoreTurn(s, inv, q))
  {
    StoredTurnIsLive(s, inv, q);
    var t, id := StoreTurn(s, inv, q), inv.envelope.value.invocationId;
    assert TurnsLive(t.attempts) by { ReplacedTurnKeepsLive(s.attempts, id, t.attempts[id]); }
    assert CallsSound(t.calls) && Evolves(s.calls, t.calls) by { WaitingCallKeepsCalls(s.calls, t.calls[|s.calls|]); }
    assert Tracked(t.attempts, t.resultAttempts, t.calls) by {
      StoreTurnKeepsTracked(s.attempts, s.resultAttempts, s.calls, t.attempts[id]);
    }
    assert MapsInv(t.attempts, t.resultAttempts, t.hostSockets.Keys) by {
      AdmittedTurn(s, inv, q);
      AdmittedHost(s, inv);
      StoreTurnKeepsMaps(s, inv, q);
    }
  }

  lemma StoreResultKeepsMaps(s: State, inv: Invocation, bindingId: string)
    requires MapsInv(s.attempts, s.resultAttempts, s.hostSockets.Keys)
    requires inv.envelope.Some? && inv.envelope.value.invocationId !in Live(s.attempts, s.resultAttempts)
    requires !ActiveForBinding(s, bindingId) && inv.hostId in s.hostSockets
    ensures var t := StoreResult(s, inv, bindingId); MapsInv(t.attempts, t.resultAttempts, t.hostSockets.Keys)
  {
    var id, t := inv.envelope.value.invocationId, StoreResult(s, inv, bindingId);
    FreeBinding(s, bindingId);
    assert t.resultAttempts - {id} == s.resultAttempts;
    StoreKeepsMapsInv(s.attempts, s.resultAttempts, t.attempts, t.resultAttempts, s.hostSockets.Keys, id);
  }

  lemma StoreResultIsGood(s: State, inv: Invocation, bindingId: string)
    requires Inv(s) && AdmissionOf(s, inv) == AdmitResult(bindingId)
    ensures inv.envelope.Some?
    ensures GoodStep(s, StoreResult(s, inv, bindingId))
  {
    var t := StoreResult(s, inv, bindingId);
    assert Tracked(t.attempts, t.resultAttempts, t.calls) by {
      AdmittedResult(s, inv, bindingId);
      StoreResultKeepsTracked(s.attempts, s.resultAttempts, s.calls, t.resultAttempts[inv.envelope.value.invocationId]);
    }
    assert MapsInv(t.attempts, t.resultAttempts, t.hostSockets.Keys) by {
      AdmittedResult(s, inv, bindingId);
      AdmittedHost(s, inv);
      StoreResultKeepsMaps(s, inv, bindingId);
    }
  }

  lemma InvokeIsGood(s: State, inv: Invocation)
    requires Inv(s)
    ensures GoodStep(s, Invoke(s, inv))
  {
    match AdmissionOf(s, inv)
    case Refuse(code) => AppendIsGood(s, AnsweredCall(InvocationId(inv), Rejected(code)));
    case ForwardCancel => CancelIsGood(s, inv);
    case CloseUndispatched(q) =>
      AdmittedTurn(s, inv, q);
      CloseNowIsGood(s, inv.envelope.value, q);
    case AdmitTurn(q) => StoreTurnIsGood(s, inv, q);
    case AdmitResult(bindingId) => StoreResultIsGood(s, inv, bindingId);
  }

  // ---- settling one entry

  lemma AnsweringKeepsCalls(calls: seq<Call>, k: CallId, call: Call)
    requires CallsSound(calls) && k < |calls| && Extends(calls[k], call) && CallSound(call)
    ensures CallsSound(calls[k := call]) && Evolves(calls, calls[k := call])
  {
  }

  lemma SettleTurnIsGood(s: State, id: string, call: Call)
    requires Inv(s) && id in s.attempts
    requires s.attempts[id].call < |s.calls| && Extends(s.calls[s.attempts[id].call], call)
    requires CallSound(call) && call.answers != []
    ensures GoodStep(s, s.(attempts := s.attempts - {id}, calls := s.calls[s.attempts[id].call := call]))
  {
    var turns', calls' := s.attempts - {id}, s.calls[s.attempts[id].call := call];
    assert CallsSound(calls') && Evolves(s.calls, calls') by { AnsweringKeepsCalls(s.calls, s.attempts[id].call, call); }
    assert Tracked(turns', s.resultAttempts, calls') by {
      SettleTurnKeepsTracked(s.attempts, s.resultAttempts, s.calls, id, call);
    }
    assert MapsInv(turns', s.resultAttempts, s.hostSockets.Keys) by {
      ShrinkKeepsMapsInv(s.attempts, s.resultAttempts, turns', s.resultAttempts, s.hostSockets.Keys);
    }
  }

  lemma SettleResultIsGood(s: State, id: string, answer: Answer)
    requires Inv(s) && id in s.resultAttempts && (answer.Rejected? || answer.HostResult?)
    ensures GoodStep(s, SettleResult(s, id, answer))
  {
    assert ResultTracked(s.calls, id, s.resultAttempts[id]);
    var k, results' := s.resultAttempts[id].call, s.resultAttempts - {id};
    assert Tracked(s.attempts, results', Settle(s.calls, k, answer)) by {
      SettleResultKeepsTracked(s.attempts, s.resultAttempts, s.calls, id, Settle(s.calls, k, answer)[k]);
    }
    assert MapsInv(s.attempts, results', s.hostSockets.Keys) by {
      ShrinkKeepsMapsInv(s.attempts, s.resultAttempts, s.attempts, results', s.hostSockets.Keys);
    }
  }

  /** What the invariant says of one live streamed attempt. */
  lemma TurnFacts(s: State, id: string)
    requires Inv(s) && id in s.attempts
    ensures var a := s.attempts[id];
            && LiveTurn(a, id)
            && a.call < |s.calls|
            && s.calls[a.call] == Call(id, Some(a.record.id), a.record.events, [])
  {
    assert TurnTracked(s.calls, id, s.attempts[id]);
  }

  lemma SettledCall(calls: seq<Call>, c: CallId, answer: Answer)
    requires c < |calls| && calls[c].answers == []
    ensures Settle(calls, c, answer) == calls[c := calls[c].(answers := [answer])]
  {
    assert [] + [answer] == [answer];
  }

  lemma CompletedCall(calls: seq<Call>, c: CallId, e: Event, answer: Answer)
    requires c < |calls| && calls[c].answers == []
    ensures Settle(Deliver(calls, c, e), c, answer)
            == calls[c := calls[c].(delivered := calls[c].delivered + [e], answers := [answer])]
  {
    SettledCall(Deliver(calls, c, e), c, answer);
  }

  lemma RejectTurnIsGood(s: State, id: string, code: ErrorCode)
    requires Inv(s) && id in s.attempts
    ensures GoodStep(s, SettleTurn(s, id, Rejected(code)))
  {
    TurnFacts(s, id);
    var k := s.attempts[id].call;
    SettledCall(s.calls, k, Rejected(code));
    SettleTurnIsGood(s, id, s.calls[k].(answers := [Rejected(code)]));
  }

  // ---- events

  /** An event that passed every test belongs to the attempt and may follow what was recorded. */
  lemma PassedEventIsAdmissible(s: State, id: string, e: Event, public: bool)
    requires id in s.attempts && LiveTurn(s.attempts[id], id)
    requires FrameAdmits(e) && e.id.invocationId == id
    requires EventRefusal(s, s.attempts[id], e, public) == None
    ensures var a := s.attempts[id];
            && Admissible(a.record.id, a.fence, e)
            && Accepted(a.record.id, a.events + [e])
            && AfterEvent(a.fence, e) == FenceOf(a.record.id, a.events + [e])
  {
    var a := s.attempts[id];
    assert e.id == a.record.id;
    AcceptedExtends(a.record.id, a.events, e);
  }

  lemma TerminalCompletes(a: LiveAttempt, id: string, e: Event)
    requires LiveTurn(a, id) && e.kind.Terminal? && Accepted(a.record.id, a.events + [e])
    ensures CompletedStream(Call(id, Some(a.record.id), a.record.events + [e], [Completed(a.events + [e])]), a.events + [e])
  {
    var es := a.events + [e];
    assert es[..|es| - 1] == a.events;
    assert forall i | 0 <= i < |a.events| :: es[i] == a.events[i];
    assert es[|a.events|] == e;
    assert es[0].id == a.record.id;
  }

  lemma RecordedEventKeepsTurn(a: LiveAttempt, id: string, e: Event)
    requires LiveTurn(a, id) && !e.kind.Terminal?
    requires Admissible(a.record.id, a.fence, e)
    ensures var recorded := a.(events := a.events + [e], fence := AfterEvent(a.fence, e));
            if AcceptsPublic(a.record, e)
            then LiveTurn(recorded.(record := a.record.(events := a.record.events + [e])), id)
            else LiveTurn(recorded, id)
  {
    var es := a.events + [e];
    FrameAdmitsWhen(e);
    AcceptedExtends(a.record.id, a.events, e);
    RecordFollowsContiguousPrefix(a.record.id, a.events, e);
    ContiguousPrefixIs(es);
    assert NoTerminal(es);
    if AcceptsPublic(a.record, e) {
      assert a.record.events + [e] == es;
      assert LiveAttemptState(a.record.(events := es));
    }
  }

  lemma CompletingEventIsGood(s: State, id: string, e: Event)
    requires Inv(s) && id in s.attempts && e.kind.Terminal?
    requires Accepted(s.attempts[id].record.id, s.attempts[id].events + [e])
    ensures GoodStep(s, RecordEvent(s, id, e))
  {
    TurnFacts(s, id);
    var a := s.attempts[id];
    var call := Call(id, Some(a.record.id), a.record.events + [e], [Completed(a.events + [e])]);
    assert CallSound(call) by { TerminalCompletes(a, id, e); }
    CompletedCall(s.calls, a.call, e, Completed(a.events + [e]));
    SettleTurnIsGood(s, id, call);
  }

  lemma PublicEventCalls(s: State, id: string, e: Event)
    requires id in s.attempts && !e.kind.Terminal? && s.attempts[id].call < |s.calls|
    requires s.calls[s.attempts[id].call].delivered == s.attempts[id].record.events
    ensures var k, t := s.attempts[id].call, RecordEvent(s, id, e);
            && t.calls == s.calls[k := s.calls[k].(delivered := t.attempts[id].record.events)]
            && s.calls[k].delivered <= t.calls[k].delivered
  {
  }

  lemma PublicEventKeepsTracked(s: State, id: string, e: Event)
    requires Tracked(s.attempts, s.resultAttempts, s.calls) && id in s.attempts && !e.kind.Terminal?
    requires TurnTracked(s.calls, id, s.attempts[id])
    ensures var t := RecordEvent(s, id, e); Tracked(t.attempts, t.resultAttempts, t.calls)
  {
    PublicEventCalls(s, id, e);
    ProgressKeepsTracked(s.attempts, s.resultAttempts, s.calls, id, RecordEvent(s, id, e).attempts[id]);
  }

  lemma PublicEventKeepsLive(s: State, id: string, e: Event)
    requires TurnsLive(s.attempts) && id in s.attempts && !e.kind.Terminal?
    requires Admissible(s.attempts[id].record.id, s.attempts[id].fence, e)
    ensures TurnsLive(RecordEvent(s, id, e).attempts)
  {
    RecordedEventKeepsTurn(s.attempts[id], id, e);
    ReplacedTurnKeepsLive(s.attempts, id, RecordEvent(s, id, e).attempts[id]);
  }

  lemma PublicEventKeepsSound(s: State, id: string, e: Event)
    requires CallsSound(s.calls) && id in s.attempts && !e.kind.Terminal?
    requires TurnTracked(s.calls, id, s.attempts[id])
    ensures CallsSound(RecordEvent(s, id, e).calls) && Evolves(s.calls, RecordEvent(s, id, e).calls)
  {
    PublicEventCalls(s, id, e);
  }

  lemma PublicEventIsGood(s: State, id: string, e: Event)
    requires Inv(s) && id in s.attempts && !e.kind.Terminal?
    requires Admissible(s.attempts[id].record.id, s.attempts[id].fence, e)
    ensures GoodStep(s, RecordEvent(s, id, e))
  {
    var t := RecordEvent(s, id, e);
    assert TurnTracked(s.calls, id, s.attempts[id]);
    PublicEventKeepsLive(s, id, e);
    PublicEventKeepsSound(s, id, e);
    PublicEventKeepsTracked(s, id, e);
    ProgressKeepsMapsInv(s.attempts, s.resultAttempts, s.hostSockets.Keys, id, t.attempts[id]);
  }

  lemma RecordEventIsGood(s: State, id: string, e: Event, public: bool)
    requires Inv(s) && id in s.attempts
    requires FrameAdmits(e) && e.id.invocationId == id
    requires EventRefusal(s, s.attempts[id], e, public) == None
    ensures GoodStep(s, RecordEvent(s, id, e))
  {
    assert TurnTracked(s.calls, id, s.attempts[id]);
    PassedEventIsAdmissible(s, id, e, public);
    if e.kind.Terminal? { CompletingEventIsGood(s, id, e); } else { PublicEventIsGood(s, id, e); }
  }

  lemma AcceptEventIsGood(s: State, socket: SocketId, e: Event, public: bool)
    requires Inv(s) && FrameAdmits(e)
    ensures GoodStep(s, AcceptEvent(s, socket, e, public))
  {
    var id := e.id.invocationId;
    if socket in s.owner && id in s.attempts && s.attempts[id].hostId == s.owner[socket] {
      var refusal := EventRefusal(s, s.attempts[id], e, public);
      if refusal.Some? {
        RejectTurnIsGood(s, id, refusal.value);
        StopReadingIsGood(s, SettleTurn(s, id, Rejected(refusal.value)), socket);
      } else {
        RecordEventIsGood(s, id, e, public);
      }
    } else {
      StopReadingIsGood(s, s, socket);
    }
  }

  lemma AcceptResultIsGood(s: State, socket: SocketId, id: string, generation: int, value: Json)
    requires Inv(s)
    ensures GoodStep(s, AcceptResult(s, socket, id, generation, value))
  {
    if id in s.resultAttempts {
      SettleResultIsGood(s, id, Rejected(InvalidHostOutput));
      StopReadingIsGood(s, SettleResult(s, id, Rejected(InvalidHostOutput)), socket);
      SettleResultIsGood(s, id, HostResult(value));
    } else {
      StopReadingIsGood(s, s, socket);
    }
  }

  // ---- sockets

  lemma OpenSocketIsGood(s: State, hostId: string, socket: SocketId)
    requires Inv(s)
    ensures GoodStep(s, OpenSocket(s, hostId, socket))
  {
    var t := OpenSocket(s, hostId, socket);
    assert Registered(s.attempts, s.resultAttempts, t.hostSockets.Keys);
    SubmapsKeepMapsInv(s.attempts, s.resultAttempts, s.attempts, s.resultAttempts, s.hostSockets.Keys, t.hostSockets.Keys);
  }

  lemma SweptCallIsSound(s: State, c: CallId, hostId: string)
    requires Inv(s) && c < |s.calls|
    ensures CallSound(SweptCall(s, c, hostId)) && Extends(s.calls[c], SweptCall(s, c, hostId))
  {
    assert CallSound(s.calls[c]);
    var id := s.calls[c].invocationId;
    if TurnOf(s, c, hostId) {
      assert TurnTracked(s.calls, id, s.attempts[id]);
      DisconnectIsValidStream(s.attempts[id].record);
    } else if ResultOf(s, c, hostId) {
      assert ResultTracked(s.calls, id, s.resultAttempts[id]);
    }
  }

  lemma SweepKeepsTracked(s: State, hostId: string)
    requires Inv(s)
    ensures var t := Sweep(s, hostId); Tracked(t.attempts, t.resultAttempts, t.calls)
  {
    var t := Sweep(s, hostId);
    forall c: CallId | c < |t.calls|
      ensures CallSound(t.calls[c]) && PendingIsLive(t.attempts, t.resultAttempts, t.calls, c)
    {
      SweptCallIsSound(s, c, hostId);
      assert PendingIsLive(s.attempts, s.resultAttempts, s.calls, c);
    }
    forall id | id in t.attempts ensures TurnTracked(t.calls, id, t.attempts[id]) {
      SweepSparesTurn(s, hostId, id);
    }
    forall id | id in t.resultAttempts ensures ResultTracked(t.calls, id, t.resultAttempts[id]) {
      SweepSparesResult(s, hostId, id);
    }
  }

  lemma SweepSparesTurn(s: State, hostId: string, id: string)
    requires Inv(s) && id in s.attempts && s.attempts[id].hostId != hostId
    ensures TurnTracked(Sweep(s, hostId).calls, id, s.attempts[id])
  {
    var a := s.attempts[id];
    assert TurnTracked(s.calls, id, a);
    assert id !in s.resultAttempts;
    assert Sweep(s, hostId).calls[a.call] == SweptCall(s, a.call, hostId) == s.calls[a.call];
  }

  lemma SweepSparesResult(s: State, hostId: string, id: string)
    requires Inv(s) && id in s.resultAttempts && s.resultAttempts[id].hostId != hostId
    ensures ResultTracked(Sweep(s, hostId).calls, id, s.resultAttempts[id])
  {
    var r := s.resultAttempts[id];
    assert ResultTracked(s.calls, id, r);
    assert id !in s.attempts;
    assert Sweep(s, hostId).calls[r.call] == SweptCall(s, r.call, hostId) == s.calls[r.call];
  }

  lemma SweepKeepsMapsInv(s: State, hostId: string)
    requires MapsInv(s.attempts, s.resultAttempts, s.hostSockets.Keys)
    ensures var t := Sweep(s, hostId); MapsInv(t.attempts, t.resultAttempts, t.hostSockets.Keys)
  {
    var t := Sweep(s, hostId);
    forall id | id in Live(t.attempts, t.resultAttempts)
      ensures HostOf(t.attempts, t.resultAttempts, id) in t.hostSockets.Keys
    {
      assert HostOf(s.attempts, s.resultAttempts, id) in s.hostSockets.Keys;
    }
    SubmapsKeepMapsInv(s.attempts, s.resultAttempts, t.attempts, t.resultAttempts, s.hostSockets.Keys, t.hostSockets.Keys);
  }

  lemma SweepKeepsSound(s: State, hostId: string)
    requires Inv(s)
    ensures CallsSound(Sweep(s, hostId).calls) && Evolves(s.calls, Sweep(s, hostId).calls)
  {
    var t := Sweep(s, hostId);
    forall c: CallId | c < |s.calls| ensures CallSound(t.calls[c]) && Extends(s.calls[c], t.calls[c]) {
      SweptCallIsSound(s, c, hostId);
    }
  }

  lemma SweepIsGood(s: State, hostId: string)
    requires Inv(s)
    ensures GoodStep(s, Sweep(s, hostId))
  {
    SweepKeepsSound(s, hostId);
    SweepKeepsTracked(s, hostId);
    SweepKeepsMapsInv(s, hostId);
  }

  lemma CloseIsGood(s: State, socket: SocketId)
    requires Inv(s)
    ensures GoodStep(s, SocketClosed(s, socket))
  {
    StopReadingIsGood(s, s, socket);
    if IsCurrent(s, socket) { SweepIsGood(StopReading(s, socket), s.owner[socket]); }
  }

  // ---- all of them

  lemma StepIsGood(s: State, a: Action)
    requires Inv(s)
    ensures GoodStep(s, Step(s, a))
  {
    match a
    case DoInvoke(inv) => InvokeIsGood(s, inv);
    case DoCancel(inv) => CancelIsGood(s, inv);
    case HostEvent(socket, e, public) =>
      if FrameAdmits(e) { AcceptEventIsGood(s, socket, e, public); } else { StopReadingIsGood(s, s, socket); }
    case HostResultFrame(socket, id, generation, value) => AcceptResultIsGood(s, socket, id, generation, value);
    case Connect(hostId, socket) => OpenSocketIsGood(s, hostId, socket);
    case OtherFrame(socket) => StopReadingIsGood(s, s, socket);
    case LoseSocket(socket) => StopReadingIsGood(s, s, socket);
    case CloseSocket(socket) => CloseIsGood(s, socket);
    case ChangeAssignments(change) =>
  }
}
