/** A public event that skips a number makes acceptPublicEvent throw inside the socket's message
    callback. The runs of this model go on after it; here are the runs in which it never happens. */
module GatewayWholeStreams {
  import opened Json
  import opened Options
  import opened HarnessStream
  import opened HostAttempt
  import opened Gateway
  import opened GatewayInvariant
  import opened GatewaySteps
  import opened GatewayTheorems
  import AA = ActiveAssignment

  /** The event is accepted, and the disconnect record then refuses its number. */
  ghost predicate Throws(s: State, a: Action) {
    && a.HostEvent? && FrameAdmits(a.event) && !a.event.kind.Terminal?
    && a.socket in s.owner && a.event.id.invocationId in s.attempts
    && s.attempts[a.event.id.invocationId].hostId == s.owner[a.socket]
    && EventRefusal(s, s.attempts[a.event.id.invocationId], a.event, a.public).None?
    && !AcceptsPublic(s.attempts[a.event.id.invocationId].record, a.event)
  }

  ghost predicate NeverThrows(s: State, actions: seq<Action>) {
    actions == []
    || (NeverThrows(s, actions[..|actions| - 1]) && !Throws(Run(s, actions[..|actions| - 1]), actions[|actions| - 1]))
  }

  /** Every live record holds all recorded events. */
  ghost predicate RecordsWhole(turns: Turns) {
    forall id | id in turns :: turns[id].record.events == turns[id].events
  }

  ghost predicate CallWhole(call: Call) {
    forall es: seq<Event> | Completed(es) in call.answers :: call.delivered == es
  }

  ghost predicate Whole(s: State) {
    RecordsWhole(s.attempts) && forall c: CallId | c < |s.calls| :: CallWhole(s.calls[c])
  }

  /** invoke stores at most one entry, with an empty record, and adds one call. */
  lemma AddedStaysWhole(s: State, t: State, call: Call)
    requires Whole(s) && t.calls == s.calls + [call] && CallWhole(call) && RecordsWhole(t.attempts)
    ensures Whole(t)
  {
    forall c: CallId | c < |t.calls|
      ensures CallWhole(t.calls[c])
    {
      if c < |s.calls| { assert t.calls[c] == s.calls[c]; }
    }
  }

  lemma CancelStaysWhole(s: State, inv: Invocation)
    requires Whole(s)
    ensures Whole(Cancel(s, inv))
  {
    var t := Cancel(s, inv);
    AddedStaysWhole(s, t, t.calls[|s.calls|]);
  }

  lemma CarryOutStaysWhole(s: State, inv: Invocation, admission: Admission)
    requires Whole(s) && Fits(admission, inv)
    ensures Whole(CarryOut(s, inv, admission))
  {
    if admission.ForwardCancel? {
      CancelStaysWhole(s, inv);
    } else {
      var t := CarryOut(s, inv, admission);
      AddedStaysWhole(s, t, t.calls[|s.calls|]);
    }
  }

  lemma InvokeStaysWhole(s: State, inv: Invocation)
    requires Whole(s)
    ensures Whole(Invoke(s, inv))
  {
    CarryOutStaysWhole(s, inv, AdmissionOf(s, inv));
  }

  lemma SettledStaysWhole(s: State, id: string, answer: Answer)
    requires Whole(s) && !answer.Completed?
    ensures id in s.attempts ==> Whole(SettleTurn(s, id, answer))
    ensures id in s.resultAttempts ==> Whole(SettleResult(s, id, answer))
  {
  }

  /** A call that was not answered yet takes in an event, and perhaps its answer. */
  lemma ChangedStaysWhole(s: State, t: State, k: CallId, call: Call)
    requires Whole(s) && k < |s.calls| && t.calls == s.calls[k := call]
    requires CallWhole(call) && RecordsWhole(t.attempts)
    ensures Whole(t)
  {
  }

  lemma RecordedStaysWhole(s: State, id: string, e: Event)
    requires Inv(s) && Whole(s) && id in s.attempts
    requires e.kind.Terminal? || AcceptsPublic(s.attempts[id].record, e)
    ensures Whole(RecordEvent(s, id, e))
  {
    var a, t := s.attempts[id], RecordEvent(s, id, e);
    assert a.call < |s.calls| && s.calls[a.call].delivered == a.events && s.calls[a.call].answers == [] by {
      TurnFacts(s, id);
    }
    if e.kind.Terminal? { CompletedCall(s.calls, a.call, e, Completed(a.events + [e])); }
    ChangedStaysWhole(s, t, a.call, t.calls[a.call]);
  }

  lemma EventStaysWhole(s: State, socket: SocketId, e: Event, public: bool)
    requires Inv(s) && Whole(s) && FrameAdmits(e) && !Throws(s, HostEvent(socket, e, public))
    ensures Whole(AcceptEvent(s, socket, e, public))
  {
    var id := e.id.invocationId;
    if socket in s.owner && id in s.attempts && s.attempts[id].hostId == s.owner[socket] {
      var refusal := EventRefusal(s, s.attempts[id], e, public);
      if refusal.Some? {
        SettledStaysWhole(s, id, Rejected(refusal.value));
      } else {
        RecordedStaysWhole(s, id, e);
      }
    }
  }

  lemma ResultStaysWhole(s: State, socket: SocketId, id: string, generation: int, value: Json)
    requires Whole(s)
    ensures Whole(AcceptResult(s, socket, id, generation, value))
  {
    SettledStaysWhole(s, id, Rejected(InvalidHostOutput));
    SettledStaysWhole(s, id, HostResult(value));
  }

  lemma CloseStaysWhole(s: State, socket: SocketId)
    requires Inv(s) && Whole(s)
    ensures Whole(SocketClosed(s, socket))
  {
    if IsCurrent(s, socket) {
      var mid, host := StopReading(s, socket), s.owner[socket];
      forall c: CallId | c < |s.calls|
        ensures CallWhole(SweptCall(mid, c, host))
      {
        SweptStaysWhole(mid, c, host);
      }
    }
  }

  lemma SweptStaysWhole(s: State, c: CallId, host: string)
    requires Inv(s) && Whole(s) && c < |s.calls|
    ensures CallWhole(SweptCall(s, c, host))
  {
    assert CallWhole(s.calls[c]);
    if TurnOf(s, c, host) { TurnFacts(s, s.calls[c].invocationId); }
  }

  lemma StepStaysWhole(s: State, a: Action)
    requires Inv(s) && Whole(s) && !Throws(s, a)
    ensures Whole(Step(s, a))
  {
    match a
    case DoInvoke(inv) => InvokeStaysWhole(s, inv);
    case DoCancel(inv) => CancelStaysWhole(s, inv);
    case HostEvent(socket, e, public) => if FrameAdmits(e) { EventStaysWhole(s, socket, e, public); }
    case HostResultFrame(socket, id, generation, value) => ResultStaysWhole(s, socket, id, generation, value);
    case CloseSocket(socket) => CloseStaysWhole(s, socket);
    case _ =>
  }

  lemma {:induction false} RunStaysWhole(s: State, actions: seq<Action>)
    requires Inv(s) && Whole(s) && NeverThrows(s, actions)
    ensures Whole(Run(s, actions))
  {
    if actions != [] {
      var front := actions[..|actions| - 1];
      RunStaysWhole(s, front);
      assert Inv(Run(s, front)) by { RunIsGood(s, front); }
      StepStaysWhole(Run(s, front), actions[|actions| - 1]);
    }
  }

  /** In a run without such a throw every completed stream was delivered whole: the events a caller
      is answered with are those it was given, numbered 1, 2, 3, ... */
  lemma CompletedStreamsAreDelivered(assignments: AA.Assignments, actions: seq<Action>, c: CallId, es: seq<Event>)
    requires NeverThrows(Initial(assignments), actions)
    requires c < |Run(Initial(assignments), actions).calls|
    requires Completed(es) in Run(Initial(assignments), actions).calls[c].answers
    ensures Run(Initial(assignments), actions).calls[c].delivered == es
    ensures es != [] && Contiguous(es[..|es| - 1])
  {
    var s := Run(Initial(assignments), actions);
    InitialInv(assignments);
    RunStaysWhole(Initial(assignments), actions);
    assert CallWhole(s.calls[c]);
    CompletedStreamsAreValid(s, c, es);
  }
}
