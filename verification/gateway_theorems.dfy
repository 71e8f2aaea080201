/** What the gateway guarantees over whole runs. */
module GatewayTheorems {
  import opened Json
  import opened Options
  import opened HarnessStream
  import opened HostAttempt
  import opened Gateway
  import opened GatewayInvariant
  import opened GatewaySteps
  import AA = ActiveAssignment

  lemma {:induction false} RunIsGood(s: State, actions: seq<Action>)
    requires Inv(s)
    ensures GoodStep(s, Run(s, actions))
  {
    if actions != [] {
      var mid := Run(s, actions[..|actions| - 1]);
      RunIsGood(s, actions[..|actions| - 1]);
      StepIsGood(mid, actions[|actions| - 1]);
      forall c | 0 <= c < |s.calls| ensures Extends(s.calls[c], Run(s, actions).calls[c]) {
        assert Extends(s.calls[c], mid.calls[c]) && Extends(mid.calls[c], Run(s, actions).calls[c]);
      }
    }
  }

  /** Reachable states: those of some run from empty maps over some assignments. */
  ghost predicate ReachableState(s: State) {
    exists assignments, actions :: s == Run(Initial(assignments), actions)
  }

  lemma ReachableInv(s: State)
    requires ReachableState(s)
    ensures Inv(s)
  {
    var assignments, actions :| s == Run(Initial(assignments), actions);
    InitialInv(assignments);
    RunIsGood(Initial(assignments), actions);
  }

  lemma ReachableStep(s: State, a: Action)
    requires ReachableState(s)
    ensures ReachableState(Step(s, a))
  {
    var assignments, actions :| s == Run(Initial(assignments), actions);
    assert (actions + [a])[..|actions|] == actions;
    assert Step(s, a) == Run(Initial(assignments), actions + [a]);
  }

  // ---- completed streams

  lemma AnsweredCompleted(s: State, c: CallId, es: seq<Event>)
    requires ReachableState(s) && c < |s.calls| && Completed(es) in s.calls[c].answers
    ensures CompletedStream(s.calls[c], es)
  {
    ReachableInv(s);
    assert CallSound(s.calls[c]);
  }

  /** A caller answered with a completed stream holds a valid stream of its own attempt, one
      the step-by-step acceptor takes. It was given the events up to the first gap in their
      numbering, and the terminal; that is the whole recorded stream exactly when the public
      events were numbered 1, 2, 3, ... */
  lemma CompletedStreamsAreValid(s: State, c: CallId, es: seq<Event>)
    requires ReachableState(s) && c < |s.calls| && Completed(es) in s.calls[c].answers
    ensures ValidStream(es) && s.calls[c].attempt == Some(es[0].id)
    ensures Feed(es[0].id, es).Some? && Feed(es[0].id, es).value.terminalAccepted
    ensures s.calls[c].delivered == ContiguousPrefix(es[..|es| - 1]) + [es[|es| - 1]]
    ensures s.calls[c].delivered == es <==> Contiguous(es[..|es| - 1])
  {
    AnsweredCompleted(s, c, es);
    assert Feed(es[0].id, es).Some? && Feed(es[0].id, es).value.terminalAccepted by {
      AcceptorRefinesBatch(es[0].id, es);
    }
    WholeStreamDelivered(es);
  }

  lemma WholeStreamDelivered(es: seq<Event>)
    requires es != []
    ensures ContiguousPrefix(es[..|es| - 1]) + [es[|es| - 1]] == es <==> Contiguous(es[..|es| - 1])
  {
    var front, last := es[..|es| - 1], es[|es| - 1];
    var p := ContiguousPrefix(front);
    ContiguousPrefixIs(front);
    assert es == front + [last];
    if p + [last] == es { assert p == (p + [last])[..|es| - 1]; }
  }

  /** A disconnect instead always answers with exactly what was delivered: a valid stream
      closed by one synthesised terminal. */
  lemma DisconnectedStreamsAreDelivered(s: State, c: CallId, es: seq<Event>)
    requires ReachableState(s) && c < |s.calls| && Outcome(es) in s.calls[c].answers
    ensures ValidStream(es) && s.calls[c].attempt == Some(es[0].id) && s.calls[c].delivered == es
  {
    ReachableInv(s);
    assert CallSound(s.calls[c]);
    assert AnswerSound(s.calls[c], s.calls[c].answers[0]);
  }

  // ---- answered at most once

  /** Every invoke is answered at most once; it is unanswered exactly while its entry is in one
      of the maps; once answered, nothing about it changes in any continuation. */
  lemma AnsweredOnceAndFinal(s: State, actions: seq<Action>, c: CallId)
    requires ReachableState(s) && c < |s.calls|
    ensures var t := Run(s, actions);
            && c < |t.calls|
            && s.calls[c].delivered <= t.calls[c].delivered
            && |t.calls[c].answers| <= 1
            && (t.calls[c].answers == [] <==> IsLive(t.attempts, t.resultAttempts, t.calls[c].invocationId, c))
            && (s.calls[c].answers != [] ==> t.calls[c] == s.calls[c])
  {
    ReachableInv(s);
    RunIsGood(s, actions);
    var t := Run(s, actions);
    assert Extends(s.calls[c], t.calls[c]);
    assert CallSound(t.calls[c]);
    LiveIsUnanswered(t, c);
  }

  lemma LiveIsUnanswered(s: State, c: CallId)
    requires Inv(s) && c < |s.calls|
    ensures s.calls[c].answers == [] <==> IsLive(s.attempts, s.resultAttempts, s.calls[c].invocationId, c)
  {
    assert PendingIsLive(s.attempts, s.resultAttempts, s.calls, c);
    var id := s.calls[c].invocationId;
    if id in s.attempts { assert TurnTracked(s.calls, id, s.attempts[id]); }
    if id in s.resultAttempts { assert ResultTracked(s.calls, id, s.resultAttempts[id]); }
  }

  /** The step that answers a call is the step that removes its entry. */
  lemma AnsweringStepRemovesEntry(s: State, a: Action, c: CallId)
    requires ReachableState(s) && c < |s.calls| && s.calls[c].answers == []
    ensures var t := Step(s, a);
            && c < |t.calls|
            && (t.calls[c].answers != [] <==> !IsLive(t.attempts, t.resultAttempts, s.calls[c].invocationId, c))
  {
    ReachableInv(s);
    StepIsGood(s, a);
    assert Extends(s.calls[c], Step(s, a).calls[c]);
    LiveIsUnanswered(Step(s, a), c);
  }

  // ---- single flight

  /** Per binding at most one live entry, and no invocation id in both maps. */
  lemma AtMostOneLivePerBinding(s: State)
    requires ReachableState(s)
    ensures Disjoint(s.attempts, s.resultAttempts) && SingleFlight(s.attempts, s.resultAttempts)
  {
    ReachableInv(s);
  }

  /** A cancellation matches at most one attempt, so which match find returns cannot matter. */
  lemma CancellationTargetIsUnique(s: State, hostId: string, e: Envelope, q: Request, i: string, j: string)
    requires ReachableState(s) && q.CancelTurn?
    requires i in s.attempts && MatchesCancellation(s.attempts[i], hostId, e, q)
    requires j in s.attempts && MatchesCancellation(s.attempts[j], hostId, e, q)
    ensures i == j
  {
    ReachableInv(s);
    assert BindingOf(s.attempts, s.resultAttempts, i) == BindingOf(s.attempts, s.resultAttempts, j);
  }

  // ---- no orphaned wait

  lemma NoOrphanedWait(s: State, id: string)
    requires ReachableState(s) && id in Live(s.attempts, s.resultAttempts)
    ensures HostOf(s.attempts, s.resultAttempts, id) in s.hostSockets
  {
    ReachableInv(s);
  }

  /** Closing a replaced socket touches no entry and no caller. */
  lemma ClosingAReplacedSocket(s: State, socket: SocketId)
    requires !IsCurrent(s, socket)
    ensures var t := SocketClosed(s, socket);
            t.hostSockets == s.hostSockets && t.attempts == s.attempts
            && t.resultAttempts == s.resultAttempts && t.calls == s.calls
  {
  }

  lemma ClosingAnswersTurn(s: State, socket: SocketId, id: string)
    requires ReachableState(s) && IsCurrent(s, socket)
    requires id in s.attempts && s.attempts[id].hostId == s.owner[socket]
    ensures var t := SocketClosed(s, socket);
            s.attempts[id].call < |t.calls|
            && t.calls[s.attempts[id].call].answers == [Outcome(DisconnectEvents(s.attempts[id].record))]
  {
    var a, mid := s.attempts[id], StopReading(s, socket);
    assert a.call < |s.calls| && s.calls[a.call] == Call(id, Some(a.record.id), a.record.events, []) by {
      ReachableInv(s);
      TurnFacts(s, id);
    }
    assert TurnOf(mid, a.call, s.owner[socket]);
    assert Sweep(mid, s.owner[socket]).calls[a.call] == SweptCall(mid, a.call, s.owner[socket]);
  }

  lemma ClosingAnswersResult(s: State, socket: SocketId, id: string)
    requires ReachableState(s) && IsCurrent(s, socket)
    requires id in s.resultAttempts && s.resultAttempts[id].hostId == s.owner[socket]
    ensures var t := SocketClosed(s, socket);
            s.resultAttempts[id].call < |t.calls|
            && t.calls[s.resultAttempts[id].call].answers == [Rejected(HostAuthenticationRequired)]
  {
    ReachableInv(s);
    assert ResultTracked(s.calls, id, s.resultAttempts[id]);
    assert id !in s.attempts;
  }

  /** Closing a host's current socket removes exactly that host's entries and answers each of
      their callers. */
  lemma ClosingASocket(s: State, socket: SocketId)
    requires ReachableState(s) && IsCurrent(s, socket)
    ensures var t, host := SocketClosed(s, socket), s.owner[socket];
            && host !in t.hostSockets
            && (forall id :: id in t.attempts <==> id in s.attempts && s.attempts[id].hostId != host)
            && (forall id :: id in t.resultAttempts <==> id in s.resultAttempts && s.resultAttempts[id].hostId != host)
            && (forall id | id in s.attempts && s.attempts[id].hostId == host ::
                  s.attempts[id].call < |t.calls|
                  && t.calls[s.attempts[id].call].answers == [Outcome(DisconnectEvents(s.attempts[id].record))])
            && (forall id | id in s.resultAttempts && s.resultAttempts[id].hostId == host ::
                  s.resultAttempts[id].call < |t.calls|
                  && t.calls[s.resultAttempts[id].call].answers == [Rejected(HostAuthenticationRequired)])
  {
    var host := s.owner[socket];
    forall id | id in s.attempts && s.attempts[id].hostId == host
      ensures s.attempts[id].call < |SocketClosed(s, socket).calls|
      ensures SocketClosed(s, socket).calls[s.attempts[id].call].answers == [Outcome(DisconnectEvents(s.attempts[id].record))]
    {
      ClosingAnswersTurn(s, socket, id);
    }
    forall id | id in s.resultAttempts && s.resultAttempts[id].hostId == host
      ensures s.resultAttempts[id].call < |SocketClosed(s, socket).calls|
      ensures SocketClosed(s, socket).calls[s.resultAttempts[id].call].answers == [Rejected(HostAuthenticationRequired)]
    {
      ClosingAnswersResult(s, socket, id);
    }
  }

  // ---- generation fencing of streamed attempts

  /** The call's entry, when it is a streamed attempt. */
  ghost predicate IsTurn(s: State, c: CallId) {
    c < |s.calls| && s.calls[c].invocationId in s.attempts && s.attempts[s.calls[c].invocationId].call == c
  }

  ghost function TurnEntry(s: State, c: CallId): LiveAttempt
    requires IsTurn(s, c)
  {
    s.attempts[s.calls[c].invocationId]
  }

  /** The binding has moved to a higher generation than the attempt was admitted with. */
  ghost predicate Superseded(assignments: AA.Assignments, bindingId: string, generation: int) {
    var r := AA.FindBinding(assignments.records, bindingId);
    r.Some? && r.value.generation > generation
  }

  /** Nothing of a call changed. */
  ghost predicate Untouched(s: State, t: State, c: CallId) {
    IsTurn(s, c) && IsTurn(t, c) && t.calls[c] == s.calls[c] && TurnEntry(t, c) == TurnEntry(s, c)
  }

  /** The host was lost: one closing terminal was synthesised and is the last thing delivered. */
  ghost predicate ClosedByDisconnect(s: State, t: State, c: CallId)
    requires IsTurn(s, c)
  {
    var record := TurnEntry(s, c).record;
    && c < |t.calls|
    && t.calls[c].answers == [Outcome(DisconnectEvents(record))]
    && t.calls[c].delivered == s.calls[c].delivered + [ClosingEvent(record)]
  }

  ghost predicate RejectedSilently(s: State, t: State, c: CallId)
    requires IsTurn(s, c)
  {
    && c < |t.calls|
    && t.calls[c].delivered == s.calls[c].delivered
    && exists code :: t.calls[c].answers == [Rejected(code)]
  }

  /** The one step that can give a caller host output: an event of this invocation, from a
      socket of its host, while the assignment still fences it in; at most that event is delivered. */
  ghost predicate FencedDelivery(s: State, t: State, a: Action, c: CallId)
    requires IsTurn(s, c)
  {
    && a.HostEvent?
    && a.event.id.invocationId == s.calls[c].invocationId
    && a.socket in s.owner && s.owner[a.socket] == TurnEntry(s, c).hostId
    && FencedByAssignment(s.assignments, TurnEntry(s, c))
    && c < |t.calls|
    && (t.calls[c].delivered == s.calls[c].delivered || t.calls[c].delivered == s.calls[c].delivered + [a.event])
  }

  /** Every step leaves a live attempt untouched, closes it for a disconnect, rejects it
      without output, or is a fenced delivery. */
  lemma StepsOfATurn(s: State, a: Action, c: CallId)
    requires Inv(s) && IsTurn(s, c)
    ensures var t := Step(s, a);
            || Untouched(s, t, c) || ClosedByDisconnect(s, t, c) || RejectedSilently(s, t, c)
            || FencedDelivery(s, t, a, c)
  {
    TurnStandsAlone(s, c);
    StepOfALoneTurn(s, a, c);
  }

  lemma StepOfALoneTurn(s: State, a: Action, c: CallId)
    requires IsTurn(s, c) && StandsAlone(s, c)
    ensures var t := Step(s, a);
            || Untouched(s, t, c) || ClosedByDisconnect(s, t, c) || RejectedSilently(s, t, c)
            || FencedDelivery(s, t, a, c)
  {
    match a
    case DoInvoke(inv) => InvokeTouchesNoOther(s, inv, c);
    case HostEvent(socket, e, public) => if FrameAdmits(e) { EventOfATurn(s, socket, e, public, c); }
    case HostResultFrame(socket, id, generation, value) => ResultFrameTouchesNoTurn(s, socket, id, generation, value, c);
    case CloseSocket(socket) => CloseOfATurn(s, socket, c);
    case _ =>
  }

  /** No other entry shares a live attempt's call. */
  ghost predicate StandsAlone(s: State, c: CallId)
    requires IsTurn(s, c)
  {
    var id := s.calls[c].invocationId;
    && s.calls[c].answers == []
    && id !in s.resultAttempts
    && (forall other | other in s.attempts && s.attempts[other].call == c :: other == id)
    && (forall other | other in s.attempts :: s.attempts[other].call < |s.calls|)
    && (forall other | other in s.resultAttempts :: s.resultAttempts[other].call != c)
  }

  lemma TurnStandsAlone(s: State, c: CallId)
    requires Inv(s) && IsTurn(s, c)
    ensures StandsAlone(s, c)
  {
    TurnFacts(s, s.calls[c].invocationId);
    forall other | other in s.attempts
      ensures s.attempts[other].call < |s.calls|
      ensures s.attempts[other].call == c ==> other == s.calls[c].invocationId
    {
      TurnFacts(s, other);
    }
    forall other | other in s.resultAttempts ensures s.resultAttempts[other].call != c {
      assert ResultTracked(s.calls, other, s.resultAttempts[other]);
    }
  }

  lemma InvokeTouchesNoOther(s: State, inv: Invocation, c: CallId)
    requires IsTurn(s, c)
    ensures Untouched(s, Invoke(s, inv), c)
  {
    match AdmissionOf(s, inv)
    case AdmitTurn(q) => AdmittedTurn(s, inv, q);
    case AdmitResult(bindingId) => AdmittedResult(s, inv, bindingId);
    case CloseUndispatched(q) => AdmittedTurn(s, inv, q);
    case _ =>
  }

  lemma ResultFrameTouchesNoTurn(s: State, socket: SocketId, id: string, generation: int, value: Json, c: CallId)
    requires IsTurn(s, c) && StandsAlone(s, c)
    ensures Untouched(s, AcceptResult(s, socket, id, generation, value), c)
  {
  }

  lemma CloseOfATurn(s: State, socket: SocketId, c: CallId)
    requires IsTurn(s, c) && StandsAlone(s, c)
    ensures var t := SocketClosed(s, socket); Untouched(s, t, c) || ClosedByDisconnect(s, t, c)
  {
    if IsCurrent(s, socket) {
      var mid, host := StopReading(s, socket), s.owner[socket];
      assert !ResultOf(mid, c, host);
      assert Sweep(mid, host).calls[c] == SweptCall(mid, c, host);
      if TurnOf(mid, c, host) {
        SettledCall(s.calls, c, Outcome(DisconnectEvents(TurnEntry(s, c).record)));
      }
    }
  }

  lemma EventOfATurn(s: State, socket: SocketId, e: Event, public: bool, c: CallId)
    requires IsTurn(s, c) && StandsAlone(s, c)
    ensures var t := AcceptEvent(s, socket, e, public);
            || Untouched(s, t, c) || RejectedSilently(s, t, c)
            || FencedDelivery(s, t, HostEvent(socket, e, public), c)
  {
    var id, other := s.calls[c].invocationId, e.id.invocationId;
    if socket in s.owner && other in s.attempts && s.attempts[other].hostId == s.owner[socket] {
      if other == id {
        SettledCall(s.calls, c, Rejected(Fenced(StaleGeneration)));
      } else {
        assert s.attempts[other].call != c;
      }
    }
  }

  /** What a step does to the assignments. */
  function ChangeOf(s: State, a: Action): Option<AA.Change> {
    match a
    case ChangeAssignments(change) => Some(change)
    case CloseSocket(socket) => if IsCurrent(s, socket) then Some(AA.Disconnect(s.owner[socket])) else None
    case _ => None
  }

  lemma StepChangesAssignments(s: State, a: Action)
    ensures Step(s, a).assignments
            == if ChangeOf(s, a).Some? then AA.Apply(s.assignments, ChangeOf(s, a).value) else s.assignments
  {
    if a.DoInvoke? { InvokeKeepsAssignments(s, a.inv); }
  }

  lemma InvokeKeepsAssignments(s: State, inv: Invocation)
    ensures Invoke(s, inv).assignments == s.assignments
  {
    match AdmissionOf(s, inv)
    case AdmitTurn(q) => AdmittedTurn(s, inv, q);
    case AdmitResult(bindingId) => AdmittedResult(s, inv, bindingId);
    case _ =>
  }

  /** A superseded attempt gets no host output in one step. */
  lemma SupersededStepIsSilent(s: State, a: Action, c: CallId)
    requires Inv(s) && IsTurn(s, c)
    requires Superseded(s.assignments, TurnEntry(s, c).record.id.bindingId, TurnEntry(s, c).envelope.generation)
    ensures var t := Step(s, a); Untouched(s, t, c) || ClosedByDisconnect(s, t, c) || RejectedSilently(s, t, c)
  {
    TurnFacts(s, s.calls[c].invocationId);
    StepsOfATurn(s, a, c);
    assert !FencedByAssignment(s.assignments, TurnEntry(s, c));
  }

  /** What is over stays over. */
  lemma SilencedStaysSilent(s: State, mid: State, a: Action, c: CallId)
    requires IsTurn(s, c) && Inv(mid) && (ClosedByDisconnect(s, mid, c) || RejectedSilently(s, mid, c))
    ensures var t := Step(mid, a); ClosedByDisconnect(s, t, c) || RejectedSilently(s, t, c)
  {
    StepIsGood(mid, a);
    assert Extends(mid.calls[c], Step(mid, a).calls[c]);
  }

  /** The step lands a stale selection of the binding. */
  predicate StaleSelection(s: State, a: Action, bindingId: string) {
    a.ChangeAssignments? && AA.StaleCommit(s.assignments, a.change, bindingId)
  }

  ghost predicate NoStaleSelection(s: State, actions: seq<Action>, bindingId: string) {
    actions == []
    || (NoStaleSelection(s, actions[..|actions| - 1], bindingId)
        && !StaleSelection(Run(s, actions[..|actions| - 1]), actions[|actions| - 1], bindingId))
  }

  /** After its binding is reassigned to a higher generation, a streamed attempt never
      produces host output again, in any continuation that lands no stale selection of the binding:
      it stays as it is, is rejected, or is closed by its host's disconnect. */
  lemma {:induction false} SupersededAttemptIsSilent(s: State, actions: seq<Action>, c: CallId)
    requires ReachableState(s) && IsTurn(s, c)
    requires Superseded(s.assignments, TurnEntry(s, c).record.id.bindingId, TurnEntry(s, c).envelope.generation)
    requires NoStaleSelection(s, actions, TurnEntry(s, c).record.id.bindingId)
    ensures var t := Run(s, actions);
            Untouched(s, t, c) || ClosedByDisconnect(s, t, c) || RejectedSilently(s, t, c)
    ensures Superseded(Run(s, actions).assignments, TurnEntry(s, c).record.id.bindingId, TurnEntry(s, c).envelope.generation)
  {
    if actions != [] {
      var front, a := actions[..|actions| - 1], actions[|actions| - 1];
      var mid := Run(s, front);
      assert Inv(mid) by {
        ReachableInv(s);
        RunIsGood(s, front);
      }
      SupersededAttemptIsSilent(s, front, c);
      StepKeepsSuperseded(mid, a, TurnEntry(s, c).record.id.bindingId, TurnEntry(s, c).envelope.generation);
      if Untouched(s, mid, c) {
        SupersededStepIsSilent(mid, a, c);
      } else {
        SilencedStaysSilent(s, mid, a, c);
      }
    }
  }

  lemma StepKeepsSuperseded(s: State, a: Action, bindingId: string, generation: int)
    requires Superseded(s.assignments, bindingId, generation) && !StaleSelection(s, a, bindingId)
    ensures Superseded(Step(s, a).assignments, bindingId, generation)
  {
    StepChangesAssignments(s, a);
    if ChangeOf(s, a).Some? { AA.GenerationsFenceExactlyWhen(s.assignments, ChangeOf(s, a).value, bindingId); }
  }

  /** A selection is called while a commit that will change its binding is waiting. */
  predicate OverlappingSelection(s: State, a: Action) {
    a.ChangeAssignments? && AA.Overlaps(s.assignments, a.change)
  }

  ghost predicate SelectionsApart(s: State, actions: seq<Action>) {
    actions == []
    || (SelectionsApart(s, actions[..|actions| - 1])
        && !OverlappingSelection(Run(s, actions[..|actions| - 1]), actions[|actions| - 1]))
  }

  lemma SeparateStepIsFresh(s: State, a: Action, bindingId: string)
    requires AA.QueueFresh(s.assignments.records, s.assignments.queue) && !OverlappingSelection(s, a)
    ensures !StaleSelection(s, a, bindingId)
    ensures AA.QueueFresh(Step(s, a).assignments.records, Step(s, a).assignments.queue)
  {
    StepChangesAssignments(s, a);
    if ChangeOf(s, a).Some? { AA.SeparateSelectionsAreFresh(s.assignments, ChangeOf(s, a).value); }
  }

  /** Runs whose selections never overlap land no stale one. */
  lemma {:induction false} SelectionsApartAreFresh(s: State, actions: seq<Action>, bindingId: string)
    requires AA.QueueFresh(s.assignments.records, s.assignments.queue) && SelectionsApart(s, actions)
    ensures NoStaleSelection(s, actions, bindingId)
    ensures AA.QueueFresh(Run(s, actions).assignments.records, Run(s, actions).assignments.queue)
  {
    if actions != [] {
      var mid, a := Run(s, actions[..|actions| - 1]), actions[|actions| - 1];
      SelectionsApartAreFresh(s, actions[..|actions| - 1], bindingId);
      SeparateStepIsFresh(mid, a, bindingId);
    }
  }
}
