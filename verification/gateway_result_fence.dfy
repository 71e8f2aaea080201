/** The fence on one-shot results looks the assignment up by host, provider and workspace, not
    by the call's own binding. These lemmas say when that still fences the binding. */
module GatewayResultFence {
  import opened Json
  import opened Options
  import opened HarnessStream
  import opened HostAttempt
  import opened Gateway
  import opened GatewayInvariant
  import opened GatewaySteps
  import opened GatewayTheorems
  import AA = ActiveAssignment

  /** The call's own binding is ready, still held as it was when the call was admitted. */
  ghost predicate OwnFence(assignments: AA.Assignments, r: LiveResultAttempt) {
    var found := AA.Inspect(assignments, r.bindingId);
    && found.Some?
    && found.value.status == AA.Ready
    && MatchesAssignment(found.value.record, r.hostId, r.providerId, r.envelope.scopeId, r.envelope.generation, None)
  }

  /** No other binding comes first under the call's host, provider and workspace. */
  ghost predicate NoForeignHolder(records: seq<AA.Record>, r: LiveResultAttempt) {
    var holder := AA.FindTuple(records, r.hostId, r.providerId, r.envelope.scopeId);
    holder.None? || r.envelope.scopeId.None? || holder.value.bindingId == r.bindingId
  }

  lemma TupleFenceSoundWhen(assignments: AA.Assignments, r: LiveResultAttempt)
    requires AA.UniqueBindings(assignments.records) && NoForeignHolder(assignments.records, r)
    ensures FencedByTuple(assignments, r) ==> OwnFence(assignments, r)
  {
    var holder := AA.FindTuple(assignments.records, r.hostId, r.providerId, r.envelope.scopeId);
    AA.FoundTupleHolds(assignments.records, r.hostId, r.providerId, r.envelope.scopeId);
    if holder.Some? { AA.UniqueIsFound(assignments.records, holder.value); }
  }

  lemma OwnFenceSufficesWhen(assignments: AA.Assignments, r: LiveResultAttempt)
    requires AA.UniqueBindings(assignments.records) && NoForeignHolder(assignments.records, r)
    ensures OwnFence(assignments, r) ==> FencedByTuple(assignments, r)
  {
    if OwnFence(assignments, r) {
      var own := AA.FindBinding(assignments.records, r.bindingId).value;
      AA.FoundInTable(assignments.records, r.bindingId);
      AA.FoundBindingIsOwn(assignments.records, r.bindingId);
      HolderExists(assignments.records, own, r.hostId, r.providerId, r.envelope.scopeId);
      var holder := AA.FindTuple(assignments.records, r.hostId, r.providerId, r.envelope.scopeId);
      AA.FoundTupleHolds(assignments.records, r.hostId, r.providerId, r.envelope.scopeId);
      AA.UniqueIsFound(assignments.records, holder.value);
      AA.UniqueIsFound(assignments.records, own);
    }
  }

  lemma {:induction false} HolderExists(records: seq<AA.Record>, own: AA.Record, h: string, p: string, w: Option<string>)
    requires own in records && AA.HoldsTuple(own, h, p, w)
    ensures AA.FindTuple(records, h, p, w).Some?
  {
    if !AA.HoldsTuple(records[0], h, p, w) {
      assert own in records[1..];
      HolderExists(records[1..], own, h, p, w);
    }
  }

  /** The table with one binding at generation g and every other one past it. */
  ghost function Relabel(records: seq<AA.Record>, b: string, g: nat): (out: seq<AA.Record>)
    ensures AA.SameHolders(records, out)
    ensures forall i | 0 <= i < |out| :: out[i].generation == if out[i].bindingId == b then g else g + 1
  {
    seq(|records|, i requires 0 <= i < |records| =>
      records[i].(generation := if records[i].bindingId == b then g else g + 1))
  }

  /** When another binding comes first, some generations let a result through although the
      call's own binding has moved on. */
  lemma ForeignHolderBreaksFence(assignments: AA.Assignments, r: LiveResultAttempt)
    requires AA.UniqueBindings(assignments.records) && !NoForeignHolder(assignments.records, r)
    requires 0 <= r.envelope.generation
    ensures exists other: AA.Assignments ::
              && AA.SameHolders(assignments.records, other.records)
              && FencedByTuple(other, r) && !OwnFence(other, r)
  {
    var h, p, w := r.hostId, r.providerId, r.envelope.scopeId;
    var holder := AA.FindTuple(assignments.records, h, p, w).value;
    AA.FoundTupleHolds(assignments.records, h, p, w);
    var records := Relabel(assignments.records, holder.bindingId, r.envelope.generation);
    AA.SameHoldersFindSame(assignments.records, records, h, p, w);
    AA.SameHoldersStayUnique(assignments.records, records);
    AA.FoundTupleHolds(records, h, p, w);
    var first := AA.FindTuple(records, h, p, w).value;
    AA.UniqueIsFound(records, first);
    var other := AA.Assignments(records, {AA.ReadyKey(h, first.bindingId, p, w.value)}, {h}, []);
    assert FencedByTuple(other, r);
    AA.FoundInTable(records, r.bindingId);
    AA.FoundBindingIsOwn(records, r.bindingId);
    assert !OwnFence(other, r);
  }

  /** The exact condition: whatever the generations and readiness, a result that passes the
      tuple fence belongs to a binding that is still the call's own, if and only if no other
      binding comes first under the call's host, provider and workspace. */
  lemma TupleFenceIsOwnFenceExactlyWhen(assignments: AA.Assignments, r: LiveResultAttempt)
    requires AA.UniqueBindings(assignments.records) && 0 <= r.envelope.generation
    ensures (forall other: AA.Assignments | AA.SameHolders(assignments.records, other.records) ::
               FencedByTuple(other, r) ==> OwnFence(other, r))
            <==> NoForeignHolder(assignments.records, r)
  {
    if NoForeignHolder(assignments.records, r) {
      forall other: AA.Assignments | AA.SameHolders(assignments.records, other.records)
        ensures FencedByTuple(other, r) ==> OwnFence(other, r)
      {
        AA.SameHoldersFindSame(assignments.records, other.records, r.hostId, r.providerId, r.envelope.scopeId);
        AA.SameHoldersStayUnique(assignments.records, other.records);
        TupleFenceSoundWhen(other, r);
      }
    } else {
      ForeignHolderBreaksFence(assignments, r);
    }
  }

  // ---- over runs

  ghost predicate IsResult(s: State, c: CallId) {
    c < |s.calls| && s.calls[c].invocationId in s.resultAttempts && s.resultAttempts[s.calls[c].invocationId].call == c
  }

  ghost function ResultEntry(s: State, c: CallId): LiveResultAttempt
    requires IsResult(s, c)
  {
    s.resultAttempts[s.calls[c].invocationId]
  }

  ghost predicate ResultUntouched(s: State, t: State, c: CallId) {
    IsResult(s, c) && IsResult(t, c) && t.calls[c] == s.calls[c] && ResultEntry(t, c) == ResultEntry(s, c)
  }

  ghost predicate RejectedCall(t: State, c: CallId) {
    c < |t.calls| && t.calls[c].delivered == [] && exists code :: t.calls[c].answers == [Rejected(code)]
  }

  /** The one step that can give the caller a host's result. */
  ghost predicate FencedResult(s: State, a: Action, c: CallId)
    requires IsResult(s, c)
  {
    && a.HostResultFrame?
    && a.invocationId == s.calls[c].invocationId
    && a.socket in s.owner && s.owner[a.socket] == ResultEntry(s, c).hostId
    && FencedByTuple(s.assignments, ResultEntry(s, c))
  }

  ghost predicate ResultStandsAlone(s: State, c: CallId)
    requires IsResult(s, c)
  {
    var id := s.calls[c].invocationId;
    && s.calls[c].answers == [] && s.calls[c].delivered == []
    && id !in s.attempts
    && (forall other | other in s.resultAttempts && s.resultAttempts[other].call == c :: other == id)
    && (forall other | other in s.attempts :: s.attempts[other].call != c)
  }

  lemma ResultIsAlone(s: State, c: CallId)
    requires Inv(s) && IsResult(s, c)
    ensures ResultStandsAlone(s, c)
  {
    assert ResultTracked(s.calls, s.calls[c].invocationId, ResultEntry(s, c));
    forall other | other in s.resultAttempts && s.resultAttempts[other].call == c
      ensures other == s.calls[c].invocationId
    {
      assert ResultTracked(s.calls, other, s.resultAttempts[other]);
    }
    forall other | other in s.attempts ensures s.attempts[other].call != c { TurnFacts(s, other); }
  }

  lemma StepOfALoneResult(s: State, a: Action, c: CallId)
    requires IsResult(s, c) && ResultStandsAlone(s, c)
    ensures var t := Step(s, a);
            ResultUntouched(s, t, c) || RejectedCall(t, c) || FencedResult(s, a, c)
  {
    match a
    case DoInvoke(inv) => InvokeLeavesResult(s, inv, c);
    case HostEvent(socket, e, public) => if FrameAdmits(e) { EventLeavesResult(s, socket, e, public, c); }
    case HostResultFrame(socket, id, generation, value) => ResultFrameOfAResult(s, socket, id, generation, value, c);
    case CloseSocket(socket) => CloseOfAResult(s, socket, c);
    case _ =>
  }

  lemma EventLeavesResult(s: State, socket: SocketId, e: Event, public: bool, c: CallId)
    requires IsResult(s, c) && ResultStandsAlone(s, c)
    ensures ResultUntouched(s, AcceptEvent(s, socket, e, public), c)
  {
  }

  lemma ResultFrameOfAResult(s: State, socket: SocketId, id: string, generation: int, value: Json, c: CallId)
    requires IsResult(s, c) && ResultStandsAlone(s, c)
    ensures var t := AcceptResult(s, socket, id, generation, value);
            || ResultUntouched(s, t, c) || RejectedCall(t, c)
            || FencedResult(s, HostResultFrame(socket, id, generation, value), c)
  {
    if id == s.calls[c].invocationId { SettledCall(s.calls, c, Rejected(InvalidHostOutput)); }
  }

  lemma InvokeLeavesResult(s: State, inv: Invocation, c: CallId)
    requires IsResult(s, c)
    ensures ResultUntouched(s, Invoke(s, inv), c)
  {
    match AdmissionOf(s, inv)
    case AdmitTurn(q) => AdmittedTurn(s, inv, q);
    case AdmitResult(bindingId) => AdmittedResult(s, inv, bindingId);
    case CloseUndispatched(q) => AdmittedTurn(s, inv, q);
    case _ =>
  }

  lemma CloseOfAResult(s: State, socket: SocketId, c: CallId)
    requires IsResult(s, c) && ResultStandsAlone(s, c)
    ensures var t := SocketClosed(s, socket); ResultUntouched(s, t, c) || RejectedCall(t, c)
  {
    if IsCurrent(s, socket) {
      var mid, host := StopReading(s, socket), s.owner[socket];
      assert !TurnOf(mid, c, host);
      assert Sweep(mid, host).calls[c] == SweptCall(mid, c, host);
      SettledCall(s.calls, c, Rejected(HostAuthenticationRequired));
    }
  }

  /** A superseded call gets no result in one step. */
  lemma SupersededResultStep(s: State, a: Action, c: CallId)
    requires Inv(s) && IsResult(s, c)
    requires Superseded(s.assignments, ResultEntry(s, c).bindingId, ResultEntry(s, c).envelope.generation)
    requires AA.UniqueBindings(s.assignments.records) && NoForeignHolder(s.assignments.records, ResultEntry(s, c))
    ensures ResultUntouched(s, Step(s, a), c) || RejectedCall(Step(s, a), c)
  {
    TupleFenceSoundWhen(s.assignments, ResultEntry(s, c));
    ResultIsAlone(s, c);
    StepOfALoneResult(s, a, c);
  }

  lemma RejectedStaysRejected(mid: State, a: Action, c: CallId)
    requires Inv(mid) && RejectedCall(mid, c)
    ensures RejectedCall(Step(mid, a), c)
  {
    StepIsGood(mid, a);
    assert Extends(mid.calls[c], Step(mid, a).calls[c]);
  }

  lemma StepKeepsUnique(s: State, a: Action)
    requires AA.UniqueBindings(s.assignments.records)
    ensures AA.UniqueBindings(Step(s, a).assignments.records)
  {
    StepChangesAssignments(s, a);
    if ChangeOf(s, a).Some? { AA.BindingsStayUnique(s.assignments, ChangeOf(s, a).value); }
  }

  /** No other binding comes first under the call's host, provider and workspace, at any moment. */
  ghost predicate NeverForeign(s: State, actions: seq<Action>, r: LiveResultAttempt) {
    NoForeignHolder(Run(s, actions).assignments.records, r)
    && (actions == [] || NeverForeign(s, actions[..|actions| - 1], r))
  }

  /** Where no foreign binding ever comes first and no stale selection of the binding lands, a
      superseded result call never resolves. */
  lemma {:induction false} SupersededResultIsSilent(s: State, actions: seq<Action>, c: CallId)
    requires ReachableState(s) && IsResult(s, c) && AA.UniqueBindings(s.assignments.records)
    requires Superseded(s.assignments, ResultEntry(s, c).bindingId, ResultEntry(s, c).envelope.generation)
    requires NeverForeign(s, actions, ResultEntry(s, c)) && NoStaleSelection(s, actions, ResultEntry(s, c).bindingId)
    ensures ResultUntouched(s, Run(s, actions), c) || RejectedCall(Run(s, actions), c)
    ensures Superseded(Run(s, actions).assignments, ResultEntry(s, c).bindingId, ResultEntry(s, c).envelope.generation)
    ensures AA.UniqueBindings(Run(s, actions).assignments.records)
  {
    if actions != [] {
      var front, a := actions[..|actions| - 1], actions[|actions| - 1];
      var mid, r := Run(s, front), ResultEntry(s, c);
      assert Inv(mid) by {
        ReachableInv(s);
        RunIsGood(s, front);
      }
      SupersededResultIsSilent(s, front, c);
      StepKeepsSuperseded(mid, a, r.bindingId, r.envelope.generation);
      StepKeepsUnique(mid, a);
      if ResultUntouched(s, mid, c) {
        SupersededResultStep(mid, a, c);
      } else {
        RejectedStaysRejected(mid, a, c);
      }
    }
  }
}
