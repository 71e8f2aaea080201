/** Which invocations the gateway admits and what it answers to the others, stated from the caller's
    side: the request in the payload, the stored assignment records, the live entries, the sockets. */
module GatewayAdmission {
  import opened Json
  import opened Options
  import opened HarnessStream
  import opened HostAttempt
  import opened Gateway
  import opened GatewayInvariant
  import opened GatewaySteps
  import opened GatewayTheorems
  import AA = ActiveAssignment

  // ---- what an invocation asks for

  /** The payload is the encoding of a request of the envelope's operation. */
  ghost predicate Carries(inv: Invocation, q: Request) {
    && inv.envelope.Some? && ValidEnvelope(inv.envelope.value)
    && ValidRequest(q) && ForInvocation(q, inv.envelope.value.invocationId)
    && inv.envelope.value.operation == Operation(q)
    && inv.payload == EncodeRequest(q)
  }

  lemma CarriedIsParsed(inv: Invocation, q: Request)
    requires Carries(inv, q)
    ensures ParseRequest(inv.envelope.value.invocationId, inv.envelope.value.operation, inv.payload) == Some(q)
  {
    EncodedRequestParses(q, inv.envelope.value.invocationId);
  }

  lemma ParsedIsCarried(inv: Invocation)
    requires inv.envelope.Some? && ValidEnvelope(inv.envelope.value)
    ensures var parsed := ParseRequest(inv.envelope.value.invocationId, inv.envelope.value.operation, inv.payload);
            if parsed.Some? then Carries(inv, parsed.value) else forall q :: !Carries(inv, q)
  {
    ParsedRequestIsEncoded(inv.envelope.value.invocationId, inv.envelope.value.operation, inv.payload);
    forall q | Carries(inv, q)
      ensures ParseRequest(inv.envelope.value.invocationId, inv.envelope.value.operation, inv.payload) == Some(q)
    {
      CarriedIsParsed(inv, q);
    }
  }

  // ---- the record it is checked against

  /** The first stored record of the binding. */
  ghost predicate FirstOfBinding(records: seq<AA.Record>, bindingId: string, r: AA.Record) {
    exists i: nat :: i < |records| && records[i] == r && r.bindingId == bindingId
                     && forall j | 0 <= j < i :: records[j].bindingId != bindingId
  }

  /** The first stored record held by host and provider for the workspace. */
  ghost predicate FirstOfHolder(records: seq<AA.Record>, h: string, p: string, w: Option<string>, r: AA.Record) {
    exists i: nat :: i < |records| && records[i] == r
                     && r.hostId == h && r.providerId == Some(p) && r.workspaceBindingId == w
                     && forall j | 0 <= j < i ::
                          records[j].hostId != h || records[j].providerId != Some(p) || records[j].workspaceBindingId != w
  }

  lemma {:induction false} FindBindingIsFirst(records: seq<AA.Record>, bindingId: string)
    ensures forall r :: AA.FindBinding(records, bindingId) == Some(r) <==> FirstOfBinding(records, bindingId, r)
  {
    if records != [] {
      var rest := records[1..];
      FindBindingIsFirst(rest, bindingId);
      if records[0].bindingId == bindingId {
        assert FirstOfBinding(records, bindingId, records[0]) by { assert records[0] == records[0]; }
      } else {
        forall r | FirstOfBinding(rest, bindingId, r)
          ensures FirstOfBinding(records, bindingId, r)
        {
          var i: nat :| i < |rest| && rest[i] == r && forall j | 0 <= j < i :: rest[j].bindingId != bindingId;
          assert records[i + 1] == r && forall j | 0 < j < i + 1 :: records[j] == rest[j - 1];
        }
        forall r | FirstOfBinding(records, bindingId, r)
          ensures FirstOfBinding(rest, bindingId, r)
        {
          var i: nat :| i < |records| && records[i] == r && r.bindingId == bindingId
                        && forall j | 0 <= j < i :: records[j].bindingId != bindingId;
          assert rest[i - 1] == r && forall j | 0 <= j < i - 1 :: rest[j] == records[j + 1];
        }
      }
    }
  }

  lemma {:induction false} FindTupleIsFirst(records: seq<AA.Record>, h: string, p: string, w: Option<string>)
    ensures forall r :: AA.FindTuple(records, h, p, w) == Some(r) <==> FirstOfHolder(records, h, p, w, r)
  {
    if records != [] {
      var rest := records[1..];
      FindTupleIsFirst(rest, h, p, w);
      if AA.HoldsTuple(records[0], h, p, w) {
        assert FirstOfHolder(records, h, p, w, records[0]) by { assert records[0] == records[0]; }
      } else {
        forall r | FirstOfHolder(rest, h, p, w, r)
          ensures FirstOfHolder(records, h, p, w, r)
        {
          var i: nat :| i < |rest| && rest[i] == r && forall j | 0 <= j < i :: !AA.HoldsTuple(rest[j], h, p, w);
          assert records[i + 1] == r && forall j | 0 < j < i + 1 :: records[j] == rest[j - 1];
        }
        forall r | FirstOfHolder(records, h, p, w, r)
          ensures FirstOfHolder(rest, h, p, w, r)
        {
          var i: nat :| i < |records| && records[i] == r && AA.HoldsTuple(r, h, p, w)
                        && forall j | 0 <= j < i :: !AA.HoldsTuple(records[j], h, p, w);
          assert rest[i - 1] == r && forall j | 0 <= j < i - 1 :: rest[j] == records[j + 1];
        }
      }
    }
  }

  /** The record of the binding the request names; describe names none and gets that of the first
      record its host and provider hold for the workspace. */
  ghost predicate LooksAt(s: State, inv: Invocation, q: Request, r: AA.Record)
    requires inv.envelope.Some?
  {
    var records := s.assignments.records;
    match q
    case Describe =>
      exists held :: FirstOfHolder(records, inv.hostId, inv.providerId, inv.envelope.value.scopeId, held)
                     && FirstOfBinding(records, held.bindingId, r)
    case Ensure(bindingId, _, _) => FirstOfBinding(records, bindingId, r)
    case Start(id, _) => FirstOfBinding(records, id.bindingId, r)
    case CancelTurn(id, _) => FirstOfBinding(records, id.bindingId, r)
  }

  ghost predicate ReportedReady(a: AA.Assignments, r: AA.Record) {
    && r.providerId.Some? && r.workspaceBindingId.Some?
    && AA.ReadyKey(r.hostId, r.bindingId, r.providerId.value, r.workspaceBindingId.value) in a.ready
  }

  lemma LookupIsLooking(s: State, inv: Invocation, q: Request)
    requires Carries(inv, q) && !q.CancelTurn?
    ensures var found := Lookup(s, inv, inv.envelope.value, q);
            if found.Some? then LooksAt(s, inv, q, found.value.record) && StatusIs(s.assignments, found.value)
            else forall r :: !LooksAt(s, inv, q, r)
  {
    var records := s.assignments.records;
    match q
    case Describe =>
      FindTupleIsFirst(records, inv.hostId, inv.providerId, inv.envelope.value.scopeId);
      var held := AA.FindTuple(records, inv.hostId, inv.providerId, inv.envelope.value.scopeId);
      if held.Some? {
        FindBindingIsFirst(records, held.value.bindingId);
        AA.FoundTupleHolds(records, inv.hostId, inv.providerId, inv.envelope.value.scopeId);
        AA.FoundInTable(records, held.value.bindingId);
      }
    case Ensure(bindingId, _, _) => FindBindingIsFirst(records, bindingId);
    case Start(id, _) => FindBindingIsFirst(records, id.bindingId);
  }

  ghost predicate StatusIs(a: AA.Assignments, found: AA.Inspected) {
    && (found.status.Offline? <==> found.record.hostId !in a.connected)
    && (found.status.Ready? <==> found.record.hostId in a.connected && ReportedReady(a, found.record))
  }

  lemma LooksAtOne(s: State, inv: Invocation, q: Request, r: AA.Record)
    requires Carries(inv, q) && !q.CancelTurn? && LooksAt(s, inv, q, r)
    ensures Lookup(s, inv, inv.envelope.value, q).Some? && Lookup(s, inv, inv.envelope.value, q).value.record == r
    ensures StatusIs(s.assignments, Lookup(s, inv, inv.envelope.value, q).value)
  {
    LookupIsLooking(s, inv, q);
    var records := s.assignments.records;
    match q
    case Describe =>
      FindTupleIsFirst(records, inv.hostId, inv.providerId, inv.envelope.value.scopeId);
      var held :| FirstOfHolder(records, inv.hostId, inv.providerId, inv.envelope.value.scopeId, held)
                  && FirstOfBinding(records, held.bindingId, r);
      FindBindingIsFirst(records, held.bindingId);
    case Ensure(bindingId, _, _) => FindBindingIsFirst(records, bindingId);
    case Start(id, _) => FindBindingIsFirst(records, id.bindingId);
  }

  // ---- when an invocation may run

  /** Host, provider, workspace and generation are those the record holds. */
  predicate HeldAsGiven(inv: Invocation, q: Request, r: AA.Record)
    requires inv.envelope.Some?
  {
    && r.hostId == inv.hostId
    && r.providerId == Some(inv.providerId)
    && r.workspaceBindingId == inv.envelope.value.scopeId
    && r.generation == inv.envelope.value.generation
    && (q.Start? || q.CancelTurn? ==> q.id.generation == r.generation)
  }

  /** Neither the invocation id nor the binding has a live entry. */
  ghost predicate Unclaimed(s: State, id: string, bindingId: string) {
    && id !in s.attempts && id !in s.resultAttempts
    && (forall other | other in s.attempts && s.attempts[other].request.Start? ::
          s.attempts[other].request.id.bindingId != bindingId)
    && (forall other | other in s.resultAttempts :: s.resultAttempts[other].bindingId != bindingId)
  }

  ghost predicate Fenceable(s: State, inv: Invocation, q: Request, r: AA.Record)
    requires inv.envelope.Some?
  {
    HeldAsGiven(inv, q, r) && (r.hostId in s.assignments.connected ==> ReportedReady(s.assignments, r))
  }

  /** The invocation asks for q, an operation other than a cancellation, and record r, the caller's
      rights and the live entries allow it; the host may still be out of reach. */
  ghost predicate MayRun(s: State, inv: Invocation, q: Request, r: AA.Record) {
    && Carries(inv, q) && !q.CancelTurn?
    && LooksAt(s, inv, q, r) && Fenceable(s, inv, q, r)
    && inv.authorized && inv.callable
    && Unclaimed(s, inv.envelope.value.invocationId, r.bindingId)
  }

  predicate Reaches(s: State, inv: Invocation, r: AA.Record) {
    && r.hostId in s.assignments.connected
    && inv.hostId in s.hostSockets && s.hostSockets[inv.hostId] in s.open
    && !inv.sendFails
  }

  ghost predicate Admits(s: State, inv: Invocation, q: Request, r: AA.Record) {
    MayRun(s, inv, q, r) && Reaches(s, inv, r)
  }

  lemma ClaimedExactlyWhen(s: State, id: string, bindingId: string)
    ensures Unclaimed(s, id, bindingId)
            <==> id !in s.attempts && id !in s.resultAttempts && !ActiveForBinding(s, bindingId)
  {
    assert forall other | other in s.attempts ::
        AttemptBinding(s.attempts[other]) == Some(bindingId)
        <==> s.attempts[other].request.Start? && s.attempts[other].request.id.bindingId == bindingId;
  }

  /** The decision about an invocation whose request was read and whose record was found. */
  lemma DecisionOnRecord(s: State, inv: Invocation, q: Request, r: AA.Record)
    requires Carries(inv, q) && !q.CancelTurn? && LooksAt(s, inv, q, r)
    ensures AdmissionOf(s, inv)
            == if !Fenceable(s, inv, q, r) then Refuse(Fenced(StaleGeneration))
               else if !inv.authorized then Refuse(OperationUnauthorized)
               else if !inv.callable then Refuse(HostContributionMismatch)
               else if !Unclaimed(s, inv.envelope.value.invocationId, r.bindingId) then Refuse(InvalidHostRequest)
               else if q.Start? then if Reaches(s, inv, r) then AdmitTurn(q) else CloseUndispatched(q)
               else if Reaches(s, inv, r) then AdmitResult(r.bindingId) else Refuse(HostAuthenticationRequired)
  {
    CarriedIsParsed(inv, q);
    LooksAtOne(s, inv, q, r);
    ClaimedExactlyWhen(s, inv.envelope.value.invocationId, r.bindingId);
  }

  lemma DecisionWithoutRecord(s: State, inv: Invocation, q: Request)
    requires Carries(inv, q) && !q.CancelTurn? && forall r :: !LooksAt(s, inv, q, r)
    ensures AdmissionOf(s, inv) == Refuse(if q.Describe? then Fenced(StaleGeneration) else AssignmentNotFound)
  {
    CarriedIsParsed(inv, q);
    LookupIsLooking(s, inv, q);
  }

  /** A valid envelope for turn.cancel, whatever the payload. */
  predicate AsksToCancel(inv: Invocation) {
    inv.envelope.Some? && ValidEnvelope(inv.envelope.value) && inv.envelope.value.operation == "turn.cancel"
  }

  lemma DecisionWithoutRequest(s: State, inv: Invocation)
    requires !AsksToCancel(inv) && forall q :: !Carries(inv, q)
    ensures AdmissionOf(s, inv) == Refuse(InvalidHostRequest)
  {
    if inv.envelope.Some? && ValidEnvelope(inv.envelope.value) { ParsedIsCarried(inv); }
  }

  // ---- what invoke does

  /** Nothing is stored; the call is answered with the refusal. */
  ghost predicate Refuses(s: State, inv: Invocation, code: ErrorCode) {
    Invoke(s, inv) == s.(calls := s.calls + [Call(InvocationId(inv), None, [], [Rejected(code)])])
  }

  /** What an admitted invocation leaves: one entry, with nothing recorded yet, and a waiting call. */
  function Stored(s: State, inv: Invocation, q: Request, r: AA.Record): State
    requires Carries(inv, q)
  {
    var e := inv.envelope.value;
    if q.Start? then
      var record := AttemptState(q.id, Obj(map["text" := Str(q.text)]), [], true, false);
      s.(attempts := s.attempts[e.invocationId :=
           LiveAttempt(|s.calls|, inv.hostId, inv.providerId, e, q, NewFence(r.generation), [], record)],
         calls := s.calls + [Call(e.invocationId, Some(q.id), [], [])])
    else
      s.(resultAttempts := s.resultAttempts[e.invocationId :=
           LiveResultAttempt(|s.calls|, r.bindingId, inv.hostId, inv.providerId, e)],
         calls := s.calls + [Call(e.invocationId, None, [], [])])
  }

  lemma AdmittedIsStored(s: State, inv: Invocation, q: Request, r: AA.Record)
    requires Admits(s, inv, q, r)
    ensures Invoke(s, inv) == Stored(s, inv, q, r)
  {
    DecisionOnRecord(s, inv, q, r);
  }

  lemma NotAdmittedIsNotStored(s: State, inv: Invocation)
    requires forall q, r :: !Admits(s, inv, q, r)
    ensures !AdmissionOf(s, inv).AdmitTurn? && !AdmissionOf(s, inv).AdmitResult?
  {
    if AsksToCancel(inv) {
    } else if forall asked :: !Carries(inv, asked) {
      DecisionWithoutRequest(s, inv);
    } else {
      var asked :| Carries(inv, asked);
      if r :| LooksAt(s, inv, asked, r) {
        assert !Admits(s, inv, asked, r);
        DecisionOnRecord(s, inv, asked, r);
      } else {
        DecisionWithoutRecord(s, inv, asked);
      }
    }
  }

  lemma OnlyAdmissionsStore(s: State, inv: Invocation)
    requires !AdmissionOf(s, inv).AdmitTurn? && !AdmissionOf(s, inv).AdmitResult?
    ensures Invoke(s, inv).attempts == s.attempts && Invoke(s, inv).resultAttempts == s.resultAttempts
  {
  }

  /** invoke adds an entry to one of the maps exactly if its envelope is valid, its payload is a
      request other than a cancellation, it is authorised and callable, the record found is ready
      and held as given, id and binding are free, the host's socket is open and the send succeeds.
      In every other case both maps stay as they are. */
  lemma AdmittedExactlyWhen(s: State, inv: Invocation)
    ensures Invoke(s, inv).attempts != s.attempts || Invoke(s, inv).resultAttempts != s.resultAttempts
            <==> exists q, r :: Admits(s, inv, q, r)
  {
    if q, r :| Admits(s, inv, q, r) {
      AdmittedIsStored(s, inv, q, r);
    } else {
      NotAdmittedIsNotStored(s, inv);
      OnlyAdmissionsStore(s, inv);
    }
  }

  /** The refusals, in order. */
  lemma RefusedWithoutRequest(s: State, inv: Invocation)
    requires !AsksToCancel(inv) && forall q :: !Carries(inv, q)
    ensures Refuses(s, inv, InvalidHostRequest)
  {
    DecisionWithoutRequest(s, inv);
  }

  lemma RefusedWithoutRecord(s: State, inv: Invocation, q: Request)
    requires Carries(inv, q) && !q.CancelTurn? && forall r :: !LooksAt(s, inv, q, r)
    ensures Refuses(s, inv, if q.Describe? then Fenced(StaleGeneration) else AssignmentNotFound)
  {
    DecisionWithoutRecord(s, inv, q);
  }

  lemma UndispatchedIsClosed(s: State, inv: Invocation, q: Request, r: AA.Record)
    requires MayRun(s, inv, q, r) && !Reaches(s, inv, r) && q.Start?
    ensures var closing := Event(q.id, 1, Terminal, Obj(map["outcome" := Str("failed")]));
            Invoke(s, inv) == s.(calls := s.calls + [Call(q.id.invocationId, Some(q.id), [closing], [Outcome([closing])])])
  {
    DecisionOnRecord(s, inv, q, r);
    var a := NewAttempt(inv.envelope.value, q);
    assert a.id == q.id && [] + [ClosingEvent(a)] == [ClosingEvent(a)];
  }

  /** A request checked against record r: the first test that fails names the refusal; a turn whose
      host cannot be reached is closed undispatched, with one failed terminal, which its caller is
      both given and answered with. */
  lemma AnswerOnRecord(s: State, inv: Invocation, q: Request, r: AA.Record)
    requires Carries(inv, q) && !q.CancelTurn? && LooksAt(s, inv, q, r)
    ensures !Fenceable(s, inv, q, r) ==> Refuses(s, inv, Fenced(StaleGeneration))
    ensures Fenceable(s, inv, q, r) && !inv.authorized ==> Refuses(s, inv, OperationUnauthorized)
    ensures Fenceable(s, inv, q, r) && inv.authorized && !inv.callable ==> Refuses(s, inv, HostContributionMismatch)
    ensures Fenceable(s, inv, q, r) && inv.authorized && inv.callable && !MayRun(s, inv, q, r) ==>
              Refuses(s, inv, InvalidHostRequest)
    ensures MayRun(s, inv, q, r) && !Reaches(s, inv, r) && !q.Start? ==> Refuses(s, inv, HostAuthenticationRequired)
    ensures MayRun(s, inv, q, r) && !Reaches(s, inv, r) && q.Start? ==>
              var closing := Event(q.id, 1, Terminal, Obj(map["outcome" := Str("failed")]));
              Invoke(s, inv) == s.(calls := s.calls + [Call(q.id.invocationId, Some(q.id), [closing], [Outcome([closing])])])
    ensures Admits(s, inv, q, r) ==> Invoke(s, inv) == Stored(s, inv, q, r)
  {
    DecisionOnRecord(s, inv, q, r);
    if MayRun(s, inv, q, r) && !Reaches(s, inv, r) && q.Start? {
      UndispatchedIsClosed(s, inv, q, r);
    } else if Admits(s, inv, q, r) {
      AdmittedIsStored(s, inv, q, r);
    }
  }

  // ---- over runs

  ghost predicate SameTurn(before: LiveAttempt, after: LiveAttempt) {
    && after.hostId == before.hostId && after.providerId == before.providerId
    && after.envelope == before.envelope && after.request == before.request
  }

  /** Action a invokes what the entry was stored for, and state s admits it. */
  ghost predicate AdmitsTurn(s: State, a: Action, entry: LiveAttempt) {
    && a.DoInvoke? && a.inv.envelope == Some(entry.envelope)
    && a.inv.hostId == entry.hostId && a.inv.providerId == entry.providerId
    && exists r :: Admits(s, a.inv, entry.request, r)
  }

  ghost predicate AdmitsResult(s: State, a: Action, entry: LiveResultAttempt) {
    && a.DoInvoke? && a.inv.envelope == Some(entry.envelope)
    && a.inv.hostId == entry.hostId && a.inv.providerId == entry.providerId
    && exists q, r :: Admits(s, a.inv, q, r) && r.bindingId == entry.bindingId
  }

  lemma InvokedOrigin(s: State, inv: Invocation, id: string)
    ensures id in Invoke(s, inv).attempts ==>
              (id in s.attempts && Invoke(s, inv).attempts[id] == s.attempts[id])
              || AdmitsTurn(s, DoInvoke(inv), Invoke(s, inv).attempts[id])
    ensures id in Invoke(s, inv).resultAttempts ==>
              (id in s.resultAttempts && Invoke(s, inv).resultAttempts[id] == s.resultAttempts[id])
              || AdmitsResult(s, DoInvoke(inv), Invoke(s, inv).resultAttempts[id])
  {
    AdmittedExactlyWhen(s, inv);
    if q, r :| Admits(s, inv, q, r) {
      AdmittedIsStored(s, inv, q, r);
    }
  }

  lemma RecordedOrigin(s: State, id: string, e: Event)
    requires id in s.attempts
    ensures var t := RecordEvent(s, id, e);
            && (forall other | other in t.attempts :: other in s.attempts && SameTurn(s.attempts[other], t.attempts[other]))
            && t.resultAttempts == s.resultAttempts
  {
  }

  lemma EventOrigin(s: State, socket: SocketId, e: Event, public: bool, id: string)
    ensures var t := AcceptEvent(s, socket, e, public);
            && (id in t.attempts ==> id in s.attempts && SameTurn(s.attempts[id], t.attempts[id]))
            && t.resultAttempts == s.resultAttempts
  {
    if e.id.invocationId in s.attempts { RecordedOrigin(s, e.id.invocationId, e); }
  }

  lemma StepOrigin(s: State, a: Action, id: string)
    ensures var t := Step(s, a);
            && (id in t.attempts ==>
                  (id in s.attempts && SameTurn(s.attempts[id], t.attempts[id])) || AdmitsTurn(s, a, t.attempts[id]))
            && (id in t.resultAttempts ==>
                  (id in s.resultAttempts && t.resultAttempts[id] == s.resultAttempts[id])
                  || AdmitsResult(s, a, t.resultAttempts[id]))
  {
    match a
    case DoInvoke(inv) => InvokedOrigin(s, inv, id);
    case HostEvent(socket, e, public) => if FrameAdmits(e) { EventOrigin(s, socket, e, public, id); }
    case _ =>
  }

  ghost predicate TurnAdmittedAt(assignments: AA.Assignments, actions: seq<Action>, n: nat, entry: LiveAttempt)
    requires n < |actions|
  {
    AdmitsTurn(Run(Initial(assignments), actions[..n]), actions[n], entry)
  }

  ghost predicate ResultAdmittedAt(assignments: AA.Assignments, actions: seq<Action>, n: nat, entry: LiveResultAttempt)
    requires n < |actions|
  {
    AdmitsResult(Run(Initial(assignments), actions[..n]), actions[n], entry)
  }

  lemma AdmittedInPrefix(assignments: AA.Assignments, actions: seq<Action>, m: nat, n: nat)
    requires n < m <= |actions|
    ensures forall entry :: TurnAdmittedAt(assignments, actions[..m], n, entry) <==> TurnAdmittedAt(assignments, actions, n, entry)
    ensures forall entry :: ResultAdmittedAt(assignments, actions[..m], n, entry) <==> ResultAdmittedAt(assignments, actions, n, entry)
  {
    assert actions[..m][..n] == actions[..n];
  }

  lemma SameTurnAdmitted(s: State, a: Action, before: LiveAttempt, after: LiveAttempt)
    requires AdmitsTurn(s, a, before) && SameTurn(before, after)
    ensures AdmitsTurn(s, a, after)
  {
  }

  /** Over every run: a live streamed attempt was stored by an earlier invocation, authorised and
      callable, that the state of that moment admitted. */
  lemma {:induction false} LiveTurnsWereAdmitted(assignments: AA.Assignments, actions: seq<Action>, id: string)
    requires id in Run(Initial(assignments), actions).attempts
    ensures exists n: nat :: n < |actions|
              && TurnAdmittedAt(assignments, actions, n, Run(Initial(assignments), actions).attempts[id])
              && actions[n].inv.authorized && actions[n].inv.callable
  {
    assert actions != [];
    var last := |actions| - 1;
    var s, entry := Run(Initial(assignments), actions[..last]), Run(Initial(assignments), actions).attempts[id];
    StepOrigin(s, actions[last], id);
    if AdmitsTurn(s, actions[last], entry) {
      assert TurnAdmittedAt(assignments, actions, last, entry);
    } else {
      LiveTurnsWereAdmitted(assignments, actions[..last], id);
      var n: nat :| n < last && TurnAdmittedAt(assignments, actions[..last], n, s.attempts[id])
                    && actions[..last][n].inv.authorized && actions[..last][n].inv.callable;
      AdmittedInPrefix(assignments, actions, last, n);
      SameTurnAdmitted(Run(Initial(assignments), actions[..n]), actions[n], s.attempts[id], entry);
      assert TurnAdmittedAt(assignments, actions, n, entry);
    }
  }

  /** So was every one-shot call that still waits. */
  lemma {:induction false} WaitingCallsWereAdmitted(assignments: AA.Assignments, actions: seq<Action>, id: string)
    requires id in Run(Initial(assignments), actions).resultAttempts
    ensures exists n: nat :: n < |actions|
              && ResultAdmittedAt(assignments, actions, n, Run(Initial(assignments), actions).resultAttempts[id])
              && actions[n].inv.authorized && actions[n].inv.callable
  {
    assert actions != [];
    var last := |actions| - 1;
    var s, entry := Run(Initial(assignments), actions[..last]), Run(Initial(assignments), actions).resultAttempts[id];
    StepOrigin(s, actions[last], id);
    if AdmitsResult(s, actions[last], entry) {
      assert ResultAdmittedAt(assignments, actions, last, entry);
    } else {
      WaitingCallsWereAdmitted(assignments, actions[..last], id);
      var n: nat :| n < last && ResultAdmittedAt(assignments, actions[..last], n, entry)
                    && actions[..last][n].inv.authorized && actions[..last][n].inv.callable;
      AdmittedInPrefix(assignments, actions, last, n);
    }
  }

  // ---- cancellation

  /** A streamed attempt of the same caller and contribution whose turn is the one named. */
  predicate IsTarget(a: LiveAttempt, hostId: string, e: Envelope, id: Identity) {
    && a.hostId == hostId
    && a.envelope.principalId == e.principalId
    && a.envelope.packageId == e.packageId && a.envelope.contributionId == e.contributionId
    && a.request.Start?
    && a.request.id.bindingId == id.bindingId && a.request.id.threadId == id.threadId
    && a.request.id.turnId == id.turnId && a.request.id.attemptId == id.attemptId
    && a.request.id.generation == id.generation
  }

  /** The cancellation is for q, and the ready record r and the caller's rights allow it. */
  ghost predicate MayCancel(s: State, inv: Invocation, q: Request, r: AA.Record) {
    && Carries(inv, q) && q.CancelTurn? && LooksAt(s, inv, q, r)
    && r.hostId in s.assignments.connected && Fenceable(s, inv, q, r)
    && inv.authorized && inv.callable
  }

  ghost predicate CancelAnswer(s: State, inv: Invocation, answer: Answer) {
    Cancel(s, inv) == s.(calls := s.calls + [Call(InvocationId(inv), None, [], [answer])])
  }

  lemma CancelWithoutRequest(s: State, inv: Invocation)
    requires forall q | Carries(inv, q) :: !q.CancelTurn?
    ensures CancelAnswer(s, inv, Rejected(InvalidHostRequest))
  {
    if inv.envelope.Some? && ValidEnvelope(inv.envelope.value) { ParsedIsCarried(inv); }
  }

  lemma CancelWithoutRecord(s: State, inv: Invocation, q: Request)
    requires Carries(inv, q) && q.CancelTurn? && forall r :: !LooksAt(s, inv, q, r)
    ensures CancelAnswer(s, inv, Rejected(AssignmentNotFound))
  {
    CarriedIsParsed(inv, q);
    var found := AA.FindBinding(s.assignments.records, q.id.bindingId);
    FindBindingIsFirst(s.assignments.records, q.id.bindingId);
    if found.Some? { assert LooksAt(s, inv, q, found.value); }
  }

  lemma CancelRequestOnRecord(s: State, inv: Invocation, q: Request, r: AA.Record)
    requires Carries(inv, q) && q.CancelTurn? && LooksAt(s, inv, q, r)
    ensures CancelRequest(s, inv)
            == if r.hostId !in s.assignments.connected || !Fenceable(s, inv, q, r) then Err(Fenced(StaleGeneration))
               else if !inv.authorized then Err(OperationUnauthorized)
               else if !inv.callable then Err(HostContributionMismatch)
               else Ok(q)
  {
    CarriedIsParsed(inv, q);
    FindBindingIsFirst(s.assignments.records, q.id.bindingId);
  }

  /** A cancellation checked against record r: it reaches the one target, when there is one whose
      host's socket is open and the send succeeds; otherwise the first test that fails names the
      refusal. It changes no entry. */
  lemma CancelOnRecord(s: State, inv: Invocation, q: Request, r: AA.Record)
    requires SingleFlight(s.attempts, s.resultAttempts)
    requires Carries(inv, q) && q.CancelTurn? && LooksAt(s, inv, q, r)
    ensures r.hostId !in s.assignments.connected || !Fenceable(s, inv, q, r) ==>
              CancelAnswer(s, inv, Rejected(Fenced(StaleGeneration)))
    ensures r.hostId in s.assignments.connected && Fenceable(s, inv, q, r) && !inv.authorized ==>
              CancelAnswer(s, inv, Rejected(OperationUnauthorized))
    ensures r.hostId in s.assignments.connected && Fenceable(s, inv, q, r) && inv.authorized && !inv.callable ==>
              CancelAnswer(s, inv, Rejected(HostContributionMismatch))
    ensures MayCancel(s, inv, q, r)
            && (forall id | id in s.attempts :: !IsTarget(s.attempts[id], inv.hostId, inv.envelope.value, q.id)) ==>
              CancelAnswer(s, inv, Rejected(CancellationMismatch))
    ensures forall id | MayCancel(s, inv, q, r) && id in s.attempts
                        && IsTarget(s.attempts[id], inv.hostId, inv.envelope.value, q.id) ::
              CancelAnswer(s, inv,
                if inv.hostId !in s.hostSockets || s.hostSockets[inv.hostId] !in s.open then Rejected(HostAuthenticationRequired)
                else if inv.sendFails then Rejected(SendFailed)
                else CancelAccepted(s.attempts[id].envelope.invocationId))
  {
    CancelRequestOnRecord(s, inv, q, r);
    if MayCancel(s, inv, q, r) {
      forall id | id in s.attempts && IsTarget(s.attempts[id], inv.hostId, inv.envelope.value, q.id)
        ensures CancelVerdictOf(s, inv)
                == if !SocketOpen(s, inv.hostId) then CancelRefused(HostAuthenticationRequired)
                   else if inv.sendFails then CancelRefused(SendFailed)
                   else CancelSent(s.attempts[id].envelope.invocationId)
      {
        TargetIsUnique(s, inv.hostId, inv.envelope.value, q, id);
      }
    }
  }

  lemma TargetIsUnique(s: State, hostId: string, e: Envelope, q: Request, id: string)
    requires SingleFlight(s.attempts, s.resultAttempts) && q.CancelTurn?
    requires id in s.attempts && IsTarget(s.attempts[id], hostId, e, q.id)
    ensures forall other | other in s.attempts && MatchesCancellation(s.attempts[other], hostId, e, q) :: other == id
  {
    forall other | other in s.attempts && MatchesCancellation(s.attempts[other], hostId, e, q) ensures other == id {
      assert BindingOf(s.attempts, s.resultAttempts, other) == BindingOf(s.attempts, s.resultAttempts, id);
    }
  }
}
