/** The Desktop Host invocation gateway (relay-server/src/websocket-gateways.ts) as a state
    machine: one action per callback, each atomic. RelayGateway is the imperative form. */
module Gateway {
  import opened Json
  import opened Options
  import opened HarnessStream
  import opened HostAttempt
  import AA = ActiveAssignment

  datatype ErrorCode =
    | InvalidHostRequest
    | InvalidHostOutput
    | HostContributionMismatch
    | HostAuthenticationRequired
    | OperationUnauthorized
    | CancellationMismatch
    | AssignmentNotFound
    | SendFailed
    | Fenced(reason: Rejection)

  datatype Envelope = Envelope(
    operation: string, invocationId: string, principalId: string, scopeId: Option<string>,
    packageId: string, contributionId: string, generation: int)

  /** What parseKernelInvocationEnvelope guarantees about the fields kept here. */
  predicate ValidEnvelope(e: Envelope) {
    && e.operation != "" && e.invocationId != "" && e.principalId != ""
    && e.packageId != "" && e.contributionId != ""
    && 0 <= e.generation <= MAX_SAFE_INTEGER
  }

  /** The argument of hostControl.invoke and hostControl.cancel, with the answers its
      collaborators give: the authorisation callback, the contribution registry, and
      whether writing the frame to the socket throws. */
  datatype Invocation = Invocation(
    hostId: string, providerId: string, envelope: Option<Envelope>, payload: Json,
    authorized: bool, callable: bool, sendFails: bool)

  type SocketId = nat
  type CallId = nat

  datatype LiveAttempt = LiveAttempt(
    call: CallId, hostId: string, providerId: string, envelope: Envelope, request: Request,
    fence: Fence, events: seq<Event>, record: AttemptState)

  datatype LiveResultAttempt = LiveResultAttempt(
    call: CallId, bindingId: string, hostId: string, providerId: string, envelope: Envelope)

  datatype Answer =
    | Rejected(code: ErrorCode)
    | Outcome(events: seq<Event>)
    | Completed(events: seq<Event>)
    | HostResult(value: Json)
    | CancelAccepted(invocationId: string)

  /** What one caller has observed: the events given to onEvent, and its answers. */
  datatype Call = Call(invocationId: string, attempt: Option<Identity>, delivered: seq<Event>, answers: seq<Answer>)

  datatype State = State(
    hostSockets: map<string, SocketId>,
    owner: map<SocketId, string>,
    open: set<SocketId>,
    attempts: map<string, LiveAttempt>,
    resultAttempts: map<string, LiveResultAttempt>,
    assignments: AA.Assignments,
    calls: seq<Call>)

  function Initial(assignments: AA.Assignments): State {
    State(map[], map[], {}, map[], map[], assignments, [])
  }

  // ---- checks shared by the operations

  predicate MatchesAssignment(r: AA.Record, hostId: string, providerId: string, scopeId: Option<string>,
                              generation: int, payloadGeneration: Option<int>)
  {
    && r.hostId == hostId
    && r.providerId == Some(providerId)
    && r.workspaceBindingId == scopeId
    && r.generation == generation
    && (payloadGeneration.None? || payloadGeneration.value == r.generation)
  }

  predicate MatchesCancellation(a: LiveAttempt, hostId: string, e: Envelope, q: Request)
    requires q.CancelTurn?
  {
    && a.hostId == hostId
    && a.envelope.principalId == e.principalId
    && a.envelope.packageId == e.packageId
    && a.envelope.contributionId == e.contributionId
    && a.request.Start?
    && a.request.id.bindingId == q.id.bindingId
    && a.request.id.threadId == q.id.threadId
    && a.request.id.turnId == q.id.turnId
    && a.request.id.attemptId == q.id.attemptId
    && a.request.id.generation == q.id.generation
  }

  function AttemptBinding(a: LiveAttempt): Option<string> {
    if a.request.Start? then Some(a.request.id.bindingId) else None
  }

  predicate ActiveForBinding(s: State, bindingId: string) {
    || (exists id :: id in s.attempts && AttemptBinding(s.attempts[id]) == Some(bindingId))
    || (exists id :: id in s.resultAttempts && s.resultAttempts[id].bindingId == bindingId)
  }

  predicate SocketOpen(s: State, hostId: string) {
    hostId in s.hostSockets && s.hostSockets[hostId] in s.open
  }

  // ---- hostControl.cancel

  datatype CancelVerdict = CancelRefused(code: ErrorCode) | CancelSent(invocationId: string)

  /** The checks before the attempt is looked for, in order. */
  function CancelRequest(s: State, inv: Invocation): (r: Result<Request, ErrorCode>)
    ensures r.Ok? ==> inv.envelope.Some? && r.value.CancelTurn?
  {
    if inv.envelope.None? || !ValidEnvelope(inv.envelope.value) then Err(InvalidHostRequest) else
    var e := inv.envelope.value;
    var parsed := ParseRequest(e.invocationId, e.operation, inv.payload);
    if parsed.None? || e.operation != "turn.cancel" || !parsed.value.CancelTurn? then Err(InvalidHostRequest) else
    var q := parsed.value;
    var found := AA.Inspect(s.assignments, q.id.bindingId);
    if found.None? then Err(AssignmentNotFound)
    else if found.value.status != AA.Ready
      || !MatchesAssignment(found.value.record, inv.hostId, inv.providerId, e.scopeId, e.generation, Some(q.id.generation))
      then Err(Fenced(StaleGeneration))
    else if !inv.authorized then Err(OperationUnauthorized)
    else if !inv.callable then Err(HostContributionMismatch)
    else Ok(q)
  }

  /** The cancel frame goes to some attempt that matches every field of the request. */
  ghost function CancelVerdictOf(s: State, inv: Invocation): CancelVerdict {
    var checked := CancelRequest(s, inv);
    if checked.Err? then CancelRefused(checked.error) else
    var e, q := inv.envelope.value, checked.value;
    if !exists id :: id in s.attempts && MatchesCancellation(s.attempts[id], inv.hostId, e, q)
      then CancelRefused(CancellationMismatch)
    else
      var id :| id in s.attempts && MatchesCancellation(s.attempts[id], inv.hostId, e, q);
      if !SocketOpen(s, s.attempts[id].hostId) then CancelRefused(HostAuthenticationRequired)
      else if inv.sendFails then CancelRefused(SendFailed)
      else CancelSent(s.attempts[id].envelope.invocationId)
  }

  // ---- hostControl.invoke

  /** What invoke decides before anything is stored. */
  datatype Admission =
    | Refuse(code: ErrorCode)
    | ForwardCancel
    | CloseUndispatched(q: Request)
    | AdmitTurn(q: Request)
    | AdmitResult(bindingId: string)

  function Lookup(s: State, inv: Invocation, e: Envelope, q: Request): Option<AA.Inspected> {
    match q
    case Ensure(b, _, _) => AA.Inspect(s.assignments, b)
    case Start(id, _) => AA.Inspect(s.assignments, id.bindingId)
    case _ => AA.Find(s.assignments, inv.hostId, inv.providerId, e.scopeId)
  }

  function PayloadGeneration(q: Request): Option<int> {
    if q.Start? || q.CancelTurn? then Some(q.id.generation) else None
  }

  predicate Fits(admission: Admission, inv: Invocation) {
    match admission
    case CloseUndispatched(q) => inv.envelope.Some? && q.Start?
    case AdmitTurn(q) => inv.envelope.Some? && q.Start?
    case AdmitResult(_) => inv.envelope.Some?
    case _ => true
  }

  function AdmissionOf(s: State, inv: Invocation): (admission: Admission)
    ensures Fits(admission, inv)
  {
    if inv.envelope.None? || !ValidEnvelope(inv.envelope.value) then Refuse(InvalidHostRequest) else
    var e := inv.envelope.value;
    if e.operation == "turn.cancel" then ForwardCancel else
    var parsed := ParseRequest(e.invocationId, e.operation, inv.payload);
    if parsed.None? then Refuse(InvalidHostRequest) else
    var q := parsed.value;
    var found := Lookup(s, inv, e, q);
    if found.None? then Refuse(if q.Describe? then Fenced(StaleGeneration) else AssignmentNotFound)
    else if found.value.status == AA.Unready
      || !MatchesAssignment(found.value.record, inv.hostId, inv.providerId, e.scopeId, e.generation, PayloadGeneration(q))
      then Refuse(Fenced(StaleGeneration))
    else if !inv.authorized then Refuse(OperationUnauthorized)
    else if !inv.callable then Refuse(HostContributionMismatch)
    else if e.invocationId in s.attempts || e.invocationId in s.resultAttempts then Refuse(InvalidHostRequest)
    else if ActiveForBinding(s, found.value.record.bindingId) then Refuse(InvalidHostRequest)
    else
      var online := SocketOpen(s, inv.hostId) && found.value.status != AA.Offline;
      if q.Start? then
        if online && !inv.sendFails then AdmitTurn(q) else CloseUndispatched(q)
      else if online && !inv.sendFails then AdmitResult(found.value.record.bindingId)
      else Refuse(HostAuthenticationRequired)
  }

  /** The disconnect record invoke prepares: the payload's turn at the envelope's generation. */
  function NewAttempt(e: Envelope, q: Request): AttemptState
    requires q.Start?
  {
    AttemptState(q.id.(invocationId := e.invocationId, generation := e.generation),
                 Obj(map["text" := Str(q.text)]), [], false, false)
  }

  function AnsweredCall(invocationId: string, answer: Answer): Call {
    Call(invocationId, None, [], [answer])
  }

  function InvocationId(inv: Invocation): string {
    if inv.envelope.Some? then inv.envelope.value.invocationId else ""
  }

  ghost function Cancel(s: State, inv: Invocation): State {
    var answer := match CancelVerdictOf(s, inv)
                  case CancelRefused(code) => Rejected(code)
                  case CancelSent(id) => CancelAccepted(id);
    s.(calls := s.calls + [AnsweredCall(InvocationId(inv), answer)])
  }

  ghost function Invoke(s: State, inv: Invocation): State {
    CarryOut(s, inv, AdmissionOf(s, inv))
  }

  /** What follows the decision. */
  ghost function CarryOut(s: State, inv: Invocation, admission: Admission): State
    requires Fits(admission, inv)
  {
    match admission
    case Refuse(code) => s.(calls := s.calls + [AnsweredCall(InvocationId(inv), Rejected(code))])
    case ForwardCancel => Cancel(s, inv)
    case CloseUndispatched(q) => CloseNow(s, inv.envelope.value, q)
    case AdmitTurn(q) => StoreTurn(s, inv, q)
    case AdmitResult(bindingId) => StoreResult(s, inv, bindingId)
  }

  function CloseNow(s: State, e: Envelope, q: Request): State
    requires q.Start?
  {
    var a := NewAttempt(e, q);
    s.(calls := s.calls + [Call(e.invocationId, Some(a.id), [ClosingEvent(a)], [Outcome(DisconnectEvents(a))])])
  }

  function StoreTurn(s: State, inv: Invocation, q: Request): State
    requires inv.envelope.Some? && q.Start?
  {
    var e := inv.envelope.value;
    var record := NewAttempt(e, q).(dispatched := true);
    s.(attempts := s.attempts[e.invocationId :=
         LiveAttempt(|s.calls|, inv.hostId, inv.providerId, e, q, NewFence(e.generation), [], record)],
       calls := s.calls + [Call(e.invocationId, Some(record.id), [], [])])
  }

  function StoreResult(s: State, inv: Invocation, bindingId: string): State
    requires inv.envelope.Some?
  {
    var e := inv.envelope.value;
    s.(resultAttempts := s.resultAttempts[e.invocationId :=
         LiveResultAttempt(|s.calls|, bindingId, inv.hostId, inv.providerId, e)],
       calls := s.calls + [Call(e.invocationId, None, [], [])])
  }

  // ---- frames from a host

  function Deliver(calls: seq<Call>, c: CallId, e: Event): seq<Call> {
    if c < |calls| then calls[c := calls[c].(delivered := calls[c].delivered + [e])] else calls
  }

  function Settle(calls: seq<Call>, c: CallId, answer: Answer): seq<Call> {
    if c < |calls| then calls[c := calls[c].(answers := calls[c].answers + [answer])] else calls
  }

  function SettleTurn(s: State, id: string, answer: Answer): State
    requires id in s.attempts
  {
    s.(attempts := s.attempts - {id}, calls := Settle(s.calls, s.attempts[id].call, answer))
  }

  function SettleResult(s: State, id: string, answer: Answer): State
    requires id in s.resultAttempts
  {
    s.(resultAttempts := s.resultAttempts - {id}, calls := Settle(s.calls, s.resultAttempts[id].call, answer))
  }

  function StopReading(s: State, socket: SocketId): State {
    s.(open := s.open - {socket})
  }

  /** The assignment test on every event of a streamed attempt. */
  predicate FencedByAssignment(assignments: AA.Assignments, a: LiveAttempt) {
    && a.request.Start?
    && var found := AA.Inspect(assignments, a.request.id.bindingId);
      && found.Some?
      && found.value.status == AA.Ready
      && MatchesAssignment(found.value.record, a.hostId, a.providerId, a.envelope.scopeId, a.envelope.generation, None)
  }

  predicate Correlates(a: LiveAttempt, e: Event) {
    && a.request.Start?
    && e.id.bindingId == a.request.id.bindingId
    && e.id.threadId == a.request.id.threadId
    && e.id.turnId == a.request.id.turnId
    && e.id.attemptId == a.request.id.attemptId
    && e.id.generation == a.envelope.generation
  }

  /** The tests an event of a live attempt must pass, in the source's order. */
  function EventRefusal(s: State, a: LiveAttempt, e: Event, public: bool): Option<ErrorCode> {
    if !FencedByAssignment(s.assignments, a) then Some(Fenced(StaleGeneration))
    else if !Correlates(a, e) then Some(InvalidHostOutput)
    else if !e.kind.Terminal? && !public then Some(InvalidHostOutput)
    else match Verdict(a.fence, e)
      case Some(reason) => Some(Fenced(reason))
      case None => None
  }

  /** acceptInvocationEvent. public is the answer of validateHostRpcOutput. */
  function AcceptEvent(s: State, socket: SocketId, e: Event, public: bool): State {
    var id := e.id.invocationId;
    if socket !in s.owner then s
    else if id !in s.attempts || s.attempts[id].hostId != s.owner[socket] then StopReading(s, socket)
    else
      var refusal := EventRefusal(s, s.attempts[id], e, public);
      if refusal.Some? then StopReading(SettleTurn(s, id, Rejected(refusal.value)), socket)
      else RecordEvent(s, id, e)
  }

  /** The accepting half: the event is recorded first. A public event that does not carry
      the next number then makes acceptPublicEvent throw, before onEvent is reached. */
  function RecordEvent(s: State, id: string, e: Event): State
    requires id in s.attempts
  {
    var a := s.attempts[id];
    var recorded := a.(events := a.events + [e], fence := AfterEvent(a.fence, e));
    if e.kind.Terminal? then
      s.(attempts := s.attempts - {id},
         calls := Settle(Deliver(s.calls, a.call, e), a.call, Completed(recorded.events)))
    else if !AcceptsPublic(a.record, e) then
      s.(attempts := s.attempts[id := recorded])
    else
      s.(attempts := s.attempts[id := recorded.(record := a.record.(events := a.record.events + [e]))],
         calls := Deliver(s.calls, a.call, e))
  }

  predicate IsResultOf(operation: string, value: Json) {
    && operation in {"provider.describe", "thread.ensure", "turn.cancel"}
    && value.Obj?
    && IsProviderNeutral(value)
  }

  /** The assignment test on a result: by host, provider and workspace, not by binding. */
  predicate FencedByTuple(assignments: AA.Assignments, r: LiveResultAttempt) {
    var found := AA.Find(assignments, r.hostId, r.providerId, r.envelope.scopeId);
    && found.Some?
    && found.value.status == AA.Ready
    && found.value.record.generation == r.envelope.generation
  }

  predicate ResultAccepted(s: State, r: LiveResultAttempt, host: string, generation: int, value: Json) {
    && r.hostId == host
    && FencedByTuple(s.assignments, r)
    && generation == r.envelope.generation
    && IsResultOf(r.envelope.operation, value)
  }

  /** acceptInvocationResult. */
  function AcceptResult(s: State, socket: SocketId, id: string, generation: int, value: Json): State {
    if socket !in s.owner then s
    else if id !in s.resultAttempts then StopReading(s, socket)
    else if !ResultAccepted(s, s.resultAttempts[id], s.owner[socket], generation, value) then
      StopReading(SettleResult(s, id, Rejected(InvalidHostOutput)), socket)
    else SettleResult(s, id, HostResult(value))
  }

  // ---- sockets

  /** A host's new socket replaces the one it had, which is told to close. */
  function OpenSocket(s: State, hostId: string, socket: SocketId): State {
    if socket in s.owner then s
    else
      s.(hostSockets := s.hostSockets[hostId := socket],
         owner := s.owner[socket := hostId],
         open := (if hostId in s.hostSockets then s.open - {s.hostSockets[hostId]} else s.open) + {socket})
  }

  predicate IsCurrent(s: State, socket: SocketId) {
    && socket in s.owner
    && s.owner[socket] in s.hostSockets
    && s.hostSockets[s.owner[socket]] == socket
  }

  predicate TurnOf(s: State, c: CallId, hostId: string)
    requires c < |s.calls|
  {
    var id := s.calls[c].invocationId;
    id in s.attempts && s.attempts[id].call == c && s.attempts[id].hostId == hostId
  }

  predicate ResultOf(s: State, c: CallId, hostId: string)
    requires c < |s.calls|
  {
    var id := s.calls[c].invocationId;
    id in s.resultAttempts && s.resultAttempts[id].call == c && s.resultAttempts[id].hostId == hostId
  }

  /** What losing the host means for one call. */
  function SweptCall(s: State, c: CallId, hostId: string): Call
    requires c < |s.calls|
  {
    var call := s.calls[c];
    if TurnOf(s, c, hostId) then
      var record := s.attempts[call.invocationId].record;
      call.(delivered := call.delivered + [ClosingEvent(record)],
            answers := call.answers + [Outcome(DisconnectEvents(record))])
    else if ResultOf(s, c, hostId) then
      call.(answers := call.answers + [Rejected(HostAuthenticationRequired)])
    else call
  }

  function Sweep(s: State, hostId: string): State {
    s.(hostSockets := s.hostSockets - {hostId},
       attempts := map id | id in s.attempts && s.attempts[id].hostId != hostId :: s.attempts[id],
       resultAttempts := map id | id in s.resultAttempts && s.resultAttempts[id].hostId != hostId :: s.resultAttempts[id],
       assignments := AA.Apply(s.assignments, AA.Disconnect(hostId)),
       calls := seq(|s.calls|, c requires 0 <= c < |s.calls| => SweptCall(s, c, hostId)))
  }

  /** The close callback: only the host's current socket sweeps its work. */
  function SocketClosed(s: State, socket: SocketId): State {
    if IsCurrent(s, socket) then Sweep(StopReading(s, socket), s.owner[socket]) else StopReading(s, socket)
  }

  // ---- runs

  datatype Action =
    | DoInvoke(inv: Invocation)
    | DoCancel(inv: Invocation)
    | HostEvent(socket: SocketId, event: Event, public: bool)
    | HostResultFrame(socket: SocketId, invocationId: string, generation: int, value: Json)
    | OtherFrame(socket: SocketId)
    | Connect(hostId: string, socket: SocketId)
    | LoseSocket(socket: SocketId)
    | CloseSocket(socket: SocketId)
    | ChangeAssignments(change: AA.Change)

  ghost function Step(s: State, a: Action): State {
    match a
    case DoInvoke(inv) => Invoke(s, inv)
    case DoCancel(inv) => Cancel(s, inv)
    case HostEvent(socket, e, public) =>
      if FrameAdmits(e) then AcceptEvent(s, socket, e, public) else StopReading(s, socket)
    case HostResultFrame(socket, id, generation, value) => AcceptResult(s, socket, id, generation, value)
    case OtherFrame(socket) => StopReading(s, socket)
    case Connect(hostId, socket) => OpenSocket(s, hostId, socket)
    case LoseSocket(socket) => StopReading(s, socket)
    case CloseSocket(socket) => SocketClosed(s, socket)
    case ChangeAssignments(change) => s.(assignments := AA.Apply(s.assignments, change))
  }

  ghost function Run(s: State, actions: seq<Action>): State {
    if actions == [] then s else Step(Run(s, actions[..|actions| - 1]), actions[|actions| - 1])
  }
}
