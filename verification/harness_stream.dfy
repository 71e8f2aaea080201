/** The harness.execution stream contract (packages/contracts/src/harness-execution.ts):
    what one event is, when a whole stream of events is acceptable, and the request shapes. */
module HarnessStream {
  import opened Json
  import opened Options

  datatype Kind = SemanticOutput | PresentationState | OutcomeEvidence | Diagnostic | Terminal

  /** The six correlation fields every event of one attempt repeats. */
  datatype Identity = Identity(
    invocationId: string, bindingId: string, threadId: string,
    turnId: string, attemptId: string, generation: int)

  datatype Event = Event(id: Identity, sequence: int, kind: Kind, payload: Json)

  const KIND_NAMES: map<string, Kind> := map[
    "semantic-output" := SemanticOutput,
    "presentation-state" := PresentationState,
    "outcome-evidence" := OutcomeEvidence,
    "diagnostic" := Diagnostic,
    "terminal" := Terminal
  ]

  const OUTCOMES := {"completed", "failed", "cancelled", "unknown"}

  const EVENT_KEYS := {
    "invocationId", "bindingId", "threadId", "turnId", "attemptId",
    "generation", "sequence", "kind", "payload"
  }

  const EVENT_STRINGS := {"invocationId", "bindingId", "threadId", "turnId", "attemptId"}

  predicate IsOutcomePayload(payload: Json) {
    && IsExactRecord(payload, {"outcome"})
    && payload.fields["outcome"].Str?
    && payload.fields["outcome"].s in OUTCOMES
  }

  /** isHarnessExecutionEvent: the shape check on an untyped value. */
  predicate IsHarnessExecutionEvent(value: Json) {
    && IsExactRecord(value, EVENT_KEYS)
    && HasNonemptyStrings(value, EVENT_STRINGS)
    && IsGeneration(value.fields["generation"])
    && IsSafeInteger(value.fields["sequence"])
    && 1 <= value.fields["sequence"].n.Floor
    && value.fields["kind"].Str?
    && value.fields["kind"].s in KIND_NAMES
    && value.fields["payload"].Obj?
    && IsProviderNeutral(value.fields["payload"])
    && (value.fields["kind"].s == "terminal" ==> IsOutcomePayload(value.fields["payload"]))
  }

  function Decode(value: Json): Event
    requires IsHarnessExecutionEvent(value)
  {
    var f := value.fields;
    Event(
      Identity(f["invocationId"].s, f["bindingId"].s, f["threadId"].s, f["turnId"].s,
               f["attemptId"].s, f["generation"].n.Floor),
      f["sequence"].n.Floor, KIND_NAMES[f["kind"].s], f["payload"])
  }

  function KindName(kind: Kind): string {
    match kind
    case SemanticOutput => "semantic-output"
    case PresentationState => "presentation-state"
    case OutcomeEvidence => "outcome-evidence"
    case Diagnostic => "diagnostic"
    case Terminal => "terminal"
  }

  function Encode(e: Event): Json {
    Obj(map[
      "invocationId" := Str(e.id.invocationId),
      "bindingId" := Str(e.id.bindingId),
      "threadId" := Str(e.id.threadId),
      "turnId" := Str(e.id.turnId),
      "attemptId" := Str(e.id.attemptId),
      "generation" := Number(e.id.generation as real),
      "sequence" := Number(e.sequence as real),
      "kind" := Str(KindName(e.kind)),
      "payload" := e.payload
    ])
  }

  predicate ValidIdentity(id: Identity) {
    && id.invocationId != "" && id.bindingId != "" && id.threadId != ""
    && id.turnId != "" && id.attemptId != ""
    && 0 <= id.generation <= MAX_SAFE_INTEGER
  }

  /** What the shape check guarantees about a decoded event. */
  predicate WellFormed(e: Event) {
    && ValidIdentity(e.id)
    && 1 <= e.sequence <= MAX_SAFE_INTEGER
    && e.payload.Obj?
    && IsProviderNeutral(e.payload)
    && (e.kind.Terminal? ==> IsOutcomePayload(e.payload))
  }

  /** The shape check accepts exactly the encodings of well-formed events, and decoding
      an encoding gives the event back. */
  lemma ShapeCheckIsWellFormedness(e: Event)
    ensures IsHarnessExecutionEvent(Encode(e)) <==> WellFormed(e)
    ensures WellFormed(e) ==> Decode(Encode(e)) == e
  {
    var f := Encode(e).fields;
    assert f.Keys == EVENT_KEYS;
    assert HasNonemptyStrings(Encode(e), EVENT_STRINGS) <==>
      e.id.invocationId != "" && e.id.bindingId != "" && e.id.threadId != "" &&
      e.id.turnId != "" && e.id.attemptId != "" by {
      if HasNonemptyStrings(Encode(e), EVENT_STRINGS) {
        assert "invocationId" in EVENT_STRINGS && "bindingId" in EVENT_STRINGS && "threadId" in EVENT_STRINGS;
        assert "turnId" in EVENT_STRINGS && "attemptId" in EVENT_STRINGS;
        assert forall k | k in EVENT_STRINGS :: IsNonemptyString(f[k]);
      }
    }
  }

  /** Whatever value passes is the encoding of what it decodes to. */
  lemma AcceptedIsEncoding(value: Json)
    requires IsHarnessExecutionEvent(value)
    ensures value == Encode(Decode(value))
  {
    var f := value.fields;
    assert forall k | k in EVENT_STRINGS :: IsNonemptyString(f[k]);
    assert "invocationId" in EVENT_STRINGS && "bindingId" in EVENT_STRINGS && "threadId" in EVENT_STRINGS;
    assert "turnId" in EVENT_STRINGS && "attemptId" in EVENT_STRINGS;
    assert KindName(KIND_NAMES[f["kind"].s]) == f["kind"].s;
    assert Encode(Decode(value)).fields == f;
  }

  lemma DecodedIsWellFormed(value: Json)
    requires IsHarnessExecutionEvent(value)
    ensures WellFormed(Decode(value))
  {
    var f := value.fields;
    assert forall k | k in EVENT_STRINGS :: IsNonemptyString(f[k]);
    assert "invocationId" in EVENT_STRINGS && "bindingId" in EVENT_STRINGS && "threadId" in EVENT_STRINGS;
    assert "turnId" in EVENT_STRINGS && "attemptId" in EVENT_STRINGS;
  }

  /** The stream contract: one attempt's well-formed events, strictly increasing
      sequence numbers, and exactly one terminal event, which is last. */
  ghost predicate ValidStream(es: seq<Event>) {
    es != [] && AllWellFormed(es) && SameIdentity(es) && Increasing(es) && OnlyLastIsTerminal(es)
  }

  /** The indexes of the terminal events, in order. */
  function TerminalIndexes(es: seq<Event>): seq<nat> {
    if es == [] then []
    else
      TerminalIndexes(es[..|es| - 1]) + if es[|es| - 1].kind.Terminal? then [|es| - 1] else []
  }

  lemma {:induction false} TerminalIndexesAre(es: seq<Event>)
    ensures TerminalIndexes(es) == [] <==> (forall i | 0 <= i < |es| :: !es[i].kind.Terminal?)
    ensures forall k | k in TerminalIndexes(es) :: k < |es|
  {
    if es != [] {
      var front := es[..|es| - 1];
      TerminalIndexesAre(front);
      assert forall i | 0 <= i < |front| :: front[i] == es[i];
    }
  }

  ghost predicate OnlyLastIsTerminal(es: seq<Event>) {
    forall i | 0 <= i < |es| :: es[i].kind.Terminal? <==> i == |es| - 1
  }

  /** The source's index test says: the last event is the one terminal event. */
  lemma IndexTestIsOnlyLast(es: seq<Event>)
    requires es != []
    ensures TerminalIndexes(es) == [|es| - 1] <==> OnlyLastIsTerminal(es)
  {
    var front, last := es[..|es| - 1], es[|es| - 1];
    var before := TerminalIndexes(front);
    TerminalIndexesAre(front);
    assert forall i | 0 <= i < |front| :: front[i] == es[i];
    assert OnlyLastIsTerminal(es) <==> last.kind.Terminal? && before == [];
    if last.kind.Terminal? {
      assert (before + [|es| - 1])[|before|] == |es| - 1;
    } else if before != [] {
      assert before[0] in before;
    }
  }

  predicate AllEvents(items: seq<Json>) {
    forall i | 0 <= i < |items| :: IsHarnessExecutionEvent(items[i])
  }

  function DecodeAll(items: seq<Json>): (es: seq<Event>)
    requires AllEvents(items)
    ensures |es| == |items|
    ensures forall i | 0 <= i < |items| :: es[i] == Decode(items[i])
  {
    seq(|items|, i requires 0 <= i < |items| => Decode(items[i]))
  }

  /** The loop's test on the event at one index. */
  predicate EventChecks(es: seq<Event>, i: nat)
    requires i < |es|
  {
    es[i].id == es[0].id && (i > 0 ==> es[i - 1].sequence < es[i].sequence)
  }

  predicate AdjacentChecks(es: seq<Event>, upTo: nat)
    requires upTo <= |es|
  {
    forall i: nat | i < upTo :: EventChecks(es, i)
  }

  lemma {:induction false} AdjacentIncreases(es: seq<Event>, i: nat, j: nat)
    requires i < j < |es|
    requires AdjacentChecks(es, |es|)
    ensures es[i].sequence < es[j].sequence
    decreases j
  {
    assert EventChecks(es, j);
    if i < j - 1 { AdjacentIncreases(es, i, j - 1); }
  }

  ghost predicate AllWellFormed(es: seq<Event>) {
    forall i | 0 <= i < |es| :: WellFormed(es[i])
  }

  ghost predicate SameIdentity(es: seq<Event>) {
    forall i, j | 0 <= i < |es| && 0 <= j < |es| :: es[i].id == es[j].id
  }

  ghost predicate Increasing(es: seq<Event>) {
    forall i, j | 0 <= i < j < |es| :: es[i].sequence < es[j].sequence
  }

  /** Comparing each event with the first and with its neighbour compares all pairs. */
  lemma AdjacentChecksCompareAll(es: seq<Event>)
    ensures AdjacentChecks(es, |es|) <==> SameIdentity(es) && Increasing(es)
  {
    if AdjacentChecks(es, |es|) {
      forall i | 0 <= i < |es| ensures es[i].id == es[0].id { assert EventChecks(es, i); }
      forall i, j | 0 <= i < j < |es| ensures es[i].sequence < es[j].sequence {
        AdjacentIncreases(es, i, j);
      }
    }
  }

  lemma AllDecodedAreWellFormed(items: seq<Json>)
    requires AllEvents(items)
    ensures AllWellFormed(DecodeAll(items))
  {
    forall i | 0 <= i < |items| ensures WellFormed(DecodeAll(items)[i]) { DecodedIsWellFormed(items[i]); }
  }

  /** The first loop: shape-check and collect every value. */
  method CollectEvents(items: seq<Json>) returns (r: Option<seq<Event>>)
    ensures r == if AllEvents(items) then Some(DecodeAll(items)) else None
  {
    var events: seq<Event> := [];
    for n := 0 to |items|
      invariant AllEvents(items[..n])
      invariant events == DecodeAll(items[..n])
    {
      if !IsHarnessExecutionEvent(items[n]) { return None; }
      events := events + [Decode(items[n])];
    }
    assert items[..|items|] == items;
    return Some(events);
  }

  /** The second loop and the index test over collected events. */
  method PassesStreamChecks(events: seq<Event>) returns (ok: bool)
    requires events != []
    ensures ok <==> SameIdentity(events) && Increasing(events) && OnlyLastIsTerminal(events)
  {
    AdjacentChecksCompareAll(events);
    IndexTestIsOnlyLast(events);
    for index := 0 to |events|
      invariant AdjacentChecks(events, index)
    {
      if events[index].id != events[0].id
        || (index > 0 && events[index].sequence <= events[index - 1].sequence) {
        assert !EventChecks(events, index);
        return false;
      }
    }
    var terminals := TerminalIndexes(events);
    ok := |terminals| == 1 && terminals[0] == |events| - 1;
  }

  /** parseHarnessExecutionStream decides the declarative contract on any value. */
  method ParseHarnessExecutionStream(input: Json) returns (r: Option<seq<Event>>)
    ensures r == if input.Arr? && AllEvents(input.items) && ValidStream(DecodeAll(input.items))
                 then Some(DecodeAll(input.items)) else None
  {
    if !input.Arr? || |input.items| == 0 { return None; }
    var events := CollectEvents(input.items);
    if events == None { return None; }
    AllDecodedAreWellFormed(input.items);
    var ok := PassesStreamChecks(events.value);
    return if ok then events else None;
  }

  /** The stream check on values that are events already. */
  method IsValidStream(events: seq<Event>) returns (ok: bool)
    ensures ok <==> ValidStream(events)
  {
    if |events| == 0 { return false; }
    for i := 0 to |events|
      invariant AllWellFormed(events[..i])
    {
      if !WellFormed(events[i]) { return false; }
    }
    assert events[..|events|] == events;
    ok := PassesStreamChecks(events);
  }

  /** isInvocationEventFrame: a single event is checked by completing it to a stream. */
  function CompletedToStream(e: Event): seq<Event> {
    if e.kind.Terminal? then [e]
    else [e, Event(e.id, e.sequence + 1, Terminal, Obj(map["outcome" := Str("completed")]))]
  }

  ghost predicate FrameAdmits(e: Event) {
    ValidStream(CompletedToStream(e))
  }

  lemma FrameAdmitsWhen(e: Event)
    ensures FrameAdmits(e) <==> WellFormed(e) && (e.kind.Terminal? || e.sequence < MAX_SAFE_INTEGER)
  {
    if e.kind.Terminal? {
      var one := [e];
      if FrameAdmits(e) { assert WellFormed(one[0]); }
    } else {
      var closing := Event(e.id, e.sequence + 1, Terminal, Obj(map["outcome" := Str("completed")]));
      var two := [e, closing];
      assert WellFormed(e) && e.sequence < MAX_SAFE_INTEGER ==> WellFormed(closing);
      if FrameAdmits(e) { assert WellFormed(two[0]) && WellFormed(two[1]); }
    }
  }

  /** The four operations of harness.execution with their payloads. */
  datatype Request =
    | Describe
    | Ensure(bindingId: string, workspaceBindingId: string, conversationId: string)
    | Start(id: Identity, text: string)
    | CancelTurn(id: Identity, reason: string)

  function Operation(q: Request): string {
    match q
    case Describe => "provider.describe"
    case Ensure(_, _, _) => "thread.ensure"
    case Start(_, _) => "turn.start"
    case CancelTurn(_, _) => "turn.cancel"
  }

  const TURN_KEYS := {"bindingId", "threadId", "turnId", "attemptId"}

  predicate IsTurnPayload(payload: Json, extra: string) {
    && IsExactRecord(payload, TURN_KEYS + {"generation", extra})
    && HasNonemptyStrings(payload, TURN_KEYS)
    && IsGeneration(payload.fields["generation"])
  }

  function TurnIdentity(invocationId: string, payload: Json, extra: string): Identity
    requires IsTurnPayload(payload, extra)
  {
    var f := payload.fields;
    assert forall k | k in TURN_KEYS :: IsNonemptyString(f[k]);
    assert "bindingId" in TURN_KEYS && "threadId" in TURN_KEYS && "turnId" in TURN_KEYS && "attemptId" in TURN_KEYS;
    Identity(invocationId, f["bindingId"].s, f["threadId"].s, f["turnId"].s, f["attemptId"].s,
             f["generation"].n.Floor)
  }

  const ENSURE_KEYS := {"bindingId", "workspaceBindingId", "conversationId"}

  predicate IsEnsurePayload(payload: Json) {
    IsExactRecord(payload, ENSURE_KEYS) && HasNonemptyStrings(payload, ENSURE_KEYS)
  }

  predicate IsStartPayload(payload: Json) {
    && IsTurnPayload(payload, "input")
    && IsExactRecord(payload.fields["input"], {"text"})
    && IsNonemptyString(payload.fields["input"].fields["text"])
  }

  predicate IsCancelPayload(payload: Json) {
    IsTurnPayload(payload, "reason") && IsNonemptyString(payload.fields["reason"])
  }

  /** parseHarnessExecutionRequest, for the invocation that carries the payload. */
  function ParseRequest(invocationId: string, operation: string, payload: Json): Option<Request> {
    if !payload.Obj? || !IsProviderNeutral(payload) then None
    else if operation == "provider.describe" && HasExactKeys(payload, {}) then Some(Describe)
    else if operation == "thread.ensure" && IsEnsurePayload(payload) then
      var f := payload.fields;
      assert forall k | k in ENSURE_KEYS :: IsNonemptyString(f[k]);
      assert "bindingId" in ENSURE_KEYS && "workspaceBindingId" in ENSURE_KEYS && "conversationId" in ENSURE_KEYS;
      Some(Ensure(f["bindingId"].s, f["workspaceBindingId"].s, f["conversationId"].s))
    else if operation == "turn.start" && IsStartPayload(payload) then
      Some(Start(TurnIdentity(invocationId, payload, "input"), payload.fields["input"].fields["text"].s))
    else if operation == "turn.cancel" && IsCancelPayload(payload) then
      Some(CancelTurn(TurnIdentity(invocationId, payload, "reason"), payload.fields["reason"].s))
    else None
  }

  predicate ValidTurn(id: Identity) {
    && id.bindingId != "" && id.threadId != "" && id.turnId != "" && id.attemptId != ""
    && 0 <= id.generation <= MAX_SAFE_INTEGER
  }

  predicate ValidRequest(q: Request) {
    match q
    case Describe => true
    case Ensure(b, w, c) => b != "" && w != "" && c != ""
    case Start(id, text) => ValidTurn(id) && text != ""
    case CancelTurn(id, reason) => ValidTurn(id) && reason != ""
  }

  function TurnFields(id: Identity): map<string, Json> {
    map["bindingId" := Str(id.bindingId), "threadId" := Str(id.threadId), "turnId" := Str(id.turnId),
        "attemptId" := Str(id.attemptId), "generation" := Number(id.generation as real)]
  }

  function EncodeRequest(q: Request): Json {
    match q
    case Describe => Obj(map[])
    case Ensure(b, w, c) =>
      Obj(map["bindingId" := Str(b), "workspaceBindingId" := Str(w), "conversationId" := Str(c)])
    case Start(id, text) => Obj(TurnFields(id)["input" := Obj(map["text" := Str(text)])])
    case CancelTurn(id, reason) => Obj(TurnFields(id)["reason" := Str(reason)])
  }

  predicate ForInvocation(q: Request, invocationId: string) {
    q.Start? || q.CancelTurn? ==> q.id.invocationId == invocationId
  }

  lemma TurnPayloadDecodes(invocationId: string, payload: Json, extra: string)
    requires extra in {"input", "reason"} && IsTurnPayload(payload, extra)
    ensures ValidTurn(TurnIdentity(invocationId, payload, extra))
    ensures payload.fields == TurnFields(TurnIdentity(invocationId, payload, extra))[extra := payload.fields[extra]]
  {
    var f := payload.fields;
    assert forall k | k in TURN_KEYS :: IsNonemptyString(f[k]);
    assert "bindingId" in TURN_KEYS && "threadId" in TURN_KEYS && "turnId" in TURN_KEYS && "attemptId" in TURN_KEYS;
  }

  lemma TurnFieldsParse(id: Identity, extra: string, value: Json)
    requires extra in {"input", "reason"} && ValidTurn(id)
    ensures var payload := Obj(TurnFields(id)[extra := value]);
            IsTurnPayload(payload, extra) && TurnIdentity(id.invocationId, payload, extra) == id
  {
  }

  /** A parsed request is valid and is the one whose encoding was given. */
  lemma ParsedRequestIsEncoded(invocationId: string, operation: string, payload: Json)
    ensures var r := ParseRequest(invocationId, operation, payload);
            r.Some? ==>
              && ValidRequest(r.value) && ForInvocation(r.value, invocationId)
              && operation == Operation(r.value) && payload == EncodeRequest(r.value)
  {
    var r := ParseRequest(invocationId, operation, payload);
    if r.Some? {
      match r.value
      case Describe =>
      case Ensure(_, _, _) =>
        assert forall k | k in ENSURE_KEYS :: IsNonemptyString(payload.fields[k]);
        assert "bindingId" in ENSURE_KEYS && "workspaceBindingId" in ENSURE_KEYS && "conversationId" in ENSURE_KEYS;
      case Start(_, text) =>
        TurnPayloadDecodes(invocationId, payload, "input");
        assert payload.fields["input"].fields == map["text" := Str(text)];
      case CancelTurn(_, _) => TurnPayloadDecodes(invocationId, payload, "reason");
    }
  }

  lemma EncodedThreadParses(q: Request, invocationId: string)
    requires ValidRequest(q) && (q.Describe? || q.Ensure?) && IsProviderNeutral(EncodeRequest(q))
    ensures ParseRequest(invocationId, Operation(q), EncodeRequest(q)) == Some(q)
  {
  }

  lemma EncodedTurnParses(q: Request, invocationId: string)
    requires ValidRequest(q) && ForInvocation(q, invocationId) && (q.Start? || q.CancelTurn?)
    requires IsProviderNeutral(EncodeRequest(q))
    ensures ParseRequest(invocationId, Operation(q), EncodeRequest(q)) == Some(q)
  {
    match q
    case Start(id, text) => TurnFieldsParse(id, "input", Obj(map["text" := Str(text)]));
    case CancelTurn(id, reason) => TurnFieldsParse(id, "reason", Str(reason));
  }

  /** Every valid request survives the trip; in particular the provider-neutral check
      never refuses a payload that has exactly a request's keys. */
  lemma EncodedRequestParses(q: Request, invocationId: string)
    requires ValidRequest(q) && ForInvocation(q, invocationId)
    ensures ParseRequest(invocationId, Operation(q), EncodeRequest(q)) == Some(q)
  {
    EncodedRequestIsNeutral(q);
    if q.Describe? || q.Ensure? {
      EncodedThreadParses(q, invocationId);
    } else {
      EncodedTurnParses(q, invocationId);
    }
  }

  const REQUEST_KEYS := {"bindingId", "workspaceBindingId", "conversationId", "threadId", "turnId",
                         "attemptId", "generation", "input", "reason", "text"}

  lemma RequestKeyShape(key: string)
    requires key in REQUEST_KEYS
    ensures |key| < 13 || key[0] == 'w' || key[0] == 'c'
  {
  }

  lemma EncodedRequestIsNeutral(q: Request)
    ensures IsProviderNeutral(EncodeRequest(q))
  {
    EncodedRequestHasKeys(q);
    forall k | k in EncodeRequest(q).fields ensures !IsProviderNativeKey(k) {
      RequestKeyShape(k);
      if IsProviderNativeKey(k) { NativeKeyShape(k); }
    }
  }

  lemma EncodedRequestHasKeys(q: Request)
    ensures EncodeRequest(q).Obj? && EncodeRequest(q).fields.Keys <= REQUEST_KEYS
  {
  }

  lemma NativeKeyShape(key: string)
    requires IsProviderNativeKey(key)
    ensures 13 <= |key| && key[0] != 'w' && key[0] != 'c'
  {
    var low := AsciiLower(key);
    assert 13 <= |low| && (low[0] == 'p' || low[0] == 'r');
  }
}
