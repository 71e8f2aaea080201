/** Concrete runs showing where the gateway does not do what its callers might expect. */
module GatewayExamples {
  import opened Json
  import opened Options
  import opened HarnessStream
  import opened HostAttempt
  import opened Gateway
  import opened GatewaySteps
  import opened GatewayTheorems
  import opened GatewayResultFence
  import AA = ActiveAssignment

  const OWN := AA.ReadyKey("h", "b", "p", "w")
  const OTHER := AA.ReadyKey("h", "b2", "p", "w")
  const ELSEWHERE := AA.ReadyKey("h2", "b", "p", "w")
  const TURN := Identity("i", "b", "t", "u", "a", 1)

  function HeldBy(key: AA.ReadyKey, generation: nat): AA.Record {
    AA.Record(key.bindingId, key.hostId, Some(key.providerId), Some(key.workspaceBindingId), generation)
  }

  function EnvelopeFor(operation: string): Envelope {
    Envelope(operation, "i", "user", Some("w"), "package", "contribution", 1)
  }

  function Invoking(q: Request): Invocation {
    Invocation("h", "p", Some(EnvelopeFor(Operation(q))), EncodeRequest(q), true, true, false)
  }

  ghost function After(assignments: AA.Assignments, changes: seq<AA.Change>): AA.Assignments
    decreases |changes|
  {
    if changes == [] then assignments else After(AA.Apply(assignments, changes[0]), changes[1..])
  }

  lemma ReachableChange(s: State, change: AA.Change)
    requires ReachableState(s)
    ensures ReachableState(s.(assignments := AA.Apply(s.assignments, change)))
  {
    var t := Step(s, ChangeAssignments(change));
    assert ReachableState(t) by { ReachableStep(s, ChangeAssignments(change)); }
  }

  lemma {:induction false} ReachableChanges(s: State, changes: seq<AA.Change>)
    requires ReachableState(s)
    ensures ReachableState(s.(assignments := After(s.assignments, changes)))
    decreases |changes|
  {
    if changes == [] {
      assert s.(assignments := After(s.assignments, changes)) == s;
    } else {
      var next := s.(assignments := AA.Apply(s.assignments, changes[0]));
      ReachableChange(s, changes[0]);
      ReachableChanges(next, changes[1..]);
      assert next.(assignments := After(next.assignments, changes[1..])) == s.(assignments := After(s.assignments, changes));
    }
  }

  /** The intermediate tables of a sequence of changes determine its result. */
  lemma {:induction false} AfterTrace(changes: seq<AA.Change>, trace: seq<AA.Assignments>)
    requires |trace| == |changes| + 1
    requires forall i | 0 <= i < |changes| :: AA.Apply(trace[i], changes[i]) == trace[i + 1]
    ensures After(trace[0], changes) == trace[|changes|]
    decreases |changes|
  {
    if changes != [] {
      forall i | 0 <= i < |changes| - 1 ensures AA.Apply(trace[1..][i], changes[1..][i]) == trace[1..][i + 1] {
        assert AA.Apply(trace[i + 1], changes[i + 1]) == trace[i + 1 + 1];
      }
      AfterTrace(changes[1..], trace[1..]);
      assert AA.Apply(trace[0], changes[0]) == trace[0 + 1];
    }
  }

  const SETUP := [AA.Admit("h"), AA.ReportReadiness(OWN, true), AA.Select(OWN, true),
                  AA.CommitNext(true)]
  const HELD := AA.Assignments([HeldBy(OWN, 1)], {OWN}, {"h"}, [])
  const NOTHING_HELD := AA.Assignments([], {}, {}, [])

  /** Host h connected on socket 0, holding binding b at generation 1. */
  ghost function Ready(): State {
    State(map["h" := 0], map[0 := "h"], {0}, map[], map[], HELD, [])
  }

  lemma SetupIs()
    ensures After(NOTHING_HELD, SETUP) == HELD
  {
    var s1 := NOTHING_HELD.(connected := {"h"});
    assert AA.Apply(NOTHING_HELD, SETUP[0]) == s1;
    var s2 := s1.(ready := {OWN});
    assert AA.Apply(s1, SETUP[1]) == s2;
    var s3 := s2.(queue := [AA.SetRecord(HeldBy(OWN, 1))]);
    assert AA.Apply(s2, SETUP[2]) == s3;
    assert AA.Apply(s3, SETUP[3]) == HELD;
    AfterTrace(SETUP, [NOTHING_HELD, s1, s2, s3, HELD]);
  }

  lemma ReadyIsReachable()
    ensures ReachableState(Ready())
  {
    var empty := Initial(NOTHING_HELD);
    assert empty == Run(empty, []);
    ReachableChanges(empty, SETUP);
    SetupIs();
    ReachableStep(empty.(assignments := HELD), Connect("h", 0));
  }

  const SKIPPED := Event(TURN, 2, Diagnostic, Obj(map[]))
  const CLOSING := Event(TURN, 3, Terminal, Obj(map["outcome" := Str("completed")]))

  ghost function Streaming(): State {
    StoreTurn(Ready(), Invoking(Start(TURN, "hi")), Start(TURN, "hi"))
  }

  lemma StartIsAdmitted(inv: Invocation, q: Request)
    requires q == Start(TURN, "hi") && inv.hostId == "h" && inv.providerId == "p"
    requires inv.envelope == Some(EnvelopeFor("turn.start")) && inv.authorized && inv.callable && !inv.sendFails
    requires ParseRequest("i", "turn.start", inv.payload) == Some(q)
    ensures AdmissionOf(Ready(), inv) == AdmitTurn(q)
  {
    assert AA.Inspect(HELD, "b") == Some(AA.Inspected(HeldBy(OWN, 1), AA.Ready));
  }

  lemma StreamingIsReachable()
    ensures ReachableState(Streaming())
  {
    ReadyIsReachable();
    var q := Start(TURN, "hi");
    EncodedRequestParses(q, "i");
    StartIsAdmitted(Invoking(q), q);
    ReachableStep(Ready(), DoInvoke(Invoking(q)));
  }

  /** The attempt as stored, then with the given recorded events. */
  ghost predicate IsStreaming(s: State, events: seq<Event>, last: int) {
    && s.owner == map[0 := "h"] && s.assignments == HELD
    && s.calls == [Call("i", Some(TURN), [], [])]
    && "i" in s.attempts && StreamsOn(s.attempts["i"], events, last)
  }

  ghost predicate StreamsOn(a: LiveAttempt, events: seq<Event>, last: int) {
    && a.call == 0 && a.hostId == "h" && a.providerId == "p" && a.envelope == EnvelopeFor("turn.start")
    && a.request == Start(TURN, "hi") && a.record.id == TURN && a.record.events == []
    && a.events == events && a.fence == Fence(1, last, false)
  }

  lemma EventPasses(s: State, events: seq<Event>, last: int, e: Event)
    requires IsStreaming(s, events, last) && e.id == TURN && 0 <= last < e.sequence < MAX_SAFE_INTEGER
    ensures EventRefusal(s, s.attempts["i"], e, true) == None
  {
    assert AA.Inspect(HELD, "b") == Some(AA.Inspected(HeldBy(OWN, 1), AA.Ready));
  }

  lemma EventIsRecorded(s: State, events: seq<Event>, last: int, e: Event)
    requires ReachableState(s) && IsStreaming(s, events, last)
    requires e.id == TURN && 0 <= last < e.sequence < MAX_SAFE_INTEGER && FrameAdmits(e)
    ensures ReachableState(RecordEvent(s, "i", e))
  {
    EventPasses(s, events, last, e);
    ReachableStep(s, HostEvent(0, e, true));
  }

  lemma FramesAdmitted()
    ensures FrameAdmits(SKIPPED) && FrameAdmits(CLOSING)
  {
    FrameAdmitsWhen(SKIPPED);
    FrameAdmitsWhen(CLOSING);
  }

  lemma GapIsRecordedOnly(s: State)
    requires ReachableState(s) && IsStreaming(s, [], 0)
    ensures var t := RecordEvent(s, "i", SKIPPED); ReachableState(t) && IsStreaming(t, [SKIPPED], 2)
  {
    FramesAdmitted();
    EventIsRecorded(s, [], 0, SKIPPED);
    assert [] + [SKIPPED] == [SKIPPED];
  }

  lemma ClosingEventCompletes(s: State)
    requires ReachableState(s) && IsStreaming(s, [SKIPPED], 2)
    ensures var t := RecordEvent(s, "i", CLOSING);
            ReachableState(t) && t.calls == [Call("i", Some(TURN), [CLOSING], [Completed([SKIPPED, CLOSING])])]
  {
    FramesAdmitted();
    EventIsRecorded(s, [SKIPPED], 2, CLOSING);
    CompletedCall(s.calls, 0, CLOSING, Completed([SKIPPED, CLOSING]));
    assert [SKIPPED] + [CLOSING] == [SKIPPED, CLOSING] && [] + [CLOSING] == [CLOSING];
  }

  /** A host that numbers its public events 2, 3, ... : the caller's promise resolves with an
      event that onEvent was never given. */
  lemma GapIsNotDelivered()
    ensures exists s: State, es: seq<Event> ::
              && ReachableState(s) && |s.calls| == 1 && |es| == 2
              && s.calls[0].answers == [Completed(es)] && s.calls[0].delivered == es[1..]
  {
    StreamingIsReachable();
    GapIsRecordedOnly(Streaming());
    var s := RecordEvent(Streaming(), "i", SKIPPED);
    ClosingEventCompletes(s);
    var t, es := RecordEvent(s, "i", CLOSING), [SKIPPED, CLOSING];
    assert t.calls[0].delivered == es[1..];
  }

  ghost function Waiting(): State {
    StoreResult(Ready(), Invoking(Ensure("b", "w", "conversation")), "b")
  }

  lemma EnsureIsAdmitted(inv: Invocation, q: Request)
    requires q == Ensure("b", "w", "conversation") && inv.hostId == "h" && inv.providerId == "p"
    requires inv.envelope == Some(EnvelopeFor("thread.ensure")) && inv.authorized && inv.callable && !inv.sendFails
    requires ParseRequest("i", "thread.ensure", inv.payload) == Some(q)
    ensures AdmissionOf(Ready(), inv) == AdmitResult("b")
  {
    assert AA.Inspect(HELD, "b") == Some(AA.Inspected(HeldBy(OWN, 1), AA.Ready));
  }

  lemma WaitingIsReachable()
    ensures ReachableState(Waiting())
  {
    ReadyIsReachable();
    var q := Ensure("b", "w", "conversation");
    EncodedRequestParses(q, "i");
    EnsureIsAdmitted(Invoking(q), q);
    ReachableStep(Ready(), DoInvoke(Invoking(q)));
  }

  /** Binding b moves to host h2; then binding b2 is given h's provider and workspace. */
  const MOVES := [AA.Admit("h2"), AA.ReportReadiness(ELSEWHERE, true), AA.Select(ELSEWHERE, true), AA.CommitNext(true),
                  AA.ReportReadiness(OTHER, true), AA.Select(OTHER, true), AA.CommitNext(true)]
  const MOVED := AA.Assignments([HeldBy(ELSEWHERE, 2), HeldBy(OTHER, 1)], {OWN, ELSEWHERE, OTHER}, {"h", "h2"}, [])

  lemma FirstMove(s2: AA.Assignments)
    requires s2 == AA.Assignments([HeldBy(OWN, 1)], {OWN, ELSEWHERE}, {"h", "h2"}, [])
    ensures AA.Apply(s2, AA.Select(ELSEWHERE, true)) == s2.(queue := [AA.SetRecord(HeldBy(ELSEWHERE, 2))])
    ensures AA.Apply(s2.(queue := [AA.SetRecord(HeldBy(ELSEWHERE, 2))]), AA.CommitNext(true))
            == s2.(records := [HeldBy(ELSEWHERE, 2)])
  {
    assert AA.Without(s2.records, "b") == [];
  }

  lemma SecondMove(s4: AA.Assignments)
    requires s4 == MOVED.(records := [HeldBy(ELSEWHERE, 2)])
    ensures AA.Apply(s4, AA.Select(OTHER, true)) == s4.(queue := [AA.SetRecord(HeldBy(OTHER, 1))])
    ensures AA.Apply(s4.(queue := [AA.SetRecord(HeldBy(OTHER, 1))]), AA.CommitNext(true)) == MOVED
  {
    assert AA.Without(s4.records, "b2") == s4.records;
    assert AA.FindBinding(s4.records, "b2") == None;
  }

  lemma MovesAre()
    ensures After(HELD, MOVES) == MOVED
  {
    var s1 := AA.Assignments([HeldBy(OWN, 1)], {OWN}, {"h", "h2"}, []);
    assert AA.Apply(HELD, MOVES[0]) == s1;
    var s2 := s1.(ready := {OWN, ELSEWHERE});
    assert AA.Apply(s1, MOVES[1]) == s2;
    var q2 := s2.(queue := [AA.SetRecord(HeldBy(ELSEWHERE, 2))]);
    var s3 := s2.(records := [HeldBy(ELSEWHERE, 2)]);
    FirstMove(s2);
    var s4 := s3.(ready := {OWN, ELSEWHERE, OTHER});
    assert AA.Apply(s3, MOVES[4]) == s4;
    var q4 := s4.(queue := [AA.SetRecord(HeldBy(OTHER, 1))]);
    SecondMove(s4);
    AfterTrace(MOVES, [HELD, s1, s2, q2, s3, s4, q4, MOVED]);
  }

  /** A one-shot call on a binding that has since moved to another host at a higher
      generation: its old host's result is still accepted. */
  lemma StaleResultIsAccepted()
    ensures exists s: State, a: Action ::
              && ReachableState(s) && IsResult(s, 0)
              && Superseded(s.assignments, ResultEntry(s, 0).bindingId, ResultEntry(s, 0).envelope.generation)
              && |Step(s, a).calls| == 1 && Step(s, a).calls[0].answers == [HostResult(Obj(map[]))]
  {
    WaitingIsReachable();
    ReachableChanges(Waiting(), MOVES);
    MovesAre();
    var s, a := Waiting().(assignments := MOVED), HostResultFrame(0, "i", 1, Obj(map[]));
    assert ReachableState(s);
    assert IsResult(s, 0) && ResultEntry(s, 0).bindingId == "b";
    StaleFencePasses(ResultEntry(s, 0));
    ResultIsAccepted(s, ResultEntry(s, 0));
  }

  lemma ResultIsAccepted(s: State, r: LiveResultAttempt)
    requires s.owner == map[0 := "h"] && "i" in s.resultAttempts && s.resultAttempts["i"] == r
    requires r.call == 0 && r.hostId == "h" && r.envelope == EnvelopeFor("thread.ensure")
    requires FencedByTuple(s.assignments, r) && |s.calls| == 1 && s.calls[0].answers == []
    ensures var t := Step(s, HostResultFrame(0, "i", 1, Obj(map[])));
            |t.calls| == 1 && t.calls[0].answers == [HostResult(Obj(map[]))]
  {
    SettledCall(s.calls, 0, HostResult(Obj(map[])));
  }

  lemma StaleFencePasses(r: LiveResultAttempt)
    requires r.hostId == "h" && r.providerId == "p" && r.envelope.scopeId == Some("w")
    requires r.bindingId == "b" && r.envelope.generation == 1
    ensures FencedByTuple(MOVED, r) && Superseded(MOVED, "b", 1)
  {
    assert MOVED.records[1..] == [HeldBy(OTHER, 1)];
    assert AA.FindTuple(MOVED.records, "h", "p", Some("w")) == Some(HeldBy(OTHER, 1));
    assert AA.FindBinding(MOVED.records, "b2") == Some(HeldBy(OTHER, 1));
  }

  // ---- overlapping changes

  const TURN_AT_TWO := TURN.(generation := 2)
  const FIRST := Event(TURN_AT_TWO, 1, Diagnostic, Obj(map[]))

  /** Two reconnects and a selection are called before any of their commits lands; the first one has. */
  const OVERLAP := [AA.Reconnect("h"), AA.Reconnect("h"), AA.Select(OWN, true), AA.CommitNext(true)]
  const TWICE := [AA.BumpHost("h"), AA.SetRecord(HeldBy(OWN, 2))]
  const AT_TWO := AA.Assignments([HeldBy(OWN, 2)], {OWN}, {"h"}, TWICE)
  const AT_THREE := AA.Assignments([HeldBy(OWN, 3)], {OWN}, {"h"}, [AA.SetRecord(HeldBy(OWN, 2))])
  const BACK_AT_TWO := AA.Assignments([HeldBy(OWN, 2)], {OWN}, {"h"}, [])

  lemma ReconnectsQueue(queue: seq<AA.Commit>)
    ensures AA.Apply(HELD.(queue := queue), AA.Reconnect("h")) == HELD.(queue := queue + [AA.BumpHost("h")])
  {
    assert HELD.records[0].hostId == "h";
  }

  lemma BumpedOnce(generation: nat)
    ensures AA.Bumped([HeldBy(OWN, generation)], "h") == [HeldBy(OWN, generation + 1)]
  {
    assert [HeldBy(OWN, generation)][1..] == [];
  }

  lemma OverlapIs()
    ensures After(HELD, OVERLAP) == AT_TWO
  {
    var q1, q2 := [AA.BumpHost("h")], [AA.BumpHost("h"), AA.BumpHost("h")];
    ReconnectsQueue([]);
    ReconnectsQueue(q1);
    assert [] + q1 == q1 && q1 + q1 == q2;
    var q3 := q2 + [AA.SetRecord(HeldBy(OWN, 2))];
    assert AA.Apply(HELD.(queue := q2), OVERLAP[2]) == HELD.(queue := q3);
    assert q3[1..] == TWICE;
    BumpedOnce(1);
    assert AA.Apply(HELD.(queue := q3), OVERLAP[3]) == AT_TWO;
    AfterTrace(OVERLAP, [HELD, HELD.(queue := q1), HELD.(queue := q2), HELD.(queue := q3), AT_TWO]);
  }

  lemma GenerationRisesAndFalls()
    ensures AA.Apply(AT_TWO, AA.CommitNext(true)) == AT_THREE
    ensures AA.Apply(AT_THREE, AA.CommitNext(true)) == BACK_AT_TWO
    ensures AA.StaleCommit(AT_THREE, AA.CommitNext(true), "b")
  {
    assert TWICE[1..] == [AA.SetRecord(HeldBy(OWN, 2))];
    BumpedOnce(2);
    assert [AA.SetRecord(HeldBy(OWN, 2))][1..] == [];
    assert AA.Without(AT_THREE.records, "b") == [];
  }

  ghost function StreamingAtTwo(): State {
    StoreTurn(Ready().(assignments := AT_TWO), InvokingAtTwo(), Start(TURN_AT_TWO, "hi"))
  }

  function InvokingAtTwo(): Invocation {
    Invocation("h", "p", Some(EnvelopeFor("turn.start").(generation := 2)), EncodeRequest(Start(TURN_AT_TWO, "hi")),
               true, true, false)
  }

  lemma StartAtTwoIsAdmitted(s: State, inv: Invocation, q: Request)
    requires s == Ready().(assignments := AT_TWO)
    requires q == Start(TURN_AT_TWO, "hi") && inv.hostId == "h" && inv.providerId == "p"
    requires inv.envelope == Some(EnvelopeFor("turn.start").(generation := 2))
    requires inv.authorized && inv.callable && !inv.sendFails
    requires ParseRequest("i", "turn.start", inv.payload) == Some(q)
    ensures AdmissionOf(s, inv) == AdmitTurn(q)
  {
    assert AA.Inspect(AT_TWO, "b") == Some(AA.Inspected(HeldBy(OWN, 2), AA.Ready));
  }

  lemma StreamingAtTwoIsReachable()
    ensures ReachableState(StreamingAtTwo())
  {
    ReadyIsReachable();
    ReachableChanges(Ready(), OVERLAP);
    OverlapIs();
    var s, q := Ready().(assignments := AT_TWO), Start(TURN_AT_TWO, "hi");
    EncodedRequestParses(q, "i");
    StartAtTwoIsAdmitted(s, InvokingAtTwo(), q);
    ReachableStep(s, DoInvoke(InvokingAtTwo()));
  }

  lemma EventPassesAgain(s: State, a: LiveAttempt)
    requires s.assignments == BACK_AT_TWO && a.hostId == "h" && a.providerId == "p"
    requires a.envelope == EnvelopeFor("turn.start").(generation := 2)
    requires a.request == Start(TURN_AT_TWO, "hi") && a.fence == NewFence(2)
    ensures EventRefusal(s, a, FIRST, true) == None
  {
    assert AA.Inspect(BACK_AT_TWO, "b") == Some(AA.Inspected(HeldBy(OWN, 2), AA.Ready));
  }

  lemma EventIsDelivered(s: State)
    requires s == StreamingAtTwo().(assignments := BACK_AT_TWO)
    ensures var t := Step(s, HostEvent(0, FIRST, true)); |t.calls| == 1 && t.calls[0].delivered == [FIRST]
  {
    FrameAdmitsWhen(FIRST);
    EventPassesAgain(s, s.attempts["i"]);
    assert s.calls == [Call("i", Some(TURN_AT_TWO), [], [])];
    assert [] + [FIRST] == [FIRST];
  }

  const LAND := ChangeAssignments(AA.CommitNext(true))
  const RACE := [LAND, HostEvent(0, FIRST, true)]

  lemma RaceRun(s: State)
    requires s == StreamingAtTwo().(assignments := AT_THREE)
    ensures |Run(s, RACE).calls| == 1 && Run(s, RACE).calls[0].delivered == [FIRST]
  {
    var back := s.(assignments := BACK_AT_TWO);
    GenerationRisesAndFalls();
    assert RACE[..1] == [LAND] && [LAND][..0] == [];
    assert Run(s, [LAND]) == back;
    assert Run(s, RACE) == Step(back, HostEvent(0, FIRST, true));
    EventIsDelivered(back);
  }

  lemma SupersededIsReachable(s: State)
    requires s == StreamingAtTwo().(assignments := AT_THREE)
    ensures ReachableState(s) && IsTurn(s, 0)
    ensures TurnEntry(s, 0).record.id == TURN_AT_TWO && TurnEntry(s, 0).envelope.generation == 2
  {
    StreamingAtTwoIsReachable();
    GenerationRisesAndFalls();
    ReachableChange(StreamingAtTwo(), AA.CommitNext(true));
  }

  /** An attempt superseded at generation 3 is fenced in again when the overlapping selection,
      computed as 2, lands; its host's event then reaches the caller. */
  lemma SupersededAttemptSpeaksAgain()
    ensures exists s: State ::
              && ReachableState(s) && IsTurn(s, 0)
              && Superseded(s.assignments, TurnEntry(s, 0).record.id.bindingId, TurnEntry(s, 0).envelope.generation)
              && StaleSelection(s, RACE[0], TurnEntry(s, 0).record.id.bindingId)
              && |Run(s, RACE).calls| == 1 && Run(s, RACE).calls[0].delivered == [FIRST]
  {
    var s := StreamingAtTwo().(assignments := AT_THREE);
    SupersededIsReachable(s);
    GenerationRisesAndFalls();
    RaceRun(s);
  }
}
