/** Guarantees over every run of one relay session's server-side tool calls. */
module ToolCallTheorems {
  import opened Options
  import opened ToolCalls

  /** The states of all runs. */
  ghost predicate Reachable(s: Session) {
    exists steps :: s == Run(FRESH, steps)
  }

  lemma ReachableIsSound(s: Session)
    requires Reachable(s)
    ensures Sound(s)
  {
    var steps :| s == Run(FRESH, steps);
    RunIsGood(FRESH, steps);
  }

  /** A call answers the model at most once and gets at most one verdict; once settled it has
      done so exactly once, unless no adapter was there to answer, it crashed, or it was never
      to be reported. The verdict is "cancelled" exactly for the aborted calls. */
  lemma AnsweredAndReportedOnce(s: Session, t: Token)
    requires Reachable(s) && t < |s.jobs|
    ensures var job := s.jobs[t];
            && Results(job.effects) <= 1 && Verdicts(job.effects) <= 1
            && (job.settled && !job.executor.Standalone? ==>
                  (Results(job.effects) == 1 <==> AnswerAdapter(job).Some? && !job.crashed))
            && (job.settled && !job.executor.Standalone? ==>
                  (Verdicts(job.effects) == 1 <==> !job.crashed && !job.executor.KeylessSearch?))
            && (job.settled && !job.executor.Standalone? ==> (Failed(true) in job.effects <==> job.aborted))
  {
    ReachableIsSound(s);
    assert JobSound(s.jobs[t]);
  }

  /** However a run goes on, a call keeps what it has done; a settled call does nothing more. */
  lemma CallsOnlyGrow(s: Session, steps: seq<Step>, t: Token)
    requires Reachable(s) && t < |s.jobs|
    ensures t < |Run(s, steps).jobs|
    ensures var after := Run(s, steps).jobs[t];
            s.jobs[t].effects <= after.effects && (s.jobs[t].settled ==> after == s.jobs[t])
  {
    ReachableIsSound(s);
    RunIsGood(s, steps);
    assert Grows(s.jobs[t], Run(s, steps).jobs[t]);
  }

  /** Never reported completed, nothing injected, no successful reply. */
  ghost predicate Silent(job: Job) {
    Completed !in job.effects && Reply(true) !in job.effects && (forall a: AdapterId :: Inject(a) !in job.effects)
  }

  /** A call aborted before it settled stays silent, before and after, even when the session is
      replaced in between. */
  lemma AbortedCallsStaySilent(s: Session, steps: seq<Step>, t: Token)
    requires Reachable(s) && t < |s.jobs| && s.jobs[t].aborted
    ensures t < |Run(s, steps).jobs| && Run(s, steps).jobs[t].aborted && Silent(Run(s, steps).jobs[t])
  {
    ReachableIsSound(s);
    RunIsGood(s, steps);
    assert Grows(s.jobs[t], Run(s, steps).jobs[t]);
    assert JobSound(Run(s, steps).jobs[t]);
  }

  // ---- does aborting everything abort every running call?

  predicate Controlled(s: Session, t: Token) {
    Running(s, t) && HasController(s.jobs[t].executor)
  }

  /** Every running call that could still be aborted is the one held under its call id. */
  ghost predicate Covered(s: Session) {
    forall t: Token | Controlled(s, t) && !s.jobs[t].aborted ::
      s.jobs[t].callId in s.inFlight && s.inFlight[s.jobs[t].callId] == t
  }

  lemma AbortAllReachesExactly(s: Session)
    requires Reachable(s)
    ensures (forall t: Token | Controlled(s, t) :: AbortAll(s).jobs[t].aborted) <==> Covered(s)
  {
    ReachableIsSound(s);
    if Covered(s) {
      forall t: Token | Controlled(s, t)
        ensures AbortAll(s).jobs[t].aborted
      {
        if !s.jobs[t].aborted { assert s.inFlight[s.jobs[t].callId] in s.inFlight.Values; }
      }
    }
    if forall t: Token | Controlled(s, t) :: AbortAll(s).jobs[t].aborted {
      forall t: Token | Controlled(s, t) && !s.jobs[t].aborted
        ensures s.jobs[t].callId in s.inFlight && s.inFlight[s.jobs[t].callId] == t
      {
        assert AbortAll(s).jobs[t].aborted;
        var id :| id in s.inFlight && s.inFlight[id] == t;
      }
    }
  }

  /** The routing to the blocking executors. */
  predicate GoesToBlocking(s: Session, c: ToolCall) {
    c.blockingClass && (s.adapter.None? || c.adapterSupportsBlocking)
  }

  /** The dispatch enters or removes its call id: any ask_brain, a web_search or bash that starts. */
  predicate TakesId(s: Session, c: ToolCall) {
    && s.configured
    && (c.name == "ask_brain"
        || (c.name == "web_search" && c.keyPresent && c.arguments.Usable?)
        || (c.name == "bash" && !GoesToBlocking(s, c) && c.arguments.Usable?))
  }

  /** The call id whose entry a step overwrites or removes, and the call for which it does. */
  function Taken(s: Session, step: Step): Option<(string, Token)> {
    match step
    case Call(c) => if TakesId(s, c) then Some((c.callId, |s.jobs|)) else None
    case Exec(callId, known) => if callId != "" && known then Some((callId, |s.jobs|)) else None
    case Ends(t, _) => if Controlled(s, t) then Some((s.jobs[t].callId, t)) else None
    case _ => None
  }

  /** Call t, running and not aborted, loses its entry to another call of the same id. */
  predicate Uncovers(s: Session, step: Step, t: Token) {
    Controlled(s, t) && !s.jobs[t].aborted && Taken(s, step).Some?
    && Taken(s, step).value.0 == s.jobs[t].callId && Taken(s, step).value.1 != t
  }

  ghost predicate UncoversSome(s: Session, step: Step) {
    exists t: Token :: Uncovers(s, step, t)
  }

  /** Outside the id it takes a step leaves the entries; at that id only its own call is entered.
      A call it starts is entered under its id. */
  ghost predicate TakesOnly(s: Session, t: Session, taken: Option<(string, Token)>) {
    && (taken.None? ==> t.inFlight == s.inFlight)
    && (taken.Some? ==> forall id | id != taken.value.0 :: (id in t.inFlight <==> id in s.inFlight)
                                                           && (id in s.inFlight ==> t.inFlight[id] == s.inFlight[id]))
    && (taken.Some? && taken.value.0 in t.inFlight ==> t.inFlight[taken.value.0] == |s.jobs|)
    && |s.jobs| <= |t.jobs|
    && (forall k: Token | |s.jobs| <= k < |t.jobs| && Controlled(t, k) ::
          k == |s.jobs| && taken == Some((t.jobs[k].callId, k)) && t.jobs[k].callId in t.inFlight)
    && (forall k: Token | k < |s.jobs| && Controlled(t, k) :: t.jobs[k] == s.jobs[k])
    && (forall k: Token | Controlled(s, k) :: Controlled(t, k) <==> taken.None? || taken.value.1 != k)
  }

  lemma BlockingTakesOnly(s: Session, c: ToolCall)
    requires GoesToBlocking(s, c)
    ensures TakesOnly(s, BlockingCall(s, c), Taken(s, Call(c)))
  {
  }

  lemma AsyncTakesOnly(s: Session, c: ToolCall)
    requires !GoesToBlocking(s, c)
    ensures TakesOnly(s, AsyncCall(s, c), Taken(s, Call(c)))
  {
  }

  lemma DispatchTakesOnly(s: Session, c: ToolCall)
    ensures TakesOnly(s, Dispatch(s, c), Taken(s, Call(c)))
  {
    if c.name in FILE_TOOLS + {"web_search", "ask_brain", "bash"} {
      if GoesToBlocking(s, c) {
        BlockingTakesOnly(s, c);
      } else {
        AsyncTakesOnly(s, c);
      }
    }
  }

  lemma TakingCovers(s: Session, t: Session, step: Step)
    requires Sound(s) && Covered(s) && TakesOnly(s, t, Taken(s, step))
    ensures Covered(t) <==> !UncoversSome(s, step)
  {
    if k: Token :| Uncovers(s, step, k) {
      assert Controlled(t, k) && !t.jobs[k].aborted;
    } else {
      forall k: Token | Controlled(t, k) && !t.jobs[k].aborted
        ensures t.jobs[k].callId in t.inFlight && t.inFlight[t.jobs[k].callId] == k
      {
        if k < |s.jobs| {
          assert Controlled(s, k) && s.inFlight[s.jobs[k].callId] == k;
          assert !Uncovers(s, step, k);
        }
      }
    }
  }

  /** Aborting takes no running call from under its id. */
  lemma AbortingCovers(s: Session, tokens: set<Token>, inFlight: map<string, Token>)
    requires Covered(s)
    requires inFlight == s.inFlight || tokens == s.inFlight.Values
    ensures Covered(s.(jobs := AbortTokens(s.jobs, tokens), inFlight := inFlight))
  {
    var next := s.(jobs := AbortTokens(s.jobs, tokens), inFlight := inFlight);
    forall k: Token | Controlled(next, k) && !next.jobs[k].aborted
      ensures next.jobs[k].callId in next.inFlight && next.inFlight[next.jobs[k].callId] == k
    {
      assert Controlled(s, k) && !s.jobs[k].aborted && s.inFlight[s.jobs[k].callId] == k;
      assert s.inFlight[s.jobs[k].callId] in s.inFlight.Values;
    }
  }

  lemma CallTakesOnly(s: Session, c: ToolCall)
    ensures TakesOnly(s, Apply(s, Call(c)), Taken(s, Call(c)))
  {
    DispatchTakesOnly(s, c);
  }

  lemma ExecTakesOnly(s: Session, callId: string, known: bool)
    ensures TakesOnly(s, Apply(s, Exec(callId, known)), Taken(s, Exec(callId, known)))
  {
  }

  lemma EndTakesOnly(s: Session, t: Token, ending: Ending)
    ensures TakesOnly(s, Apply(s, Ends(t, ending)), Taken(s, Ends(t, ending)))
  {
  }

  lemma OtherStepCovers(s: Session, step: Step)
    requires Covered(s) && !step.Call? && !step.Exec? && !step.Ends?
    ensures Covered(Apply(s, step)) && !UncoversSome(s, step)
  {
    match step
    case UpstreamCancel(callIds) =>
      AbortingCovers(s, set id | id in callIds && id in s.inFlight :: s.inFlight[id], s.inFlight);
    case SessionReplaced => AbortingCovers(s, s.inFlight.Values, map[]);
    case Disconnecting => AbortingCovers(s, s.inFlight.Values, map[]);
    case _ =>
  }

  /** A step keeps every running call under its id exactly if no running call loses its entry to
      another call of the same id. */
  lemma StepCoversExactlyWhen(s: Session, step: Step)
    requires Sound(s) && Covered(s)
    ensures Covered(Apply(s, step)) <==> !UncoversSome(s, step)
  {
    if step.Call? {
      CallTakesOnly(s, step.call);
      TakingCovers(s, Apply(s, step), step);
    } else if step.Exec? {
      ExecTakesOnly(s, step.callId, step.known);
      TakingCovers(s, Apply(s, step), step);
    } else if step.Ends? {
      EndTakesOnly(s, step.token, step.ending);
      TakingCovers(s, Apply(s, step), step);
    } else {
      OtherStepCovers(s, step);
    }
  }

  ghost predicate AlwaysCovered(steps: seq<Step>) {
    Covered(Run(FRESH, steps)) && (steps == [] || AlwaysCovered(steps[..|steps| - 1]))
  }

  ghost predicate NeverUncovers(steps: seq<Step>) {
    steps == [] || (NeverUncovers(steps[..|steps| - 1]) && !UncoversSome(Run(FRESH, steps[..|steps| - 1]), steps[|steps| - 1]))
  }

  /** Over any run: aborting would have reached every running call at every moment, exactly if no
      step took the id of a running call for another. */
  lemma {:induction false} AlwaysCoveredExactlyWhen(steps: seq<Step>)
    ensures AlwaysCovered(steps) <==> NeverUncovers(steps)
  {
    if steps != [] {
      var init := steps[..|steps| - 1];
      AlwaysCoveredExactlyWhen(init);
      RunIsGood(FRESH, init);
      if AlwaysCovered(init) {
        assert Covered(Run(FRESH, init));
        StepCoversExactlyWhen(Run(FRESH, init), steps[|steps| - 1]);
      }
    }
  }

  /** No two running controlled calls share a call id. */
  ghost predicate DistinctIds(s: Session) {
    forall t: Token, u: Token | Controlled(s, t) && Controlled(s, u) && s.jobs[t].callId == s.jobs[u].callId :: t == u
  }

  ghost predicate Exclusive(s: Session) {
    Covered(s) && DistinctIds(s)
  }

  ghost predicate IdIsFree(s: Session, callId: string) {
    forall t: Token | Controlled(s, t) :: s.jobs[t].callId != callId
  }

  ghost predicate Reuses(s: Session, step: Step) {
    match step
    case Call(c) => !IdIsFree(s, c.callId)
    case Exec(callId, known) => callId != "" && known && !IdIsFree(s, callId)
    case _ => false
  }

  ghost predicate NeverReuses(steps: seq<Step>) {
    forall n | 0 <= n < |steps| :: !Reuses(Run(FRESH, steps[..n]), steps[n])
  }

  /** A dispatch touches no old call and no entry but that of its own call id; a running call
      it adds is entered under its call id. */
  ghost predicate OneCallAdded(s: Session, t: Session, callId: string) {
    && (t.jobs == s.jobs || (|t.jobs| == |s.jobs| + 1 && t.jobs[..|s.jobs|] == s.jobs))
    && (forall id | id != callId :: (id in t.inFlight <==> id in s.inFlight)
                                    && (id in s.inFlight ==> t.inFlight[id] == s.inFlight[id]))
    && (|t.jobs| > |s.jobs| && Controlled(t, |s.jobs|) ==>
          t.jobs[|s.jobs|].callId == callId && callId in t.inFlight && t.inFlight[callId] == |s.jobs|)
  }

  lemma BlockingAddsOneCall(s: Session, c: ToolCall)
    ensures OneCallAdded(s, BlockingCall(s, c), c.callId)
  {
    AskBrainAddsOneCall(s, c, true);
    OverAtOnceAddsOneCall(s, c.callId);
  }

  lemma AsyncAddsOneCall(s: Session, c: ToolCall)
    ensures OneCallAdded(s, AsyncCall(s, c), c.callId)
  {
    AskBrainAddsOneCall(s, c, false);
    OverAtOnceAddsOneCall(s, c.callId);
  }

  lemma OverAtOnceAddsOneCall(s: Session, callId: string)
    ensures forall executor, effects :: OneCallAdded(s, Immediate(s, callId, executor, effects), callId)
    ensures forall executor :: OneCallAdded(s, Refused(s, callId, executor), callId)
    ensures forall executor :: OneCallAdded(s, Crashed(s, callId, executor), callId)
    ensures forall executor :: OneCallAdded(s, Started(s, callId, executor), callId)
  {
  }

  lemma AskBrainAddsOneCall(s: Session, c: ToolCall, blocking: bool)
    ensures OneCallAdded(s, AskBrainCall(s, c, blocking), c.callId)
  {
  }

  lemma DispatchAddsOneCall(s: Session, c: ToolCall)
    ensures OneCallAdded(s, Dispatch(s, c), c.callId)
  {
    if c.name == "echo_tool" && (c.arguments.Unparseable? || c.arguments.JsonNull?) {
      OverAtOnceAddsOneCall(s, c.callId);
    } else if c.name !in FILE_TOOLS + {"web_search", "ask_brain", "bash"} {
      OverAtOnceAddsOneCall(s, c.callId);
    } else if c.blockingClass && (s.adapter.None? || c.adapterSupportsBlocking) {
      BlockingAddsOneCall(s, c);
    } else {
      AsyncAddsOneCall(s, c);
    }
  }

  lemma AddingStaysExclusive(s: Session, t: Session, callId: string)
    requires Exclusive(s) && IdIsFree(s, callId) && OneCallAdded(s, t, callId)
    ensures Exclusive(t)
  {
    forall k: Token | Controlled(t, k) && k < |s.jobs|
      ensures Controlled(s, k) && t.jobs[k] == s.jobs[k]
    {
      assert t.jobs[..|s.jobs|][k] == t.jobs[k];
    }
  }

  lemma OverAtOnceStaysExclusive(s: Session, callId: string, executor: Executor, effects: seq<Effect>)
    requires Exclusive(s)
    ensures Exclusive(Immediate(s, callId, executor, effects))
  {
    var t := Immediate(s, callId, executor, effects);
    forall k: Token | Controlled(t, k)
      ensures Controlled(s, k) && t.jobs[k] == s.jobs[k]
    {
    }
  }

  lemma SettlingStaysExclusive(s: Session, t: Token, ending: Ending)
    requires Exclusive(s)
    ensures Exclusive(Settle(s, t, ending))
  {
    if Running(s, t) {
      var next := Settle(s, t, ending);
      forall k: Token | Controlled(next, k)
        ensures Controlled(s, k) && next.jobs[k] == s.jobs[k] && k != t
      {
      }
    }
  }

  lemma AbortingStaysExclusive(s: Session, tokens: set<Token>, inFlight: map<string, Token>)
    requires Exclusive(s)
    requires inFlight == s.inFlight || (inFlight == map[] && tokens == s.inFlight.Values)
    ensures Exclusive(s.(jobs := AbortTokens(s.jobs, tokens), inFlight := inFlight))
  {
    var next := s.(jobs := AbortTokens(s.jobs, tokens), inFlight := inFlight);
    forall k: Token | Controlled(next, k)
      ensures Controlled(s, k) && next.jobs[k].callId == s.jobs[k].callId && (!next.jobs[k].aborted ==> !s.jobs[k].aborted)
      ensures k !in tokens || next.jobs[k].aborted
    {
    }
  }

  lemma StepStaysExclusive(s: Session, step: Step)
    requires Exclusive(s) && !Reuses(s, step)
    ensures Exclusive(Apply(s, step))
  {
    match step
    case Call(c) =>
      DispatchAddsOneCall(s, c);
      AddingStaysExclusive(s, Apply(s, step), c.callId);
    case Exec(callId, known) =>
      if callId == "" || !known {
        OverAtOnceStaysExclusive(s, callId, Standalone, [Reply(false)]);
      } else {
        AddingStaysExclusive(s, Apply(s, step), callId);
      }
    case Ends(t, ending) => SettlingStaysExclusive(s, t, ending);
    case UpstreamCancel(callIds) =>
      AbortingStaysExclusive(s, set id | id in callIds && id in s.inFlight :: s.inFlight[id], s.inFlight);
    case SessionReplaced => AbortingStaysExclusive(s, s.inFlight.Values, map[]);
    case AdapterAttached(_) =>
    case Disconnecting => AbortingStaysExclusive(s, s.inFlight.Values, map[]);
    case Disconnected =>
  }

  /** When no call takes the id of a call still running, every running call is the one entered
      under its id, in every state of the run. */
  lemma {:induction false} RunStaysExclusive(steps: seq<Step>)
    requires NeverReuses(steps)
    ensures Exclusive(Run(FRESH, steps))
  {
    if steps != [] {
      var init := steps[..|steps| - 1];
      forall n | 0 <= n < |init|
        ensures !Reuses(Run(FRESH, init[..n]), init[n])
      {
        assert init[..n] == steps[..n];
      }
      RunStaysExclusive(init);
      StepStaysExclusive(Run(FRESH, init), steps[|steps| - 1]);
    }
  }

  /** In a covered state replacing the session silences every controlled call running at that moment, for good. */
  lemma ReplacementSilencesEverything(s: Session, rest: seq<Step>, t: Token)
    requires Reachable(s) && Covered(s) && s.adapter.Some? && Controlled(s, t)
    ensures t < |Run(Replace(s), rest).jobs|
    ensures Run(Replace(s), rest).jobs[t].aborted && Silent(Run(Replace(s), rest).jobs[t])
  {
    AbortAllReachesExactly(s);
    ReachableStep(s, SessionReplaced);
    AbortedCallsStaySilent(Replace(s), rest, t);
  }

  lemma ReachableStep(s: Session, step: Step)
    requires Reachable(s)
    ensures Reachable(Apply(s, step))
  {
    var steps :| s == Run(FRESH, steps);
    assert (steps + [step])[..|steps|] == steps;
    assert Apply(s, step) == Run(FRESH, steps + [step]);
  }

  // ---- what a reused id and a late answer do

  function EffectsOf(s: Session, t: Token): seq<Effect> {
    if t < |s.jobs| then s.jobs[t].effects else []
  }

  const SEARCH := ToolCall("c1", "web_search", false, true, true, Usable)

  const WAITING := Job("c1", WebSearch(false), false, false, false, Some(1), None, [ToolResult(1)])
  const TWO_CALLS := Session(Some(1), true, map["c1" := 1], [WAITING, WAITING])

  lemma TwoCallsWithOneId()
    ensures Run(FRESH, [AdapterAttached(1), Call(SEARCH), Call(SEARCH)]) == TWO_CALLS
  {
    var steps := [AdapterAttached(1), Call(SEARCH), Call(SEARCH)];
    var s1 := FRESH.(adapter := Some(1), configured := true);
    var s2 := s1.(inFlight := map["c1" := 0], jobs := [WAITING]);
    UnrollRun(steps);
    assert Run(FRESH, steps[..1]) == s1;
    assert Run(FRESH, steps[..2]) == s2 by { assert Started(s1, "c1", WebSearch(false)) == s2; }
    assert Run(FRESH, steps[..3]) == TWO_CALLS by { assert Started(s2, "c1", WebSearch(false)) == TWO_CALLS; }
    assert steps[..3] == steps;
  }

  lemma FirstOfTwoEscapes()
    ensures EffectsOf(Run(TWO_CALLS, [SessionReplaced, AdapterAttached(2), Ends(0, Resolved(false))]), 0)
            == [ToolResult(1), Completed, Inject(2)]
  {
    var rest := [SessionReplaced, AdapterAttached(2), Ends(0, Resolved(false))];
    OneTokenHeld();
    var replaced := Session(None, true, map[], [WAITING, WAITING.(aborted := true)]);
    UnrollRunFrom(TWO_CALLS, rest);
    assert Run(TWO_CALLS, rest[..1]) == replaced by { assert Replace(TWO_CALLS) == replaced; }
    assert Run(TWO_CALLS, rest[..2]) == replaced.(adapter := Some(2));
    assert rest[..3] == rest;
    assert [ToolResult(1)] + ([Completed] + [Inject(2)]) == [ToolResult(1), Completed, Inject(2)];
  }

  lemma OneTokenHeld()
    ensures TWO_CALLS.inFlight.Values == {1}
  {
    assert TWO_CALLS.inFlight["c1"] in TWO_CALLS.inFlight.Values;
  }

  /** Two calls with one id: replacing the session misses the first, whose result is then
      injected into the new session's adapter. */
  lemma ReusedIdEscapesReplacement()
    ensures var s := Run(FRESH, [AdapterAttached(1), Call(SEARCH), Call(SEARCH)]);
            Controlled(s, 0) && !Covered(s) && |AbortAll(s).jobs| == 2 && !AbortAll(s).jobs[0].aborted
    ensures EffectsOf(Run(FRESH, [AdapterAttached(1), Call(SEARCH), Call(SEARCH)]
                                 + [SessionReplaced, AdapterAttached(2), Ends(0, Resolved(false))]), 0)
            == [ToolResult(1), Completed, Inject(2)]
  {
    TwoCallsWithOneId();
    OneTokenHeld();
    assert Controlled(TWO_CALLS, 0);
    RunContinues(FRESH, [AdapterAttached(1), Call(SEARCH), Call(SEARCH)],
                 [SessionReplaced, AdapterAttached(2), Ends(0, Resolved(false))]);
    FirstOfTwoEscapes();
  }

  lemma UnrollRun(steps: seq<Step>)
    ensures forall n | 0 <= n < |steps| :: Run(FRESH, steps[..n + 1]) == Apply(Run(FRESH, steps[..n]), steps[n])
    ensures Run(FRESH, steps[..0]) == FRESH
  {
    UnrollRunFrom(FRESH, steps);
  }

  lemma UnrollRunFrom(s: Session, steps: seq<Step>)
    ensures forall n | 0 <= n < |steps| :: Run(s, steps[..n + 1]) == Apply(Run(s, steps[..n]), steps[n])
    ensures Run(s, steps[..0]) == s
  {
    forall n | 0 <= n < |steps|
      ensures Run(s, steps[..n + 1]) == Apply(Run(s, steps[..n]), steps[n])
    {
      assert steps[..n + 1][..n] == steps[..n];
    }
  }

  const READ := ToolCall("c1", "read", true, true, false, Usable)
  const READING := Job("c1", FileTool, false, false, false, Some(1), None, [])
  const ONE_READ := Session(Some(1), true, map[], [READING])

  lemma OneFileCall()
    ensures Run(FRESH, [AdapterAttached(1), Call(READ)]) == ONE_READ
  {
    var steps := [AdapterAttached(1), Call(READ)];
    UnrollRun(steps);
    assert Run(FRESH, steps[..1]) == FRESH.(adapter := Some(1), configured := true);
    assert steps[..2] == steps;
  }

  lemma LateRead()
    ensures EffectsOf(Run(ONE_READ, [SessionReplaced, AdapterAttached(2), Ends(0, Resolved(false))]), 0)
            == [Completed, ToolResult(2)]
  {
    var rest := [SessionReplaced, AdapterAttached(2), Ends(0, Resolved(false))];
    UnrollRunFrom(ONE_READ, rest);
    var replaced := Session(None, true, map[], [READING]);
    assert Run(ONE_READ, rest[..1]) == replaced by { assert AbortTokens([READING], {}) == [READING]; }
    assert Run(ONE_READ, rest[..2]) == replaced.(adapter := Some(2));
    assert rest[..3] == rest;
    assert [] + ([Completed] + [ToolResult(2)]) == [Completed, ToolResult(2)];
  }

  /** A file tool has no controller: started on one adapter, it answers on the next one. */
  lemma LateFileResultReachesNewAdapter()
    ensures EffectsOf(Run(FRESH, [AdapterAttached(1), Call(READ)]
                                 + [SessionReplaced, AdapterAttached(2), Ends(0, Resolved(false))]), 0)
            == [Completed, ToolResult(2)]
  {
    OneFileCall();
    RunContinues(FRESH, [AdapterAttached(1), Call(READ)], [SessionReplaced, AdapterAttached(2), Ends(0, Resolved(false))]);
    LateRead();
  }
}
