/** How each server-side tool call is reported, stated by the step that ended it. */
module ToolVerdicts {
  import opened Options
  import opened ToolCalls
  import opened ToolCallTheorems

  /** Step n ends the promise of the running call t. */
  ghost predicate EndedAt(steps: seq<Step>, n: nat, t: Token)
    requires n < |steps|
  {
    steps[n].Ends? && steps[n].token == t && Running(Run(FRESH, steps[..n]), t)
  }

  /** Step n dispatches call t, which is over when dispatch returns. */
  ghost predicate OverAt(steps: seq<Step>, n: nat, t: Token)
    requires n < |steps|
  {
    |Run(FRESH, steps[..n]).jobs| == t < |Run(FRESH, steps[..n + 1]).jobs| && Run(FRESH, steps[..n + 1]).jobs[t].settled
  }

  /** A search reports whatever it resolves to; any other promise must resolve without an error. */
  predicate Succeeds(executor: Executor, ending: Ending) {
    ending.Resolved? && (executor.WebSearch? || !ending.isError)
  }

  function Adapted(adapter: Option<AdapterId>): seq<Effect> {
    if adapter.Some? then [ToolResult(adapter.value)] else []
  }

  /** While it runs a call has at most answered the model. */
  ghost predicate QuietWhileRunning(s: Session) {
    forall t: Token | Running(s, t) ::
      s.jobs[t].effects == if AnswersFirst(s.jobs[t].executor) then Adapted(s.jobs[t].dispatchAdapter) else []
  }

  lemma BlockingCallKeepsQuiet(s: Session, c: ToolCall)
    requires QuietWhileRunning(s)
    ensures QuietWhileRunning(BlockingCall(s, c))
  {
  }

  lemma AsyncCallKeepsQuiet(s: Session, c: ToolCall)
    requires QuietWhileRunning(s)
    ensures QuietWhileRunning(AsyncCall(s, c))
  {
  }

  lemma DispatchKeepsQuiet(s: Session, c: ToolCall)
    requires QuietWhileRunning(s)
    ensures QuietWhileRunning(Dispatch(s, c))
  {
    BlockingCallKeepsQuiet(s, c);
    AsyncCallKeepsQuiet(s, c);
  }

  lemma StepKeepsQuiet(s: Session, step: Step)
    requires QuietWhileRunning(s)
    ensures QuietWhileRunning(Apply(s, step))
  {
    match step
    case Call(c) => DispatchKeepsQuiet(s, c);
    case _ =>
  }

  lemma {:induction false} RunIsQuiet(steps: seq<Step>)
    ensures QuietWhileRunning(Run(FRESH, steps))
  {
    if steps != [] {
      RunIsQuiet(steps[..|steps| - 1]);
      StepKeepsQuiet(Run(FRESH, steps[..|steps| - 1]), steps[|steps| - 1]);
    }
  }

  lemma RunOneMore(steps: seq<Step>, n: nat)
    requires n < |steps|
    ensures Run(FRESH, steps[..n + 1]) == Apply(Run(FRESH, steps[..n]), steps[n])
  {
    var more := steps[..n + 1];
    assert more != [] && more[..|more| - 1] == steps[..n] && more[|more| - 1] == steps[n];
  }

  lemma RunRest(steps: seq<Step>, n: nat)
    requires n <= |steps|
    ensures Run(FRESH, steps) == Run(Run(FRESH, steps[..n]), steps[n..])
  {
    RunContinues(FRESH, steps[..n], steps[n..]);
    assert steps[..n] + steps[n..] == steps;
  }

  /** What the step that ends a call leaves in its account stays there for good. */
  lemma EndedJob(steps: seq<Step>, n: nat, t: Token)
    requires n < |steps| && EndedAt(steps, n, t)
    ensures t < |Run(FRESH, steps).jobs|
    ensures var before, job := Run(FRESH, steps[..n]), Run(FRESH, steps).jobs[t];
            && job.settled && job.executor == before.jobs[t].executor && job.aborted == before.jobs[t].aborted
            && job.effects == (if AnswersFirst(job.executor) then Adapted(before.jobs[t].dispatchAdapter) else [])
                              + SettleEffects(before, before.jobs[t], steps[n].ending)
  {
    RunOneMore(steps, n);
    RunRest(steps, n + 1);
    RunIsQuiet(steps[..n]);
    assert Reachable(Run(FRESH, steps[..n + 1]));
    CallsOnlyGrow(Run(FRESH, steps[..n + 1]), steps[n + 1..], t);
  }

  /** Over every run: a call that ended without having been aborted is reported completed exactly if
      its promise resolved without an error, or, for a search, resolved at all; otherwise it is reported
      failed, and a file tool that threw is not reported. Neither happens to an aborted call. */
  lemma VerdictFollowsEnding(steps: seq<Step>, n: nat, t: Token)
    requires n < |steps| && EndedAt(steps, n, t)
    requires !Run(FRESH, steps[..n]).jobs[t].executor.Standalone?
    ensures t < |Run(FRESH, steps).jobs|
    ensures var job, ending := Run(FRESH, steps).jobs[t], steps[n].ending;
            && (Completed in job.effects <==> !job.aborted && Succeeds(job.executor, ending))
            && (Failed(false) in job.effects
                <==> !job.aborted && !Succeeds(job.executor, ending) && !(job.executor.FileTool? && ending.Threw?))
  {
    EndedJob(steps, n, t);
  }

  /** A call answers the model where it must: at dispatch or at its end, on the adapter attached then;
      an asynchronous one that was not aborted adds context on the adapter attached at its end. */
  lemma AnswerFollowsEnding(steps: seq<Step>, n: nat, t: Token, adapter: AdapterId)
    requires n < |steps| && EndedAt(steps, n, t)
    requires !Run(FRESH, steps[..n]).jobs[t].executor.Standalone?
    ensures t < |Run(FRESH, steps).jobs|
    ensures var before, job := Run(FRESH, steps[..n]), Run(FRESH, steps).jobs[t];
            && (Inject(adapter) in job.effects
                <==> AnswersFirst(job.executor) && !job.aborted && before.adapter == Some(adapter))
            && (ToolResult(adapter) in job.effects
                <==> if AnswersFirst(job.executor) then before.jobs[t].dispatchAdapter == Some(adapter)
                     else before.adapter == Some(adapter) && !(job.executor.FileTool? && steps[n].ending.Threw?))
  {
    EndedJob(steps, n, t);
  }

  /** tool.exec gets one reply, successful exactly if the call was not aborted and resolved without an error. */
  lemma ReplyFollowsEnding(steps: seq<Step>, n: nat, t: Token)
    requires n < |steps| && EndedAt(steps, n, t)
    requires Run(FRESH, steps[..n]).jobs[t].executor.Standalone?
    ensures t < |Run(FRESH, steps).jobs|
    ensures var job, ending := Run(FRESH, steps).jobs[t], steps[n].ending;
            job.effects == [Reply(!job.aborted && ending.Resolved? && !ending.isError)]
  {
    EndedJob(steps, n, t);
  }

  // ---- every settled call has such a step

  lemma StepSettles(s: Session, step: Step, t: Token)
    requires t < |Apply(s, step).jobs| && Apply(s, step).jobs[t].settled && (t < |s.jobs| ==> !s.jobs[t].settled)
    ensures t < |s.jobs| ==> step.Ends? && step.token == t
    ensures t >= |s.jobs| ==> t == |s.jobs|
  {
    if step.Call? { DispatchTakesOnly(s, step.call); DispatchKeepsJobs(s, step.call); }
  }

  lemma DispatchKeepsJobs(s: Session, c: ToolCall)
    ensures var t := Dispatch(s, c);
            |s.jobs| <= |t.jobs| <= |s.jobs| + 1 && t.jobs[..|s.jobs|] == s.jobs
  {
  }

  /** A settled call was over at its dispatch, or one step ended its promise. */
  lemma {:induction false} SettledByAStep(steps: seq<Step>, t: Token)
    requires t < |Run(FRESH, steps).jobs| && Run(FRESH, steps).jobs[t].settled
    ensures exists n: nat :: n < |steps| && (EndedAt(steps, n, t) || OverAt(steps, n, t))
  {
    if steps != [] {
      var last := |steps| - 1;
      var s := Run(FRESH, steps[..last]);
      if t < |s.jobs| && s.jobs[t].settled {
        SettledByAStep(steps[..last], t);
        var n: nat :| n < last && (EndedAt(steps[..last], n, t) || OverAt(steps[..last], n, t));
        assert steps[..last][..n] == steps[..n] && steps[..last][..n + 1] == steps[..n + 1];
        assert EndedAt(steps, n, t) || OverAt(steps, n, t);
      } else {
        StepSettles(s, steps[last], t);
        assert steps[..last + 1] == steps;
        assert EndedAt(steps, last, t) || OverAt(steps, last, t);
      }
    }
  }

  // ---- what dispatch does at once

  predicate RunsOnServer(c: ToolCall) {
    c.name in {"web_search", "ask_brain", "bash", "read", "write", "edit"}
  }

  /** A call of these would start an executor, were its arguments usable. */
  predicate HasExecutor(s: Session, c: ToolCall) {
    match c.name
    case "web_search" => s.configured && (c.keyPresent || !GoesToBlocking(s, c))
    case "ask_brain" => s.configured
    case "bash" => s.configured && !GoesToBlocking(s, c)
    case _ => c.name in FILE_TOOLS && GoesToBlocking(s, c)
  }

  predicate ArgumentsServe(c: ToolCall) {
    match c.name
    case "web_search" => c.keyPresent && c.arguments.Usable?
    case "ask_brain" => c.arguments.Usable?
    case "bash" => c.arguments.Usable?
    case _ => c.arguments.Usable? || c.arguments.Empty?
  }

  /** The literal null reads as JSON, and using it throws outside of any handler. */
  predicate Escapes(c: ToolCall) {
    (c.name in FILE_TOOLS + {"bash"} && c.arguments.JsonNull?)
    || (c.name == "echo_tool" && (c.arguments.JsonNull? || c.arguments.Unparseable?))
  }

  /** One call more, with this account so far. */
  ghost predicate Adds(s: Session, t: Session, callId: string, settled: bool, effects: seq<Effect>) {
    && |t.jobs| == |s.jobs| + 1 && t.jobs[..|s.jobs|] == s.jobs
    && var job := t.jobs[|s.jobs|];
       job.callId == callId && job.settled == settled && !job.aborted && job.effects == effects
  }

  lemma BlockingOutcome(s: Session, c: ToolCall)
    requires RunsOnServer(c) && GoesToBlocking(s, c)
    ensures var t := BlockingCall(s, c);
            if HasExecutor(s, c) then
              if Escapes(c) then Adds(s, t, c.callId, true, [])
              else if ArgumentsServe(c) then Adds(s, t, c.callId, false, [])
              else Adds(s, t, c.callId, true, [Failed(false)] + Adapted(s.adapter))
            else if c.name == "web_search" && s.configured then Adds(s, t, c.callId, true, Adapted(s.adapter))
            else t == s
  {
  }

  lemma AsyncOutcome(s: Session, c: ToolCall)
    requires RunsOnServer(c) && !GoesToBlocking(s, c)
    ensures var t := AsyncCall(s, c);
            if HasExecutor(s, c) then
              if Escapes(c) then Adds(s, t, c.callId, true, [])
              else if ArgumentsServe(c) then Adds(s, t, c.callId, false, Adapted(s.adapter))
              else Adds(s, t, c.callId, true, [Failed(false)] + Adapted(s.adapter))
            else t == s
  {
  }

  /** A call of a server tool runs exactly if an executor takes it and its arguments serve; an
      asynchronous one has then answered the model already. Bad arguments are reported failed and
      answered at once. A call without an executor does nothing, but that a blocking search without a
      key is answered. Any other tool is completed and answered at once. */
  lemma DispatchOutcome(s: Session, c: ToolCall)
    ensures var t := Dispatch(s, c);
            if !RunsOnServer(c) then
              Adds(s, t, c.callId, true, if Escapes(c) then [] else [Completed] + Adapted(s.adapter))
            else if HasExecutor(s, c) then
              if Escapes(c) then Adds(s, t, c.callId, true, [])
              else if ArgumentsServe(c) then
                Adds(s, t, c.callId, false, if GoesToBlocking(s, c) then [] else Adapted(s.adapter))
              else Adds(s, t, c.callId, true, [Failed(false)] + Adapted(s.adapter))
            else if c.name == "web_search" && s.configured then Adds(s, t, c.callId, true, Adapted(s.adapter))
            else t == s
  {
    if RunsOnServer(c) {
      if GoesToBlocking(s, c) { BlockingOutcome(s, c); } else { AsyncOutcome(s, c); }
    }
  }

  // ---- who is aborted

  predicate Entered(s: Session, t: Token) {
    t < |s.jobs| && s.jobs[t].callId in s.inFlight && s.inFlight[s.jobs[t].callId] == t
  }

  predicate AbortsId(s: Session, step: Step, callId: string) {
    match step
    case UpstreamCancel(callIds) => callId in callIds
    case SessionReplaced => s.adapter.Some?
    case Disconnecting => true
    case _ => false
  }

  /** A step aborts exactly the calls entered under their id when it cancels that id, replaces the
      session or ends it. */
  lemma AbortedExactlyWhen(s: Session, step: Step, t: Token)
    requires Reachable(s) && t < |s.jobs|
    ensures t < |Apply(s, step).jobs|
    ensures Apply(s, step).jobs[t].aborted
            <==> s.jobs[t].aborted || (Entered(s, t) && AbortsId(s, step, s.jobs[t].callId))
  {
    ReachableIsSound(s);
    if step.Call? {
      DispatchKeepsJobs(s, step.call);
      assert Apply(s, step).jobs[..|s.jobs|][t] == s.jobs[t];
    } else if AbortsSome(s, step) {
      assert forall id | id in s.inFlight :: s.jobs[s.inFlight[id]].callId == id;
      if Entered(s, t) { assert s.inFlight[s.jobs[t].callId] in s.inFlight.Values; }
    }
  }

  predicate AbortsSome(s: Session, step: Step) {
    step.UpstreamCancel? || step.SessionReplaced? || step.Disconnecting?
  }
}
