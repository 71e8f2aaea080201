/** Server-side tool calls of one relay session (relay-server/src/session.ts): dispatch to a
    blocking or an asynchronous executor, settling of its promise, and the two ways to abort. */
module ToolCalls {
  import opened Options

  type AdapterId = nat

  /** A running call is known by its own token: call ids come from the provider and may repeat. */
  type Token = nat

  datatype Executor =
    | Sync
    | KeylessSearch
    | WebSearch(blocking: bool)
    | AskBrain(blocking: bool)
    | FileTool
    | Bash
    | Standalone

  /** What a call has done to the outside: a tool result or injected context on an adapter,
      tool_call.completed or tool_call.failed to the client, or a reply to tool.exec. */
  datatype Effect =
    | ToolResult(adapter: AdapterId)
    | Inject(adapter: AdapterId)
    | Completed
    | Failed(cancelled: bool)
    | Reply(ok: bool)

  /** dispatchAdapter and settleAdapter record which adapter was attached at those moments;
      crashed marks an executor that threw before it could answer. */
  datatype Job = Job(
    callId: string, executor: Executor, aborted: bool, settled: bool, crashed: bool,
    dispatchAdapter: Option<AdapterId>, settleAdapter: Option<AdapterId>, effects: seq<Effect>)

  datatype Session = Session(
    adapter: Option<AdapterId>, configured: bool, inFlight: map<string, Token>, jobs: seq<Job>)

  const FRESH := Session(None, false, map[], [])

  /** How the argument string reads: not JSON, the literal null, without the required text, or usable. */
  datatype Arguments = Unparseable | JsonNull | Empty | Usable

  datatype ToolCall = ToolCall(
    callId: string, name: string, blockingClass: bool, adapterSupportsBlocking: bool,
    keyPresent: bool, arguments: Arguments)

  const FILE_TOOLS := {"read", "write", "edit"}

  function Answer(s: Session): seq<Effect> {
    if s.adapter.Some? then [ToolResult(s.adapter.value)] else []
  }

  function Injection(s: Session): seq<Effect> {
    if s.adapter.Some? then [Inject(s.adapter.value)] else []
  }

  /** A call that is over when dispatch returns. */
  function Immediate(s: Session, callId: string, executor: Executor, effects: seq<Effect>): Session {
    s.(jobs := s.jobs + [Job(callId, executor, false, true, false, s.adapter, s.adapter, effects)])
  }

  function Crashed(s: Session, callId: string, executor: Executor): Session {
    s.(jobs := s.jobs + [Job(callId, executor, false, true, true, s.adapter, s.adapter, [])])
  }

  function Refused(s: Session, callId: string, executor: Executor): Session {
    Immediate(s, callId, executor, [Failed(false)] + Answer(s))
  }

  predicate HasController(executor: Executor) {
    executor.WebSearch? || executor.AskBrain? || executor.Bash? || executor.Standalone?
  }

  /** Executors that answer the model at once and bring the outcome as context later. */
  predicate AnswersFirst(executor: Executor) {
    (executor.WebSearch? && !executor.blocking) || (executor.AskBrain? && !executor.blocking) || executor.Bash?
  }

  function Started(s: Session, callId: string, executor: Executor): Session {
    s.(inFlight := if HasController(executor) then s.inFlight[callId := |s.jobs|] else s.inFlight,
       jobs := s.jobs + [Job(callId, executor, false, false, false, s.adapter, None,
                             if AnswersFirst(executor) then Answer(s) else [])])
  }

  /** ask_brain registers its controller before it reads the arguments, and removes the
      call id again when they are bad. */
  function AskBrainCall(s: Session, c: ToolCall, blocking: bool): Session {
    if !s.configured then s
    else if c.arguments.Usable? then Started(s, c.callId, AskBrain(blocking))
    else Refused(s, c.callId, AskBrain(blocking)).(inFlight := s.inFlight - {c.callId})
  }

  function BlockingCall(s: Session, c: ToolCall): Session {
    if c.name == "web_search" then
      if !s.configured then s
      else if !c.keyPresent then Immediate(s, c.callId, KeylessSearch, Answer(s))
      else if !c.arguments.Usable? then Refused(s, c.callId, WebSearch(true))
      else Started(s, c.callId, WebSearch(true))
    else if c.name == "ask_brain" then AskBrainCall(s, c, true)
    else if c.name in FILE_TOOLS then
      match c.arguments
      case Unparseable => Refused(s, c.callId, FileTool)
      case JsonNull => Crashed(s, c.callId, FileTool)
      case _ => Started(s, c.callId, FileTool)
    else s
  }

  function AsyncCall(s: Session, c: ToolCall): Session {
    if c.name == "ask_brain" then AskBrainCall(s, c, false)
    else if !s.configured then s
    else if c.name == "web_search" then
      if !c.keyPresent || !c.arguments.Usable? then Refused(s, c.callId, WebSearch(false))
      else Started(s, c.callId, WebSearch(false))
    else if c.name == "bash" then
      match c.arguments
      case JsonNull => Crashed(s, c.callId, Bash)
      case Usable => Started(s, c.callId, Bash)
      case _ => Refused(s, c.callId, Bash)
    else s
  }

  /** handleServerToolCall. */
  function Dispatch(s: Session, c: ToolCall): Session {
    if c.name == "echo_tool" && (c.arguments.Unparseable? || c.arguments.JsonNull?) then Crashed(s, c.callId, Sync)
    else if c.name !in FILE_TOOLS + {"web_search", "ask_brain", "bash"} then
      Immediate(s, c.callId, Sync, [Completed] + Answer(s))
    else if c.blockingClass && (s.adapter.None? || c.adapterSupportsBlocking) then BlockingCall(s, c)
    else AsyncCall(s, c)
  }

  /** handleStandaloneToolExec: no call id, or an unknown tool, is an error reply at once. */
  function StandaloneCall(s: Session, callId: string, known: bool): Session {
    if callId == "" || !known then Immediate(s, callId, Standalone, [Reply(false)]) else Started(s, callId, Standalone)
  }

  /** How an executor's promise ends; a resolved value may still be an error payload. */
  datatype Ending = Resolved(isError: bool) | Threw

  function Verdict(job: Job, ending: Ending): Effect {
    if job.aborted then Failed(true)
    else if ending.Threw? || (ending.isError && !job.executor.WebSearch?) then Failed(false)
    else Completed
  }

  /** The .then and .catch handlers. */
  function SettleEffects(s: Session, job: Job, ending: Ending): seq<Effect> {
    if job.executor.Standalone? then [Reply(!job.aborted && ending.Resolved? && !ending.isError)]
    else if job.executor.FileTool? && ending.Threw? then []
    else if AnswersFirst(job.executor) then
      [Verdict(job, ending)] + if job.aborted then [] else Injection(s)
    else [Verdict(job, ending)] + Answer(s)
  }

  predicate Running(s: Session, t: Token) {
    t < |s.jobs| && !s.jobs[t].settled
  }

  /** A promise settles; finally removes the call id, whoever holds it now. */
  function Settle(s: Session, t: Token, ending: Ending): Session {
    if !Running(s, t) then s
    else
      var job := s.jobs[t];
      s.(inFlight := if HasController(job.executor) then s.inFlight - {job.callId} else s.inFlight,
         jobs := s.jobs[t := job.(settled := true, settleAdapter := s.adapter,
                                  crashed := job.executor.FileTool? && ending.Threw?,
                                  effects := job.effects + SettleEffects(s, job, ending))])
  }

  function AbortTokens(jobs: seq<Job>, tokens: set<Token>): seq<Job> {
    seq(|jobs|, t requires 0 <= t < |jobs| => if t in tokens then jobs[t].(aborted := true) else jobs[t])
  }

  /** handleToolCancelled. */
  function Cancelled(s: Session, callIds: seq<string>): Session {
    s.(jobs := AbortTokens(s.jobs, set id | id in callIds && id in s.inFlight :: s.inFlight[id]))
  }

  /** abortAllInFlightTools. */
  function AbortAll(s: Session): Session {
    s.(jobs := AbortTokens(s.jobs, s.inFlight.Values), inFlight := map[])
  }

  /** The first part of handleSessionConfig: drop the adapter of the session being replaced. */
  function Replace(s: Session): Session {
    if s.adapter.Some? then AbortAll(s).(adapter := None) else s
  }

  datatype Step =
    | Call(call: ToolCall)
    | Exec(callId: string, known: bool)
    | Ends(token: Token, ending: Ending)
    | UpstreamCancel(callIds: seq<string>)
    | SessionReplaced
    | AdapterAttached(adapter: AdapterId)
    | Disconnecting
    | Disconnected

  function Apply(s: Session, step: Step): Session {
    match step
    case Call(c) => Dispatch(s, c)
    case Exec(callId, known) => StandaloneCall(s, callId, known)
    case Ends(t, ending) => Settle(s, t, ending)
    case UpstreamCancel(callIds) => Cancelled(s, callIds)
    case SessionReplaced => Replace(s)
    case AdapterAttached(a) => s.(adapter := Some(a), configured := true)
    case Disconnecting => AbortAll(s)
    case Disconnected => s.(adapter := None)
  }

  function Run(s: Session, steps: seq<Step>): Session {
    if steps == [] then s else Apply(Run(s, steps[..|steps| - 1]), steps[|steps| - 1])
  }

  // ---- what each call may have done

  predicate IsVerdict(e: Effect) {
    e.Completed? || e.Failed?
  }

  function Verdicts(es: seq<Effect>): nat {
    if es == [] then 0 else (if IsVerdict(es[0]) then 1 else 0) + Verdicts(es[1..])
  }

  function Results(es: seq<Effect>): nat {
    if es == [] then 0 else (if es[0].ToolResult? then 1 else 0) + Results(es[1..])
  }

  lemma {:induction false} CountsAdd(xs: seq<Effect>, ys: seq<Effect>)
    ensures Verdicts(xs + ys) == Verdicts(xs) + Verdicts(ys)
    ensures Results(xs + ys) == Results(xs) + Results(ys)
  {
    if xs == [] {
      assert xs + ys == ys;
    } else {
      assert (xs + ys)[1..] == xs[1..] + ys;
      CountsAdd(xs[1..], ys);
    }
  }

  /** The adapter that was attached when the call owed the model its answer. */
  function AnswerAdapter(job: Job): Option<AdapterId> {
    if AnswersFirst(job.executor) then job.dispatchAdapter else job.settleAdapter
  }

  /** Neither reported as completed, nor told to the model as context, nor replied with success. */
  ghost predicate Silenced(es: seq<Effect>) {
    forall i | 0 <= i < |es| :: !es[i].Completed? && !es[i].Inject? && es[i] != Reply(true)
  }

  /** Before it settles a call has at most answered the model; afterwards it has sent exactly
      one tool result if an adapter was attached when it was due, and exactly one verdict. */
  ghost predicate JobSound(job: Job) {
    && (job.aborted ==> HasController(job.executor) && Silenced(job.effects))
    && (!job.settled ==>
          !job.crashed && !job.executor.Sync? && !job.executor.KeylessSearch? && Verdicts(job.effects) == 0 && Silenced(job.effects)
          && Failed(true) !in job.effects
          && Results(job.effects) == if AnswersFirst(job.executor) && job.dispatchAdapter.Some? then 1 else 0)
    && (job.settled ==>
          && Results(job.effects) == (if AnswerAdapter(job).Some? && !job.crashed && !job.executor.Standalone? then 1 else 0)
          && Verdicts(job.effects)
             == (if job.crashed || job.executor.KeylessSearch? || job.executor.Standalone? then 0 else 1)
          && (!job.executor.Standalone? ==> (Failed(true) in job.effects <==> job.aborted)))
  }

  ghost predicate Sound(s: Session) {
    && (forall t: Token | t < |s.jobs| :: JobSound(s.jobs[t]))
    && (forall id | id in s.inFlight ::
          && Running(s, s.inFlight[id])
          && s.jobs[s.inFlight[id]].callId == id
          && HasController(s.jobs[s.inFlight[id]].executor))
  }

  /** A call never takes back what it did, stays aborted, and is final once settled. */
  ghost predicate Grows(before: Job, after: Job) {
    && after.callId == before.callId && after.executor == before.executor
    && before.effects <= after.effects
    && (before.aborted ==> after.aborted)
    && (before.settled ==> after == before)
  }

  ghost predicate Good(s: Session, t: Session) {
    && Sound(t)
    && |s.jobs| <= |t.jobs|
    && (forall k: Token | k < |s.jobs| :: Grows(s.jobs[k], t.jobs[k]))
  }

  lemma AppendIsGood(s: Session, job: Job, inFlight: map<string, Token>)
    requires Sound(s) && JobSound(job)
    requires forall id | id in inFlight ::
               || (id in s.inFlight && inFlight[id] == s.inFlight[id])
               || (id == job.callId && inFlight[id] == |s.jobs| && !job.settled && HasController(job.executor))
    ensures Good(s, s.(jobs := s.jobs + [job], inFlight := inFlight))
  {
    var t := s.(jobs := s.jobs + [job], inFlight := inFlight);
    forall id | id in inFlight
      ensures Running(t, inFlight[id]) && t.jobs[inFlight[id]].callId == id && HasController(t.jobs[inFlight[id]].executor)
    {
      if inFlight[id] != |s.jobs| { assert Running(s, s.inFlight[id]); }
    }
  }

  lemma StartedIsGood(s: Session, callId: string, executor: Executor)
    requires Sound(s) && !executor.Sync? && !executor.KeylessSearch?
    ensures Good(s, Started(s, callId, executor))
  {
    var t := Started(s, callId, executor);
    var job := t.jobs[|s.jobs|];
    assert Results(Answer(s)) == if s.adapter.Some? then 1 else 0;
    AppendIsGood(s, job, t.inFlight);
  }

  lemma OverAtOnceIsGood(s: Session, callId: string, executor: Executor, verdict: seq<Effect>, inFlight: map<string, Token>)
    requires Sound(s) && !executor.Standalone?
    requires verdict == [Completed] || verdict == [Failed(false)] || (verdict == [] && executor.KeylessSearch?)
    requires executor.KeylessSearch? ==> verdict == []
    requires forall id | id in inFlight :: id in s.inFlight && inFlight[id] == s.inFlight[id]
    ensures Good(s, Immediate(s, callId, executor, verdict + Answer(s)).(inFlight := inFlight))
  {
    CountsAdd(verdict, Answer(s));
    assert Results(Answer(s)) == if s.adapter.Some? then 1 else 0;
    assert Verdicts(Answer(s)) == 0;
    AppendIsGood(s, Immediate(s, callId, executor, verdict + Answer(s)).jobs[|s.jobs|], inFlight);
  }

  lemma RefusedIsGood(s: Session, callId: string, executor: Executor, inFlight: map<string, Token>)
    requires Sound(s) && !executor.Standalone? && !executor.KeylessSearch?
    requires forall id | id in inFlight :: id in s.inFlight && inFlight[id] == s.inFlight[id]
    ensures Good(s, Refused(s, callId, executor).(inFlight := inFlight))
  {
    OverAtOnceIsGood(s, callId, executor, [Failed(false)], inFlight);
  }

  lemma CrashedIsGood(s: Session, callId: string, executor: Executor)
    requires Sound(s)
    ensures Good(s, Crashed(s, callId, executor))
  {
    AppendIsGood(s, Crashed(s, callId, executor).jobs[|s.jobs|], s.inFlight);
  }

  lemma AskBrainCallIsGood(s: Session, c: ToolCall, blocking: bool)
    requires Sound(s)
    ensures Good(s, AskBrainCall(s, c, blocking))
  {
    if !s.configured {
    } else if c.arguments.Usable? {
      StartedIsGood(s, c.callId, AskBrain(blocking));
    } else {
      RefusedIsGood(s, c.callId, AskBrain(blocking), s.inFlight - {c.callId});
    }
  }

  lemma BlockingCallIsGood(s: Session, c: ToolCall)
    requires Sound(s)
    ensures Good(s, BlockingCall(s, c))
  {
    if c.name == "web_search" {
      if !s.configured {
      } else if !c.keyPresent {
        assert [] + Answer(s) == Answer(s);
        OverAtOnceIsGood(s, c.callId, KeylessSearch, [], s.inFlight);
      } else if !c.arguments.Usable? {
        RefusedIsGood(s, c.callId, WebSearch(true), s.inFlight);
      } else {
        StartedIsGood(s, c.callId, WebSearch(true));
      }
    } else if c.name == "ask_brain" {
      AskBrainCallIsGood(s, c, true);
    } else if c.name in FILE_TOOLS {
      match c.arguments
      case Unparseable => RefusedIsGood(s, c.callId, FileTool, s.inFlight);
      case JsonNull => CrashedIsGood(s, c.callId, FileTool);
      case _ => StartedIsGood(s, c.callId, FileTool);
    }
  }

  lemma AsyncCallIsGood(s: Session, c: ToolCall)
    requires Sound(s)
    ensures Good(s, AsyncCall(s, c))
  {
    if c.name == "ask_brain" {
      AskBrainCallIsGood(s, c, false);
    } else if !s.configured {
    } else if c.name == "web_search" {
      if !c.keyPresent || !c.arguments.Usable? {
        RefusedIsGood(s, c.callId, WebSearch(false), s.inFlight);
      } else {
        StartedIsGood(s, c.callId, WebSearch(false));
      }
    } else if c.name == "bash" {
      match c.arguments
      case JsonNull => CrashedIsGood(s, c.callId, Bash);
      case Usable => StartedIsGood(s, c.callId, Bash);
      case _ => RefusedIsGood(s, c.callId, Bash, s.inFlight);
    }
  }

  lemma StandaloneCallIsGood(s: Session, callId: string, known: bool)
    requires Sound(s)
    ensures Good(s, StandaloneCall(s, callId, known))
  {
    if callId == "" || !known {
      AppendIsGood(s, Immediate(s, callId, Standalone, [Reply(false)]).jobs[|s.jobs|], s.inFlight);
    } else {
      StartedIsGood(s, callId, Standalone);
    }
  }

  lemma DispatchIsGood(s: Session, c: ToolCall)
    requires Sound(s)
    ensures Good(s, Dispatch(s, c))
  {
    if c.name == "echo_tool" && (c.arguments.Unparseable? || c.arguments.JsonNull?) {
      CrashedIsGood(s, c.callId, Sync);
    } else if c.name !in FILE_TOOLS + {"web_search", "ask_brain", "bash"} {
      OverAtOnceIsGood(s, c.callId, Sync, [Completed], s.inFlight);
    } else if c.blockingClass && (s.adapter.None? || c.adapterSupportsBlocking) {
      BlockingCallIsGood(s, c);
    } else {
      AsyncCallIsGood(s, c);
    }
  }

  function SettledJob(s: Session, job: Job, ending: Ending): Job {
    job.(settled := true, settleAdapter := s.adapter,
         crashed := job.executor.FileTool? && ending.Threw?,
         effects := job.effects + SettleEffects(s, job, ending))
  }

  lemma SettledJobIsSound(s: Session, job: Job, ending: Ending)
    requires JobSound(job) && !job.settled
    ensures JobSound(SettledJob(s, job, ending))
  {
    var more := SettleEffects(s, job, ending);
    CountsAdd(job.effects, more);
    if !job.executor.Standalone? && !(job.executor.FileTool? && ending.Threw?) {
      var tail := more[1..];
      assert more == [Verdict(job, ending)] + tail;
      CountsAdd([Verdict(job, ending)], tail);
      assert Verdicts(tail) == 0;
      assert Failed(true) in more <==> Verdict(job, ending) == Failed(true);
    }
    if job.aborted {
      var all := job.effects + more;
      assert forall i | 0 <= i < |more| :: !more[i].Completed? && !more[i].Inject? && more[i] != Reply(true);
      assert forall i | 0 <= i < |all| :: all[i] == if i < |job.effects| then job.effects[i] else more[i - |job.effects|];
    }
  }

  lemma SettleIsGood(s: Session, t: Token, ending: Ending)
    requires Sound(s)
    ensures Good(s, Settle(s, t, ending))
  {
    if Running(s, t) {
      var job := s.jobs[t];
      var next := Settle(s, t, ending);
      assert next.jobs == s.jobs[t := SettledJob(s, job, ending)];
      SettledJobIsSound(s, job, ending);
      forall id | id in next.inFlight
        ensures Running(next, next.inFlight[id]) && next.jobs[next.inFlight[id]].callId == id
        ensures HasController(next.jobs[next.inFlight[id]].executor)
      {
        assert next.inFlight[id] != t;
      }
    }
  }

  /** Aborting calls that have a controller and have not settled. */
  lemma AbortingIsGood(s: Session, tokens: set<Token>, inFlight: map<string, Token>)
    requires Sound(s)
    requires tokens <= s.inFlight.Values
    requires forall id | id in inFlight :: id in s.inFlight && inFlight[id] == s.inFlight[id]
    ensures Good(s, s.(jobs := AbortTokens(s.jobs, tokens), inFlight := inFlight))
  {
    var next := s.(jobs := AbortTokens(s.jobs, tokens), inFlight := inFlight);
    forall t: Token | t < |s.jobs|
      ensures JobSound(next.jobs[t]) && Grows(s.jobs[t], next.jobs[t])
    {
      assert JobSound(s.jobs[t]);
      if t in tokens {
        var id :| id in s.inFlight && s.inFlight[id] == t;
      }
    }
    forall id | id in inFlight
      ensures Running(next, inFlight[id]) && next.jobs[inFlight[id]].callId == id
      ensures HasController(next.jobs[inFlight[id]].executor)
    {
      assert Running(s, s.inFlight[id]);
    }
  }

  lemma StepIsGood(s: Session, step: Step)
    requires Sound(s)
    ensures Good(s, Apply(s, step))
  {
    match step
    case Call(c) => DispatchIsGood(s, c);
    case Exec(callId, known) => StandaloneCallIsGood(s, callId, known);
    case Ends(t, ending) => SettleIsGood(s, t, ending);
    case UpstreamCancel(callIds) =>
      AbortingIsGood(s, set id | id in callIds && id in s.inFlight :: s.inFlight[id], s.inFlight);
    case SessionReplaced =>
      AbortingIsGood(s, s.inFlight.Values, map[]);
    case AdapterAttached(_) =>
    case Disconnecting =>
      AbortingIsGood(s, s.inFlight.Values, map[]);
    case Disconnected =>
  }

  lemma GoodChains(a: Session, b: Session, c: Session)
    requires Good(a, b) && Good(b, c)
    ensures Good(a, c)
  {
    forall k: Token | k < |a.jobs|
      ensures Grows(a.jobs[k], c.jobs[k])
    {
      assert Grows(a.jobs[k], b.jobs[k]) && Grows(b.jobs[k], c.jobs[k]);
    }
  }

  /** Whatever the interleaving, no call takes back or repeats what it did. */
  lemma {:induction false} RunIsGood(s: Session, steps: seq<Step>)
    requires Sound(s)
    ensures Good(s, Run(s, steps))
  {
    if steps != [] {
      var before := Run(s, steps[..|steps| - 1]);
      RunIsGood(s, steps[..|steps| - 1]);
      StepIsGood(before, steps[|steps| - 1]);
      GoodChains(s, before, Run(s, steps));
    }
  }

  lemma {:induction false} RunContinues(s: Session, first: seq<Step>, rest: seq<Step>)
    ensures Run(s, first + rest) == Run(Run(s, first), rest)
  {
    if rest == [] {
      assert first + rest == first;
    } else {
      var init := rest[..|rest| - 1];
      RunContinues(s, first, init);
      assert (first + rest)[..|first + rest| - 1] == first + init;
    }
  }
}
