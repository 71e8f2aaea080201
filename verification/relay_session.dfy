/** The session object itself: its methods and promise handlers update fields in place and are
    proved against the steps of ToolCalls. */
module RelaySessions {
  import opened Options
  import opened ToolCalls

  /** The calls after call t did some more. */
  function Acting(jobs: seq<Job>, t: Token, more: seq<Effect>): seq<Job>
    requires t < |jobs|
  {
    jobs[t := jobs[t].(effects := jobs[t].effects + more)]
  }

  lemma ActingTwice(jobs: seq<Job>, t: Token, first: seq<Effect>, more: seq<Effect>)
    requires t < |jobs|
    ensures Acting(Acting(jobs, t, first), t, more) == Acting(jobs, t, first + more)
    ensures first == [] ==> Acting(jobs, t, first) == jobs
  {
    assert (jobs[t].effects + first) + more == jobs[t].effects + (first + more);
    if first == [] {
      assert jobs[t].effects + first == jobs[t].effects;
    }
  }

  lemma ActingOnLast(jobs: seq<Job>, job: Job, more: seq<Effect>)
    requires job.effects == []
    ensures Acting(jobs + [job], |jobs|, more) == jobs + [job.(effects := more)]
  {
    assert [] + more == more;
  }

  /** Only calls with a controller are aborted, and only dispatched promises stay pending. */
  predicate Plausible(job: Job) {
    (job.aborted ==> HasController(job.executor))
    && (!job.settled ==> !job.executor.Sync? && !job.executor.KeylessSearch?)
  }

  class RelaySession {
    var adapter: Option<AdapterId>
    var configured: bool
    var inFlightTools: map<string, Token>
    /** Every call started so far with what it did; the token of a call is its index. */
    var jobs: seq<Job>

    function View(): Session
      reads this
    {
      Session(adapter, configured, inFlightTools, jobs)
    }

    ghost predicate Valid()
      reads this
    {
      && (forall id | id in inFlightTools ::
            inFlightTools[id] < |jobs| && HasController(jobs[inFlightTools[id]].executor))
      && (forall t: Token | t < |jobs| :: Plausible(jobs[t]))
    }

    constructor ()
      ensures Valid() && View() == FRESH
    {
      adapter, configured, inFlightTools, jobs := None, false, map[], [];
    }

    method Begin(callId: string, executor: Executor) returns (t: Token)
      modifies this`jobs
      ensures t == |old(jobs)|
      ensures jobs == old(jobs) + [Job(callId, executor, false, false, false, adapter, None, [])]
    {
      t := |jobs|;
      jobs := jobs + [Job(callId, executor, false, false, false, adapter, None, [])];
    }

    method Do(t: Token, effect: Effect)
      requires t < |jobs|
      modifies this`jobs
      ensures jobs == Acting(old(jobs), t, [effect])
    {
      jobs := jobs[t := jobs[t].(effects := jobs[t].effects + [effect])];
    }

    /** A result or a context goes nowhere when no adapter is attached. */
    method SendToolResult(t: Token)
      requires t < |jobs|
      modifies this`jobs
      ensures jobs == Acting(old(jobs), t, Answer(old(View())))
    {
      ActingTwice(jobs, t, [], []);
      if adapter.Some? {
        Do(t, ToolResult(adapter.value));
      }
    }

    method InjectContext(t: Token)
      requires t < |jobs|
      modifies this`jobs
      ensures jobs == Acting(old(jobs), t, Injection(old(View())))
    {
      ActingTwice(jobs, t, [], []);
      if adapter.Some? {
        Do(t, Inject(adapter.value));
      }
    }

    method End(t: Token, crashed: bool)
      requires t < |jobs|
      modifies this`jobs
      ensures jobs == old(jobs)[t := old(jobs[t]).(settled := true, settleAdapter := adapter, crashed := crashed)]
    {
      jobs := jobs[t := jobs[t].(settled := true, settleAdapter := adapter, crashed := crashed)];
    }

    /** Bad arguments: the failure is reported, the model answered, and nothing starts. */
    method Refuse(callId: string, executor: Executor)
      modifies this`jobs
      ensures View() == Refused(old(View()), callId, executor)
      ensures old(Valid()) ==> Valid()
    {
      var t := Begin(callId, executor);
      ActingTwice(jobs, t, [Failed(false)], Answer(View()));
      ActingOnLast(old(jobs), jobs[t], [Failed(false)] + Answer(View()));
      Do(t, Failed(false));
      SendToolResult(t);
      End(t, false);
    }

    method Crash(callId: string, executor: Executor)
      requires Valid()
      modifies this`jobs
      ensures Valid() && View() == Crashed(old(View()), callId, executor)
    {
      var t := Begin(callId, executor);
      End(t, true);
    }

    method Start(callId: string, executor: Executor)
      requires Valid() && !executor.Sync? && !executor.KeylessSearch?
      modifies this`jobs, this`inFlightTools
      ensures Valid() && View() == Started(old(View()), callId, executor)
    {
      var t := Begin(callId, executor);
      ActingOnLast(old(jobs), jobs[t], Answer(View()));
      if HasController(executor) {
        inFlightTools := inFlightTools[callId := t];
      }
      if AnswersFirst(executor) {
        SendToolResult(t);
      }
    }

    method RunAskBrain(c: ToolCall, blocking: bool)
      requires Valid()
      modifies this`jobs, this`inFlightTools
      ensures Valid() && View() == AskBrainCall(old(View()), c, blocking)
    {
      if !configured { return; }
      if c.arguments.Usable? {
        Start(c.callId, AskBrain(blocking));
        return;
      }
      // the controller is registered before the arguments are read
      inFlightTools := inFlightTools[c.callId := |jobs|];
      Refuse(c.callId, AskBrain(blocking));
      inFlightTools := inFlightTools - {c.callId};
      assert inFlightTools == old(inFlightTools) - {c.callId};
    }

    method RunWebSearch(c: ToolCall)
      requires Valid()
      requires c.name == "web_search"
      modifies this`jobs, this`inFlightTools
      ensures Valid() && View() == BlockingCall(old(View()), c)
    {
      if !configured { return; }
      if !c.keyPresent {
        var t := Begin(c.callId, KeylessSearch);
        ActingOnLast(old(jobs), jobs[t], Answer(View()));
        SendToolResult(t);
        End(t, false);
      } else if !c.arguments.Usable? {
        Refuse(c.callId, WebSearch(true));
      } else {
        Start(c.callId, WebSearch(true));
      }
    }

    method RunFileTool(c: ToolCall)
      requires Valid()
      requires c.name in FILE_TOOLS
      modifies this`jobs, this`inFlightTools
      ensures Valid() && View() == BlockingCall(old(View()), c)
    {
      match c.arguments
      case Unparseable => Refuse(c.callId, FileTool);
      case JsonNull => Crash(c.callId, FileTool);
      case _ => Start(c.callId, FileTool);
    }

    method HandleBlockingTool(c: ToolCall)
      requires Valid()
      modifies this`jobs, this`inFlightTools
      ensures Valid() && View() == BlockingCall(old(View()), c)
    {
      if c.name == "web_search" {
        RunWebSearch(c);
      } else if c.name == "ask_brain" {
        RunAskBrain(c, true);
      } else if c.name in FILE_TOOLS {
        RunFileTool(c);
      }
    }

    method HandleAsyncTool(c: ToolCall)
      requires Valid()
      modifies this`jobs, this`inFlightTools
      ensures Valid() && View() == AsyncCall(old(View()), c)
    {
      if c.name == "ask_brain" {
        RunAskBrain(c, false);
      } else if c.name == "web_search" {
        if !configured { return; }
        if !c.keyPresent || !c.arguments.Usable? {
          Refuse(c.callId, WebSearch(false));
        } else {
          Start(c.callId, WebSearch(false));
        }
      } else if c.name == "bash" {
        if !configured { return; }
        match c.arguments
        case JsonNull => Crash(c.callId, Bash);
        case Usable => Start(c.callId, Bash);
        case _ => Refuse(c.callId, Bash);
      }
    }

    method HandleSyncTool(callId: string)
      requires Valid()
      modifies this`jobs
      ensures Valid() && View() == Immediate(old(View()), callId, Sync, [Completed] + Answer(old(View())))
    {
      var t := Begin(callId, Sync);
      ActingTwice(jobs, t, [Completed], Answer(View()));
      ActingOnLast(old(jobs), jobs[t], [Completed] + Answer(View()));
      Do(t, Completed);
      SendToolResult(t);
      End(t, false);
    }

    method HandleServerToolCall(c: ToolCall)
      requires Valid()
      modifies this`jobs, this`inFlightTools
      ensures Valid() && View() == Dispatch(old(View()), c)
    {
      if c.name == "echo_tool" && (c.arguments.Unparseable? || c.arguments.JsonNull?) {
        Crash(c.callId, Sync);
        return;
      }
      if c.name !in FILE_TOOLS + {"web_search", "ask_brain", "bash"} {
        HandleSyncTool(c.callId);
        return;
      }
      var adapterSupportsBlocking := if adapter.Some? then c.adapterSupportsBlocking else true;
      if c.blockingClass && adapterSupportsBlocking {
        HandleBlockingTool(c);
        return;
      }
      HandleAsyncTool(c);
    }

    method HandleStandaloneToolExec(callId: string, known: bool)
      requires Valid()
      modifies this`jobs, this`inFlightTools
      ensures Valid() && View() == StandaloneCall(old(View()), callId, known)
    {
      if callId == "" || !known {
        var t := Begin(callId, Standalone);
        ActingOnLast(old(jobs), jobs[t], [Reply(false)]);
        Do(t, Reply(false));
        End(t, false);
        return;
      }
      Start(callId, Standalone);
    }

    // ---- promise handlers

    /** Blocking web_search and ask_brain: the outcome, or the cancellation, is the answer. */
    method BlockingSettled(t: Token, ending: Ending)
      requires t < |jobs| && (jobs[t].executor == WebSearch(true) || jobs[t].executor == AskBrain(true))
      modifies this`jobs
      ensures jobs == Acting(old(jobs), t, SettleEffects(old(View()), old(jobs[t]), ending))
    {
      ActingTwice(jobs, t, [Verdict(jobs[t], ending)], Answer(View()));
      match ending {
        case Resolved(isError) =>
          if jobs[t].aborted {
            Do(t, Failed(true));
          } else if isError && jobs[t].executor.AskBrain? {
            Do(t, Failed(false));
          } else {
            Do(t, Completed);
          }
        case Threw =>
          if jobs[t].aborted {
            Do(t, Failed(true));
          } else {
            Do(t, Failed(false));
          }
      }
      SendToolResult(t);
    }

    /** Async ask_brain, bash and async web_search: the outcome is injected unless aborted. */
    method AsyncSettled(t: Token, ending: Ending)
      requires t < |jobs| && AnswersFirst(jobs[t].executor)
      modifies this`jobs
      ensures jobs == Acting(old(jobs), t, SettleEffects(old(View()), old(jobs[t]), ending))
    {
      ActingTwice(jobs, t, [Verdict(jobs[t], ending)], Injection(View()));
      if jobs[t].aborted {
        Do(t, Failed(true));
        assert [Failed(true)] + [] == [Failed(true)];
        return;
      }
      if ending.Threw? || (ending.isError && !jobs[t].executor.WebSearch?) {
        Do(t, Failed(false));
      } else {
        Do(t, Completed);
      }
      InjectContext(t);
    }

    method FileToolDone(t: Token, isError: bool)
      requires t < |jobs| && jobs[t].executor.FileTool? && !jobs[t].aborted
      modifies this`jobs
      ensures jobs == Acting(old(jobs), t, SettleEffects(old(View()), old(jobs[t]), Resolved(isError)))
    {
      ActingTwice(jobs, t, [Verdict(jobs[t], Resolved(isError))], Answer(View()));
      if isError {
        Do(t, Failed(false));
        SendToolResult(t);
        return;
      }
      Do(t, Completed);
      SendToolResult(t);
    }

    method StandaloneSettled(t: Token, ending: Ending)
      requires t < |jobs| && jobs[t].executor.Standalone?
      modifies this`jobs
      ensures jobs == Acting(old(jobs), t, SettleEffects(old(View()), old(jobs[t]), ending))
    {
      match ending
      case Threw => Do(t, Reply(false));
      case Resolved(isError) =>
        if jobs[t].aborted {
          Do(t, Reply(false));
        } else {
          Do(t, Reply(!isError));
        }
    }

    method Deliver(t: Token, ending: Ending)
      requires Valid() && Running(View(), t)
      modifies this`jobs
      ensures jobs == Acting(old(jobs), t, SettleEffects(old(View()), old(jobs[t]), ending))
    {
      ActingTwice(jobs, t, [], []);
      if jobs[t].executor.Standalone? {
        StandaloneSettled(t, ending);
      } else if jobs[t].executor.FileTool? {
        if ending.Resolved? {
          FileToolDone(t, ending.isError);
        }
      } else if AnswersFirst(jobs[t].executor) {
        AsyncSettled(t, ending);
      } else {
        BlockingSettled(t, ending);
      }
    }

    /** The promise of a running call settles: its handler, then finally. */
    method Settled(t: Token, ending: Ending)
      requires Valid() && Running(View(), t)
      modifies this`jobs, this`inFlightTools
      ensures Valid() && View() == Settle(old(View()), t, ending)
    {
      Deliver(t, ending);
      End(t, jobs[t].executor.FileTool? && ending.Threw?);
      if HasController(jobs[t].executor) {
        inFlightTools := inFlightTools - {jobs[t].callId};
      }
    }

    // ---- aborting

    method Abort(t: Token)
      requires t < |jobs|
      modifies this`jobs
      ensures jobs == old(jobs)[t := old(jobs[t]).(aborted := true)]
    {
      jobs := jobs[t := jobs[t].(aborted := true)];
    }

    method HandleToolCancelled(callIds: seq<string>)
      requires Valid()
      modifies this`jobs
      ensures Valid() && View() == Cancelled(old(View()), callIds)
    {
      ghost var was := jobs;
      assert AbortTokens(was, {}) == was;
      for n := 0 to |callIds|
        invariant jobs == AbortTokens(was, set id | id in callIds[..n] && id in inFlightTools :: inFlightTools[id])
      {
        ghost var done := set id | id in callIds[..n] && id in inFlightTools :: inFlightTools[id];
        ghost var next := set id | id in callIds[..n + 1] && id in inFlightTools :: inFlightTools[id];
        assert callIds[..n + 1] == callIds[..n] + [callIds[n]];
        if callIds[n] in inFlightTools {
          Abort(inFlightTools[callIds[n]]);
          assert next == done + {inFlightTools[callIds[n]]};
          AbortOneMore(was, done, inFlightTools[callIds[n]]);
        } else {
          assert next == done;
        }
      }
      assert callIds[..|callIds|] == callIds;
    }

    method AbortAllInFlightTools()
      requires Valid()
      modifies this`jobs, this`inFlightTools
      ensures Valid() && View() == AbortAll(old(View()))
    {
      ghost var was, done: set<Token> := jobs, {};
      assert AbortTokens(was, {}) == was;
      var rest := inFlightTools.Values;
      while rest != {}
        invariant inFlightTools == old(inFlightTools) && done + rest == inFlightTools.Values
        invariant |jobs| == |was| && jobs == AbortTokens(was, done)
        decreases rest
      {
        var t :| t in rest;
        Abort(t);
        AbortOneMore(was, done, t);
        rest, done := rest - {t}, done + {t};
      }
      assert done == inFlightTools.Values;
      inFlightTools := map[];
    }

    /** A new session.config drops the adapter of the session it replaces. */
    method ReplaceSession()
      requires Valid()
      modifies this
      ensures Valid() && View() == Replace(old(View()))
    {
      if adapter.Some? {
        AbortAllInFlightTools();
        adapter := None;
      }
    }
  }

  lemma AbortOneMore(jobs: seq<Job>, tokens: set<Token>, t: Token)
    requires t < |jobs|
    ensures AbortTokens(jobs, tokens)[t := AbortTokens(jobs, tokens)[t].(aborted := true)] == AbortTokens(jobs, tokens + {t})
  {
  }
}
