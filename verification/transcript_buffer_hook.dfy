/** The hook's two maps and its timers, updated in place; proved against TranscriptBuffer. */
module TranscriptBufferHook {
  import opened Texts
  import opened TranscriptBuffer

  function Entries(results: seq<(Role, string)>): seq<Entry> {
    seq(|results|, i requires 0 <= i < |results| => Returned(results[i].0, results[i].1))
  }

  /** What the first n of the roles give back. */
  function ReturnedUpTo(s: State, roles: seq<Role>, n: nat): seq<Entry>
    requires n <= |roles|
  {
    if n == 0 then [] else ReturnedUpTo(s, roles, n - 1) + ReturnedEntry(roles[n - 1], Buffer(s, roles[n - 1]))
  }

  lemma EntriesAppended(results: seq<(Role, string)>, role: Role, text: string)
    ensures Entries(results + [(role, text)]) == Entries(results) + [Returned(role, text)]
  {
  }

  lemma BothReturned(s: State, first: Role)
    ensures s.log + ReturnedUpTo(s, [first, Other(first)], 2) == FlushAll(s, first).log
  {
    var roles := [first, Other(first)];
    assert ReturnedUpTo(s, roles, 1) == ReturnedEntry(first, Buffer(s, first));
  }

  class TranscriptBuffers {
    var buffers: map<Role, string>
    var pendingFlush: map<Role, TimerId>
    var liveTimers: map<TimerId, Role>
    var nextTimer: TimerId
    var log: seq<Entry>

    function View(): State
      reads this
    {
      State(buffers, pendingFlush, liveTimers, nextTimer, log)
    }

    constructor ()
      ensures View() == INITIAL
    {
      buffers, pendingFlush, liveTimers, nextTimer, log := map[], map[], map[], 0, [];
    }

    method SetTimeout(role: Role) returns (id: TimerId)
      modifies this`liveTimers, this`nextTimer
      ensures id == old(nextTimer) && nextTimer == id + 1
      ensures liveTimers == old(liveTimers)[id := role]
    {
      id := nextTimer;
      nextTimer := nextTimer + 1;
      liveTimers := liveTimers[id := role];
    }

    method ClearTimeout(id: TimerId)
      modifies this`liveTimers
      ensures liveTimers == old(liveTimers) - {id}
    {
      liveTimers := liveTimers - {id};
    }

    /** Ends the role's wait and hands its text to onFlush. */
    method Flush(role: Role)
      modifies this
      ensures View() == FlushRole(old(View()), role)
    {
      if role in pendingFlush {
        ClearTimeout(pendingFlush[role]);
        pendingFlush := pendingFlush - {role};
      }
      var text := if role in buffers then buffers[role] else "";
      buffers := buffers - {role};
      if Trim(text) != "" {
        log := log + [Flushed(role, Trim(text))];
      }
      assert old(pendingFlush) - {role} == pendingFlush;
    }

    method OnSpeechStart(role: Role)
      modifies this
      ensures View() == SpeechStart(old(View()), role)
    {
      if role in pendingFlush {
        Flush(role);
      }
      if role in buffers && buffers[role] != "" {
        log := log + [Lost(role, buffers[role])];
      }
      buffers := buffers[role := ""];
    }

    method OnTranscriptFinal(role: Role, text: string)
      modifies this
      ensures View() == TranscriptFinal(old(View()), role, text)
    {
      log := log + [Arrived(role, text)];
      if role !in buffers {
        buffers := buffers[role := text];
      } else {
        var existing := buffers[role];
        var separator := if |existing| > 0 then " " else "";
        buffers := buffers[role := existing + separator + text];
        assert existing == "" ==> existing + separator + text == text;
      }
      if role in pendingFlush {
        ClearTimeout(pendingFlush[role]);
        var timer := SetTimeout(role);
        pendingFlush := pendingFlush[role := timer];
      }
    }

    method OnSpeechEnd(role: Role)
      modifies this
      ensures View() == SpeechEnd(old(View()), role)
    {
      if role in pendingFlush {
        ClearTimeout(pendingFlush[role]);
      }
      var timer := SetTimeout(role);
      pendingFlush := pendingFlush[role := timer];
    }

    method ClearAll()
      modifies this`liveTimers, this`pendingFlush
      ensures View() == ClearAllTimers(old(View()))
    {
      var timers := pendingFlush.Values;
      ghost var cleared: set<TimerId> := {};
      while timers != {}
        invariant pendingFlush == old(pendingFlush)
        invariant cleared + timers == pendingFlush.Values
        invariant liveTimers == old(liveTimers) - cleared
        decreases |timers|
      {
        var timer :| timer in timers;
        ClearTimeout(timer);
        assert old(liveTimers) - cleared - {timer} == old(liveTimers) - (cleared + {timer});
        cleared := cleared + {timer};
        timers := timers - {timer};
      }
      assert cleared == pendingFlush.Values;
      pendingFlush := map[];
    }

    /** Returns the text of every role that has any, in the order the buffers were entered;
        nothing is left waiting. */
    method FlushEverything(first: Role) returns (results: seq<(Role, string)>)
      modifies this
      ensures View() == FlushAll(old(View()), first)
      ensures log == old(log) + Entries(results)
    {
      ClearAll();
      results := [];
      ghost var was := View();
      var roles := [first, Other(first)];
      for i := 0 to |roles|
        invariant View() == was.(log := was.log + Entries(results))
        invariant Entries(results) == ReturnedUpTo(was, roles, i)
      {
        var role := roles[i];
        if role in buffers && Trim(buffers[role]) != "" {
          EntriesAppended(results, role, Trim(buffers[role]));
          results := results + [(role, Trim(buffers[role]))];
          log := log + [Returned(role, Trim(buffers[role]))];
        }
      }
      BothReturned(was, first);
      buffers := map[];
    }

    /** The environment fires a live timer. */
    method OnTimer(id: TimerId)
      requires id in liveTimers
      modifies this
      ensures View() == TimerFires(old(View()), id)
    {
      var role := liveTimers[id];
      liveTimers := liveTimers - {id};
      Flush(role);
    }
  }
}
