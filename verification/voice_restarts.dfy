/** When the recogniser listens again, and what the pipeline counts as pending speech. */
module VoiceRestarts {
  import opened Options
  import opened Texts
  import opened VoicePipeline
  import opened VoiceTheorems

  // ---- pending speech, counted by the run

  /** Utterances handed to the synthesiser in this turn. */
  function Utterances(said: seq<Piece>): nat {
    if said == [] then 0 else Utterances(said[..|said| - 1]) + if said[|said| - 1].Spoken? then 1 else 0
  }

  /** The step opens a turn, ends the session or starts it. */
  predicate Resets(s: System, step: Step) {
    step.Started? || step.Stopped? || (s.pipe.active && (step.Transcript? || step.BargedIn? || step.Interrupted?))
  }

  /** The synthesiser reports the end of an utterance, or an error in its place. */
  predicate EndsUtterance(s: System, step: Step) {
    s.pipe.active && (step.SpeechComplete? || step.NativeError?)
  }

  /** Utterances of the current turn spoken by the step. */
  function SpokenBy(s: System, step: Step): int {
    Utterances(Apply(s, step).pipe.said) - Utterances(s.pipe.said)
  }

  /** Utterances spoken since the last reset minus those ended since, an end with none pending not counted. */
  function Outstanding(steps: seq<Step>): int {
    if steps == [] then 0
    else
      var s, step, before := Run(INITIAL, steps[..|steps| - 1]), steps[|steps| - 1], Outstanding(steps[..|steps| - 1]);
      if Resets(s, step) then 0
      else if EndsUtterance(s, step) then if before > 0 then before - 1 else 0
      else before + SpokenBy(s, step)
  }

  lemma UtterancesGrow(said: seq<Piece>, piece: Piece)
    ensures Utterances(said + [piece]) == Utterances(said) + if piece.Spoken? then 1 else 0
  {
    assert (said + [piece])[..|said|] == said;
  }

  lemma SpeakingIsPending(p: Pipe, sentence: string)
    ensures Speak(p, sentence).pending - p.pending == Utterances(Speak(p, sentence).said) - Utterances(p.said)
  {
    UtterancesGrow(p.said, Spoken(sentence));
  }

  lemma WipingIsNotSpeaking(p: Pipe)
    ensures Wipe(p).pending == p.pending && Utterances(Wipe(p).said) == Utterances(p.said)
  {
    UtterancesGrow(p.said, Wiped(p.buffer));
  }

  lemma RestartingIsNotSpeaking(p: Pipe)
    ensures RestartIfReady(p).pending == p.pending && Utterances(RestartIfReady(p).said) == Utterances(p.said)
  {
    WipingIsNotSpeaking(p);
  }

  ghost predicate CountsAlike(p: Pipe, q: Pipe) {
    q.pending - p.pending == Utterances(q.said) - Utterances(p.said)
  }

  lemma TokenCounts(p: Pipe, t: TurnId, text: string)
    ensures CountsAlike(p, OnToken(p, t, text))
  {
    if t == p.turn && p.active && t in p.heard {
      var known := |p.heard[t]|;
      var q := p.(heard := p.heard[t := text], buffer := p.buffer + if known <= |text| then text[known..] else "");
      var k := LastEnding(q.buffer);
      SpeakingIsPending(q.(buffer := q.buffer[k + 1..]), Trim(q.buffer[..k + 1]));
    }
  }

  lemma DoneCounts(p: Pipe, t: TurnId)
    ensures CountsAlike(p, OnDone(p, t)) && CountsAlike(p, OnError(p, t))
  {
    SpeakingIsPending(p.(complete := true, buffer := ""), Trim(p.buffer));
    RestartingIsNotSpeaking(Flush(p.(complete := true)));
    RestartingIsNotSpeaking(p.(complete := true));
  }

  predicate OfCompletion(step: Step) {
    step.DoneMessage? || step.StreamError? || step.FallbackAnswer? || step.FallbackError?
  }

  lemma CompletionCounts(s: System, step: Step)
    requires OfCompletion(step)
    ensures CountsAlike(s.pipe, Apply(s, step).pipe)
  {
    DoneCounts(s.pipe, step.turn);
  }

  lemma EndingCounts(p: Pipe)
    ensures SpeechEnded(p).pending == if p.active && p.pending > 0 then p.pending - 1 else p.pending
  {
    RestartingIsNotSpeaking(EndOne(p));
  }

  lemma StepCounts(s: System, step: Step)
    ensures var q := Apply(s, step).pipe;
            if Resets(s, step) then q.pending == 0
            else if EndsUtterance(s, step) then q.pending == if s.pipe.pending > 0 then s.pipe.pending - 1 else 0
            else CountsAlike(s.pipe, q)
  {
    if OfCompletion(step) {
      CompletionCounts(s, step);
    } else if step.Message? {
      if Open(s, step.turn) { TokenCounts(s.pipe, step.turn, s.streams[step.turn].text + step.delta); }
    } else if EndsUtterance(s, step) {
      EndingCounts(s.pipe);
    }
  }

  function EndOne(p: Pipe): Pipe {
    p.(pending := if p.pending > 0 then p.pending - 1 else 0)
  }

  /** Over every run pending counts the utterances spoken since the turn opened or was reset, less
      those ended since, and never drops below zero. */
  lemma {:induction false} PendingIsOutstanding(steps: seq<Step>)
    ensures Run(INITIAL, steps).pipe.pending == Outstanding(steps)
  {
    if steps != [] {
      PendingIsOutstanding(steps[..|steps| - 1]);
      StepCounts(Run(INITIAL, steps[..|steps| - 1]), steps[|steps| - 1]);
    }
  }

  // ---- the recogniser listens again

  ghost predicate Waits(s: System) {
    s.pipe.active && s.pipe.complete ==> s.pipe.pending > 0
  }

  lemma TokenKeepsWaiting(p: Pipe, t: TurnId, text: string)
    requires p.active && p.complete ==> p.pending > 0
    ensures var q := OnToken(p, t, text); q.active && q.complete ==> q.pending > 0
  {
    TokenShape(p, t, text);
    if t == p.turn && p.active && t in p.heard { assert OnToken(p, t, text).pending >= p.pending; }
  }

  lemma StepKeepsWaiting(s: System, step: Step)
    requires Waits(s)
    ensures Waits(Apply(s, step))
  {
    if step.Message? && Open(s, step.turn) {
      TokenKeepsWaiting(s.pipe, step.turn, s.streams[step.turn].text + step.delta);
    }
  }

  /** In every reachable state an active pipeline whose turn is complete has speech pending: the
      recogniser is never left waiting for nothing. */
  lemma {:induction false} CompleteTurnsWait(steps: seq<Step>)
    ensures Waits(Run(INITIAL, steps))
  {
    if steps != [] {
      CompleteTurnsWait(steps[..|steps| - 1]);
      StepKeepsWaiting(Run(INITIAL, steps[..|steps| - 1]), steps[|steps| - 1]);
    }
  }

  /** The end of the current turn's completion, as the pipeline is told of it. */
  predicate Answers(s: System, step: Step) {
    var t := s.pipe.turn;
    && s.pipe.active && t in s.streams
    && ((step == DoneMessage(t) && !s.streams[t].closed && !s.streams[t].didFinish && !Blank(s.streams[t].text))
        || (step == FallbackAnswer(t) && s.streams[t].outcome.AwaitingFallback?))
  }

  predicate Fails(s: System, step: Step) {
    var t := s.pipe.turn;
    && s.pipe.active && t in s.streams
    && ((step == StreamError(t) && !s.streams[t].closed && !s.streams[t].didFinish)
        || (step == FallbackError(t) && s.streams[t].outcome.AwaitingFallback?))
  }

  /** The last pending utterance of a complete turn ends; or the completion ends, in failure or with
      nothing but white space left to speak, when nothing is pending. */
  predicate MakesReady(s: System, step: Step) {
    || (EndsUtterance(s, step) && s.pipe.complete && s.pipe.pending == 1)
    || (Answers(s, step) && s.pipe.pending == 0 && Blank(s.pipe.buffer))
    || (Fails(s, step) && s.pipe.pending == 0)
  }

  ghost predicate Restarted(p: Pipe, q: Pipe) {
    q.restarts == p.restarts + 1 && q.turn == p.turn && q.active && !q.complete && q.pending == 0 && q.buffer == ""
  }

  ghost predicate NotRestarted(p: Pipe, q: Pipe) {
    q.restarts == if q.turn == p.turn then p.restarts else 0
  }

  lemma DoneRestarts(p: Pipe, t: TurnId)
    ensures if t == p.turn && p.active && p.pending == 0 && Blank(p.buffer) then Restarted(p, OnDone(p, t))
            else NotRestarted(p, OnDone(p, t))
    ensures if t == p.turn && p.active && p.pending == 0 then Restarted(p, OnError(p, t)) else NotRestarted(p, OnError(p, t))
  {
  }

  lemma EndRestarts(p: Pipe)
    requires p.active && p.complete ==> p.pending > 0
    ensures if p.active && p.complete && p.pending == 1 then Restarted(p, SpeechEnded(p)) else NotRestarted(p, SpeechEnded(p))
  {
  }

  lemma CompletionRestarts(s: System, step: Step)
    requires OfCompletion(step)
    ensures if MakesReady(s, step) then Restarted(s.pipe, Apply(s, step).pipe)
            else NotRestarted(s.pipe, Apply(s, step).pipe)
  {
    DoneRestarts(s.pipe, step.turn);
  }

  lemma MessageRestartsNothing(s: System, t: TurnId, delta: string)
    ensures NotRestarted(s.pipe, Apply(s, Message(t, delta)).pipe)
  {
    if Open(s, t) { TokenShape(s.pipe, t, s.streams[t].text + delta); }
  }

  lemma OthersRestartNothing(s: System, step: Step)
    requires !OfCompletion(step) && !step.Message? && !EndsUtterance(s, step)
    ensures NotRestarted(s.pipe, Apply(s, step).pipe)
  {
  }

  /** From a reachable state the recogniser is restarted by exactly such a step, exactly once, and the
      turn then waits for nothing. */
  lemma RestartsExactlyWhen(s: System, step: Step)
    requires Reachable(s)
    ensures if MakesReady(s, step) then Restarted(s.pipe, Apply(s, step).pipe)
            else NotRestarted(s.pipe, Apply(s, step).pipe)
  {
    var steps :| s == Run(INITIAL, steps);
    CompleteTurnsWait(steps);
    if OfCompletion(step) {
      CompletionRestarts(s, step);
    } else if step.Message? {
      MessageRestartsNothing(s, step.turn, step.delta);
    } else if EndsUtterance(s, step) {
      EndRestarts(s.pipe);
    } else {
      OthersRestartNothing(s, step);
    }
  }

  // ---- which completion a superseding step stops

  predicate Supersedes(s: System, step: Step) {
    Resets(s, step) && !step.Started?
  }

  predicate Begins(s: System, step: Step) {
    step.Begin? && step.turn in s.pipe.calls
  }

  /** The completion begun last since the last superseding step. */
  function LastBegun(steps: seq<Step>): Option<TurnId> {
    if steps == [] then None
    else
      var s, step := Run(INITIAL, steps[..|steps| - 1]), steps[|steps| - 1];
      if Supersedes(s, step) then None else if Begins(s, step) then Some(step.turn) else LastBegun(steps[..|steps| - 1])
  }

  lemma StepStopper(s: System, step: Step)
    ensures Apply(s, step).pipe.stopper
            == if Supersedes(s, step) then None else if Begins(s, step) then Some(step.turn) else s.pipe.stopper
    ensures s.streams.Keys <= Apply(s, step).streams.Keys
    ensures Begins(s, step) ==> step.turn in Apply(s, step).streams
  {
    if step.Message? && Open(s, step.turn) {
      TokenShape(s.pipe, step.turn, s.streams[step.turn].text + step.delta);
    }
  }

  lemma {:induction false} StopperIsLastBegun(steps: seq<Step>)
    ensures Run(INITIAL, steps).pipe.stopper == LastBegun(steps)
    ensures LastBegun(steps).Some? ==> LastBegun(steps).value in Run(INITIAL, steps).streams
  {
    if steps != [] {
      StopperIsLastBegun(steps[..|steps| - 1]);
      StepStopper(Run(INITIAL, steps[..|steps| - 1]), steps[|steps| - 1]);
    }
  }

  /** A superseding step closes the completion begun last, and no other. */
  lemma SupersedingStops(steps: seq<Step>, step: Step, t: TurnId)
    requires var s := Run(INITIAL, steps); Supersedes(s, step) && t in s.streams
    ensures var s := Run(INITIAL, steps);
            && t in Apply(s, step).streams
            && Apply(s, step).streams[t] == s.streams[t].(closed := s.streams[t].closed || LastBegun(steps) == Some(t))
  {
    StopperIsLastBegun(steps);
  }

  lemma StepLeavesClosed(s: System, step: Step, t: TurnId)
    requires Inv(s) && t in s.streams && s.streams[t].closed && s.streams[t].outcome.Running?
    ensures t in Apply(s, step).streams && Apply(s, step).streams[t] == s.streams[t]
  {
  }

  /** A completion closed before its end delivers nothing more, in any continuation. */
  lemma {:induction false} ClosedStreamsStaySilent(s: System, steps: seq<Step>, t: TurnId)
    requires Reachable(s) && t in s.streams && s.streams[t].closed && s.streams[t].outcome.Running?
    ensures Inv(Run(s, steps))
    ensures t in Run(s, steps).streams && Run(s, steps).streams[t] == s.streams[t]
  {
    if steps == [] {
      ReachableInv(s);
    } else {
      var init := steps[..|steps| - 1];
      ClosedStreamsStaySilent(s, init, t);
      StepLeavesClosed(Run(s, init), steps[|steps| - 1], t);
      StepKeeps(Run(s, init), steps[|steps| - 1]);
    }
  }
}
