/** Which runs of the voice pipeline leave streamed text unspoken. */
module VoiceLosses {
  import opened Options
  import opened Texts
  import opened VoicePipeline
  import opened VoiceTheorems

  /** start() while turn t is current and its buffer holds text. */
  predicate CutsShort(s: System, step: Step, t: TurnId) {
    step.Started? && s.pipe.turn == t && !Blank(s.pipe.buffer)
  }

  /** Step n of the run does. */
  ghost predicate CutsShortAt(steps: seq<Step>, n: nat, t: TurnId)
    requires n < |steps|
  {
    CutsShort(Run(INITIAL, steps[..n]), steps[n], t)
  }

  ghost predicate NeverCutShort(steps: seq<Step>, t: TurnId) {
    forall n: nat | n < |steps| :: !CutsShortAt(steps, n, t)
  }

  lemma CutShortInPrefix(steps: seq<Step>, m: nat, n: nat, t: TurnId)
    requires n < m <= |steps|
    ensures CutsShortAt(steps[..m], n, t) <==> CutsShortAt(steps, n, t)
  {
    assert steps[..m][..n] == steps[..n];
  }

  lemma CutShortSplits(steps: seq<Step>, t: TurnId)
    requires steps != []
    ensures NeverCutShort(steps, t) <==> NeverCutShort(steps[..|steps| - 1], t) && !CutsShortAt(steps, |steps| - 1, t)
  {
    var last := |steps| - 1;
    forall n: nat | n < last
      ensures CutsShortAt(steps[..last], n, t) <==> CutsShortAt(steps, n, t)
    {
      CutShortInPrefix(steps, last, n, t);
    }
  }

  /** No step before a turn was opened had that turn current. */
  lemma {:induction false} EarlierTurns(steps: seq<Step>, t: TurnId)
    requires Run(INITIAL, steps).pipe.turn < t
    ensures NeverCutShort(steps, t)
  {
    if steps != [] {
      var init := steps[..|steps| - 1];
      TurnNeverDecreases(Run(INITIAL, init), steps[|steps| - 1]);
      EarlierTurns(init, t);
      CutShortSplits(steps, t);
    }
  }

  ghost predicate TurnFailed(s: System) {
    s.pipe.turn in s.streams && s.streams[s.pipe.turn].outcome.Failed?
  }

  /** One step within a turn whose stream has not failed. */
  lemma StepWipesExactly(s: System, step: Step)
    requires Reachable(s) && Apply(s, step).pipe.turn == s.pipe.turn && !TurnFailed(Apply(s, step))
    ensures Squash(WipedText(Apply(s, step).pipe.said))
            == Squash(WipedText(s.pipe.said)) + if CutsShort(s, step, s.pipe.turn) then Squash(s.pipe.buffer) else ""
  {
    TrimKeepsText(s.pipe.buffer);
    if step.Started? {
      StartLosesTheBuffer(s.pipe);
    } else if WipedText(Apply(s, step).pipe.said) != WipedText(s.pipe.said) {
      WipedOnlyOnStartOrFailure(s, step);
    }
  }

  lemma {:induction false} WipedNothingExactlyWhen(steps: seq<Step>)
    requires !TurnFailed(Run(INITIAL, steps))
    ensures Squash(WipedText(Run(INITIAL, steps).pipe.said)) == ""
            <==> NeverCutShort(steps, Run(INITIAL, steps).pipe.turn)
  {
    assert Squash("") == "";
    if steps != [] {
      var init, last := steps[..|steps| - 1], steps[|steps| - 1];
      var s, n := Run(INITIAL, init), Run(INITIAL, steps);
      CutShortSplits(steps, n.pipe.turn);
      TurnNeverDecreases(s, last);
      if n.pipe.turn == s.pipe.turn {
        StillNotFailed(s, last);
        WipedNothingExactlyWhen(init);
        StepWipesExactly(s, last);
        TrimKeepsText(s.pipe.buffer);
      } else {
        EarlierTurns(init, n.pipe.turn);
        NewTurnSaysNothing(s, last);
      }
    }
  }

  lemma StillNotFailed(s: System, step: Step)
    requires Reachable(s) && Apply(s, step).pipe.turn == s.pipe.turn && !TurnFailed(Apply(s, step))
    ensures !TurnFailed(s)
  {
    if TurnFailed(s) { EndsAtMostOnce(s, step, s.pipe.turn); }
  }

  lemma NewTurnSaysNothing(s: System, step: Step)
    requires Apply(s, step).pipe.turn != s.pipe.turn
    ensures Apply(s, step).pipe.said == []
  {
    if step.Message? && Open(s, step.turn) {
      TokenShape(s.pipe, step.turn, s.streams[step.turn].text + step.delta);
    }
  }

  ghost predicate TurnAnswered(s: System) {
    s.pipe.turn in s.streams && s.streams[s.pipe.turn].outcome.Answered?
  }

  /** When the current turn of a run is answered, everything streamed in it has been spoken exactly
      if no start() of the run met the turn with text in its buffer. */
  lemma AnsweredTurnIsSpoken(steps: seq<Step>)
    requires TurnAnswered(Run(INITIAL, steps))
    ensures var s := Run(INITIAL, steps);
            && s.pipe.buffer == ""
            && (Squash(SpokenText(s.pipe.said)) == Squash(s.streams[s.pipe.turn].text)
                <==> NeverCutShort(steps, s.pipe.turn))
  {
    RunKeeps(steps);
    AnsweredIsSpoken(Run(INITIAL, steps).pipe, Run(INITIAL, steps).streams);
    WipedNothingExactlyWhen(steps);
  }

  /** So how the stream was cut into chunks does not matter. */
  lemma ChunkingDoesNotMatter(one: seq<Step>, other: seq<Step>)
    requires TurnAnswered(Run(INITIAL, one)) && NeverCutShort(one, Run(INITIAL, one).pipe.turn)
    requires TurnAnswered(Run(INITIAL, other)) && NeverCutShort(other, Run(INITIAL, other).pipe.turn)
    requires Run(INITIAL, one).streams[Run(INITIAL, one).pipe.turn].text
             == Run(INITIAL, other).streams[Run(INITIAL, other).pipe.turn].text
    ensures Squash(SpokenText(Run(INITIAL, one).pipe.said)) == Squash(SpokenText(Run(INITIAL, other).pipe.said))
  {
    AnsweredTurnIsSpoken(one);
    AnsweredTurnIsSpoken(other);
  }

  // ---- start() in the middle of a turn

  lemma RunStep(steps: seq<Step>, step: Step)
    ensures Run(INITIAL, steps + [step]) == Apply(Run(INITIAL, steps), step)
  {
    assert (steps + [step])[..|steps|] == steps;
  }

  const OPENING := [Started, Transcript, Begin(2), Message(2, "Hi")]
  const LOSING := OPENING + [Started] + [DoneMessage(2)]

  const ACTIVE := System(IDLE.(active := true), map[])
  const CALLED := System(ACTIVE.pipe.(turn := 2, calls := {2}), map[])
  const BEGUN := System(ACTIVE.pipe.(turn := 2, heard := map[2 := ""], stopper := Some(2)),
                        map[2 := Stream("", false, false, Running)])
  const HALFWAY := System(BEGUN.pipe.(buffer := "Hi", heard := map[2 := "Hi"]), map[2 := Stream("Hi", false, false, Running)])
  const WIPED := System(HALFWAY.pipe.(buffer := "", said := [Wiped("Hi")]), HALFWAY.streams)
  const DONE := System(WIPED.pipe.(restarts := 1), map[2 := Stream("Hi", true, true, Answered)])

  lemma MessageIsBuffered()
    ensures Apply(BEGUN, Message(2, "Hi")) == HALFWAY
  {
    assert "" + "Hi" == "Hi" && "Hi"[0..] == "Hi";
    assert LastEnding("Hi") == -1 by { assert "Hi"[..1] == "H" && "H"[..0] == ""; }
  }

  lemma TranscriptOpensTurn()
    ensures Apply(ACTIVE, Transcript) == CALLED && Apply(CALLED, Begin(2)) == BEGUN
  {
    assert {} + {2} == {2} && {2} - {2} == {};
  }

  lemma HiIsNotBlank()
    ensures !Blank("Hi")
  {
  }

  lemma StartWipes()
    ensures Apply(INITIAL, Started) == ACTIVE && Apply(HALFWAY, Started) == WIPED
  {
    assert [] + [Wiped("Hi")] == [Wiped("Hi")];
  }

  lemma NothingLeftToSpeak()
    ensures OnDone(WIPED.pipe, 2) == DONE.pipe
  {
    assert Trim("") == "";
  }

  lemma AnswerFollows()
    ensures Apply(WIPED, DoneMessage(2)) == DONE
  {
    HiIsNotBlank();
    NothingLeftToSpeak();
    assert DoneMarker(WIPED.streams[2]) == Stream("Hi", true, true, Answered);
  }

  lemma TurnIsOpened()
    ensures Run(INITIAL, [Started] + [Transcript] + [Begin(2)]) == BEGUN
  {
    assert [] + [Started] == [Started];
    RunStep([], Started);
    RunStep([Started], Transcript);
    RunStep([Started] + [Transcript], Begin(2));
    StartWipes();
    TranscriptOpensTurn();
  }

  lemma OpeningStreamsHi()
    ensures Run(INITIAL, OPENING) == HALFWAY
  {
    var before := [Started] + [Transcript] + [Begin(2)];
    assert before + [Message(2, "Hi")] == OPENING;
    TurnIsOpened();
    RunStep(before, Message(2, "Hi"));
    MessageIsBuffered();
  }

  /** A run that loses text this way: "Hi" was streamed, start() was called, nothing is spoken. */
  lemma StartMidTurnLosesText()
    ensures var s := Run(INITIAL, LOSING);
            TurnAnswered(s) && s.streams[s.pipe.turn].text == "Hi" && SpokenText(s.pipe.said) == ""
    ensures CutsShortAt(LOSING, |OPENING|, 2)
  {
    OpeningStreamsHi();
    assert Run(INITIAL, LOSING) == DONE by {
      RunStep(OPENING, Started);
      RunStep(OPENING + [Started], DoneMessage(2));
      StartWipes();
      AnswerFollows();
    }
    assert [Wiped("Hi")][..0] == [];
    assert LOSING[..|OPENING|] == OPENING && LOSING[|OPENING|] == Started;
    HiIsNotBlank();
  }
}
