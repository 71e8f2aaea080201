/** What the voice pipeline guarantees over every run. */
module VoiceTheorems {
  import opened Options
  import opened Texts
  import opened VoicePipeline

  /** Everything taken out of the sentence buffer in this turn, in order. */
  function AllText(ps: seq<Piece>): string {
    if ps == [] then "" else AllText(ps[..|ps| - 1]) + ps[|ps| - 1].text
  }

  function SpokenText(ps: seq<Piece>): string {
    if ps == [] then ""
    else SpokenText(ps[..|ps| - 1]) + if ps[|ps| - 1].Spoken? then ps[|ps| - 1].text else ""
  }

  ghost predicate NoEnding(s: string) {
    forall i | 0 <= i < |s| :: s[i] !in SENTENCE_ENDINGS
  }

  /** Spoken so far, then the buffer, is the text heard so far, white space aside. */
  ghost predicate Conserved(said: seq<Piece>, buffer: string, heard: string) {
    Squash(AllText(said)) + Squash(buffer) == Squash(heard)
  }

  ghost predicate WellSpoken(said: seq<Piece>) {
    forall i | 0 <= i < |said| && said[i].Spoken? :: said[i].text != "" && said[i].text == Trim(said[i].text)
  }

  /** Nothing refers to a turn that has not been opened. */
  ghost predicate TurnsOpened(s: System) {
    && (forall t | t in s.pipe.calls :: t <= s.pipe.turn && t !in s.streams)
    && (forall t | t in s.streams :: t <= s.pipe.turn)
    && s.pipe.heard.Keys == s.streams.Keys
    && (s.pipe.turn in s.pipe.calls || s.pipe.turn in s.streams ==> s.pipe.active)
  }

  ghost predicate StreamSound(st: Stream) {
    && (st.didFinish <==> !st.outcome.Running?)
    && (st.didFinish ==> st.closed)
    && (st.outcome.AwaitingFallback? ==> Blank(st.text))
  }

  /** A finish was delivered to the pipeline. */
  predicate Delivered(st: Stream) {
    st.outcome.Answered? || st.outcome.Failed?
  }

  ghost predicate CurrentTurn(p: Pipe, streams: map<TurnId, Stream>)
    requires p.heard.Keys == streams.Keys
  {
    if p.turn in streams then
      var st := streams[p.turn];
      && p.heard[p.turn] == st.text
      && Conserved(p.said, p.buffer, st.text)
      && p.restarts + (if p.complete then 1 else 0) <= (if Delivered(st) then 1 else 0)
      && (st.outcome.Answered? ==> p.buffer == "")
    else
      p.buffer == "" && Squash(AllText(p.said)) == "" && !p.complete && p.restarts == 0
  }

  ghost predicate Inv(s: System) {
    && NoEnding(s.pipe.buffer) && WellSpoken(s.pipe.said)
    && TurnsOpened(s)
    && (forall t | t in s.streams :: StreamSound(s.streams[t]))
    && CurrentTurn(s.pipe, s.streams)
  }

  // ---- what the buffer operations keep

  lemma AllTextGrows(said: seq<Piece>, piece: Piece)
    ensures Squash(AllText(said + [piece])) == Squash(AllText(said)) + Squash(piece.text)
  {
    assert (said + [piece])[..|said|] == said;
    SquashConcat(AllText(said), piece.text);
  }

  /** Putting the front of the buffer, trimmed to sentence, behind what was said. */
  lemma SayingConserves(said: seq<Piece>, sentence: string, front: string, rest: string, heard: string)
    requires Conserved(said, front + rest, heard)
    requires Squash(sentence) == Squash(front)
    ensures sentence != "" ==> Conserved(said + [Spoken(sentence)], rest, heard)
    ensures sentence == "" ==> Conserved(said, rest, heard)
  {
    SquashConcat(front, rest);
    AllTextGrows(said, Spoken(sentence));
    Regroup(Squash(AllText(said)), Squash(sentence), Squash(rest));
  }

  lemma SpeakingConserves(p: Pipe, front: string, rest: string, sentence: string, heard: string)
    requires Conserved(p.said, front + rest, heard) && WellSpoken(p.said) && sentence == Trim(front)
    ensures var q := Speak(p.(buffer := rest), sentence);
            Conserved(q.said, rest, heard) && WellSpoken(q.said)
  {
    TrimKeepsText(front);
    TrimTwice(front);
    SayingConserves(p.said, sentence, front, rest, heard);
  }

  lemma {:induction false} TrimTwice(s: string)
    ensures Trim(Trim(s)) == Trim(s)
  {
    TrimIsTight(s);
  }

  lemma WipingConserves(p: Pipe, heard: string)
    requires Conserved(p.said, p.buffer, heard) && WellSpoken(p.said)
    ensures Conserved(Wipe(p).said, Wipe(p).buffer, heard) && WellSpoken(Wipe(p).said)
    ensures Wipe(p) == p.(buffer := "", said := Wipe(p).said)
  {
    if p.buffer != "" {
      AllTextGrows(p.said, Wiped(p.buffer));
      assert Squash("") == "";
    }
  }

  lemma AfterLastEnding(s: string)
    ensures NoEnding(s[LastEnding(s) + 1..])
    ensures s[..LastEnding(s) + 1] + s[LastEnding(s) + 1..] == s
  {
  }

  lemma SentencesConserve(p: Pipe, heard: string)
    requires Conserved(p.said, p.buffer, heard) && WellSpoken(p.said)
    ensures var q := SpeakSentences(p);
            Conserved(q.said, q.buffer, heard) && WellSpoken(q.said) && NoEnding(q.buffer)
  {
    var k := LastEnding(p.buffer);
    AfterLastEnding(p.buffer);
    if k == -1 {
      assert p.buffer[0..] == p.buffer;
    } else {
      SpeakingConserves(p, p.buffer[..k + 1], p.buffer[k + 1..], Trim(p.buffer[..k + 1]), heard);
    }
  }

  lemma HearingConserves(said: seq<Piece>, buffer: string, heard: string, newChars: string, text: string)
    requires Conserved(said, buffer, heard) && heard + newChars == text
    ensures Conserved(said, buffer + newChars, text)
  {
    SquashConcat(heard, newChars);
    SquashConcat(buffer, newChars);
    Regroup(Squash(AllText(said)), Squash(buffer), Squash(newChars));
  }

  lemma TokenConserves(p: Pipe, text: string)
    requires p.turn in p.heard && p.active && p.heard[p.turn] <= text
    requires Conserved(p.said, p.buffer, p.heard[p.turn]) && WellSpoken(p.said)
    ensures var q := OnToken(p, p.turn, text);
            && Conserved(q.said, q.buffer, text) && WellSpoken(q.said) && NoEnding(q.buffer)
            && q == p.(heard := p.heard[p.turn := text], buffer := q.buffer, said := q.said, pending := q.pending)
  {
    var newChars := text[|p.heard[p.turn]|..];
    HearingConserves(p.said, p.buffer, p.heard[p.turn], newChars, text);
    SentencesConserve(p.(heard := p.heard[p.turn := text], buffer := p.buffer + newChars), text);
  }

  lemma FlushConserves(p: Pipe, heard: string)
    requires Conserved(p.said, p.buffer, heard) && WellSpoken(p.said)
    ensures var q := Flush(p);
            && Conserved(q.said, "", heard) && WellSpoken(q.said)
            && q == p.(buffer := "", said := q.said, pending := q.pending)
  {
    assert p.buffer + "" == p.buffer;
    SpeakingConserves(p, p.buffer, "", Trim(p.buffer), heard);
  }

  // ---- every step keeps the invariant

  lemma RestartKeeps(p: Pipe, streams: map<TurnId, Stream>)
    requires Inv(System(p, streams))
    ensures Inv(System(RestartIfReady(p), streams))
  {
    if p.active && p.complete && p.pending == 0 {
      WipingConserves(p, streams[p.turn].text);
    }
  }

  lemma NextTurnKeeps(p: Pipe, streams: map<TurnId, Stream>, active: bool)
    requires Inv(System(p, streams))
    ensures Inv(System(NextTurn(p).(complete := false, active := active), streams))
  {
  }

  lemma ClosingKeeps(p: Pipe, streams: map<TurnId, Stream>, stopper: Option<TurnId>)
    requires Inv(System(p, streams))
    ensures Inv(System(p, Closed(streams, stopper)))
  {
  }

  lemma MessageKeeps(s: System, t: TurnId, delta: string)
    requires Inv(s)
    ensures Inv(Apply(s, Message(t, delta)))
  {
    if Open(s, t) && delta != "" && t == s.pipe.turn {
      TokenConserves(s.pipe, s.streams[t].text + delta);
    }
  }

  /** A finish of another turn's completion, or one that only asks for the fallback. */
  lemma FinishElsewhereKeeps(p: Pipe, streams: map<TurnId, Stream>, t: TurnId, st: Stream)
    requires Inv(System(p, streams)) && t in streams && StreamSound(st)
    requires t == p.turn ==> st.text == streams[t].text && !Delivered(streams[t]) && !st.outcome.Answered?
    ensures Inv(System(p, streams[t := st]))
  {
  }

  /** The answer of the current turn speaks what is left in the buffer. */
  lemma FlushKeeps(p: Pipe, streams: map<TurnId, Stream>, st: Stream)
    requires Inv(System(p, streams)) && p.turn in streams && !Delivered(streams[p.turn])
    requires StreamSound(st) && st.text == streams[p.turn].text && st.outcome.Answered?
    ensures Inv(System(Flush(p.(complete := true)), streams[p.turn := st]))
  {
    FlushConserves(p.(complete := true), st.text);
    assert Squash("") == "";
  }

  lemma DoneKeeps(p: Pipe, streams: map<TurnId, Stream>, t: TurnId, st: Stream)
    requires Inv(System(p, streams)) && t in streams && !Delivered(streams[t])
    requires StreamSound(st) && st.text == streams[t].text && st.outcome.Answered?
    ensures Inv(System(OnDone(p, t), streams[t := st]))
  {
    if t == p.turn {
      FlushKeeps(p, streams, st);
      RestartKeeps(Flush(p.(complete := true)), streams[t := st]);
    } else {
      FinishElsewhereKeeps(p, streams, t, st);
    }
  }

  lemma ErrorKeeps(p: Pipe, streams: map<TurnId, Stream>, t: TurnId, st: Stream)
    requires Inv(System(p, streams)) && t in streams && !Delivered(streams[t])
    requires StreamSound(st) && st.text == streams[t].text && st.outcome.Failed?
    ensures Inv(System(OnError(p, t), streams[t := st]))
  {
    if t == p.turn {
      assert Inv(System(p.(complete := true), streams[t := st]));
      RestartKeeps(p.(complete := true), streams[t := st]);
    } else {
      FinishElsewhereKeeps(p, streams, t, st);
    }
  }

  lemma DoneMessageKeeps(s: System, t: TurnId)
    requires Inv(s) && Open(s, t)
    ensures Inv(Apply(s, DoneMessage(t)))
  {
    var st := DoneMarker(s.streams[t]);
    if st.outcome.Answered? {
      DoneKeeps(s.pipe, s.streams, t, st);
    } else {
      FinishElsewhereKeeps(s.pipe, s.streams, t, st);
    }
  }

  lemma StartKeeps(s: System)
    requires Inv(s)
    ensures Inv(Apply(s, Started))
  {
    var p := s.pipe;
    if p.turn in s.streams {
      WipingConserves(p, s.streams[p.turn].text);
    }
  }

  /** Whatever supersedes the turn also closes the completion it was waiting for. */
  lemma SupersedingKeeps(p: Pipe, streams: map<TurnId, Stream>, active: bool)
    requires Inv(System(p, streams))
    ensures Inv(System(NextTurn(p).(complete := false, active := active), Closed(streams, p.stopper)))
  {
    ClosingKeeps(p, streams, p.stopper);
    NextTurnKeeps(p, Closed(streams, p.stopper), active);
  }

  lemma TranscriptKeeps(p: Pipe, streams: map<TurnId, Stream>)
    requires Inv(System(p, streams)) && p.active
    ensures Inv(System(FinalTranscript(p), Closed(streams, p.stopper)))
  {
    var first := NextTurn(p).(complete := false, active := p.active);
    SupersedingKeeps(p, streams, p.active);
    OpeningKeeps(first, Closed(streams, p.stopper));
    assert FinalTranscript(p) == Opened(first);
  }

  /** callAPI: the next turn, with a call under way. */
  function Opened(p: Pipe): Pipe {
    NextTurn(p).(complete := false, calls := p.calls + {p.turn + 1})
  }

  lemma OpeningKeeps(p: Pipe, streams: map<TurnId, Stream>)
    requires Inv(System(p, streams)) && p.active
    ensures Inv(System(Opened(p), streams))
  {
    NextTurnKeeps(p, streams, p.active);
  }

  lemma BeginKeeps(s: System, t: TurnId)
    requires Inv(s)
    ensures Inv(Apply(s, Begin(t))) && Inv(Apply(s, Unconfigured(t)))
  {
  }

  lemma StreamErrorKeeps(s: System, t: TurnId)
    requires Inv(s)
    ensures Inv(Apply(s, StreamError(t)))
  {
    if Open(s, t) && !s.streams[t].didFinish {
      ErrorKeeps(s.pipe, s.streams, t, s.streams[t].(didFinish := true, closed := true, outcome := Failed));
    }
  }

  lemma FallbackAnswerKeeps(s: System, t: TurnId)
    requires Inv(s)
    ensures Inv(Apply(s, FallbackAnswer(t)))
  {
    if t in s.streams && s.streams[t].outcome.AwaitingFallback? {
      DoneKeeps(s.pipe, s.streams, t, s.streams[t].(outcome := Answered));
    }
  }

  lemma FallbackErrorKeeps(s: System, t: TurnId)
    requires Inv(s)
    ensures Inv(Apply(s, FallbackError(t)))
  {
    if t in s.streams && s.streams[t].outcome.AwaitingFallback? {
      ErrorKeeps(s.pipe, s.streams, t, s.streams[t].(outcome := Failed));
    }
  }

  lemma SpeechEndedKeeps(p: Pipe, streams: map<TurnId, Stream>)
    requires Inv(System(p, streams))
    ensures Inv(System(SpeechEnded(p), streams))
  {
    var q := p.(pending := if p.pending > 0 then p.pending - 1 else 0);
    assert Inv(System(q, streams));
    RestartKeeps(q, streams);
  }

  lemma InterruptingKeeps(s: System)
    requires Inv(s)
    ensures Inv(Apply(s, BargedIn)) && Inv(Apply(s, Interrupted))
  {
    if s.pipe.active { SupersedingKeeps(s.pipe, s.streams, s.pipe.active); }
  }

  lemma StepKeeps(s: System, step: Step)
    requires Inv(s)
    ensures Inv(Apply(s, step))
  {
    match step
    case Begin(t) => BeginKeeps(s, t);
    case Unconfigured(t) => BeginKeeps(s, t);
    case Message(t, delta) => MessageKeeps(s, t, delta);
    case DoneMessage(t) =>
      if Open(s, t) { DoneMessageKeeps(s, t); }
    case StreamError(t) => StreamErrorKeeps(s, t);
    case FallbackAnswer(t) => FallbackAnswerKeeps(s, t);
    case FallbackError(t) => FallbackErrorKeeps(s, t);
    case SpeechComplete => SpeechEndedKeeps(s.pipe, s.streams);
    case NativeError => SpeechEndedKeeps(s.pipe, s.streams);
    case Started => StartKeeps(s);
    case Transcript =>
      if s.pipe.active { TranscriptKeeps(s.pipe, s.streams); }
    case Stopped => SupersedingKeeps(s.pipe, s.streams, false);
    case BargedIn => InterruptingKeeps(s);
    case Interrupted => InterruptingKeeps(s);
  }

  lemma {:induction false} RunKeeps(steps: seq<Step>)
    ensures Inv(Run(INITIAL, steps))
  {
    if steps != [] {
      RunKeeps(steps[..|steps| - 1]);
      StepKeeps(Run(INITIAL, steps[..|steps| - 1]), steps[|steps| - 1]);
    } else {
      assert Squash("") == "";
    }
  }

  // ---- theorems

  /** The states of all runs. */
  ghost predicate Reachable(s: System) {
    exists steps :: s == Run(INITIAL, steps)
  }

  lemma ReachableInv(s: System)
    requires Reachable(s)
    ensures Inv(s)
  {
    var steps :| s == Run(INITIAL, steps);
    RunKeeps(steps);
  }

  /** In every reachable state: what was spoken or wiped in the current turn, then the buffer, is
      what the turn's stream has delivered, white space aside, and the buffer holds no finished
      sentence. */
  lemma SpokenTextIsConserved(s: System)
    requires Reachable(s)
    ensures NoEnding(s.pipe.buffer) && WellSpoken(s.pipe.said)
    ensures s.pipe.turn in s.streams ==>
              Squash(AllText(s.pipe.said)) + Squash(s.pipe.buffer) == Squash(s.streams[s.pipe.turn].text)
  {
    ReachableInv(s);
  }

  function WipedText(ps: seq<Piece>): string {
    if ps == [] then ""
    else WipedText(ps[..|ps| - 1]) + if ps[|ps| - 1].Wiped? then ps[|ps| - 1].text else ""
  }

  lemma {:induction false} SpokenAndWiped(ps: seq<Piece>)
    ensures |Squash(AllText(ps))| == |Squash(SpokenText(ps))| + |Squash(WipedText(ps))|
    ensures Squash(WipedText(ps)) == "" ==> Squash(AllText(ps)) == Squash(SpokenText(ps))
  {
    if ps != [] {
      var init, last := ps[..|ps| - 1], ps[|ps| - 1];
      SpokenAndWiped(init);
      SquashConcat(AllText(init), last.text);
      SquashConcat(SpokenText(init), if last.Spoken? then last.text else "");
      SquashConcat(WipedText(init), if last.Wiped? then last.text else "");
    }
  }

  lemma AnsweredIsSpoken(p: Pipe, streams: map<TurnId, Stream>)
    requires p.heard.Keys == streams.Keys && CurrentTurn(p, streams)
    requires p.turn in streams && streams[p.turn].outcome.Answered?
    ensures p.buffer == ""
    ensures Squash(SpokenText(p.said)) == Squash(streams[p.turn].text) <==> Squash(WipedText(p.said)) == ""
  {
    assert Squash(p.buffer) == "";
    assert Squash(AllText(p.said)) + "" == Squash(AllText(p.said));
    SpokenAndWiped(p.said);
  }

  lemma BlankTurnIsSilent(p: Pipe, text: string)
    requires Conserved(p.said, p.buffer, text) && Blank(text)
    ensures Squash(SpokenText(p.said)) == Squash(text) == ""
  {
    TrimKeepsText(text);
    assert |Squash(AllText(p.said))| == 0;
    SpokenAndWiped(p.said);
  }

  // ---- one whole turn

  function DeltaOf(step: Step, t: TurnId): string {
    if step.Message? && step.turn == t then step.delta else ""
  }

  /** The deltas sent for turn t, in order. */
  function Streamed(steps: seq<Step>, t: TurnId): string {
    if steps == [] then "" else Streamed(steps[..|steps| - 1], t) + DeltaOf(steps[|steps| - 1], t)
  }

  /** Neither a new turn nor start() nor the end of t's stream: tokens, speech events and
      whatever other turns' completions do. */
  predicate Quiet(step: Step, t: TurnId) {
    match step
    case DoneMessage(u) => u != t
    case StreamError(u) => u != t
    case FallbackAnswer(u) => u != t
    case FallbackError(u) => u != t
    case Begin(u) => true
    case Unconfigured(u) => true
    case Message(u, delta) => true
    case SpeechComplete => true
    case NativeError => true
    case _ => false
  }

  ghost predicate Streaming(s: System, t: TurnId, text: string) {
    Inv(s) && s.pipe.turn == t && s.pipe.active && t in s.streams
    && s.streams[t] == Stream(text, false, false, Running) && WipedText(s.pipe.said) == ""
  }

  lemma TokenShape(p: Pipe, t: TurnId, text: string)
    ensures var q := OnToken(p, t, text);
            q == p.(heard := q.heard, buffer := q.buffer, said := q.said, pending := q.pending)
  {
  }

  lemma OwnMessageStreams(s: System, t: TurnId, delta: string, text: string)
    requires Streaming(s, t, text)
    ensures Streaming(Apply(s, Message(t, delta)), t, text + delta)
  {
    if delta == "" {
      assert text + delta == text;
    } else {
      assert Inv(Apply(s, Message(t, delta))) by { StepKeeps(s, Message(t, delta)); }
      TokenShape(s.pipe, t, text + delta);
      TokenAddsNoWipe(s.pipe, t, text + delta);
    }
  }

  lemma OtherMessageStreams(s: System, u: TurnId, delta: string, t: TurnId, text: string)
    requires Streaming(s, t, text) && u != t
    ensures Streaming(Apply(s, Message(u, delta)), t, text)
  {
    StepKeeps(s, Message(u, delta));
  }

  lemma QuietStepStreams(s: System, step: Step, t: TurnId, text: string)
    requires Streaming(s, t, text) && Quiet(step, t)
    ensures Streaming(Apply(s, step), t, text + DeltaOf(step, t))
  {
    assert text + "" == text;
    if step.Message? && step.turn == t {
      OwnMessageStreams(s, t, step.delta, text);
    } else if step.Message? {
      OtherMessageStreams(s, step.turn, step.delta, t, text);
    } else {
      StepKeeps(s, step);
    }
  }

  lemma {:induction false} QuietRunStreams(s: System, steps: seq<Step>, t: TurnId)
    requires Streaming(s, t, "") && forall i | 0 <= i < |steps| :: Quiet(steps[i], t)
    ensures Streaming(Run(s, steps), t, Streamed(steps, t))
  {
    if steps != [] {
      var init, last := steps[..|steps| - 1], steps[|steps| - 1];
      QuietRunStreams(s, init, t);
      QuietStepStreams(Run(s, init), last, t, Streamed(init, t));
    }
  }

  /** A turn that streams to its end undisturbed speaks exactly what was streamed, however the
      text was cut into messages and whatever speech events came in between. */
  lemma WholeTurnIsSpoken(s: System, steps: seq<Step>, t: TurnId)
    requires Streaming(s, t, "") && forall i | 0 <= i < |steps| :: Quiet(steps[i], t)
    ensures var n := Apply(Run(s, steps), DoneMessage(t));
            Squash(SpokenText(n.pipe.said)) == Squash(Streamed(steps, t))
  {
    QuietRunStreams(s, steps, t);
    var m, text := Run(s, steps), Streamed(steps, t);
    if Blank(text) {
      BlankTurnIsSilent(m.pipe, text);
    } else {
      DoneAddsNoWipe(m.pipe, t);
      StepKeeps(m, DoneMessage(t));
      AnsweredIsSpoken(OnDone(m.pipe, t), m.streams[t := DoneMarker(m.streams[t])]);
    }
  }

  lemma SpeakingAddsNoWipe(p: Pipe, sentence: string)
    ensures WipedText(Speak(p, sentence).said) == WipedText(p.said)
  {
    if sentence != "" {
      assert (p.said + [Spoken(sentence)])[..|p.said|] == p.said;
    }
  }

  lemma TokenAddsNoWipe(p: Pipe, t: TurnId, text: string)
    ensures WipedText(OnToken(p, t, text).said) == WipedText(p.said)
  {
    if t == p.turn && p.active && t in p.heard {
      var known := |p.heard[t]|;
      var q := p.(heard := p.heard[t := text], buffer := p.buffer + if known <= |text| then text[known..] else "");
      var k := LastEnding(q.buffer);
      SpeakingAddsNoWipe(q.(buffer := q.buffer[k + 1..]), Trim(q.buffer[..k + 1]));
    }
  }

  lemma DoneAddsNoWipe(p: Pipe, t: TurnId)
    ensures WipedText(OnDone(p, t).said) == WipedText(p.said)
  {
    SpeakingAddsNoWipe(p.(complete := true, buffer := ""), Trim(p.buffer));
  }

  /** Text is wiped within a turn only by start() or after the turn's stream failed. */
  lemma WipedOnlyOnStartOrFailure(s: System, step: Step)
    requires Reachable(s) && Apply(s, step).pipe.turn == s.pipe.turn
    requires WipedText(Apply(s, step).pipe.said) != WipedText(s.pipe.said)
    ensures var n := Apply(s, step);
            step.Started? || (n.pipe.turn in n.streams && n.streams[n.pipe.turn].outcome.Failed?)
  {
    ReachableInv(s);
    var p := s.pipe;
    if step.Message? {
      TokenAddsNoWipe(p, step.turn, if step.turn in s.streams then s.streams[step.turn].text + step.delta else "");
    } else if step.DoneMessage? || step.FallbackAnswer? {
      DoneAddsNoWipe(p, step.turn);
    }
  }

  /** start() in the middle of a turn loses exactly what the buffer held. */
  lemma StartLosesTheBuffer(p: Pipe)
    ensures Squash(WipedText(Start(p).said)) == Squash(WipedText(p.said)) + Squash(p.buffer)
    ensures SpokenText(Start(p).said) == SpokenText(p.said)
  {
    if p.buffer != "" {
      var said := p.said + [Wiped(p.buffer)];
      assert said[..|said| - 1] == p.said;
      SquashConcat(WipedText(p.said), p.buffer);
      assert SpokenText(p.said) + "" == SpokenText(p.said);
    }
  }

  /** The recogniser is restarted at most once per turn, and only once the turn's stream has
      delivered its end; a restart happens only when active with nothing pending. */
  lemma RestartsAtMostOncePerTurn(s: System)
    requires Reachable(s)
    ensures s.pipe.restarts <= 1
    ensures s.pipe.restarts == 1 ==> !s.pipe.complete && s.pipe.turn in s.streams && Delivered(s.streams[s.pipe.turn])
  {
    ReachableInv(s);
  }

  lemma RestartOnlyWhenReady(s: System, step: Step)
    requires Apply(s, step).pipe.restarts > s.pipe.restarts
    ensures s.pipe.active && Apply(s, step).pipe.pending == 0
    ensures Apply(s, step).pipe.restarts == s.pipe.restarts + 1
  {
    if step.Message? && Open(s, step.turn) {
      TokenShape(s.pipe, step.turn, s.streams[step.turn].text + step.delta);
    }
  }

  /** Callbacks of a superseded turn leave the pipeline as it is. */
  lemma StaleCallbacksChangeNothing(s: System, t: TurnId, delta: string)
    requires t != s.pipe.turn
    ensures Apply(s, Message(t, delta)).pipe == s.pipe
    ensures Apply(s, DoneMessage(t)).pipe == s.pipe
    ensures Apply(s, StreamError(t)).pipe == s.pipe
    ensures Apply(s, FallbackAnswer(t)).pipe == s.pipe
    ensures Apply(s, FallbackError(t)).pipe == s.pipe
  {
  }

  /** Turn ids never go back, and a turn once left never becomes current again. */
  lemma {:induction false} TurnsNeverReturn(s: System, steps: seq<Step>, t: TurnId)
    requires t < s.pipe.turn
    ensures s.pipe.turn <= Run(s, steps).pipe.turn
    ensures t != Run(s, steps).pipe.turn
  {
    if steps != [] {
      TurnsNeverReturn(s, steps[..|steps| - 1], t);
      TurnNeverDecreases(Run(s, steps[..|steps| - 1]), steps[|steps| - 1]);
    }
  }

  lemma TurnNeverDecreases(s: System, step: Step)
    ensures s.pipe.turn <= Apply(s, step).pipe.turn
    ensures s.pipe.turn < Apply(s, step).pipe.turn <==>
              step.Stopped? || (s.pipe.active && (step.Transcript? || step.BargedIn? || step.Interrupted?))
  {
    if step.Message? && Open(s, step.turn) {
      TokenShape(s.pipe, step.turn, s.streams[step.turn].text + step.delta);
    }
  }

  /** A completion delivers its end at most once, and none after it was closed early. */
  lemma EndsAtMostOnce(s: System, step: Step, t: TurnId)
    requires Reachable(s) && t in s.streams && Delivered(s.streams[t])
    ensures t in Apply(s, step).streams && Apply(s, step).streams[t].outcome == s.streams[t].outcome
    ensures Apply(s, step).streams[t].text == s.streams[t].text
  {
    ReachableInv(s);
  }
}
