/** The voice pipeline (mobile/lib/use-pipeline.ts) together with the completion streams
    feeding it (mobile/lib/chat.ts): turns, sentences to speak, barge-in, restart of the recogniser. */
module VoicePipeline {
  import opened Options
  import opened Texts

  type TurnId = nat

  /** What became of the text of the current turn: handed to the synthesiser, or wiped from the buffer. */
  datatype Piece = Spoken(text: string) | Wiped(text: string)

  /** heard is fullResponse, one per turn with a completion; calls are turns whose completion
      has not started yet; said and restarts are the history of the current turn. */
  datatype Pipe = Pipe(
    active: bool, turn: TurnId, pending: nat, complete: bool, buffer: string,
    heard: map<TurnId, string>, calls: set<TurnId>, stopper: Option<TurnId>,
    said: seq<Piece>, restarts: nat)

  datatype Outcome = Running | AwaitingFallback | Answered | Failed

  datatype Stream = Stream(text: string, didFinish: bool, closed: bool, outcome: Outcome)

  datatype System = System(pipe: Pipe, streams: map<TurnId, Stream>)

  const IDLE := Pipe(false, 0, 0, false, "", map[], {}, None, [], 0)
  const INITIAL := System(IDLE, map[])

  const SENTENCE_ENDINGS := {'.', '!', '?', '\n'}

  // ---- speaking

  function Speak(p: Pipe, sentence: string): Pipe {
    if sentence == "" then p else p.(pending := p.pending + 1, said := p.said + [Spoken(sentence)])
  }

  function Wipe(p: Pipe): Pipe {
    p.(buffer := "", said := if p.buffer == "" then p.said else p.said + [Wiped(p.buffer)])
  }

  /** Index of the last sentence-ending character, -1 when there is none. */
  function LastEnding(s: string): (k: int)
    ensures -1 <= k < |s|
    ensures k >= 0 ==> s[k] in SENTENCE_ENDINGS
    ensures forall i | k < i < |s| :: s[i] !in SENTENCE_ENDINGS
  {
    if s == "" then -1
    else if s[|s| - 1] in SENTENCE_ENDINGS then |s| - 1
    else LastEnding(s[..|s| - 1])
  }

  /** Speaks the buffer up to index k, unless k is -1. */
  function SpeakUpTo(p: Pipe, k: int): Pipe
    requires -1 <= k < |p.buffer|
  {
    if k == -1 then p else Speak(p.(buffer := p.buffer[k + 1..]), Trim(p.buffer[..k + 1]))
  }

  function SpeakSentences(p: Pipe): Pipe {
    SpeakUpTo(p, LastEnding(p.buffer))
  }

  function Flush(p: Pipe): Pipe {
    Speak(p.(buffer := ""), Trim(p.buffer))
  }

  function RestartIfReady(p: Pipe): Pipe {
    if p.active && p.complete && p.pending == 0 then Wipe(p).(complete := false, restarts := p.restarts + 1) else p
  }

  // ---- completion callbacks, each bound to the turn that made the call

  function OnToken(p: Pipe, t: TurnId, text: string): Pipe {
    if t != p.turn || !p.active || t !in p.heard then p
    else
      var known := |p.heard[t]|;
      var newChars := if known <= |text| then text[known..] else "";
      SpeakSentences(p.(heard := p.heard[t := text], buffer := p.buffer + newChars))
  }

  function OnDone(p: Pipe, t: TurnId): Pipe {
    if t != p.turn || !p.active then p else RestartIfReady(Flush(p.(complete := true)))
  }

  function OnError(p: Pipe, t: TurnId): Pipe {
    if t != p.turn || !p.active then p else RestartIfReady(p.(complete := true))
  }

  // ---- native events and controls

  function NextTurn(p: Pipe): Pipe {
    p.(turn := p.turn + 1, pending := 0, buffer := "", stopper := None, said := [], restarts := 0)
  }

  /** A transcript supersedes the running turn, then callAPI opens the next one. */
  function FinalTranscript(p: Pipe): Pipe {
    if !p.active then p
    else
      var q := NextTurn(NextTurn(p));
      q.(complete := false, calls := q.calls + {q.turn})
  }

  function BargeIn(p: Pipe): Pipe {
    if !p.active then p else NextTurn(p).(complete := false)
  }

  function Stop(p: Pipe): Pipe {
    NextTurn(p).(active := false, complete := false)
  }

  function SpeechEnded(p: Pipe): Pipe {
    if !p.active then p else RestartIfReady(p.(pending := if p.pending > 0 then p.pending - 1 else 0))
  }

  /** start() keeps the turn id. */
  function Start(p: Pipe): Pipe {
    Wipe(p).(active := true, pending := 0, complete := false)
  }

  // ---- the completion stream of one turn

  function Delta(st: Stream, delta: string): Stream {
    st.(text := st.text + delta)
  }

  function DoneMarker(st: Stream): Stream {
    st.(didFinish := true, closed := true, outcome := if Blank(st.text) then AwaitingFallback else Answered)
  }

  function Closed(streams: map<TurnId, Stream>, stopper: Option<TurnId>): map<TurnId, Stream> {
    if stopper.Some? && stopper.value in streams then streams[stopper.value := streams[stopper.value].(closed := true)]
    else streams
  }

  datatype Step =
    | Begin(turn: TurnId)
    | Unconfigured(turn: TurnId)
    | Message(turn: TurnId, delta: string)
    | DoneMessage(turn: TurnId)
    | StreamError(turn: TurnId)
    | FallbackAnswer(turn: TurnId)
    | FallbackError(turn: TurnId)
    | Transcript
    | SpeechComplete
    | NativeError
    | BargedIn
    | Started
    | Stopped
    | Interrupted

  predicate Open(s: System, t: TurnId) {
    t in s.streams && !s.streams[t].closed
  }

  function Apply(s: System, step: Step): System {
    var p := s.pipe;
    match step
    case Begin(t) =>
      if t !in p.calls then s
      else System(p.(calls := p.calls - {t}, heard := p.heard[t := ""], stopper := Some(t)),
                  s.streams[t := Stream("", false, false, Running)])
    case Unconfigured(t) =>
      System(p.(calls := p.calls - {t}), s.streams)
    case Message(t, delta) =>
      if !Open(s, t) || delta == "" then s
      else
        var st := Delta(s.streams[t], delta);
        System(OnToken(p, t, st.text), s.streams[t := st])
    case DoneMessage(t) =>
      if !Open(s, t) then s
      else if s.streams[t].didFinish then System(p, s.streams[t := s.streams[t].(closed := true)])
      else
        var st := DoneMarker(s.streams[t]);
        System(if st.outcome.Answered? then OnDone(p, t) else p, s.streams[t := st])
    case StreamError(t) =>
      if !Open(s, t) || s.streams[t].didFinish then s
      else System(OnError(p, t), s.streams[t := s.streams[t].(didFinish := true, closed := true, outcome := Failed)])
    case FallbackAnswer(t) =>
      if t !in s.streams || !s.streams[t].outcome.AwaitingFallback? then s
      else System(OnDone(p, t), s.streams[t := s.streams[t].(outcome := Answered)])
    case FallbackError(t) =>
      if t !in s.streams || !s.streams[t].outcome.AwaitingFallback? then s
      else System(OnError(p, t), s.streams[t := s.streams[t].(outcome := Failed)])
    case Transcript => System(FinalTranscript(p), if p.active then Closed(s.streams, p.stopper) else s.streams)
    case SpeechComplete => System(SpeechEnded(p), s.streams)
    case NativeError => System(SpeechEnded(p), s.streams)
    case BargedIn => System(BargeIn(p), if p.active then Closed(s.streams, p.stopper) else s.streams)
    case Started => System(Start(p), s.streams)
    case Stopped => System(Stop(p), Closed(s.streams, p.stopper))
    case Interrupted => System(BargeIn(p), if p.active then Closed(s.streams, p.stopper) else s.streams)
  }

  function Run(s: System, steps: seq<Step>): System {
    if steps == [] then s else Apply(Run(s, steps[..|steps| - 1]), steps[|steps| - 1])
  }
}
