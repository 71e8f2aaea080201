/** The transcript state of a direct Gemini call (mobile/lib/use-direct-gemini.ts,
    handleServerContent): two role buffers, the callbacks they feed, and the microphone gate. */
module DirectTranscript {
  datatype Role = User | Assistant

  /** Callbacks in the order they were made; Discarded is text dropped by cleanup(). */
  datatype Event =
    | DeltaOf(role: Role, text: string)
    | DoneWith(role: Role, text: string, cutOff: bool)
    | Discarded(role: Role, text: string)
    | TurnStarted
    | TurnEnded

  datatype State = State(
    user: string, assistant: string, userSpeaking: bool, assistantSpeaking: bool, droppedFrames: nat, events: seq<Event>)

  const INITIAL := State("", "", false, false, 0, [])

  /** One serverContent message; the texts are empty when absent, audio lists the inline data of the model's parts. */
  datatype Content = Content(
    generationComplete: bool, turnComplete: bool, interrupted: bool, audio: seq<string>, output: string, input: string)

  function FlushUser(s: State): State {
    if s.user == "" then s else s.(user := "", events := s.events + [DoneWith(User, s.user, false)])
  }

  function FlushAssistant(s: State, cutOff: bool): State {
    if s.assistant == "" then s
    else
      var text := if cutOff then s.assistant + "..." else s.assistant;
      s.(assistant := "", events := s.events + [DoneWith(Assistant, text, cutOff)])
  }

  function EndsSpeech(c: Content): bool {
    c.generationComplete || c.turnComplete || c.interrupted
  }

  function ReopenMicrophone(s: State, c: Content): State {
    if EndsSpeech(c) && s.assistantSpeaking then s.(assistantSpeaking := false, droppedFrames := 0) else s
  }

  predicate HasAudio(c: Content) {
    exists i | 0 <= i < |c.audio| :: c.audio[i] != ""
  }

  function Play(s: State, c: Content): State {
    if HasAudio(c) then s.(assistantSpeaking := true) else s
  }

  function Output(s: State, text: string): State {
    if text == "" then s
    else
      var t := FlushUser(s).(userSpeaking := false);
      t.(assistant := t.assistant + text, events := t.events + [DeltaOf(Assistant, text)])
  }

  function Input(s: State, text: string): State {
    if text == "" then s
    else
      var started := if s.userSpeaking then s else s.(userSpeaking := true, events := s.events + [TurnStarted]);
      var t := FlushAssistant(started, false);
      t.(user := t.user + text, events := t.events + [DeltaOf(User, text)])
  }

  function TurnComplete(s: State): State {
    var t := FlushAssistant(FlushUser(s), false);
    t.(userSpeaking := false, events := t.events + [TurnEnded])
  }

  function Interrupted(s: State): State {
    FlushAssistant(FlushUser(s), true)
  }

  function Handle(s: State, c: Content): State {
    var heard := Input(Output(Play(ReopenMicrophone(s, c), c), c.output), c.input);
    var ended := if c.turnComplete then TurnComplete(heard) else heard;
    if c.interrupted then Interrupted(ended) else ended
  }

  function Discard(role: Role, text: string): seq<Event> {
    if text == "" then [] else [Discarded(role, text)]
  }

  function Cleanup(s: State): State {
    State("", "", false, false, 0, s.events + Discard(User, s.user) + Discard(Assistant, s.assistant))
  }

  /** A microphone frame that is not muted; true when it is sent. */
  function Capture(s: State): (State, bool) {
    if s.assistantSpeaking then (s.(droppedFrames := s.droppedFrames + 1), false) else (s, true)
  }

  datatype Step = Message(content: Content) | MicrophoneFrame | Closing

  function Apply(s: State, step: Step): State {
    match step
    case Message(c) => Handle(s, c)
    case MicrophoneFrame => Capture(s).0
    case Closing => Cleanup(s)
  }

  function Run(steps: seq<Step>): State {
    if steps == [] then INITIAL else Apply(Run(steps[..|steps| - 1]), steps[|steps| - 1])
  }

  // ---- conservation

  type Tagged = (Role, char)

  function Tag(role: Role, text: string): seq<Tagged> {
    seq(|text|, i requires 0 <= i < |text| => (role, text[i]))
  }

  /** What arrived, character by character with its speaker. */
  function Arrived(events: seq<Event>): seq<Tagged> {
    if events == [] then []
    else
      var e := events[|events| - 1];
      Arrived(events[..|events| - 1]) + if e.DeltaOf? then Tag(e.role, e.text) else []
  }

  const ELLIPSIS := "..."

  /** The text of a done or discarded entry without the mark of an interruption. */
  function Text(e: Event): string
    requires e.DoneWith? || e.Discarded?
  {
    if e.DoneWith? && e.cutOff && |ELLIPSIS| <= |e.text| then e.text[..|e.text| - |ELLIPSIS|] else e.text
  }

  /** What was handed on as finished, or discarded. */
  function Settled(events: seq<Event>): seq<Tagged> {
    if events == [] then []
    else
      var e := events[|events| - 1];
      Settled(events[..|events| - 1]) + if e.DoneWith? || e.Discarded? then Tag(e.role, Text(e)) else []
  }

  /** What arrived is what settled, then one speaker's buffer. */
  ghost predicate Balanced(events: seq<Event>, role: Role, buffer: string) {
    Arrived(events) == Settled(events) + Tag(role, buffer)
  }

  ghost predicate Conserved(s: State) {
    && (s.user == "" || s.assistant == "")
    && (s.assistant == "" ==> Balanced(s.events, User, s.user))
    && (s.user == "" ==> Balanced(s.events, Assistant, s.assistant))
  }

  lemma EventAppended(events: seq<Event>, e: Event)
    ensures Arrived(events + [e]) == Arrived(events) + if e.DeltaOf? then Tag(e.role, e.text) else []
    ensures Settled(events + [e]) == Settled(events) + if e.DoneWith? || e.Discarded? then Tag(e.role, Text(e)) else []
  {
    assert (events + [e])[..|events|] == events;
  }

  /** An empty buffer belongs to either speaker. */
  lemma EmptyBuffer(events: seq<Event>, role: Role, other: Role)
    requires Balanced(events, role, "")
    ensures Balanced(events, other, "")
  {
    assert Tag(role, "") == Tag(other, "");
  }

  lemma BufferExtended(events: seq<Event>, role: Role, buffer: string, text: string)
    requires Balanced(events, role, buffer)
    ensures Balanced(events + [DeltaOf(role, text)], role, buffer + text)
  {
    EventAppended(events, DeltaOf(role, text));
    assert Tag(role, buffer + text) == Tag(role, buffer) + Tag(role, text);
  }

  lemma BufferSettled(events: seq<Event>, e: Event, buffer: string)
    requires e.DoneWith? || e.Discarded?
    requires Balanced(events, e.role, buffer) && Text(e) == buffer
    ensures Balanced(events + [e], e.role, "")
  {
    EventAppended(events, e);
    assert Tag(e.role, "") == [];
  }

  lemma FlushUserConserves(s: State)
    requires Conserved(s)
    ensures Conserved(FlushUser(s))
  {
    if s.user != "" {
      BufferSettled(s.events, DoneWith(User, s.user, false), s.user);
      EmptyBuffer(FlushUser(s).events, User, Assistant);
    }
  }

  lemma FlushAssistantConserves(s: State, cutOff: bool)
    requires Conserved(s)
    ensures Conserved(FlushAssistant(s, cutOff))
  {
    if s.assistant != "" {
      var text := if cutOff then s.assistant + ELLIPSIS else s.assistant;
      assert cutOff ==> text[..|text| - |ELLIPSIS|] == s.assistant;
      BufferSettled(s.events, DoneWith(Assistant, text, cutOff), s.assistant);
      EmptyBuffer(FlushAssistant(s, cutOff).events, Assistant, User);
    }
  }

  lemma MarkerConserves(s: State, e: Event, userSpeaking: bool)
    requires Conserved(s) && (e.TurnStarted? || e.TurnEnded?)
    ensures Conserved(s.(events := s.events + [e], userSpeaking := userSpeaking))
  {
    EventAppended(s.events, e);
  }

  lemma OutputConserves(s: State, text: string)
    requires Conserved(s)
    ensures Conserved(Output(s, text))
  {
    if text != "" {
      FlushUserConserves(s);
      BufferExtended(FlushUser(s).events, Assistant, s.assistant, text);
    }
  }

  lemma InputConserves(s: State, text: string)
    requires Conserved(s)
    ensures Conserved(Input(s, text))
  {
    if text != "" {
      var started := if s.userSpeaking then s else s.(userSpeaking := true, events := s.events + [TurnStarted]);
      if !s.userSpeaking { MarkerConserves(s, TurnStarted, true); }
      FlushAssistantConserves(started, false);
      BufferExtended(FlushAssistant(started, false).events, User, s.user, text);
    }
  }

  lemma EndConserves(s: State)
    requires Conserved(s)
    ensures Conserved(TurnComplete(s)) && Conserved(Interrupted(s))
  {
    FlushUserConserves(s);
    FlushAssistantConserves(FlushUser(s), false);
    FlushAssistantConserves(FlushUser(s), true);
    MarkerConserves(FlushAssistant(FlushUser(s), false), TurnEnded, false);
  }

  lemma HandleConserves(s: State, c: Content)
    requires Conserved(s)
    ensures Conserved(Handle(s, c))
  {
    var open := Play(ReopenMicrophone(s, c), c);
    OutputConserves(open, c.output);
    InputConserves(Output(open, c.output), c.input);
    var heard := Input(Output(open, c.output), c.input);
    EndConserves(heard);
    EndConserves(if c.turnComplete then TurnComplete(heard) else heard);
  }

  lemma CleanupConserves(s: State)
    requires Conserved(s)
    ensures Conserved(Cleanup(s))
  {
    if s.user != "" {
      BufferSettled(s.events, Discarded(User, s.user), s.user);
      EmptyBuffer(s.events + [Discarded(User, s.user)], User, Assistant);
    } else if s.assistant != "" {
      BufferSettled(s.events, Discarded(Assistant, s.assistant), s.assistant);
      EmptyBuffer(s.events + [Discarded(Assistant, s.assistant)], Assistant, User);
    }
    assert Cleanup(s).events == if s.user != "" then s.events + [Discarded(User, s.user)]
                                else if s.assistant != "" then s.events + [Discarded(Assistant, s.assistant)] else s.events;
  }

  /** In every run the deltas, tagged with their speaker, are the finished texts in order (an
      interrupted one without its mark), then the one buffer that is not empty. */
  lemma {:induction false} TranscriptIsConserved(steps: seq<Step>)
    ensures Conserved(Run(steps))
    ensures var s := Run(steps);
            (s.user == "" || s.assistant == "")
            && Arrived(s.events) == Settled(s.events) + (Tag(User, s.user) + Tag(Assistant, s.assistant))
  {
    assert Tag(User, Run(steps).user) + [] == Tag(User, Run(steps).user);
    assert [] + Tag(Assistant, Run(steps).assistant) == Tag(Assistant, Run(steps).assistant);
    assert Tag(User, "") == [] && Tag(Assistant, "") == [];
    if steps == [] {
      assert Tag(User, "") == [] && Tag(Assistant, "") == [];
    } else {
      var s := Run(steps[..|steps| - 1]);
      TranscriptIsConserved(steps[..|steps| - 1]);
      match steps[|steps| - 1]
      case Message(c) => HandleConserves(s, c);
      case MicrophoneFrame =>
      case Closing => CleanupConserves(s);
    }
  }

  /** When a message ends or interrupts the turn, everything that arrived has been handed on. */
  lemma EndedTurnIsSettled(steps: seq<Step>, c: Content)
    requires c.turnComplete || c.interrupted
    ensures var s := Run(steps + [Message(c)]); Arrived(s.events) == Settled(s.events)
  {
    assert (steps + [Message(c)])[..|steps|] == steps;
    TranscriptIsConserved(steps + [Message(c)]);
    assert Tag(User, "") == [];
    assert Run(steps + [Message(c)]).user == "" && Run(steps + [Message(c)]).assistant == "";
  }

  lemma TextLeavesGate(s: State, text: string)
    ensures Output(s, text).assistantSpeaking == s.assistantSpeaking && Output(s, text).droppedFrames == s.droppedFrames
    ensures Input(s, text).assistantSpeaking == s.assistantSpeaking && Input(s, text).droppedFrames == s.droppedFrames
  {
  }

  lemma EndingLeavesGate(s: State)
    ensures TurnComplete(s).assistantSpeaking == s.assistantSpeaking && TurnComplete(s).droppedFrames == s.droppedFrames
    ensures Interrupted(s).assistantSpeaking == s.assistantSpeaking && Interrupted(s).droppedFrames == s.droppedFrames
  {
  }

  /** The gate is closed after a message exactly if the message brought audio, or it was closed
      before and the message did not end the model's speech. */
  lemma GateFollowsSpeech(s: State, c: Content)
    ensures Handle(s, c).assistantSpeaking <==> HasAudio(c) || (s.assistantSpeaking && !EndsSpeech(c))
    ensures Handle(s, c).droppedFrames == if s.assistantSpeaking && EndsSpeech(c) then 0 else s.droppedFrames
  {
    var open := Play(ReopenMicrophone(s, c), c);
    var heard := Input(Output(open, c.output), c.input);
    assert heard.assistantSpeaking == open.assistantSpeaking && heard.droppedFrames == open.droppedFrames by {
      TextLeavesGate(open, c.output);
      TextLeavesGate(Output(open, c.output), c.input);
    }
    EndingLeavesGate(heard);
    EndingLeavesGate(TurnComplete(heard));
  }

  /** Frames are counted as dropped only since the gate was last closed. */
  lemma {:induction false} OpenGateDropsNothing(steps: seq<Step>)
    ensures !Run(steps).assistantSpeaking ==> Run(steps).droppedFrames == 0
  {
    if steps != [] {
      OpenGateDropsNothing(steps[..|steps| - 1]);
      if steps[|steps| - 1].Message? {
        GateFollowsSpeech(Run(steps[..|steps| - 1]), steps[|steps| - 1].content);
      }
    }
  }
}
