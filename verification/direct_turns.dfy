/** The turn events and interruption marks of a direct call, counted by message. */
module DirectTurns {
  import opened DirectTranscript

  function Count(events: seq<Event>, counts: Event -> bool): nat {
    if events == [] then 0
    else Count(events[..|events| - 1], counts) + if counts(events[|events| - 1]) then 1 else 0
  }

  predicate StartsTurn(e: Event) { e.TurnStarted? }
  predicate EndsTurn(e: Event) { e.TurnEnded? }
  predicate IsCutOff(e: Event) { e.DoneWith? && e.cutOff }

  lemma CountOneMore(events: seq<Event>, e: Event, counts: Event -> bool)
    ensures Count(events + [e], counts) == Count(events, counts) + if counts(e) then 1 else 0
  {
    assert (events + [e])[..|events|] == events;
  }

  /** Turns started and ended, and replies cut off, so far. */
  function Tally(s: State): (nat, nat, nat) {
    (Count(s.events, StartsTurn), Count(s.events, EndsTurn), Count(s.events, IsCutOff))
  }

  lemma TallyOneMore(s: State, e: Event)
    ensures var t := Tally(s.(events := s.events + [e]));
            t == (Tally(s).0 + (if e.TurnStarted? then 1 else 0), Tally(s).1 + (if e.TurnEnded? then 1 else 0),
                  Tally(s).2 + if e.DoneWith? && e.cutOff then 1 else 0)
  {
    CountOneMore(s.events, e, StartsTurn);
    CountOneMore(s.events, e, EndsTurn);
    CountOneMore(s.events, e, IsCutOff);
  }

  lemma FlushTally(s: State, cutOff: bool)
    ensures Tally(FlushUser(s)) == Tally(s)
    ensures Tally(FlushAssistant(s, cutOff)) == (Tally(s).0, Tally(s).1, Tally(s).2 + if s.assistant != "" && cutOff then 1 else 0)
  {
    TallyOneMore(s, DoneWith(User, s.user, false));
    TallyOneMore(s, DoneWith(Assistant, if cutOff then s.assistant + "..." else s.assistant, cutOff));
  }

  lemma OutputTally(s: State, text: string)
    ensures Tally(Output(s, text)) == Tally(s)
  {
    if text != "" {
      var t := FlushUser(s).(userSpeaking := false);
      FlushTally(s, false);
      TallyOneMore(t, DeltaOf(Assistant, text));
    }
  }

  lemma InputTally(s: State, text: string)
    ensures Tally(Input(s, text)) == (Tally(s).0 + (if text != "" && !s.userSpeaking then 1 else 0), Tally(s).1, Tally(s).2)
  {
    if text != "" {
      var started := if s.userSpeaking then s else s.(userSpeaking := true, events := s.events + [TurnStarted]);
      TallyOneMore(s, TurnStarted);
      FlushTally(started, false);
      TallyOneMore(FlushAssistant(started, false), DeltaOf(User, text));
    }
  }

  lemma TurnCompleteTally(s: State)
    ensures Tally(TurnComplete(s)) == (Tally(s).0, Tally(s).1 + 1, Tally(s).2)
  {
    FlushTally(s, false);
    FlushTally(FlushUser(s), false);
    TallyOneMore(FlushAssistant(FlushUser(s), false), TurnEnded);
  }

  lemma InterruptedTally(s: State)
    ensures Tally(Interrupted(s)) == (Tally(s).0, Tally(s).1, Tally(s).2 + if s.assistant != "" then 1 else 0)
  {
    FlushTally(s, true);
    FlushTally(FlushUser(s), true);
  }

  /** The state once a message's texts are taken in. */
  function Heard(s: State, c: Content): State {
    Input(Output(Play(ReopenMicrophone(s, c), c), c.output), c.input)
  }

  /** The reply a message leaves unfinished before it ends or interrupts anything. */
  function Reply(s: State, c: Content): string {
    if c.input != "" then "" else s.assistant + c.output
  }

  lemma HeardTally(s: State, c: Content)
    ensures Tally(Heard(s, c))
            == (Tally(s).0 + (if c.input != "" && (c.output != "" || !s.userSpeaking) then 1 else 0), Tally(s).1, Tally(s).2)
  {
    var open := Play(ReopenMicrophone(s, c), c);
    OutputTally(open, c.output);
    InputTally(Output(open, c.output), c.input);
  }

  lemma HeardReply(s: State, c: Content)
    ensures Heard(s, c).assistant == Reply(s, c)
    ensures Heard(s, c).userSpeaking == if c.input != "" then true else if c.output != "" then false else s.userSpeaking
  {
    assert s.assistant + "" == s.assistant;
  }

  /** A message starts a turn exactly if it brings words of the user who was not speaking, or was
      just answered; it ends one exactly if it completes the turn; and it cuts a reply off exactly if
      it interrupts one that is left unfinished and not completed by it. */
  lemma MessageTally(s: State, c: Content)
    ensures Tally(Handle(s, c))
            == (Tally(s).0 + (if c.input != "" && (c.output != "" || !s.userSpeaking) then 1 else 0),
                Tally(s).1 + (if c.turnComplete then 1 else 0),
                Tally(s).2 + if c.interrupted && !c.turnComplete && Reply(s, c) != "" then 1 else 0)
  {
    var heard := Heard(s, c);
    HeardTally(s, c);
    HeardReply(s, c);
    TurnCompleteTally(heard);
    InterruptedTally(heard);
    InterruptedTally(TurnComplete(heard));
  }

  /** The interrupted reply is handed on with the mark behind it, last of all. */
  lemma InterruptionIsMarked(s: State, c: Content)
    requires c.interrupted && !c.turnComplete && Reply(s, c) != ""
    ensures var events := Handle(s, c).events;
            events != [] && events[|events| - 1] == DoneWith(Assistant, Reply(s, c) + "...", true)
  {
    HeardReply(s, c);
  }

  /** What the messages say of who is speaking. */
  function UserSpeaks(steps: seq<Step>): bool {
    if steps == [] then false
    else
      var before := UserSpeaks(steps[..|steps| - 1]);
      match steps[|steps| - 1]
      case Message(c) =>
        if c.turnComplete then false else if c.input != "" then true else if c.output != "" then false else before
      case MicrophoneFrame => before
      case Closing => false
  }

  lemma {:induction false} SpeakerFollowsMessages(steps: seq<Step>)
    ensures Run(steps).userSpeaking == UserSpeaks(steps)
  {
    if steps != [] {
      SpeakerFollowsMessages(steps[..|steps| - 1]);
      if steps[|steps| - 1].Message? { HeardReply(Run(steps[..|steps| - 1]), steps[|steps| - 1].content); }
    }
  }
}
