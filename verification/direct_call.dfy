/** The refs of a direct Gemini call, updated message by message; proved against DirectTranscript. */
module DirectCalls {
  import opened DirectTranscript

  class DirectCall {
    var currentUserText: string
    var currentAssistantText: string
    var userSpeaking: bool
    var assistantSpeaking: bool
    var droppedMicFrames: nat
    var events: seq<Event>

    function View(): State
      reads this
    {
      State(currentUserText, currentAssistantText, userSpeaking, assistantSpeaking, droppedMicFrames, events)
    }

    constructor ()
      ensures View() == INITIAL
    {
      currentUserText, currentAssistantText, userSpeaking := "", "", false;
      assistantSpeaking, droppedMicFrames, events := false, 0, [];
    }

    method Emit(e: Event)
      modifies this`events
      ensures events == old(events) + [e]
    {
      events := events + [e];
    }

    method DoneUser()
      modifies this
      ensures View() == FlushUser(old(View()))
    {
      if currentUserText != "" {
        Emit(DoneWith(User, currentUserText, false));
        currentUserText := "";
      }
    }

    method DoneAssistant(cutOff: bool)
      modifies this
      ensures View() == FlushAssistant(old(View()), cutOff)
    {
      if currentAssistantText != "" {
        Emit(DoneWith(Assistant, if cutOff then currentAssistantText + "..." else currentAssistantText, cutOff));
        currentAssistantText := "";
      }
    }

    method PlayParts(c: Content)
      modifies this`assistantSpeaking
      ensures View() == Play(old(View()), c)
    {
      for i := 0 to |c.audio|
        invariant assistantSpeaking == (old(assistantSpeaking) || exists j | 0 <= j < i :: c.audio[j] != "")
      {
        if c.audio[i] != "" {
          assistantSpeaking := true;
        }
      }
    }

    method OnOutput(text: string)
      modifies this
      ensures View() == Output(old(View()), text)
    {
      if text == "" { return; }
      DoneUser();
      userSpeaking := false;
      currentAssistantText := currentAssistantText + text;
      Emit(DeltaOf(Assistant, text));
    }

    method OnInput(text: string)
      modifies this
      ensures View() == Input(old(View()), text)
    {
      if text == "" { return; }
      if !userSpeaking {
        userSpeaking := true;
        Emit(TurnStarted);
      }
      DoneAssistant(false);
      currentUserText := currentUserText + text;
      Emit(DeltaOf(User, text));
    }

    method OnTurnComplete()
      modifies this
      ensures View() == TurnComplete(old(View()))
    {
      DoneUser();
      DoneAssistant(false);
      userSpeaking := false;
      Emit(TurnEnded);
    }

    method OnInterrupted()
      modifies this
      ensures View() == Interrupted(old(View()))
    {
      DoneUser();
      DoneAssistant(true);
    }

    method HandleServerContent(c: Content)
      modifies this
      ensures View() == Handle(old(View()), c)
    {
      if c.generationComplete || c.turnComplete || c.interrupted {
        if assistantSpeaking {
          assistantSpeaking := false;
          droppedMicFrames := 0;
        }
      }
      PlayParts(c);
      OnOutput(c.output);
      OnInput(c.input);
      if c.turnComplete {
        OnTurnComplete();
      }
      if c.interrupted {
        OnInterrupted();
      }
    }

    method OnAudioCaptured() returns (sent: bool)
      modifies this`droppedMicFrames
      ensures (View(), sent) == Capture(old(View()))
    {
      if assistantSpeaking {
        droppedMicFrames := droppedMicFrames + 1;
        return false;
      }
      sent := true;
    }

    method CleanUp()
      modifies this
      ensures View() == Cleanup(old(View()))
    {
      events := events + Discard(User, currentUserText) + Discard(Assistant, currentAssistantText);
      assistantSpeaking, droppedMicFrames := false, 0;
      currentUserText, currentAssistantText, userSpeaking := "", "", false;
    }
  }
}
