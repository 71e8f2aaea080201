/** The pipeline's refs and callbacks, and the listeners of one completion stream, as objects
    that update their fields; each method is proved against VoicePipeline. */
module PipelineHook {
  import opened Options
  import opened Texts
  import opened VoicePipeline

  class PipelineRefs {
    var isActive: bool
    var activeTurnId: TurnId
    var pendingTTSCount: nat
    var isStreamComplete: bool
    var sentenceBuffer: string
    var fullResponse: map<TurnId, string>
    var calls: set<TurnId>
    var stopCompletion: Option<TurnId>
    var said: seq<Piece>
    var restarts: nat

    function View(): Pipe
      reads this
    {
      Pipe(isActive, activeTurnId, pendingTTSCount, isStreamComplete, sentenceBuffer, fullResponse, calls,
           stopCompletion, said, restarts)
    }

    constructor ()
      ensures View() == IDLE
    {
      isActive, activeTurnId, pendingTTSCount, isStreamComplete := false, 0, 0, false;
      sentenceBuffer, fullResponse, calls, stopCompletion, said, restarts := "", map[], {}, None, [], 0;
    }

    method ClearBuffer()
      modifies this`sentenceBuffer, this`said
      ensures View() == Wipe(old(View()))
    {
      if sentenceBuffer != "" {
        said := said + [Wiped(sentenceBuffer)];
      }
      sentenceBuffer := "";
    }

    method RestartSTTIfReady()
      modifies this
      ensures View() == RestartIfReady(old(View()))
    {
      if !isActive { return; }
      if !isStreamComplete { return; }
      if pendingTTSCount > 0 { return; }
      isStreamComplete := false;
      ClearBuffer();
      restarts := restarts + 1;
    }

    method SpeakSentence(sentence: string)
      requires sentence != ""
      modifies this`pendingTTSCount, this`said
      ensures View() == Speak(old(View()), sentence)
    {
      pendingTTSCount := pendingTTSCount + 1;
      said := said + [Spoken(sentence)];
    }

    method FlushSentenceBuffer()
      modifies this`pendingTTSCount, this`said, this`sentenceBuffer
      ensures View() == Flush(old(View()))
    {
      var remaining := Trim(sentenceBuffer);
      sentenceBuffer := "";
      if remaining != "" {
        SpeakSentence(remaining);
      }
    }

    /** Scans back for the last sentence ending. */
    static method LastEndingIndex(buf: string) returns (lastIdx: int)
      ensures lastIdx == LastEnding(buf)
    {
      lastIdx := -1;
      var i := |buf| - 1;
      assert buf[..|buf|] == buf;
      while i >= 0
        invariant -1 <= i < |buf| && lastIdx == -1
        invariant LastEnding(buf) == LastEnding(buf[..i + 1])
      {
        assert buf[..i + 1][..i] == buf[..i];
        if buf[i] in SENTENCE_ENDINGS {
          lastIdx := i;
          break;
        }
        i := i - 1;
      }
    }

    method SpeakThrough(lastIdx: int)
      requires -1 <= lastIdx < |sentenceBuffer|
      modifies this`pendingTTSCount, this`said, this`sentenceBuffer
      ensures View() == SpeakUpTo(old(View()), lastIdx)
    {
      if lastIdx == -1 { return; }
      var sentence := Trim(sentenceBuffer[..lastIdx + 1]);
      sentenceBuffer := sentenceBuffer[lastIdx + 1..];
      if sentence != "" {
        SpeakSentence(sentence);
      }
    }

    method TrySpeakCompleteSentences()
      modifies this`pendingTTSCount, this`said, this`sentenceBuffer
      ensures View() == SpeakSentences(old(View()))
    {
      var lastIdx := LastEndingIndex(sentenceBuffer);
      SpeakThrough(lastIdx);
    }

    method OnTokenReceived(turnId: TurnId, text: string)
      requires turnId in fullResponse
      modifies this
      ensures View() == OnToken(old(View()), turnId, text)
    {
      if turnId != activeTurnId { return; }
      if !isActive { return; }
      var known := |fullResponse[turnId]|;
      var newChars := if known <= |text| then text[known..] else "";
      fullResponse := fullResponse[turnId := text];
      sentenceBuffer := sentenceBuffer + newChars;
      TrySpeakCompleteSentences();
    }

    method OnCompletionDone(turnId: TurnId)
      modifies this
      ensures View() == OnDone(old(View()), turnId)
    {
      if turnId != activeTurnId { return; }
      if !isActive { return; }
      isStreamComplete := true;
      FlushSentenceBuffer();
      RestartSTTIfReady();
    }

    method OnCompletionError(turnId: TurnId)
      modifies this
      ensures View() == OnError(old(View()), turnId)
    {
      if turnId != activeTurnId { return; }
      if !isActive { return; }
      isStreamComplete := true;
      RestartSTTIfReady();
    }

    /** Supersedes the turn and hands back the completion to stop. */
    method CancelTurn() returns (stopped: Option<TurnId>)
      modifies this
      ensures stopped == old(stopCompletion)
      ensures View() == NextTurn(old(View()))
    {
      activeTurnId := activeTurnId + 1;
      stopped := stopCompletion;
      stopCompletion := None;
      pendingTTSCount := 0;
      sentenceBuffer := "";
      said, restarts := [], 0;
    }

    method CallAPI()
      modifies this
      ensures View() == var q := NextTurn(old(View())).(stopper := old(stopCompletion));
                        q.(complete := false, calls := q.calls + {q.turn})
    {
      activeTurnId := activeTurnId + 1;
      sentenceBuffer := "";
      pendingTTSCount := 0;
      isStreamComplete := false;
      said, restarts := [], 0;
      calls := calls + {activeTurnId};
    }

    method OnFinalTranscript() returns (stopped: Option<TurnId>)
      requires isActive
      modifies this
      ensures stopped == old(stopCompletion)
      ensures View() == FinalTranscript(old(View()))
    {
      stopped := CancelTurn();
      CallAPI();
    }

    method OnBargeIn() returns (stopped: Option<TurnId>)
      requires isActive
      modifies this
      ensures stopped == old(stopCompletion)
      ensures View() == BargeIn(old(View()))
    {
      stopped := CancelTurn();
      isStreamComplete := false;
    }

    method Interrupt() returns (stopped: Option<TurnId>)
      modifies this
      ensures stopped == if old(isActive) then old(stopCompletion) else None
      ensures View() == BargeIn(old(View()))
    {
      if !isActive { return None; }
      stopped := CancelTurn();
      isStreamComplete := false;
    }

    /** onTTSComplete, and onError of the native module. */
    method OnSpeechEnded()
      requires isActive
      modifies this
      ensures View() == SpeechEnded(old(View()))
    {
      pendingTTSCount := if pendingTTSCount > 0 then pendingTTSCount - 1 else 0;
      RestartSTTIfReady();
    }

    method StartSession()
      modifies this
      ensures View() == Start(old(View()))
    {
      isActive := true;
      pendingTTSCount := 0;
      isStreamComplete := false;
      ClearBuffer();
    }

    method StopSession() returns (stopped: Option<TurnId>)
      modifies this
      ensures stopped == old(stopCompletion)
      ensures View() == Stop(old(View()))
    {
      isActive := false;
      stopped := CancelTurn();
      isStreamComplete := false;
    }
  }

  /** What a listener of the stream tells the pipeline. */
  datatype Callback = Quiet | Token(fullText: string) | Done(text: string) | FetchFallback | Error

  class StreamListeners {
    var fullText: string
    var didFinish: bool
    var closed: bool
    var outcome: Outcome

    function View(): Stream
      reads this
    {
      Stream(fullText, didFinish, closed, outcome)
    }

    constructor ()
      ensures View() == Stream("", false, false, Running)
    {
      fullText, didFinish, closed, outcome := "", false, false, Running;
    }

    method OnMessage(delta: string) returns (callback: Callback)
      requires !closed
      modifies this
      ensures callback == if delta == "" then Quiet else Token(old(fullText) + delta)
      ensures View() == if delta == "" then old(View()) else VoicePipeline.Delta(old(View()), delta)
    {
      if delta == "" { return Quiet; }
      fullText := fullText + delta;
      callback := Token(fullText);
    }

    method OnDoneMessage() returns (callback: Callback)
      requires !closed
      modifies this
      ensures callback == if old(didFinish) then Quiet
                          else if !Blank(old(fullText)) then Done(old(fullText)) else FetchFallback
      ensures View() == if old(didFinish) then old(View()).(closed := true) else DoneMarker(old(View()))
    {
      closed := true;
      if didFinish { return Quiet; }
      didFinish := true;
      if Trim(fullText) != "" {
        outcome := Answered;
        return Done(fullText);
      }
      outcome := AwaitingFallback;
      callback := FetchFallback;
    }

    method OnStreamError() returns (callback: Callback)
      modifies this
      ensures callback == if old(didFinish) then Quiet else Error
      ensures View() == if old(didFinish) then old(View())
                        else old(View()).(didFinish := true, closed := true, outcome := Failed)
    {
      if didFinish { return Quiet; }
      didFinish, closed, outcome := true, true, Failed;
      callback := Error;
    }
  }
}
