/**
 * The current browser client (frontend-web): the module-level state of its
 * script as the fields of one object. Network replies, clock readings,
 * user confirmations and browser-allocated handles (abort controllers,
 * media streams, recorders, audio elements) are parameters.
 */
module WebClient {
  import opened Wrappers
  import opened ChatTranscript
  import opened BackendReplies

  /**
   * What `sendToLLM` resolves to. The server's `latency.processing` is used
   * when truthy, else the elapsed time measured around the request; a
   * cancelled or failed request yields a fixed notice with latency 0.
   */
  function SendToLLMResult(outcome: Outcome<TextReply>, elapsedMs: int): (r: LlmResult)
    ensures outcome.Aborted? ==> r == LlmResult(CancelledText, 0)
    ensures outcome.Failed? ==> r == LlmResult(ErrorText, 0)
    ensures outcome.Answered? ==> r.response == TextOf(outcome.data.response)
    ensures outcome.Answered? ==> r.llmTime == if OrZero(outcome.data.processing) != 0 then outcome.data.processing.value else elapsedMs
  {
    match outcome
    case Answered(data) =>
      LlmResult(TextOf(data.response), if data.processing.Some? && data.processing.value != 0 then data.processing.value else elapsedMs)
    case Aborted => LlmResult(CancelledText, 0)
    case Failed => LlmResult(ErrorText, 0)
  }

  /** The latency display after a voice reply: the server's figures when it sent any, else the measured time. */
  function VoiceDisplay(reply: VoiceReply, totalMs: int, elapsedSttMs: int): (d: LatencyDisplay)
    ensures d.total == totalMs
    ensures reply.latency.None? ==> d == LatencyDisplay(totalMs, elapsedSttMs, 0, 0)
    ensures reply.latency.Some? ==> d.llm == OrZero(reply.latency.value.llm)
    ensures reply.latency.Some? ==> d.stt == OrZero(reply.latency.value.stt) && d.tts == OrZero(reply.latency.value.tts)
  {
    match reply.latency
    case Some(l) => LatencyDisplay(totalMs, OrZero(l.stt), OrZero(l.llm), OrZero(l.tts))
    case None => LatencyDisplay(totalMs, elapsedSttMs, 0, 0)
  }

  /** The inference latency recorded with a voice reply: `latency.llm` when truthy, else 0. */
  function VoiceLlmLatency(reply: VoiceReply): (ms: int)
    ensures ms != 0 ==> reply.latency.Some? && reply.latency.value.llm == Some(ms)
    ensures reply.latency.Some? && reply.latency.value.llm.Some? && reply.latency.value.llm.value != 0 ==>
      ms == reply.latency.value.llm.value
  {
    if reply.latency.Some? then OrZero(reply.latency.value.llm) else 0
  }

  /** `word` occurs in `s` starting at index `i`. */
  predicate OccursAt(s: string, word: string, i: int) {
    0 <= i && i + |word| <= |s| && s[i..i + |word|] == word
  }

  /** `String.prototype.includes`: `word` occurs somewhere in `s`. */
  predicate Includes(s: string, word: string) {
    exists i :: 0 <= i <= |s| - |word| && OccursAt(s, word, i)
  }

  /**
   * The test in `playTTS`'s catch that chooses the retry branch: the
   * rejection is a `NotAllowedError`, or its message mentions "play".
   */
  predicate RetriesOnGesture(errorName: string, errorMessage: string) {
    errorName == "NotAllowedError" || Includes(errorMessage, "play")
  }

  /** The message a browser gives when `pause()` interrupts a pending `play()`. */
  const InterruptedPlayMessage := "The " + "play" + "() request was interrupted by a call to pause()."

  /** A word between two strings is included in their concatenation. */
  lemma IncludedBetween(before: string, word: string, after: string)
    ensures Includes(before + word + after, word)
  {
    var s := before + word + after;
    assert s[|before|..|before| + |word|] == word;
    assert OccursAt(s, word, |before|);
  }

  /**
   * Not only a blocked autoplay takes the retry branch: the `AbortError` of a
   * `play()` interrupted by `pause()` mentions "play" and takes it too.
   */
  lemma InterruptedPlayRetries()
    ensures RetriesOnGesture("AbortError", InterruptedPlayMessage)
    ensures !RetriesOnGesture("AbortError", "")
  {
    IncludedBetween("The ", "play", "() request was interrupted by a call to pause().");
  }

  class Client {
    var conversationHistory: seq<Record>
    var isGeneratingResponse: bool
    var currentAbortController: Option<nat>
    /** Abort controllers are numbered in creation order. */
    var controllersCreated: nat
    var abortedControllers: set<nat>

    var isRecording: bool
    var mediaRecorder: Option<nat>
    var mediaStream: Option<nat>
    /** Media streams whose tracks were stopped, in order. */
    var releasedStreams: seq<nat>
    /** Recorders `stop()` was called on, in order; each stop triggers an upload. */
    var stoppedRecorders: seq<nat>

    var currentPlayingAudio: Option<nat>
    /** Audio elements paused to make room for another or on an explicit stop, in order. */
    var pausedAudio: seq<nat>

    ghost predicate Valid()
      reads this
    {
      && (forall c :: c in abortedControllers ==> c < controllersCreated)
      && (currentAbortController.Some? ==> currentAbortController.value < controllersCreated)
      && (isGeneratingResponse ==> currentAbortController.Some?)
      && (isRecording ==> mediaRecorder.Some?)
    }

    constructor ()
      ensures Valid()
      ensures conversationHistory == [] && !isGeneratingResponse && currentAbortController == None
      ensures controllersCreated == 0 && abortedControllers == {}
      ensures !isRecording && mediaRecorder == None && mediaStream == None
      ensures releasedStreams == [] && stoppedRecorders == []
      ensures currentPlayingAudio == None && pausedAudio == []
    {
      conversationHistory := [];
      isGeneratingResponse := false;
      currentAbortController := None;
      controllersCreated := 0;
      abortedControllers := {};
      isRecording := false;
      mediaRecorder := None;
      mediaStream := None;
      releasedStreams := [];
      stoppedRecorders := [];
      currentPlayingAudio := None;
      pausedAudio := [];
    }

    // -------------------------------------------------------------------
    // Transcript

    /** The history part of `addMessage`: push exactly one record. */
    method AddMessage(text: string, isUser: bool, llmTime: int, timestamp: string)
      modifies this`conversationHistory
      ensures conversationHistory == old(conversationHistory) + [MessageRecord(text, isUser, llmTime, timestamp)]
    {
      conversationHistory := conversationHistory + [Record(if isUser then User else Assistant, text, timestamp, llmTime)];
    }

    /** `clearChat`: the history is emptied only when the user confirms. */
    method ClearChat(confirmed: bool)
      modifies this`conversationHistory
      ensures conversationHistory == if confirmed then [] else old(conversationHistory)
    {
      if confirmed {
        conversationHistory := [];
      }
    }

    /** The greeting the page adds through `addMessage` half a second after it loads. */
    method Welcome(stamp: string)
      modifies this`conversationHistory
      ensures conversationHistory == old(conversationHistory) + [MessageRecord(WelcomeText, false, 0, stamp)]
    {
      AddMessage(WelcomeText, false, 0, stamp);
    }

    /** The text branch of `exportChat`. */
    method ExportChat(localize: string -> string, fixed2: (int, int) -> string) returns (content: string)
      ensures content == ExportText(conversationHistory, localize, fixed2)
    {
      content := ExportTextLoop(conversationHistory, localize, fixed2);
    }

    // -------------------------------------------------------------------
    // Text turns

    /**
     * `handleTextMessage` up to its `await`: a blank input changes nothing;
     * otherwise the generating flag is raised, the user's trimmed text is
     * recorded, and `sendToLLM` creates a fresh abort controller and sends.
     * Nothing checks whether a response is already being generated.
     */
    method BeginTextMessage(input: string, sentAt: string) returns (request: Option<nat>)
      requires Valid()
      modifies this`conversationHistory, this`isGeneratingResponse, this`currentAbortController, this`controllersCreated
      ensures Valid()
      ensures Trim(input) == [] ==>
        && request == None
        && conversationHistory == old(conversationHistory)
        && isGeneratingResponse == old(isGeneratingResponse)
        && currentAbortController == old(currentAbortController)
        && controllersCreated == old(controllersCreated)
      ensures Trim(input) != [] ==>
        && request == Some(old(controllersCreated))
        && isGeneratingResponse
        && conversationHistory == old(conversationHistory) + [MessageRecord(Trim(input), true, 0, sentAt)]
        && currentAbortController == request
        && controllersCreated == old(controllersCreated) + 1
    {
      var text := Trim(input);
      if text == [] {
        return None;
      }
      isGeneratingResponse := true;
      AddMessage(text, true, 0, sentAt);
      currentAbortController := Some(controllersCreated);
      request := currentAbortController;
      controllersCreated := controllersCreated + 1;
    }

    /**
     * `handleTextMessage` after its `await`: the assistant's record is
     * appended whatever the outcome (a cancelled request still adds the
     * cancellation notice) and the generating flag is lowered. The browser
     * settles a request as aborted exactly when its controller was aborted.
     */
    method FinishTextMessage(request: nat, outcome: Outcome<TextReply>, elapsedMs: int, totalMs: int, repliedAt: string)
      returns (result: LlmResult, shown: LatencyDisplay)
      requires Valid()
      requires request < controllersCreated
      requires request in abortedControllers <==> outcome.Aborted?
      modifies this`conversationHistory, this`isGeneratingResponse
      ensures Valid()
      ensures result == SendToLLMResult(outcome, elapsedMs)
      ensures shown == LatencyDisplay(totalMs, 0, result.llmTime, 0)
      ensures conversationHistory == old(conversationHistory) + [MessageRecord(result.response, false, result.llmTime, repliedAt)]
      ensures !isGeneratingResponse
    {
      match outcome {
        case Answered(data) =>
          var actualLlmTime := 0;
          if data.processing.Some? && data.processing.value != 0 {
            actualLlmTime := data.processing.value;
          } else {
            actualLlmTime := elapsedMs;
          }
          result := LlmResult(TextOf(data.response), actualLlmTime);
        case Aborted =>
          result := LlmResult(CancelledText, 0);
        case Failed =>
          result := LlmResult(ErrorText, 0);
      }
      shown := LatencyDisplay(totalMs, 0, result.llmTime, 0);
      AddMessage(result.response, false, result.llmTime, repliedAt);
      isGeneratingResponse := false;
    }

    /**
     * `stopGeneratingResponse`: only while generating with a controller,
     * abort the current controller and lower the flag. Afterwards the flag is
     * down, so a second call does nothing.
     */
    method StopGeneratingResponse()
      requires Valid()
      modifies this`isGeneratingResponse, this`abortedControllers
      ensures Valid()
      ensures !isGeneratingResponse
      ensures old(isGeneratingResponse) ==> abortedControllers == old(abortedControllers) + {old(currentAbortController).value}
      ensures !old(isGeneratingResponse) ==> abortedControllers == old(abortedControllers)
    {
      if isGeneratingResponse && currentAbortController.Some? {
        abortedControllers := abortedControllers + {currentAbortController.value};
        isGeneratingResponse := false;
      }
    }

    /**
     * A whole text turn. `Aborted` stands for the user pressing stop while
     * the reply is awaited. A non-blank input always adds the user's record
     * and then exactly one assistant record, and ends with the flag down.
     */
    method HandleTextMessage(input: string, outcome: Outcome<TextReply>, elapsedMs: int, totalMs: int, sentAt: string, repliedAt: string)
      returns (shown: Option<LatencyDisplay>)
      requires Valid()
      modifies this`conversationHistory, this`isGeneratingResponse, this`currentAbortController, this`controllersCreated, this`abortedControllers
      ensures Valid()
      ensures Trim(input) == [] ==>
        && shown == None
        && conversationHistory == old(conversationHistory)
        && isGeneratingResponse == old(isGeneratingResponse)
        && currentAbortController == old(currentAbortController)
        && controllersCreated == old(controllersCreated)
        && abortedControllers == old(abortedControllers)
      ensures Trim(input) != [] ==>
        && controllersCreated == old(controllersCreated) + 1
        && currentAbortController == Some(old(controllersCreated))
        && abortedControllers == old(abortedControllers) + (if outcome.Aborted? then {old(controllersCreated)} else {})
      ensures Trim(input) != [] ==>
        var result := SendToLLMResult(outcome, elapsedMs);
        && shown == Some(LatencyDisplay(totalMs, 0, result.llmTime, 0))
        && conversationHistory == old(conversationHistory) + [
             MessageRecord(Trim(input), true, 0, sentAt),
             MessageRecord(result.response, false, result.llmTime, repliedAt)]
        && !isGeneratingResponse
    {
      var request := BeginTextMessage(input, sentAt);
      if request == None {
        return None;
      }
      ghost var sent := conversationHistory;
      var display := AwaitReply(request.value, outcome, elapsedMs, totalMs, repliedAt);
      ghost var result := SendToLLMResult(outcome, elapsedMs);
      assert conversationHistory == sent + [MessageRecord(result.response, false, result.llmTime, repliedAt)];
      shown := Some(display);
    }

    /**
     * The `await` of `handleTextMessage` for the request just sent: the
     * user may press stop meanwhile (`Aborted`), then the reply is recorded.
     */
    method AwaitReply(request: nat, outcome: Outcome<TextReply>, elapsedMs: int, totalMs: int, repliedAt: string)
      returns (shown: LatencyDisplay)
      requires Valid()
      requires isGeneratingResponse && currentAbortController == Some(request) && request !in abortedControllers
      modifies this`conversationHistory, this`isGeneratingResponse, this`abortedControllers
      ensures Valid()
      ensures abortedControllers == old(abortedControllers) + (if outcome.Aborted? then {request} else {})
      ensures var result := SendToLLMResult(outcome, elapsedMs);
        && shown == LatencyDisplay(totalMs, 0, result.llmTime, 0)
        && conversationHistory == old(conversationHistory) + [MessageRecord(result.response, false, result.llmTime, repliedAt)]
      ensures !isGeneratingResponse
    {
      if outcome.Aborted? {
        StopGeneratingResponse();
      }
      var _, display := FinishTextMessage(request, outcome, elapsedMs, totalMs, repliedAt);
      shown := display;
    }

    // -------------------------------------------------------------------
    // Recording

    /**
     * `startRecording`: the previous media stream's tracks are stopped before
     * a new one is requested; when permission is granted a new recorder
     * starts with no chunks, otherwise recording stays off.
     */
    method StartRecording(granted: bool, stream: nat, recorder: nat)
      requires Valid()
      modifies this`mediaStream, this`releasedStreams, this`mediaRecorder, this`isRecording
      ensures Valid()
      ensures releasedStreams == old(releasedStreams) + (if old(mediaStream).Some? then [old(mediaStream).value] else [])
      ensures granted ==> mediaStream == Some(stream) && mediaRecorder == Some(recorder) && isRecording
      ensures !granted ==> mediaStream == None && mediaRecorder == old(mediaRecorder) && isRecording == old(isRecording)
    {
      if mediaStream.Some? {
        releasedStreams := releasedStreams + [mediaStream.value];
        mediaStream := None;
      }
      if !granted {
        return;
      }
      mediaStream := Some(stream);
      mediaRecorder := Some(recorder);
      isRecording := true;
    }

    /**
     * `stopRecording`: only with a recorder and while recording, stop the
     * recorder (which uploads what it captured) and clear the flag. The
     * microphone stream is not released.
     */
    method StopRecording() returns (stopped: bool)
      requires Valid()
      modifies this`isRecording, this`stoppedRecorders
      ensures Valid()
      ensures stopped == (old(mediaRecorder).Some? && old(isRecording))
      ensures !isRecording
      ensures stoppedRecorders == old(stoppedRecorders) + (if stopped then [mediaRecorder.value] else [])
    {
      stopped := false;
      if mediaRecorder.Some? && isRecording {
        stoppedRecorders := stoppedRecorders + [mediaRecorder.value];
        isRecording := false;
        stopped := true;
      }
    }

    /** `toggleRecording`: stop when recording, else start. */
    method ToggleRecording(granted: bool, stream: nat, recorder: nat)
      requires Valid()
      modifies this`mediaStream, this`releasedStreams, this`mediaRecorder, this`isRecording, this`stoppedRecorders
      ensures Valid()
      ensures old(isRecording) ==>
        !isRecording && stoppedRecorders == old(stoppedRecorders) + [old(mediaRecorder).value] && mediaStream == old(mediaStream)
      ensures old(isRecording) ==> releasedStreams == old(releasedStreams) && mediaRecorder == old(mediaRecorder)
      ensures !old(isRecording) ==> stoppedRecorders == old(stoppedRecorders) && isRecording == granted
      ensures !old(isRecording) ==>
        releasedStreams == old(releasedStreams) + (if old(mediaStream).Some? then [old(mediaStream).value] else [])
      ensures !old(isRecording) && granted ==> mediaStream == Some(stream) && mediaRecorder == Some(recorder)
      ensures !old(isRecording) && !granted ==> mediaStream == None && mediaRecorder == old(mediaRecorder)
    {
      if isRecording {
        var _ := StopRecording();
      } else {
        StartRecording(granted, stream, recorder);
      }
    }

    // -------------------------------------------------------------------
    // Voice turns and playback

    /**
     * The history part of `sendAudioToBackend`. A parsed reply with status
     * "success" appends the transcription as the user's turn and the reply
     * as the assistant's, carrying `latency.llm` (or 0), and starts playback
     * when a TTS file is named; any other status, or a failed request,
     * appends nothing.
     */
    method SendAudioToBackend(outcome: Outcome<VoiceReply>, elapsedSttMs: int, totalMs: int, userStamp: string, aiStamp: string, audio: nat)
      returns (shown: Option<LatencyDisplay>)
      requires audio !in pausedAudio && currentPlayingAudio != Some(audio)
      modifies this`conversationHistory, this`currentPlayingAudio, this`pausedAudio
      ensures outcome.Answered? ==> shown == Some(VoiceDisplay(outcome.data, totalMs, elapsedSttMs))
      ensures !outcome.Answered? ==> shown == None
      ensures outcome.Answered? && outcome.data.status == Some(SuccessStatus) ==>
        conversationHistory == old(conversationHistory) + VoiceTurn(outcome.data, VoiceLlmLatency(outcome.data), userStamp, aiStamp)
      ensures !(outcome.Answered? && outcome.data.status == Some(SuccessStatus)) ==>
        conversationHistory == old(conversationHistory)
      ensures outcome.Answered? && outcome.data.status == Some(SuccessStatus) && Truthy(outcome.data.ttsFile) ==>
        && currentPlayingAudio == Some(audio)
        && pausedAudio == old(pausedAudio) + (if old(currentPlayingAudio).Some? then [old(currentPlayingAudio).value] else [])
      ensures !(outcome.Answered? && outcome.data.status == Some(SuccessStatus) && Truthy(outcome.data.ttsFile)) ==>
        currentPlayingAudio == old(currentPlayingAudio) && pausedAudio == old(pausedAudio)
    {
      if !outcome.Answered? {
        return None;
      }
      var data := outcome.data;
      var llmLatency := 0;
      if data.latency.Some? && data.latency.value.llm.Some? && data.latency.value.llm.value != 0 {
        llmLatency := data.latency.value.llm.value;
      }
      if data.latency.Some? {
        shown := Some(LatencyDisplay(totalMs, OrZero(data.latency.value.stt), llmLatency, OrZero(data.latency.value.tts)));
      } else {
        shown := Some(LatencyDisplay(totalMs, elapsedSttMs, 0, 0));
      }
      if data.status == Some(SuccessStatus) {
        AddMessage(YouSaidPrefix + TextOf(data.transcription), true, 0, userStamp);
        AddMessage(TextOf(data.response), false, llmLatency, aiStamp);
        if data.ttsFile.Some? && data.ttsFile.value != "" {
          PlayTTS(audio);
        }
      }
    }

    /**
     * The synchronous part of `playTTS`: pause and drop the audio that is
     * playing, then install the new element as the single current one.
     */
    method PlayTTS(audio: nat)
      requires audio !in pausedAudio && currentPlayingAudio != Some(audio)
      modifies this`currentPlayingAudio, this`pausedAudio
      ensures currentPlayingAudio == Some(audio)
      ensures pausedAudio == old(pausedAudio) + (if old(currentPlayingAudio).Some? then [old(currentPlayingAudio).value] else [])
      ensures audio !in pausedAudio
    {
      if currentPlayingAudio.Some? {
        pausedAudio := pausedAudio + [currentPlayingAudio.value];
        currentPlayingAudio := None;
      }
      currentPlayingAudio := Some(audio);
    }

    /**
     * `playTTS` when `play()` rejects with an error of the given name and
     * message: the retry branch leaves the slot as it is, for a retry on the
     * next click or touch; every other rejection empties the slot.
     */
    method PlayRejected(errorName: string, errorMessage: string)
      modifies this`currentPlayingAudio
      ensures currentPlayingAudio == if RetriesOnGesture(errorName, errorMessage) then old(currentPlayingAudio) else None
    {
      if !RetriesOnGesture(errorName, errorMessage) {
        currentPlayingAudio := None;
      }
    }

    /**
     * The `ended`, `pause` and `error` listeners `playTTS` attaches to each
     * element: they clear the slot without checking which element fired, so
     * a late event from a replaced element drops the one now playing.
     */
    method AudioStopped(element: nat)
      modifies this`currentPlayingAudio
      ensures currentPlayingAudio == None
    {
      currentPlayingAudio := None;
    }

    /** `stopAiVoice`: pause and drop the current audio, if any. */
    method StopAiVoice()
      modifies this`currentPlayingAudio, this`pausedAudio
      ensures currentPlayingAudio == None
      ensures pausedAudio == old(pausedAudio) + (if old(currentPlayingAudio).Some? then [old(currentPlayingAudio).value] else [])
    {
      if currentPlayingAudio.Some? {
        pausedAudio := pausedAudio + [currentPlayingAudio.value];
        currentPlayingAudio := None;
      }
    }
  }

  // ---------------------------------------------------------------------
  // Consequences of the handlers, on a freshly loaded page (before the
  // welcome timer has fired, so the transcript starts empty)

  /**
   * Pressing stop does not suppress the assistant's turn: the transcript
   * still gains the cancellation notice after the user's text.
   */
  method CancelledTurn(input: string, elapsedMs: int, totalMs: int, sentAt: string, repliedAt: string)
    returns (history: seq<Record>, generating: bool)
    requires Trim(input) != []
    ensures history == [Record(User, Trim(input), sentAt, 0), Record(Assistant, CancelledText, repliedAt, 0)]
    ensures !generating
  {
    var client := new Client();
    var _ := client.HandleTextMessage(input, Aborted, elapsedMs, totalMs, sentAt, repliedAt);
    history, generating := client.conversationHistory, client.isGeneratingResponse;
  }

  /**
   * A second submit while a reply is pending is not rejected: both user
   * turns are recorded, and the first reply to arrive lowers the generating
   * flag although the second request is still outstanding, so stop no
   * longer reaches it.
   */
  method OverlappingSubmits(first: string, second: string, reply: TextReply, elapsedMs: int, totalMs: int, t1: string, t2: string, t3: string)
    returns (history: seq<Record>, generating: bool, secondAborted: bool)
    requires Trim(first) != [] && Trim(second) != []
    ensures |history| == 3
    ensures history[0] == Record(User, Trim(first), t1, 0)
    ensures history[1] == Record(User, Trim(second), t2, 0)
    ensures history[2].role == Assistant
    ensures !generating && !secondAborted
  {
    var client := new Client();
    var r1 := client.BeginTextMessage(first, t1);
    assert r1 == Some(0) && client.conversationHistory == [Record(User, Trim(first), t1, 0)];
    var r2 := client.BeginTextMessage(second, t2);
    assert r2 == Some(1) && client.abortedControllers == {};
    assert client.conversationHistory == [Record(User, Trim(first), t1, 0), Record(User, Trim(second), t2, 0)];
    var _, _ := client.FinishTextMessage(r1.value, Answered(reply), elapsedMs, totalMs, t3);
    client.StopGeneratingResponse();
    history, generating := client.conversationHistory, client.isGeneratingResponse;
    secondAborted := r2.value in client.abortedControllers;
  }

  /** Two replies with audio in a row leave exactly the second playing and the first paused. */
  method ReplacedPlayback(a: nat, b: nat) returns (current: Option<nat>, paused: seq<nat>)
    requires a != b
    ensures current == Some(b) && paused == [a]
  {
    var client := new Client();
    client.PlayTTS(a);
    client.PlayTTS(b);
    current, paused := client.currentPlayingAudio, client.pausedAudio;
  }

  /**
   * The pause event of a replaced element arrives after its successor was
   * installed and empties the slot; stop then pauses nothing, and a third
   * reply starts while the second is still playing.
   */
  method StalePauseEvent(a: nat, b: nat, c: nat) returns (current: Option<nat>, paused: seq<nat>)
    requires a != b && b != c && a != c
    ensures current == Some(c) && paused == [a]
    ensures b !in paused
  {
    var client := new Client();
    client.PlayTTS(a);
    client.PlayTTS(b);
    client.AudioStopped(a);
    client.StopAiVoice();
    client.PlayTTS(c);
    current, paused := client.currentPlayingAudio, client.pausedAudio;
  }
}
