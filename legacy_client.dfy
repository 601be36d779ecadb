/**
 * The older browser client (frontend): the same transcript, activity loop
 * and export as the current client, but with no generating flag and no
 * abort controller, no TTS playback, an LLM latency that never reaches the
 * voice path, and a voice-stop button that tears down the microphone.
 */
module LegacyClient {
  import opened Wrappers
  import opened ChatTranscript
  import opened BackendReplies

  /** State of an `AudioContext`. */
  datatype ContextState = Running | Suspended | Closed

  /**
   * What `sendToLLM` resolves to. The server's `latency.processing` is used
   * when truthy, else the measured elapsed time; every exception yields the
   * one error notice with latency 0 (there is no cancellation).
   */
  function SendToLLMResult(outcome: Outcome<TextReply>, elapsedMs: int): (r: LlmResult)
    ensures !outcome.Answered? ==> r == LlmResult(ErrorText, 0)
    ensures outcome.Answered? ==> r.response == TextOf(outcome.data.response)
    ensures outcome.Answered? ==> r.llmTime == if OrZero(outcome.data.processing) != 0 then outcome.data.processing.value else elapsedMs
  {
    match outcome
    case Answered(data) =>
      LlmResult(TextOf(data.response), if data.processing.Some? && data.processing.value != 0 then data.processing.value else elapsedMs)
    case _ => LlmResult(ErrorText, 0)
  }

  /** The latency display after a voice reply: the LLM figure is always 0. */
  function VoiceDisplay(reply: VoiceReply, totalMs: int, elapsedSttMs: int): (d: LatencyDisplay)
    ensures d.total == totalMs && d.llm == 0
    ensures reply.latency.None? ==> d.stt == elapsedSttMs && d.tts == 0
    ensures reply.latency.Some? ==> d.stt == OrZero(reply.latency.value.stt) && d.tts == OrZero(reply.latency.value.tts)
  {
    match reply.latency
    case Some(l) => LatencyDisplay(totalMs, OrZero(l.stt), 0, OrZero(l.tts))
    case None => LatencyDisplay(totalMs, elapsedSttMs, 0, 0)
  }

  class Client {
    var conversationHistory: seq<Record>

    var isRecording: bool
    var isSpeaking: bool
    var mediaRecorder: Option<nat>
    var audioChunks: seq<nat>
    var mediaStream: Option<nat>
    var microphone: Option<nat>
    /** The audio context in use; contexts are numbered in creation order. */
    var audioContext: Option<nat>
    var contextState: ContextState
    var contextsCreated: nat
    /** The context the analyser node was created in; the analyser is never dropped. */
    var userAnalyser: Option<nat>
    /** Media streams whose tracks were stopped, in order. */
    var releasedStreams: seq<nat>
    /** Recorders `stop()` was called on, in order; each stop triggers an upload. */
    var stoppedRecorders: seq<nat>

    /**
     * The client never keeps a reference to a closed audio context, holds an
     * analyser whenever it holds a context, and refers only to contexts
     * already created.
     */
    ghost predicate Valid()
      reads this
    {
      && (audioContext.Some? ==> contextState != Closed && userAnalyser.Some? && audioContext.value < contextsCreated)
      && (userAnalyser.Some? ==> userAnalyser.value < contextsCreated)
      && (isRecording ==> mediaRecorder.Some?)
    }

    /** The analyser belongs to a context other than the current one, so `connect` throws. */
    predicate AnalyserStale()
      reads this
    {
      userAnalyser.Some? && audioContext != userAnalyser
    }

    constructor ()
      ensures Valid()
      ensures conversationHistory == [] && !isRecording && !isSpeaking
      ensures mediaRecorder == None && audioChunks == [] && mediaStream == None
      ensures microphone == None && audioContext == None && contextsCreated == 0 && userAnalyser == None
      ensures releasedStreams == [] && stoppedRecorders == []
    {
      conversationHistory := [];
      isRecording := false;
      isSpeaking := false;
      mediaRecorder := None;
      audioChunks := [];
      mediaStream := None;
      microphone := None;
      audioContext := None;
      contextState := Closed;
      contextsCreated := 0;
      userAnalyser := None;
      releasedStreams := [];
      stoppedRecorders := [];
    }

    // -------------------------------------------------------------------
    // Transcript

    /** The history part of `addMessage`: push exactly one record. */
    method AddMessage(text: string, isUser: bool, llmTime: int, timestamp: string)
      modifies this`conversationHistory
      ensures conversationHistory == old(conversationHistory) + [MessageRecord(text, isUser, llmTime, timestamp)]
    {
      conversationHistory := conversationHistory + [Record(if isUser then User else Assistant, text, timestamp, llmTime)];
    }

    /** `clearChat`: the history is emptied only when the user confirms. */
    method ClearChat(confirmed: bool)
      modifies this`conversationHistory
      ensures conversationHistory == if confirmed then [] else old(conversationHistory)
    {
      if confirmed {
        conversationHistory := [];
      }
    }

    /** The greeting the page adds through `addMessage` half a second after it loads. */
    method Welcome(stamp: string)
      modifies this`conversationHistory
      ensures conversationHistory == old(conversationHistory) + [MessageRecord(WelcomeText, false, 0, stamp)]
    {
      AddMessage(WelcomeText, false, 0, stamp);
    }

    /** The text branch of `exportChat`. */
    method ExportChat(localize: string -> string, fixed2: (int, int) -> string) returns (content: string)
      ensures content == ExportText(conversationHistory, localize, fixed2)
    {
      content := ExportTextLoop(conversationHistory, localize, fixed2);
    }

    /**
     * `handleTextMessage`: a blank input changes nothing; otherwise the
     * user's trimmed text and then the reply are recorded.
     */
    method HandleTextMessage(input: string, outcome: Outcome<TextReply>, elapsedMs: int, totalMs: int, sentAt: string, repliedAt: string)
      returns (shown: Option<LatencyDisplay>)
      modifies this`conversationHistory
      ensures shown == None <==> Trim(input) == []
      ensures shown == None ==> conversationHistory == old(conversationHistory)
      ensures shown != None ==>
        var result := SendToLLMResult(outcome, elapsedMs);
        && shown == Some(LatencyDisplay(totalMs, 0, result.llmTime, 0))
        && conversationHistory == old(conversationHistory) + [
             MessageRecord(Trim(input), true, 0, sentAt),
             MessageRecord(result.response, false, result.llmTime, repliedAt)]
    {
      var text := Trim(input);
      if text == [] {
        return None;
      }
      assert Trim(input) != [];
      AddMessage(text, true, 0, sentAt);
      ghost var sent := conversationHistory;
      var display := ReceiveReply(outcome, elapsedMs, totalMs, repliedAt);
      ghost var result := SendToLLMResult(outcome, elapsedMs);
      AppendAssoc(old(conversationHistory), [MessageRecord(text, true, 0, sentAt)], [MessageRecord(result.response, false, result.llmTime, repliedAt)]);
      shown := Some(display);
    }

    /** What `handleTextMessage` does once `sendToLLM` settles: show the latency and record the reply. */
    method ReceiveReply(outcome: Outcome<TextReply>, elapsedMs: int, totalMs: int, repliedAt: string)
      returns (shown: LatencyDisplay)
      modifies this`conversationHistory
      ensures var result := SendToLLMResult(outcome, elapsedMs);
        && shown == LatencyDisplay(totalMs, 0, result.llmTime, 0)
        && conversationHistory == old(conversationHistory) + [MessageRecord(result.response, false, result.llmTime, repliedAt)]
    {
      var result := SendToLLMResult(outcome, elapsedMs);
      shown := LatencyDisplay(totalMs, 0, result.llmTime, 0);
      AddMessage(result.response, false, result.llmTime, repliedAt);
    }

    /**
     * The history part of `sendAudioToBackend`: a parsed reply with status
     * "success" appends the transcription and the reply, the reply with
     * latency 0; any other status, or a failed request, appends nothing.
     */
    method SendAudioToBackend(outcome: Outcome<VoiceReply>, elapsedSttMs: int, totalMs: int, userStamp: string, aiStamp: string)
      returns (shown: Option<LatencyDisplay>)
      modifies this`conversationHistory
      ensures outcome.Answered? ==> shown == Some(VoiceDisplay(outcome.data, totalMs, elapsedSttMs))
      ensures !outcome.Answered? ==> shown == None
      ensures outcome.Answered? && outcome.data.status == Some(SuccessStatus) ==>
        conversationHistory == old(conversationHistory) + VoiceTurn(outcome.data, 0, userStamp, aiStamp)
      ensures !(outcome.Answered? && outcome.data.status == Some(SuccessStatus)) ==>
        conversationHistory == old(conversationHistory)
    {
      if !outcome.Answered? {
        return None;
      }
      var data := outcome.data;
      if data.latency.Some? {
        shown := Some(LatencyDisplay(totalMs, OrZero(data.latency.value.stt), 0, OrZero(data.latency.value.tts)));
      } else {
        shown := Some(LatencyDisplay(totalMs, elapsedSttMs, 0, 0));
      }
      if data.status == Some(SuccessStatus) {
        AddMessage(YouSaidPrefix + TextOf(data.transcription), true, 0, userStamp);
        AddMessage(TextOf(data.response), false, 0, aiStamp);
      }
    }

    // -------------------------------------------------------------------
    // Microphone

    /**
     * `startRecording` with `requestMicrophoneAccess`: on refusal nothing
     * changes. On permission the new stream replaces the old one (whose
     * tracks are not stopped); a missing context is created, together with
     * an analyser only if none exists, and an existing one is resumed; the
     * source is created in the current context and connected to the
     * analyser. The connection fails when the analyser belongs to another
     * context, and then access is reported as denied and recording does not
     * start; otherwise visualisation starts and a new recorder starts with
     * no chunks.
     */
    method StartRecording(granted: bool, stream: nat, source: nat, recorder: nat, initialState: ContextState)
      returns (micAccess: bool)
      requires Valid()
      requires initialState != Closed
      modifies this`mediaStream, this`audioContext, this`contextState, this`contextsCreated, this`userAnalyser,
               this`microphone, this`isSpeaking, this`mediaRecorder, this`audioChunks, this`isRecording
      ensures Valid()
      ensures !granted ==>
        && !micAccess
        && mediaStream == old(mediaStream) && audioContext == old(audioContext) && microphone == old(microphone)
        && contextState == old(contextState) && contextsCreated == old(contextsCreated) && userAnalyser == old(userAnalyser)
      ensures granted ==> mediaStream == Some(stream) && microphone == Some(source)
      ensures granted && old(audioContext).None? ==>
        && audioContext == Some(old(contextsCreated)) && contextState == initialState
        && contextsCreated == old(contextsCreated) + 1
        && userAnalyser == (if old(userAnalyser).None? then audioContext else old(userAnalyser))
      ensures granted && old(audioContext).Some? ==>
        && audioContext == old(audioContext) && contextState == Running
        && contextsCreated == old(contextsCreated) && userAnalyser == old(userAnalyser)
      ensures micAccess <==> granted && userAnalyser == audioContext
      ensures micAccess ==> isSpeaking && mediaRecorder == Some(recorder) && audioChunks == [] && isRecording
      ensures !micAccess ==>
        && isSpeaking == old(isSpeaking) && mediaRecorder == old(mediaRecorder)
        && audioChunks == old(audioChunks) && isRecording == old(isRecording)
      ensures old(AnalyserStale()) ==> !micAccess && AnalyserStale()
    {
      if !granted {
        return false;
      }
      mediaStream := Some(stream);
      if audioContext.None? {
        audioContext := Some(contextsCreated);
        contextState := initialState;
        contextsCreated := contextsCreated + 1;
        if userAnalyser.None? {
          userAnalyser := audioContext;
        }
      } else if contextState != Running {
        contextState := Running;
      }
      microphone := Some(source);
      if userAnalyser != audioContext {
        return false;
      }
      isSpeaking := true;
      mediaRecorder := Some(recorder);
      audioChunks := [];
      isRecording := true;
      micAccess := true;
    }

    /** The recorder's `ondataavailable`: collect one chunk. */
    method DataAvailable(chunk: nat)
      modifies this`audioChunks
      ensures audioChunks == old(audioChunks) + [chunk]
    {
      audioChunks := audioChunks + [chunk];
    }

    /**
     * `stopRecording`: only with a recorder and while recording, stop the
     * recorder and clear the flag; the microphone stays held.
     */
    method StopRecording() returns (stopped: bool)
      requires Valid()
      modifies this`isRecording, this`stoppedRecorders
      ensures Valid()
      ensures stopped == (old(mediaRecorder).Some? && old(isRecording))
      ensures !isRecording
      ensures stoppedRecorders == old(stoppedRecorders) + (if stopped then [mediaRecorder.value] else [])
    {
      stopped := false;
      if mediaRecorder.Some? && isRecording {
        stoppedRecorders := stoppedRecorders + [mediaRecorder.value];
        isRecording := false;
        stopped := true;
      }
    }

    /**
     * `permanentlyStopMicrophone`: stop the stream's tracks, disconnect the
     * source, close the context unless already closed, stop visualisation
     * and reset the recording state.
     */
    method PermanentlyStopMicrophone()
      requires Valid()
      modifies this`mediaStream, this`releasedStreams, this`microphone, this`audioContext, this`contextState, this`isSpeaking,
               this`isRecording, this`mediaRecorder, this`audioChunks
      ensures Valid()
      ensures mediaStream == None && microphone == None && audioContext == None && mediaRecorder == None
      ensures userAnalyser == old(userAnalyser) && contextsCreated == old(contextsCreated)
      ensures !isRecording && !isSpeaking && audioChunks == []
      ensures releasedStreams == old(releasedStreams) + (if old(mediaStream).Some? then [old(mediaStream).value] else [])
    {
      if mediaStream.Some? {
        releasedStreams := releasedStreams + [mediaStream.value];
        mediaStream := None;
      }
      if microphone.Some? {
        microphone := None;
      }
      if audioContext.Some? && contextState != Closed {
        contextState := Closed;
        audioContext := None;
      }
      isSpeaking := false;
      isRecording := false;
      mediaRecorder := None;
      audioChunks := [];
    }

    /**
     * `stopAiVoice`: in this client it always tears down the microphone. An
     * analyser created earlier outlives the closed context.
     */
    method StopAiVoice()
      requires Valid()
      modifies this`mediaStream, this`releasedStreams, this`microphone, this`audioContext, this`contextState, this`isSpeaking,
               this`isRecording, this`mediaRecorder, this`audioChunks
      ensures Valid()
      ensures mediaStream == None && microphone == None && audioContext == None && mediaRecorder == None
      ensures userAnalyser == old(userAnalyser) && contextsCreated == old(contextsCreated)
      ensures old(userAnalyser).Some? ==> AnalyserStale()
      ensures !isRecording && !isSpeaking && audioChunks == []
      ensures releasedStreams == old(releasedStreams) + (if old(mediaStream).Some? then [old(mediaStream).value] else [])
    {
      PermanentlyStopMicrophone();
    }
  }

  /**
   * A voice reply in this client never carries an inference time, even when
   * the server reports one: the assistant's record has latency 0.
   */
  method VoiceTurnLatency(reply: VoiceReply, elapsedSttMs: int, totalMs: int, userStamp: string, aiStamp: string)
    returns (history: seq<Record>)
    requires reply.status == Some(SuccessStatus)
    ensures |history| == 2 && history[0].role == User && history[1].role == Assistant
    ensures history[1].llmTime == 0 && history[1].content == TextOf(reply.response)
  {
    var client := new Client();
    var _ := client.SendAudioToBackend(Answered(reply), elapsedSttMs, totalMs, userStamp, aiStamp);
    history := client.conversationHistory;
  }

  /**
   * Once the voice output has been stopped, the microphone can never record
   * again: the next start creates a new context but keeps the analyser of
   * the closed one, the connection between them fails, access is reported
   * as denied, and the newly granted stream stays held without recording.
   */
  method NoRecordingAfterStopAiVoice(s1: nat, m1: nat, r1: nat, s2: nat, m2: nat, r2: nat)
    returns (first: bool, second: bool, recording: bool, held: Option<nat>, released: seq<nat>)
    ensures first && !second && !recording
    ensures held == Some(s2) && released == [s1]
  {
    var client := new Client();
    first := client.StartRecording(true, s1, m1, r1, Running);
    var _ := client.StopRecording();
    client.StopAiVoice();
    second := client.StartRecording(true, s2, m2, r2, Running);
    recording, held, released := client.isRecording, client.mediaStream, client.releasedStreams;
  }
}
