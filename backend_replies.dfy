/**
 * What the browser clients read back from the speech backend. A `fetch`
 * followed by `response.json()` either yields a parsed body, is cancelled
 * through its abort signal, or fails (network rejection, a body that is not
 * JSON). The HTTP status is not checked by either client: an error body
 * simply lacks the fields a success body carries.
 */
module BackendReplies {
  import opened Wrappers
  import opened ChatTranscript

  datatype Outcome<T> = Answered(data: T) | Aborted | Failed

  /** The fields of a `/chat/text` reply the clients read. */
  datatype TextReply = TextReply(response: Option<string>, processing: Option<int>)

  /** The `latency` object of a `/chat/voice` reply. */
  datatype VoiceLatency = VoiceLatency(stt: Option<int>, llm: Option<int>, tts: Option<int>)

  /** The fields of a `/chat/voice` reply the clients read. */
  datatype VoiceReply = VoiceReply(
    status: Option<string>,
    transcription: Option<string>,
    response: Option<string>,
    ttsFile: Option<string>,
    latency: Option<VoiceLatency>)

  /** What `sendToLLM` resolves to: the assistant text and its inference time. */
  datatype LlmResult = LlmResult(response: string, llmTime: int)

  /** The four figures `updateLatencyDisplay(total, stt, llm, tts)` last showed. */
  datatype LatencyDisplay = LatencyDisplay(total: int, stt: int, llm: int, tts: int)

  const CancelledText: string := "Response generation was cancelled."
  const ErrorText: string := "Sorry, I encountered an error processing your request."
  const YouSaidPrefix: string := "\U{1F3A4} You said: "
  const SuccessStatus: string := "success"

  /** `x || 0` on a numeric field that may be absent: the field when truthy, else 0. */
  function OrZero(x: Option<int>): (r: int)
    ensures r != 0 <==> x.Some? && x.value != 0
    ensures r != 0 ==> r == x.value
  {
    if x.Some? && x.value != 0 then x.value else 0
  }

  /** A string field as a template literal or `addMessage` receives it. */
  function TextOf(x: Option<string>): (r: string)
    ensures x.Some? ==> r == x.value
    ensures x.None? ==> r == Undefined
  {
    x.GetOr(Undefined)
  }

  /** A string field is truthy when present and non-empty. */
  predicate Truthy(x: Option<string>) {
    x.Some? && x.value != ""
  }

  /**
   * The records a successful voice exchange adds: the transcription as the
   * user's turn, then the reply as the assistant's with the given latency.
   */
  function VoiceTurn(reply: VoiceReply, llmLatency: int, userStamp: string, aiStamp: string): (turn: seq<Record>)
    ensures |turn| == 2
    ensures turn[0].role == User && turn[1].role == Assistant
    ensures var c := turn[0].content;
      |c| >= |YouSaidPrefix| && c[..|YouSaidPrefix|] == YouSaidPrefix && c[|YouSaidPrefix|..] == TextOf(reply.transcription)
    ensures reply.transcription.Some? ==> |turn[0].content| == |YouSaidPrefix| + |reply.transcription.value|
    ensures turn[1].content == TextOf(reply.response)
    ensures turn[0].llmTime == 0 && turn[1].llmTime == llmLatency
    ensures turn[0].timestamp == userStamp && turn[1].timestamp == aiStamp
  {
    [MessageRecord(YouSaidPrefix + TextOf(reply.transcription), true, 0, userStamp),
     MessageRecord(TextOf(reply.response), false, llmLatency, aiStamp)]
  }
}
