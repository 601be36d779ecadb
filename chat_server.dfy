/**
 * The speech backend's in-memory chat log: a table from user id to that
 * user's most recent messages, bounded at 100 per user, and the HTTP
 * handlers that validate a request and append to it.
 *
 * Entry ids (`uuid4`) and timestamps (`datetime.now()`) are opaque
 * parameters, as are the call to the language-model backend and the
 * measured STT/TTS times.
 */
module ChatServer {
  import opened Wrappers

  const MaxMessagesPerUser: nat := 100
  const Anonymous: string := "anonymous"
  const PlaceholderTranscription: string := "This is a placeholder transcription of your voice message"
  const HeardPrefix: string := "I heard: "
  const MessageRequired: string := "Message is required"
  const NoAudioProvided: string := "No audio file provided"
  const NoAudioSelected: string := "No audio file selected"
  const LlmErrorText: string := "Error: Unable to get response from LLM backend"
  const LlmUnreachableText: string := "Error: Unable to connect to LLM backend"
  const ClearedPrefix: string := "Chat history cleared for user "

  /** The `type` of a stored message: "user", "ai" or "user_voice". */
  datatype MessageType = UserText | Ai | UserVoice

  /** The enum's `.value`, the string stored in each entry; distinct types get distinct names. */
  function TypeName(t: MessageType): (r: string)
    ensures r == "ai" <==> t == Ai
    ensures t != Ai ==> |r| >= 4 && r[..4] == "user"
    ensures r == "user_voice" <==> t == UserVoice
    ensures t == UserText ==> r == "user"
  {
    match t
    case UserText => "user"
    case Ai => "ai"
    case UserVoice => "user_voice"
  }

  datatype Entry = Entry(id: string, kind: string, content: string, timestamp: string)

  /** A fresh entry id and the time it was stored. */
  datatype Stamp = Stamp(id: string, timestamp: string)

  type History = map<string, seq<Entry>>

  // ---------------------------------------------------------------------
  // The bounded log

  /** The last `n` elements of `s` (all of `s` when shorter), in order: `s[-n:]`. */
  function LastN<T>(s: seq<T>, n: nat): seq<T> {
    if |s| > n then s[|s| - n..] else s
  }

  /** A user's log after one more entry: append, then keep the most recent 100. */
  function Appended(log: seq<Entry>, e: Entry): (r: seq<Entry>)
    ensures 1 <= |r| <= MaxMessagesPerUser
    ensures r[|r| - 1] == e
    ensures |log| < MaxMessagesPerUser ==> r == log + [e]
    ensures |log| >= MaxMessagesPerUser ==> r == (log + [e])[|log| + 1 - MaxMessagesPerUser..]
  {
    LastN(log + [e], MaxMessagesPerUser)
  }

  /** A user's log; an unknown user has the empty log. */
  function LogOf(h: History, u: string): (log: seq<Entry>)
    ensures u !in h ==> log == []
    ensures u in h ==> log == h[u]
  {
    if u in h then h[u] else []
  }

  /** The table after `store_chat_message` for user `u`. */
  function Stored(h: History, u: string, e: Entry): (h': History)
    ensures h'.Keys == h.Keys + {u}
    ensures h'[u] == Appended(LogOf(h, u), e)
    ensures forall v :: v in h && v != u ==> h'[v] == h[v]
  {
    h[u := Appended(LogOf(h, u), e)]
  }

  /** Every user's log holds at most 100 entries. */
  ghost predicate Bounded(h: History) {
    forall u :: u in h ==> |h[u]| <= MaxMessagesPerUser
  }

  /** The table after storing each of `es` for user `u`, in order. */
  function StoredAll(h: History, u: string, es: seq<Entry>): History {
    if es == [] then h else Stored(StoredAll(h, u, es[..|es| - 1]), u, es[|es| - 1])
  }

  /** A log after appending each of `es`, in order. */
  function AppendedAll(log: seq<Entry>, es: seq<Entry>): seq<Entry> {
    if es == [] then log else Appended(AppendedAll(log, es[..|es| - 1]), es[|es| - 1])
  }

  /** Truncating before appending and truncating after give the same suffix. */
  lemma LastNAppend(x: seq<Entry>, e: Entry, n: nat)
    ensures LastN(LastN(x, n) + [e], n) == LastN(x + [e], n)
  {
    var y := LastN(x, n);
    var a, b := LastN(y + [e], n), LastN(x + [e], n);
    assert |a| == |b|;
    forall i | 0 <= i < |a|
      ensures a[i] == b[i]
    {
      if i < |a| - 1 {
        assert a[i] == y[|y| + 1 - |a| + i];
      }
    }
  }

  /**
   * However many entries are appended to a log, it holds the most recent
   * 100 of everything appended, in order: the oldest are dropped first.
   */
  lemma {:induction false} AppendedAllKeepsMostRecent(log: seq<Entry>, es: seq<Entry>)
    requires |log| <= MaxMessagesPerUser
    ensures AppendedAll(log, es) == LastN(log + es, MaxMessagesPerUser)
  {
    if es == [] {
      assert log + es == log;
    } else {
      var init, last := es[..|es| - 1], es[|es| - 1];
      AppendedAllKeepsMostRecent(log, init);
      LastNAppend(log + init, last, MaxMessagesPerUser);
      assert log + init + [last] == log + es;
    }
  }

  /** Storing a run of messages for one user appends them to that user's log. */
  lemma {:induction false} StoredAllLog(h: History, u: string, es: seq<Entry>)
    ensures LogOf(StoredAll(h, u, es), u) == AppendedAll(LogOf(h, u), es)
  {
    if es != [] {
      StoredAllLog(h, u, es[..|es| - 1]);
    }
  }

  /** Storing messages for one user leaves every other user's log as it was. */
  lemma {:induction false} StoredAllKeepsOthers(h: History, u: string, es: seq<Entry>, v: string)
    requires v != u
    ensures LogOf(StoredAll(h, u, es), v) == LogOf(h, v)
  {
    if es != [] {
      StoredAllKeepsOthers(h, u, es[..|es| - 1], v);
    }
  }

  /** After a store the table is still bounded. */
  lemma StoredBounded(h: History, u: string, e: Entry)
    requires Bounded(h)
    ensures Bounded(Stored(h, u, e))
  {
  }

  /** Two stores in a row leave the two entries, in order, at the end of the user's log. */
  lemma ExchangeEndsLog(h: History, u: string, e1: Entry, e2: Entry)
    ensures var log := LogOf(Stored(Stored(h, u, e1), u, e2), u);
      |log| >= 2 && log[|log| - 2] == e1 && log[|log| - 1] == e2
  {
    var log1 := Appended(LogOf(h, u), e1);
    var log2 := Appended(log1, e2);
    assert log2 == LastN(log1 + [e2], MaxMessagesPerUser);
    assert (log1 + [e2])[|log1| - 1] == e1;
  }

  // ---------------------------------------------------------------------
  // Requests and replies

  /** The `latency` object of the language-model backend's reply. */
  datatype LlmLatency = LlmLatency(processing: Option<int>)

  /** The language-model backend's JSON body, when it is JSON. */
  datatype LlmBody = LlmBody(response: Option<string>, latency: Option<LlmLatency>)

  /** The call to the language-model backend: no connection, or a status and a body that may not parse. */
  datatype LlmCall = Unreachable | Responded(statusCode: int, body: Option<LlmBody>)

  /** The JSON body of `POST /chat/text`. */
  datatype TextBody = TextBody(userId: Option<string>, message: Option<string>)

  /** The multipart form of `POST /chat/voice`: the `audio` part's filename, if the part is present. */
  datatype VoiceForm = VoiceForm(audioFilename: Option<string>, userId: Option<string>)

  datatype Reply =
    | TextChatOk(response: string, timestamp: string, processing: int)
    | VoiceChatOk(transcription: string, response: string, timestamp: string, sttMs: int, ttsMs: int)
    | HistoryOk(userId: string, history: seq<Entry>, count: nat)
    | Cleared(message: string)
    | BadRequest(error: string)  // status 400
    | ServerError                // status 500, carrying the exception's text

  /**
   * The reply text and latency `handle_text_chat` takes from the language
   * model: the body's `response` (or "") and `latency.processing` (or 0) on
   * status 200; a fixed notice with latency 0 on another status, on a body
   * that does not parse, or when the backend cannot be reached.
   */
  function LlmAnswer(call: LlmCall): (r: (string, int))
    ensures r.1 != 0 ==> call.Responded? && call.statusCode == 200 && call.body.Some?
    ensures call.Responded? && call.statusCode == 200 && call.body.Some? ==>
      r.0 == call.body.value.response.GetOr("")
    ensures call.Responded? && call.statusCode != 200 ==> r == (LlmErrorText, 0)
    ensures (call.Unreachable? || (call.statusCode == 200 && call.body.None?)) ==> r == (LlmUnreachableText, 0)
    ensures r.1 == (if call.Responded? && call.statusCode == 200 && call.body.Some? && call.body.value.latency.Some?
                    then call.body.value.latency.value.processing.GetOr(0) else 0)
  {
    match call
    case Unreachable => (LlmUnreachableText, 0)
    case Responded(code, body) =>
      if code != 200 then (LlmErrorText, 0)
      else if body.None? then (LlmUnreachableText, 0)
      else
        var b := body.value;
        var latency := if b.latency.Some? && b.latency.value.processing.Some? then b.latency.value.processing.value else 0;
        (b.response.GetOr(""), latency)
  }

  /** The HTTP layer's view of `chat_history`, a module-level table. */
  class ChatStore {
    var chatHistory: History

    ghost predicate Valid()
      reads this
    {
      Bounded(chatHistory)
    }

    constructor ()
      ensures Valid() && chatHistory == map[]
    {
      chatHistory := map[];
    }

    /**
     * `store_chat_message`: create the user's list if missing, append the
     * entry, and keep only the most recent 100. No other user's list changes.
     */
    method StoreChatMessage(userId: string, kind: MessageType, content: string, stamp: Stamp)
      requires Valid()
      modifies this
      ensures Valid()
      ensures chatHistory == Stored(old(chatHistory), userId, Entry(stamp.id, TypeName(kind), content, stamp.timestamp))
    {
      if userId !in chatHistory {
        chatHistory := chatHistory[userId := []];
      }
      var entry := Entry(stamp.id, TypeName(kind), content, stamp.timestamp);
      chatHistory := chatHistory[userId := chatHistory[userId] + [entry]];
      if |chatHistory[userId]| > MaxMessagesPerUser {
        var log := chatHistory[userId];
        chatHistory := chatHistory[userId := log[|log| - MaxMessagesPerUser..]];
      }
      assert chatHistory == Stored(old(chatHistory), userId, entry);
    }

    /** `get_chat_history`: the user's log (empty for an unknown user) and its length. */
    method GetChatHistory(userId: string) returns (reply: Reply)
      ensures reply.HistoryOk? && reply.userId == userId
      ensures reply.history == LogOf(chatHistory, userId)
      ensures reply.count == |reply.history|
      ensures userId !in chatHistory ==> reply.history == [] && reply.count == 0
    {
      var history := if userId in chatHistory then chatHistory[userId] else [];
      reply := HistoryOk(userId, history, |history|);
    }

    /** `clear_chat_history`: remove the user's key if present; success either way. */
    method ClearChatHistory(userId: string) returns (reply: Reply)
      requires Valid()
      modifies this
      ensures Valid()
      ensures chatHistory == old(chatHistory) - {userId}
      ensures userId !in chatHistory
      ensures reply == Cleared(ClearedPrefix + userId)
    {
      if userId in chatHistory {
        chatHistory := map v | v in chatHistory && v != userId :: chatHistory[v];
      }
      reply := Cleared(ClearedPrefix + userId);
    }

    /**
     * `handle_text_chat`: a body that is not a JSON object fails with 500; an
     * empty or missing message is refused with 400 and stores nothing;
     * otherwise the user's message and then the reply (the model's, or a
     * fallback notice) are stored and returned with the model's latency.
     */
    method HandleTextChat(body: Option<TextBody>, llm: LlmCall, userStamp: Stamp, aiStamp: Stamp, now: string)
      returns (reply: Reply)
      requires Valid()
      modifies this
      ensures Valid()
      ensures body.None? ==> reply == ServerError && chatHistory == old(chatHistory)
      ensures body.Some? && body.value.message.GetOr("") == "" ==>
        reply == BadRequest(MessageRequired) && chatHistory == old(chatHistory)
      ensures body.Some? && body.value.message.GetOr("") != "" ==>
        var user, message, answer := body.value.userId.GetOr(Anonymous), body.value.message.value, LlmAnswer(llm);
        && reply == TextChatOk(answer.0, now, answer.1)
        && chatHistory == Stored(Stored(old(chatHistory), user, Entry(userStamp.id, TypeName(UserText), message, userStamp.timestamp)),
                                 user, Entry(aiStamp.id, TypeName(Ai), answer.0, aiStamp.timestamp))
    {
      if body.None? {
        return ServerError;
      }
      var userId := body.value.userId.GetOr(Anonymous);
      var message := body.value.message.GetOr("");
      if message == "" {
        return BadRequest(MessageRequired);
      }
      var llmLatency := 0;
      var responseText: string;
      match llm {
        case Unreachable =>
          responseText := LlmUnreachableText;
        case Responded(code, llmBody) =>
          if code == 200 {
            if llmBody.None? {
              responseText := LlmUnreachableText;
            } else {
              responseText := llmBody.value.response.GetOr("");
              if llmBody.value.latency.Some? && llmBody.value.latency.value.processing.Some? {
                llmLatency := llmBody.value.latency.value.processing.value;
              }
            }
          } else {
            responseText := LlmErrorText;
          }
      }
      StoreChatMessage(userId, UserText, message, userStamp);
      StoreChatMessage(userId, Ai, responseText, aiStamp);
      reply := TextChatOk(responseText, now, llmLatency);
    }

    /**
     * `handle_voice_chat`: without an `audio` part, or with an empty
     * filename, it is refused with 400 and stores nothing; otherwise the
     * placeholder transcription is stored as "user_voice", then the reply
     * "I heard: " + transcription as "ai".
     */
    method HandleVoiceChat(form: VoiceForm, userStamp: Stamp, aiStamp: Stamp, now: string, sttMs: int, ttsMs: int)
      returns (reply: Reply)
      requires Valid()
      modifies this
      ensures Valid()
      ensures form.audioFilename.None? ==> reply == BadRequest(NoAudioProvided) && chatHistory == old(chatHistory)
      ensures form.audioFilename == Some("") ==> reply == BadRequest(NoAudioSelected) && chatHistory == old(chatHistory)
      ensures form.audioFilename.Some? && form.audioFilename.value != "" ==>
        var user := form.userId.GetOr(Anonymous);
        && reply == VoiceChatOk(PlaceholderTranscription, HeardPrefix + PlaceholderTranscription, now, sttMs, ttsMs)
        && chatHistory == Stored(Stored(old(chatHistory), user, Entry(userStamp.id, TypeName(UserVoice), PlaceholderTranscription, userStamp.timestamp)),
                                 user, Entry(aiStamp.id, TypeName(Ai), HeardPrefix + PlaceholderTranscription, aiStamp.timestamp))
    {
      if form.audioFilename.None? {
        return BadRequest(NoAudioProvided);
      }
      var userId := form.userId.GetOr(Anonymous);
      if form.audioFilename.value == "" {
        return BadRequest(NoAudioSelected);
      }
      var transcribedText := PlaceholderTranscription;
      StoreChatMessage(userId, UserVoice, transcribedText, userStamp);
      var responseText := HeardPrefix + transcribedText;
      StoreChatMessage(userId, Ai, responseText, aiStamp);
      reply := VoiceChatOk(transcribedText, responseText, now, sttMs, ttsMs);
    }
  }

  /**
   * A text exchange on an empty table leaves the user's log as exactly the
   * message and the reply, even when the model cannot be reached.
   */
  method FirstTextExchange(userId: string, message: string, llm: LlmCall, s1: Stamp, s2: Stamp, now: string)
    returns (log: seq<Entry>, reply: Reply)
    requires message != ""
    ensures |log| == 2
    ensures log[0].kind == "user" && log[0].content == message
    ensures log[1].kind == "ai" && log[1].content == LlmAnswer(llm).0
    ensures reply.TextChatOk? && reply.processing == LlmAnswer(llm).1
  {
    var store := new ChatStore();
    reply := store.HandleTextChat(Some(TextBody(Some(userId), Some(message))), llm, s1, s2, now);
    log := LogOf(store.chatHistory, userId);
  }
}
