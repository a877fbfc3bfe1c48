/**
 * The DeepSeek client (`DeepSeekUtil` in util/DeepSeekUtil.kt): the request
 * record and its serialized form, the decoder of a reply, the per-read
 * extraction of streamed text, the send operation with its callbacks, and
 * the multi-turn `Chat` that keeps its own history.
 *
 * The HTTP exchange is an input (`HttpOutcome`): either the call failed, or
 * the server answered with an optional body delivered as a sequence of
 * reads that may end in an I/O error. The JSON parser `JSONObject(text)` is
 * the parameter `parse`.
 */
module DeepSeek {
  import opened Wrappers
  import opened Sentences
  import opened Text
  import opened JsonTree

  /** The line prefix that introduces each streamed event. */
  const DataMarker := "data:"
  /** The payload that ends a stream. */
  const DoneSentinel := "[DONE]"
  /** What the callback receives when the exchange throws. */
  const FailureReply := "Something go wrong."

  // ---------------------------------------------------------------------------
  // The request record

  datatype ResponseFormat = ResponseFormat(formatType: string)

  datatype DeepSeekRequestBody = DeepSeekRequestBody(
    messages: seq<Sentence>,
    model: string,
    maxTokens: int,
    responseFormat: ResponseFormat,
    stop: Option<string>,
    stream: bool,
    streamOptions: Option<string>,
    tools: Option<string>,
    toolChoice: string,
    logprobs: bool,
    topLogprobs: Option<string>)

  /** The record with every field at its declared default. */
  const DefaultRequestBody := DeepSeekRequestBody(
    [], "deepseek-coder", 2048, ResponseFormat("text"),
    None, false, None, None, "none", false, None)

  /** `DeepSeekRequestBody(messages = ..., stream = ...)`: those two given, every other field at its default. */
  function NewRequestBody(messages: seq<Sentence>, stream: bool): (body: DeepSeekRequestBody)
    ensures body.messages == messages && body.stream == stream
    ensures body.(messages := [], stream := false) == DefaultRequestBody
  {
    DefaultRequestBody.(messages := messages, stream := stream)
  }

  // ---------------------------------------------------------------------------
  // Serialization (kotlinx.serialization with encodeDefaults = true)

  /** A `Sentence` serialized under its property names. */
  function EncodeSentence(s: Sentence): Json {
    JObject(map["role" := JString(s.role), "message" := JString(s.message)])
  }

  function EncodeSentenceList(ss: seq<Sentence>): (items: seq<Json>)
    ensures |items| == |ss|
  {
    if ss == [] then [] else [EncodeSentence(ss[0])] + EncodeSentenceList(ss[1..])
  }

  /** `encodeDeepSeekMessage(sentences)`: the list as a JSON array. */
  function EncodeDeepSeekMessage(ss: seq<Sentence>): Json {
    JArray(EncodeSentenceList(ss))
  }

  /** `encodeDeepSeekMessage(sentence)`, the single-sentence overload: a one-element array that reads back as that sentence. */
  function EncodeDeepSeekSentence(s: Sentence): (j: Json)
    ensures j.JArray? && |j.items| == 1
    ensures SentenceListOf(j.items) == Some([s])
  {
    SentenceListRoundTrip([s]);
    EncodeDeepSeekMessage([s])
  }

  function EncodeOptionalString(o: Option<string>): Json {
    match o
    case None => JNull
    case Some(s) => JString(s)
  }

  /** The serial names of the request's fields. */
  const RequestKeys: set<string> := {
    "messages", "model", "max_tokens", "response_format", "stop", "stream",
    "stream_options", "tools", "tool_choice", "logprobs", "top_logprobs"}

  /**
   * `encodeDeepSeekRequestBody`: every field, defaults included, under its
   * serial name; the messages read back exactly.
   */
  function EncodeDeepSeekRequestBody(b: DeepSeekRequestBody): (j: Json)
    ensures j.JObject? && j.fields.Keys == RequestKeys
    ensures j.fields["messages"].JArray? && SentenceListOf(j.fields["messages"].items) == Some(b.messages)
  {
    SentenceListRoundTrip(b.messages);
    JObject(map[
      "messages" := EncodeDeepSeekMessage(b.messages),
      "model" := JString(b.model),
      "max_tokens" := JNumber(b.maxTokens),
      "response_format" := JObject(map["type" := JString(b.responseFormat.formatType)]),
      "stop" := EncodeOptionalString(b.stop),
      "stream" := JBool(b.stream),
      "stream_options" := EncodeOptionalString(b.streamOptions),
      "tools" := EncodeOptionalString(b.tools),
      "tool_choice" := JString(b.toolChoice),
      "logprobs" := JBool(b.logprobs),
      "top_logprobs" := EncodeOptionalString(b.topLogprobs)])
  }

  /** Reading a serialized sentence back: the inverse of `EncodeSentence`. */
  function SentenceOf(j: Json): Option<Sentence> {
    match j
    case JObject(f) =>
      if "role" in f && f["role"].JString? && "message" in f && f["message"].JString?
      then Some(Sentence(f["role"].str, f["message"].str))
      else None
    case _ => None
  }

  function SentenceListOf(items: seq<Json>): Option<seq<Sentence>> {
    if items == [] then Some([])
    else match (SentenceOf(items[0]), SentenceListOf(items[1..]))
      case (Some(s), Some(rest)) => Some([s] + rest)
      case _ => None
  }

  /** Serializing the messages loses nothing: they read back exactly. */
  lemma {:induction false} SentenceListRoundTrip(ss: seq<Sentence>)
    ensures SentenceListOf(EncodeSentenceList(ss)) == Some(ss)
  {
    if ss != [] {
      SentenceListRoundTrip(ss[1..]);
      assert EncodeSentenceList(ss)[1..] == EncodeSentenceList(ss[1..]);
      assert [ss[0]] + ss[1..] == ss;
    }
  }

  /** The body sent for `sendMessage(sentences, stream)` carries the messages, readable back without loss. */
  lemma EncodedRequestMessages(messages: seq<Sentence>, stream: bool)
    ensures EncodeDeepSeekRequestBody(NewRequestBody(messages, stream)).JObject?
    ensures EncodeDeepSeekRequestBody(NewRequestBody(messages, stream)).fields["messages"] == EncodeDeepSeekMessage(messages)
    ensures SentenceListOf(EncodeDeepSeekMessage(messages).items) == Some(messages)
  {
    SentenceListRoundTrip(messages);
  }

  /**
   * The body sent for `sendMessage(sentences, stream)` carries the stream
   * flag, the model name, the token limit and the tool choice.
   */
  lemma EncodedRequestSettings(messages: seq<Sentence>, stream: bool)
    ensures EncodeDeepSeekRequestBody(NewRequestBody(messages, stream)).JObject?
    ensures EncodeDeepSeekRequestBody(NewRequestBody(messages, stream)).fields["stream"] == JBool(stream)
    ensures EncodeDeepSeekRequestBody(NewRequestBody(messages, stream)).fields["model"] == JString("deepseek-coder")
    ensures EncodeDeepSeekRequestBody(NewRequestBody(messages, stream)).fields["max_tokens"] == JNumber(2048)
    ensures EncodeDeepSeekRequestBody(NewRequestBody(messages, stream)).fields["tool_choice"] == JString("none")
  {
  }

  // ---------------------------------------------------------------------------
  // Decoding a reply

  /** The object under `choices[0]` that holds the text: `delta` when streaming, `message` otherwise. */
  function MessageKey(stream: bool): string {
    if stream then "delta" else "message"
  }

  /** `root` has `choices[0].<MessageKey(stream)>.content` and it is the string `content`. */
  ghost predicate CarriesContent(root: Json, stream: bool, content: string) {
    && root.JObject? && "choices" in root.fields
    && var choices := root.fields["choices"];
    && choices.JArray? && |choices.items| > 0
    && var first := choices.items[0];
    && first.JObject? && MessageKey(stream) in first.fields
    && var message := first.fields[MessageKey(stream)];
    && message.JObject? && "content" in message.fields
    && message.fields["content"] == JString(content)
  }

  /**
   * The decoder on an already parsed document (`None`: the parser threw).
   * Each missing key or wrong kind of value is an exception the decoder
   * catches, answering "".
   */
  function Decode(tree: Option<Json>, stream: bool): (r: string)
    ensures tree.None? ==> r == ""
    ensures r != "" ==> tree.Some? && CarriesContent(tree.value, stream, r)
    ensures forall t :: tree.Some? && CarriesContent(tree.value, stream, t) ==> r == t
  {
    match tree
    case None => ""
    case Some(root) =>
      if !root.JObject? || "choices" !in root.fields then "" else
      var choices := root.fields["choices"];
      if !choices.JArray? || |choices.items| == 0 then "" else
      var first := choices.items[0];
      if !first.JObject? || MessageKey(stream) !in first.fields then "" else
      var message := first.fields[MessageKey(stream)];
      if !message.JObject? || "content" !in message.fields || !message.fields["content"].JString? then ""
      else message.fields["content"].str
  }

  /** `decodeDeepSeekResponse(response, stream)`: parse, then decode. */
  function DecodeDeepSeekResponse(parse: string -> Option<Json>, response: string, stream: bool): (r: string)
    ensures parse(response).None? ==> r == ""
    ensures r != "" ==> parse(response).Some? && CarriesContent(parse(response).value, stream, r)
    ensures forall t :: parse(response).Some? && CarriesContent(parse(response).value, stream, t) ==> r == t
  {
    Decode(parse(response), stream)
  }

  /** The smallest reply that carries `content` for the given mode. */
  function ReplyJson(content: string, stream: bool): Json {
    JObject(map["choices" := JArray([
      JObject(map[MessageKey(stream) := JObject(map["content" := JString(content)])])])])
  }

  /** The decoder reads back what a reply of the same mode carries, and finds nothing in a reply of the other mode. */
  lemma DecodeReplyJson(content: string, stream: bool)
    ensures Decode(Some(ReplyJson(content, stream)), stream) == content
    ensures Decode(Some(ReplyJson(content, stream)), !stream) == ""
  {
    assert CarriesContent(ReplyJson(content, stream), stream, content);
  }

  // ---------------------------------------------------------------------------
  // One read of a streamed body

  /** `str.split("data:").last().trim()`: the text after the last marker, or the whole read, trimmed. */
  function StreamPayload(read: string): (payload: string)
    ensures Trimmed(payload)
  {
    Trim(Last(Split(read, DataMarker)))
  }

  /** Two occurrences of the marker never overlap: it has no proper prefix that is also a suffix. */
  lemma MarkerNoOverlap(s: string, a: int, b: int)
    requires OccursAt(s, DataMarker, a) && OccursAt(s, DataMarker, b) && a < b
    ensures a + |DataMarker| <= b
  {
    assert s[b] == s[b..b + |DataMarker|][0] == 'd';
    assert forall i :: 0 < i < |DataMarker| ==> DataMarker[i] != 'd';
  }

  /** Past `pre + DataMarker`, the marker occurs exactly where it occurs in `p`. */
  lemma ShiftOccurrence(pre: string, p: string, i: int)
    requires |pre| + |DataMarker| <= i
    ensures OccursAt(pre + DataMarker + p, DataMarker, i) <==> OccursAt(p, DataMarker, i - |pre| - |DataMarker|)
  {
    var s := pre + DataMarker + p;
    var m := i - |pre| - |DataMarker|;
    if i + |DataMarker| <= |s| {
      assert s[i..i + |DataMarker|] == p[m..m + |DataMarker|];
    }
  }

  /** The last piece of a read that has the marker is exactly the text after its last occurrence. */
  lemma LastPieceAfterMarker(pre: string, p: string)
    requires !Contains(p, DataMarker)
    ensures Last(Split(pre + DataMarker + p, DataMarker)) == p
  {
    var s := pre + DataMarker + p;
    var k := |pre|;
    var n := |DataMarker|;
    assert s[k..k + n] == DataMarker;
    assert OccursAt(s, DataMarker, k);
    forall a, b | OccursAt(s, DataMarker, a) && OccursAt(s, DataMarker, b) && a < b
      ensures a + n <= b
    {
      MarkerNoOverlap(s, a, b);
    }
    forall i | k + n <= i
      ensures !OccursAt(s, DataMarker, i)
    {
      ShiftOccurrence(pre, p, i);
    }
    var j := LastPieceFrom(s, DataMarker, 0);
    assert k < j && OccursAt(s, DataMarker, j - n);
    assert j - n == k;
    assert s[j..] == p;
  }

  /** A read with the marker yields the trimmed text after its last occurrence. */
  lemma StreamPayloadAfterMarker(pre: string, p: string)
    requires !Contains(p, DataMarker)
    ensures StreamPayload(pre + DataMarker + p) == Trim(p)
  {
    LastPieceAfterMarker(pre, p);
  }

  /** A read without the marker yields the whole read, trimmed. */
  lemma StreamPayloadWithoutMarker(read: string)
    requires !Contains(read, DataMarker)
    ensures StreamPayload(read) == Trim(read)
  {
    SplitWithoutDelimiter(read, DataMarker);
  }

  /**
   * Framing a payload as one `data:` event and extracting it gives the
   * payload back, spaces inside it included: the discarded space-stripping
   * of the read has no effect.
   */
  lemma FramedPayloadRoundTrip(p: string)
    requires !Contains(p, DataMarker) && Trimmed(p)
    ensures StreamPayload(DataMarker + p) == p
  {
    assert "" + DataMarker + p == DataMarker + p;
    StreamPayloadAfterMarker("", p);
    TrimOfTrimmed(p);
  }

  /**
   * A read carrying two events keeps only the last one: the earlier event is
   * dropped, whatever it holds, and the read calls back as the last event
   * alone would.
   */
  lemma EarlierEventDropped(parse: string -> Option<Json>, a: string, b: string)
    requires !Contains(b, DataMarker) && Trimmed(b)
    ensures StreamPayload(DataMarker + a + DataMarker + b) == b
    ensures ReadCallbacks(parse, DataMarker + a + DataMarker + b) == ReadCallbacks(parse, DataMarker + b)
  {
    StreamPayloadAfterMarker(DataMarker + a, b);
    TrimOfTrimmed(b);
    FramedPayloadRoundTrip(b);
  }

  /** The final event of a stream yields the sentinel. */
  lemma DoneEventPayload()
    ensures StreamPayload(DataMarker + DoneSentinel) == DoneSentinel
  {
    assert DoneSentinel[0] != 'd' && DoneSentinel[1] != 'd';
    assert !Contains(DoneSentinel, DataMarker);
    FramedPayloadRoundTrip(DoneSentinel);
  }

  /** The callback values one read produces: none for the sentinel, else its decoded payload. */
  function ReadCallbacks(parse: string -> Option<Json>, read: string): (r: seq<string>)
    ensures |r| <= 1
    ensures r == [] <==> StreamPayload(read) == DoneSentinel
  {
    var payload := StreamPayload(read);
    if payload == DoneSentinel then [] else [DecodeDeepSeekResponse(parse, payload, true)]
  }

  /** The callback values a sequence of reads produces, in order: at most one per read. */
  function StreamCallbacks(parse: string -> Option<Json>, received: seq<string>): (r: seq<string>)
    ensures |r| <= |received|
  {
    if received == [] then [] else ReadCallbacks(parse, received[0]) + StreamCallbacks(parse, received[1..])
  }

  lemma {:induction false} StreamCallbacksConcat(parse: string -> Option<Json>, a: seq<string>, b: seq<string>)
    ensures StreamCallbacks(parse, a + b) == StreamCallbacks(parse, a) + StreamCallbacks(parse, b)
  {
    if a != [] {
      assert (a + b)[1..] == a[1..] + b;
      StreamCallbacksConcat(parse, a[1..], b);
    } else {
      assert a + b == b;
    }
  }

  lemma {:induction false} StreamCallbacksAppend(parse: string -> Option<Json>, received: seq<string>, read: string)
    ensures StreamCallbacks(parse, received + [read]) == StreamCallbacks(parse, received) + ReadCallbacks(parse, read)
  {
    StreamCallbacksConcat(parse, received, [read]);
    assert [read][1..] == [];
    assert StreamCallbacks(parse, [read]) == ReadCallbacks(parse, read);
  }

  /**
   * A read whose payload is the sentinel produces nothing, and the received
   * after it are still processed.
   */
  lemma DoneReadIsSilent(parse: string -> Option<Json>, before: seq<string>, done: string, after: seq<string>)
    requires StreamPayload(done) == DoneSentinel
    ensures StreamCallbacks(parse, before + [done] + after)
            == StreamCallbacks(parse, before) + StreamCallbacks(parse, after)
  {
    StreamCallbacksConcat(parse, before + [done], after);
    StreamCallbacksAppend(parse, before, done);
  }

  /** A `data:` event framing a content chunk produces exactly the chunk's text. */
  lemma FramedChunkCallback(parse: string -> Option<Json>, chunk: string, text: string)
    requires !Contains(chunk, DataMarker) && Trimmed(chunk) && chunk != DoneSentinel
    requires parse(chunk) == Some(ReplyJson(text, true))
    ensures ReadCallbacks(parse, DataMarker + chunk) == [text]
  {
    FramedPayloadRoundTrip(chunk);
    DecodeReplyJson(text, true);
  }

  /** Three reads, the first two producing one value each and the last none, produce those two values. */
  lemma {:induction false} ThreeReads(parse: string -> Option<Json>, r1: string, r2: string, r3: string, t1: string, t2: string)
    requires ReadCallbacks(parse, r1) == [t1] && ReadCallbacks(parse, r2) == [t2] && ReadCallbacks(parse, r3) == []
    ensures StreamCallbacks(parse, [r1, r2, r3]) == [t1, t2]
  {
    assert [r3][1..] == [];
    assert StreamCallbacks(parse, [r3]) == [];
    assert [r2, r3][1..] == [r3];
    assert StreamCallbacks(parse, [r2, r3]) == [t2];
    assert [r1, r2, r3][1..] == [r2, r3];
  }

  /**
   * Two content events followed by the end event: one callback per content
   * event carrying its text, none for the end event, so the accumulated
   * text is the two texts in order.
   */
  lemma TwoEventsThenDone(parse: string -> Option<Json>, c1: string, c2: string, t1: string, t2: string)
    requires !Contains(c1, DataMarker) && Trimmed(c1) && c1 != DoneSentinel
    requires !Contains(c2, DataMarker) && Trimmed(c2) && c2 != DoneSentinel
    requires parse(c1) == Some(ReplyJson(t1, true)) && parse(c2) == Some(ReplyJson(t2, true))
    ensures StreamCallbacks(parse, [DataMarker + c1, DataMarker + c2, DataMarker + DoneSentinel]) == [t1, t2]
  {
    FramedChunkCallback(parse, c1, t1);
    FramedChunkCallback(parse, c2, t2);
    DoneEventPayload();
    ThreeReads(parse, DataMarker + c1, DataMarker + c2, DataMarker + DoneSentinel, t1, t2);
  }

  // ---------------------------------------------------------------------------
  // The exchange

  /** The body of the answer: the strings its successive received produced, and whether reading then failed. */
  datatype ResponseBody = ResponseBody(received: seq<string>, readFails: bool)

  /** How the HTTP exchange went: the call threw, or the server answered with a (possibly null) body. */
  datatype HttpOutcome = CallFailed | Responded(body: Option<ResponseBody>)

  /**
   * The callback values `sendMessage` produces for an exchange, in order:
   * without streaming exactly one, whatever happens; while streaming at
   * most one per read.
   */
  function Callbacks(parse: string -> Option<Json>, stream: bool, outcome: HttpOutcome): (r: seq<string>)
    ensures !stream ==> |r| == 1
    ensures stream && outcome.Responded? && outcome.body.Some? ==> |r| <= |outcome.body.value.received|
  {
    match outcome
    case CallFailed => [FailureReply]
    case Responded(None) =>
      if stream then [] else [DecodeDeepSeekResponse(parse, "", false)]
    case Responded(Some(body)) =>
      if stream then StreamCallbacks(parse, body.received)
      else if body.readFails then [FailureReply]
      else [DecodeDeepSeekResponse(parse, Flatten(body.received), false)]
  }

  /**
   * Failures: a call that throws answers once with the failure text; a read
   * error while streaming is swallowed, adding nothing after the received
   * already processed; a read error on a whole body answers with the
   * failure text.
   */
  lemma FailurePaths(parse: string -> Option<Json>, stream: bool, received: seq<string>)
    ensures Callbacks(parse, stream, CallFailed) == [FailureReply]
    ensures Callbacks(parse, true, Responded(Some(ResponseBody(received, true))))
            == Callbacks(parse, true, Responded(Some(ResponseBody(received, false))))
    ensures Callbacks(parse, false, Responded(Some(ResponseBody(received, true)))) == [FailureReply]
  {
  }

  /**
   * `sendMessage(sentences, stream, onResponseCallback)`: builds the request
   * record, then calls back with the decoded reply (one value) or, when
   * streaming, once per read whose payload is not the sentinel.
   */
  method SendMessage(sentences: seq<Sentence>, stream: bool, outcome: HttpOutcome, parse: string -> Option<Json>)
    returns (request: DeepSeekRequestBody, callbacks: seq<string>)
    ensures request == NewRequestBody(sentences, stream)
    ensures callbacks == Callbacks(parse, stream, outcome)
  {
    request := NewRequestBody(sentences, stream);
    callbacks := [];
    match outcome
    case CallFailed =>
      callbacks := [FailureReply];
    case Responded(body) =>
      if stream {
        if body.Some? {
          callbacks := ReadStream(body.value.received, parse);
          // A read error ends the loop; it is caught and nothing more is sent back.
        }
      } else {
        match body
        case None =>
          callbacks := [DecodeDeepSeekResponse(parse, "", false)];
        case Some(b) =>
          if b.readFails {
            callbacks := [FailureReply];
          } else {
            callbacks := [DecodeDeepSeekResponse(parse, Flatten(b.received), false)];
          }
      }
  }

  /**
   * One pass of the read loop, in the source's imperative form: the read is
   * stripped of spaces (a result the source discards), split at the marker
   * and trimmed; unless the payload is the sentinel, it is decoded and
   * passed to the callback. `ReadCallbacks` is its specification.
   */
  method HandleRead(str: string, parse: string -> Option<Json>) returns (sent: seq<string>)
    ensures sent == ReadCallbacks(parse, str)
  {
    var stripped := RemoveSpaces(str);  // computed and discarded, as in the source
    var payload := StreamPayload(str);
    sent := [];
    if payload != DoneSentinel {
      sent := [DecodeDeepSeekResponse(parse, payload, true)];
    }
  }

  /** The read loop over a streamed body, calling back for each read in turn. */
  method ReadStream(received: seq<string>, parse: string -> Option<Json>) returns (callbacks: seq<string>)
    ensures callbacks == StreamCallbacks(parse, received)
  {
    callbacks := [];
    var i := 0;
    while i < |received|
      invariant 0 <= i <= |received|
      invariant callbacks == StreamCallbacks(parse, received[..i])
    {
      var sent := HandleRead(received[i], parse);
      StreamCallbacksAppend(parse, received[..i], received[i]);
      TakeOneMore(received, i);
      callbacks := callbacks + sent;
      i := i + 1;
    }
    assert received[..|received|] == received;
  }

  /** `sendMessage(sentence, stream, onResponseCallback)`: the list version on a one-element list. */
  method SendSentence(sentence: Sentence, stream: bool, outcome: HttpOutcome, parse: string -> Option<Json>)
    returns (request: DeepSeekRequestBody, callbacks: seq<string>)
    ensures request == NewRequestBody([sentence], stream)
    ensures callbacks == Callbacks(parse, stream, outcome)
  {
    request, callbacks := SendMessage([sentence], stream, outcome, parse);
  }

  // ---------------------------------------------------------------------------
  // The multi-turn chat

  /** The history entries the callback values become. */
  function AssistantTurns(replies: seq<string>): seq<Sentence> {
    seq(|replies|, i requires 0 <= i < |replies| => Sentence(Assistant, replies[i]))
  }

  /** One more callback value adds exactly one assistant turn, at the end. */
  lemma AssistantTurnsAppend(replies: seq<string>, reply: string)
    ensures AssistantTurns(replies + [reply]) == AssistantTurns(replies) + [Sentence(Assistant, reply)]
  {
    var longer := AssistantTurns(replies + [reply]);
    assert longer[..|replies|] == AssistantTurns(replies);
    assert longer == longer[..|replies|] + [longer[|replies|]];
  }

  /** `DeepSeekUtil.Chat`: a conversation that remembers every turn it sent and received. */
  class Chat {
    var history: seq<Sentence>

    /** `createChat()`: a chat with an empty history. */
    constructor ()
      ensures history == []
    {
      history := [];
    }

    /**
     * `sendMessageWithHistory`: records the user turn, sends the whole
     * history, and records every callback value as an assistant turn before
     * forwarding it.
     */
    method SendMessageWithHistory(message: string, stream: bool, outcome: HttpOutcome, parse: string -> Option<Json>)
      returns (request: DeepSeekRequestBody, forwarded: seq<string>)
      modifies this
      ensures request == NewRequestBody(old(history) + [Sentence(User, message)], stream)
      ensures forwarded == Callbacks(parse, stream, outcome)
      ensures history == old(history) + [Sentence(User, message)] + AssistantTurns(forwarded)
    {
      history := history + [Sentence(User, message)];
      var replies;
      request, replies := SendMessage(history, stream, outcome, parse);
      forwarded := RecordReplies(replies);
    }

    /** The callback of `sendMessageWithHistory`: each value is recorded as an assistant turn, then forwarded. */
    method RecordReplies(replies: seq<string>) returns (forwarded: seq<string>)
      modifies this
      ensures forwarded == replies
      ensures history == old(history) + AssistantTurns(replies)
    {
      forwarded := [];
      var i := 0;
      while i < |replies|
        invariant 0 <= i <= |replies|
        invariant forwarded == replies[..i]
        invariant history == old(history) + AssistantTurns(forwarded)
      {
        AssistantTurnsAppend(forwarded, replies[i]);
        history := history + [Sentence(Assistant, replies[i])];
        forwarded := forwarded + [replies[i]];
        i := i + 1;
      }
      assert replies[..|replies|] == replies;
    }
  }

  /**
   * Without streaming, one call adds exactly two history entries: the user
   * turn, then one assistant turn.
   */
  method ExchangeWithoutStreaming(chat: Chat, message: string, outcome: HttpOutcome, parse: string -> Option<Json>)
    returns (reply: string)
    modifies chat
    ensures chat.history == old(chat.history) + [Sentence(User, message), Sentence(Assistant, reply)]
    ensures [reply] == Callbacks(parse, false, outcome)
  {
    var request, forwarded := chat.SendMessageWithHistory(message, false, outcome, parse);
    reply := forwarded[0];
    assert forwarded == [reply];
  }
}
