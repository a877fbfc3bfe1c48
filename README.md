# Gemini-Demo chat state, in Dafny

This project models the chat core of the Gemini-Demo Android app. The core has four parts:

- **The chat screen's state** (`MainScreenViewModel`). This is the transcript of sentences, the buffer of the reply being generated, the generating flag, the text chosen for selection, and whether the online model is in use. Each mutator of the state is modelled, and so is `sendMessage`, which streams an online reply or starts the on-device engine.
- **The on-device engine's result listener** (`ModelUtil.initGemmaModel`). Partial results are appended to the buffer. A final `done` commits the buffer into the last transcript entry and toggles the flag.
- **The send/stop button of the chat screen.** A click either stops a generation or appends the user's turn and launches `sendMessage`.
- **The DeepSeek client** (`DeepSeekUtil`). This covers the request record and its serialized form, the decoder of a reply, the extraction of the payload from each read of a streamed body, `sendMessage` with its callbacks, and the multi-turn `Chat` that keeps its own history.

The modules follow the same structure:

- `ViewModel` is the class `MainScreenViewModel`, whose methods update its fields in place.
- `ModelUtil` is the listener.
- `MainScreen` is the click handler, together with whole exchanges written as sequences of those calls.
- `DeepSeek` is the client.
- `Text` holds the Kotlin string operations the stream reader relies on: `indexOf`, `split`, `last`, `trim` (JVM whitespace) and `replace`.
- `JsonTree` holds a JSON document as a tree.

The invariant `CanCommit` says that a running generation always has a transcript entry to commit into. Every click, every `sendMessage` and every listener call preserves it, so stopping or finishing a generation never meets an empty transcript.

Three behaviours of the code are stated as they are written:

- Nothing clears the buffer on the online path. A second online reply is therefore committed with the first reply's text in front of it (`MainScreen.TwoOnlineExchanges`).
- A stop during on-device generation does not stop the engine. The engine's later `done` overwrites the committed reply and raises the flag again (`MainScreen.StopDuringOfflineGeneration`).
- A read that carries several `data:` events keeps only the last one. Every earlier event in that read is dropped, whatever it holds (`DeepSeek.LastPieceAfterMarker`, `DeepSeek.EarlierEventDropped`).

## Model

| member | source | states |
|---|---|---|
| `ViewModel.MainScreenViewModel.constructor` | app/src/main/java/com/example/geminichat/ui/data/MainScreenViewModel.kt:29-35 | the transcript and both texts start empty and the flag lowered; the online mode is the one given; `CanCommit` holds |
| `ViewModel.MainScreenViewModel.AddSentence` | app/src/main/java/com/example/geminichat/ui/data/MainScreenViewModel.kt:96-98 | the sentence is appended and every earlier entry stays |
| `ViewModel.MainScreenViewModel.UpdateSentence` | app/src/main/java/com/example/geminichat/ui/data/MainScreenViewModel.kt:100-102 | succeeds exactly when the transcript is not empty, then replaces only the last entry; on an empty transcript (where `set(size - 1)` throws) nothing changes |
| `ViewModel.MainScreenViewModel.SetGeneratedText` | app/src/main/java/com/example/geminichat/ui/data/MainScreenViewModel.kt:104-106 | the text is appended to the buffer, not substituted for it |
| `ViewModel.MainScreenViewModel.ClearGeneratedText` | app/src/main/java/com/example/geminichat/ui/data/MainScreenViewModel.kt:108-110 | the buffer becomes empty |
| `ViewModel.MainScreenViewModel.ChangeGenerateState` | app/src/main/java/com/example/geminichat/ui/data/MainScreenViewModel.kt:112-114 | the flag is negated |
| `ViewModel.MainScreenViewModel.SetTextToSelect` | app/src/main/java/com/example/geminichat/ui/data/MainScreenViewModel.kt:116-118 | the selection text is replaced |
| `ViewModel.MainScreenViewModel.SendMessage` | app/src/main/java/com/example/geminichat/ui/data/MainScreenViewModel.kt:68-94 | online: a reply entry is appended, the buffer grows by the text of every delivered chunk, the new entry holds the whole buffer, and the flag is toggled, whether or not the stream threw. Offline: the buffer is cleared, an empty reply entry is appended, and the flag is untouched. `CanCommit` holds afterwards |
| `ViewModel.StreamedConcat` | app/src/main/java/com/example/geminichat/ui/data/MainScreenViewModel.kt:73-78 | the streamed text of two runs of chunks is the two texts in order |
| `ViewModel.StreamedAppend` | app/src/main/java/com/example/geminichat/ui/data/MainScreenViewModel.kt:73-78 | one more chunk adds exactly its text, or nothing when it has none |
| `ViewModel.Streamed` | app/src/main/java/com/example/geminichat/ui/data/MainScreenViewModel.kt:73-78 | chunks without text add nothing to the buffer; with `StreamedConcat` and `StreamedAppend` below, the buffer is the text of every chunk that has text, in order |
| `ModelUtil.OnResult` | app/src/main/java/com/example/geminichat/util/ModelUtil.kt:45-51 | a partial result is appended to the buffer. `done` ignores its partial result: it commits the buffer into the last entry and toggles the flag, leaving the buffer as it is, and fails with nothing changed on an empty transcript. `CanCommit` is preserved |
| `MainScreen.OnClick` | app/src/main/java/com/example/geminichat/ui/screen/MainScreen.kt:147-176 | the click is ignored exactly when the message is empty and nothing is generating. While generating, the click stops: it commits the buffer as it was into the last entry, clears the buffer, lowers the flag and empties the field. Otherwise it raises the flag, appends the user's turn, empties the field and launches `sendMessage` on the message. `CanCommit` is preserved, and under it the stop never fails |
| `MainScreen.OnlineExchange` | app/src/main/java/com/example/geminichat/ui/screen/MainScreen.kt:158-175 | a click followed by online `sendMessage` appends the user's turn and a reply. The reply is the old buffer followed by the streamed text, and the flag ends lowered |
| `MainScreen.TwoOnlineExchanges` | app/src/main/java/com/example/geminichat/ui/data/MainScreenViewModel.kt:70-87 | on a fresh screen, the second online reply is committed with the first reply's text in front of it |
| `MainScreen.OfflineExchange` | app/src/main/java/com/example/geminichat/ui/data/MainScreenViewModel.kt:88-92 | a click, offline `sendMessage`, the engine's partial results, then `done`: together they append the user's turn and a reply equal to the partial results concatenated. The flag ends lowered |
| `MainScreen.StopDuringOfflineGeneration` | app/src/main/java/com/example/geminichat/ui/screen/MainScreen.kt:148-157 | after a stop, the engine's late partial result and `done` replace the committed reply with the late text and leave the flag raised |
| `Text.IndexOf` | app/src/main/java/com/example/geminichat/util/DeepSeekUtil.kt:107 | finds the first occurrence of the delimiter at or after `from`, or reports that there is none |
| `Text.SplitFrom` | app/src/main/java/com/example/geminichat/util/DeepSeekUtil.kt:107 | splitting from an index gives at least one piece |
| `Text.Split` | app/src/main/java/com/example/geminichat/util/DeepSeekUtil.kt:107 | `split` never returns an empty list, so `last()` never throws |
| `Text.SplitFromStep` | app/src/main/java/com/example/geminichat/util/DeepSeekUtil.kt:107 | at the first occurrence found, the split emits the text before it and goes on after the delimiter |
| `Text.SplitFromEnd` | app/src/main/java/com/example/geminichat/util/DeepSeekUtil.kt:107 | with no further occurrence of the delimiter, the split is the rest of the text alone |
| `Text.LastPieceFrom` | app/src/main/java/com/example/geminichat/util/DeepSeekUtil.kt:107 | the last piece is a suffix free of the delimiter. It is either the whole scanned text or directly preceded by the delimiter |
| `Text.SplitWithoutDelimiter` | app/src/main/java/com/example/geminichat/util/DeepSeekUtil.kt:107 | a text without the delimiter splits into itself alone |
| `Text.LastAppend` | app/src/main/java/com/example/geminichat/util/DeepSeekUtil.kt:107 | `last()` is the element at the end of the list, whatever comes before it |
| `Text.LastCons` | app/src/main/java/com/example/geminichat/util/DeepSeekUtil.kt:107 | a piece in front does not change which piece is last |
| `Text.FlattenAppend` | app/src/main/java/com/example/geminichat/util/DeepSeekUtil.kt:125 | the body text of two runs of reads is the two texts in order |
| `Text.JvmWhitespace` | app/src/main/java/com/example/geminichat/util/DeepSeekUtil.kt:107 | the whitespace `trim` cuts is the JVM's: tab to carriage return, U+001C-U+001F, the space, U+00A0, U+1680, U+2000-U+200A, U+2028, U+2029, U+202F, U+205F and U+3000. The zero-width space U+200B, the next-line character U+0085 and a letter are not whitespace |
| `Text.TrimStartSuffix` | app/src/main/java/com/example/geminichat/util/DeepSeekUtil.kt:107 | `trimStart` drops only leading whitespace and leaves no leading whitespace |
| `Text.TrimEndPrefix` | app/src/main/java/com/example/geminichat/util/DeepSeekUtil.kt:107 | `trimEnd` drops only trailing whitespace and leaves no trailing whitespace |
| `Text.Trim` | app/src/main/java/com/example/geminichat/util/DeepSeekUtil.kt:107 | `trim` gives a middle stretch of the text whose ends are not whitespace, with only whitespace cut off on either side |
| `Text.TrimCuts` | app/src/main/java/com/example/geminichat/util/DeepSeekUtil.kt:107 | trimming the start, then the end, gives a trimmed middle stretch |
| `Text.TrimBothEnds` | app/src/main/java/com/example/geminichat/util/DeepSeekUtil.kt:107 | after `trim` neither end of the text is whitespace |
| `Text.TrimCutsWhitespace` | app/src/main/java/com/example/geminichat/util/DeepSeekUtil.kt:107 | `trim` cuts only whitespace off either side |
| `Text.TrimOfTrimmed` | app/src/main/java/com/example/geminichat/util/DeepSeekUtil.kt:107 | trimming is the identity on a text whose ends are not whitespace |
| `Text.RemoveSpaces` | app/src/main/java/com/example/geminichat/util/DeepSeekUtil.kt:105 | removing spaces leaves no space and never lengthens the text. It leaves a text without spaces unchanged, and on one character it gives "" for a space and the character otherwise |
| `Text.RemoveSpacesConcat` | app/src/main/java/com/example/geminichat/util/DeepSeekUtil.kt:105 | removal works character by character: the result for two parts is the two results in order, so with the one-character case every other character is kept, in order |
| `DeepSeek.NewRequestBody` | app/src/main/java/com/example/geminichat/util/DeepSeekUtil.kt:26-47 | the request carries the given messages and stream flag, and every other field has its declared default |
| `DeepSeek.EncodeSentenceList` | app/src/main/java/com/example/geminichat/util/DeepSeekUtil.kt:150-152 | there is one JSON element per sentence |
| `DeepSeek.EncodeDeepSeekSentence` | app/src/main/java/com/example/geminichat/util/DeepSeekUtil.kt:154-156 | the single-sentence overload gives a one-element array that reads back as that sentence |
| `DeepSeek.SentenceListRoundTrip` | app/src/main/java/com/example/geminichat/util/DeepSeekUtil.kt:150-152 | serialized sentences read back exactly |
| `DeepSeek.EncodeDeepSeekRequestBody` | app/src/main/java/com/example/geminichat/util/DeepSeekUtil.kt:143-148 | the serialized request is an object with exactly the eleven serial names as keys, defaults included, and its `messages` read back exactly. For `sendMessage`, `EncodedRequestMessages` gives the messages and `EncodedRequestSettings` gives `stream`, `model`, `max_tokens` and `tool_choice`. The values of the other six keys are stated by no contract |
| `DeepSeek.EncodedRequestMessages` | app/src/main/java/com/example/geminichat/util/DeepSeekUtil.kt:143-148 | the serialized request carries the messages under `messages`, and they read back exactly |
| `DeepSeek.EncodedRequestSettings` | app/src/main/java/com/example/geminichat/util/DeepSeekUtil.kt:143-148 | the serialized request carries the stream flag, the model `deepseek-coder`, `max_tokens` 2048 and `tool_choice` `none` |
| `DeepSeek.Decode` | app/src/main/java/com/example/geminichat/util/DeepSeekUtil.kt:158-173 | the result is "" when parsing fails. A non-empty result is the string at `choices[0].delta.content` when streaming, or at `choices[0].message.content` otherwise. Whenever that string exists, it is the result |
| `DeepSeek.DecodeDeepSeekResponse` | app/src/main/java/com/example/geminichat/util/DeepSeekUtil.kt:158-173 | text that does not parse decodes to "". A non-empty result is the content the parsed reply carries for the mode, and whenever the parsed reply carries content, the result is that content |
| `DeepSeek.DecodeReplyJson` | app/src/main/java/com/example/geminichat/util/DeepSeekUtil.kt:158-173 | a reply of the same mode decodes to its content, and a reply of the other mode decodes to "" |
| `DeepSeek.MarkerNoOverlap` | app/src/main/java/com/example/geminichat/util/DeepSeekUtil.kt:107 | two occurrences of `data:` never overlap |
| `DeepSeek.ShiftOccurrence` | app/src/main/java/com/example/geminichat/util/DeepSeekUtil.kt:107 | past a prefix and one marker, the marker occurs in a read exactly where it occurs in the rest of the read |
| `DeepSeek.LastPieceAfterMarker` | app/src/main/java/com/example/geminichat/util/DeepSeekUtil.kt:107 | the last piece of a read is exactly the text after the last `data:` |
| `DeepSeek.StreamPayloadAfterMarker` | app/src/main/java/com/example/geminichat/util/DeepSeekUtil.kt:107 | the payload of a read that contains `data:` is the trimmed text after its last occurrence |
| `DeepSeek.StreamPayloadWithoutMarker` | app/src/main/java/com/example/geminichat/util/DeepSeekUtil.kt:107 | the payload of a read without `data:` is the whole read, trimmed |
| `DeepSeek.StreamPayload` | app/src/main/java/com/example/geminichat/util/DeepSeekUtil.kt:107 | the payload of a read has no whitespace at either end. `StreamPayloadAfterMarker` and `StreamPayloadWithoutMarker` give which text it is |
| `DeepSeek.FramedPayloadRoundTrip` | app/src/main/java/com/example/geminichat/util/DeepSeekUtil.kt:105-107 | a payload framed as one `data:` event is extracted back unchanged, spaces included |
| `DeepSeek.EarlierEventDropped` | app/src/main/java/com/example/geminichat/util/DeepSeekUtil.kt:107-115 | a read carrying two events yields the last event's payload and calls back as that event alone would: the earlier event is dropped |
| `DeepSeek.DoneEventPayload` | app/src/main/java/com/example/geminichat/util/DeepSeekUtil.kt:107-108 | the final event `data:[DONE]` yields the sentinel |
| `DeepSeek.ReadCallbacks` | app/src/main/java/com/example/geminichat/util/DeepSeekUtil.kt:107-115 | a read produces at most one callback, and produces none exactly when its payload is `[DONE]` |
| `DeepSeek.StreamCallbacksConcat` | app/src/main/java/com/example/geminichat/util/DeepSeekUtil.kt:102-116 | the callbacks of two runs of reads are the two runs' callbacks in order |
| `DeepSeek.StreamCallbacksAppend` | app/src/main/java/com/example/geminichat/util/DeepSeekUtil.kt:102-116 | one more read adds exactly its own callbacks |
| `DeepSeek.StreamCallbacks` | app/src/main/java/com/example/geminichat/util/DeepSeekUtil.kt:102-116 | there are never more callbacks than reads; `StreamCallbacksConcat`, `StreamCallbacksAppend` and `DoneReadIsSilent` say which ones, in order |
| `DeepSeek.DoneReadIsSilent` | app/src/main/java/com/example/geminichat/util/DeepSeekUtil.kt:108 | a `[DONE]` read produces nothing, and the reads after it are still processed |
| `DeepSeek.FramedChunkCallback` | app/src/main/java/com/example/geminichat/util/DeepSeekUtil.kt:107-115 | a `data:` event framing a content chunk calls back with exactly the chunk's text |
| `DeepSeek.ThreeReads` | app/src/main/java/com/example/geminichat/util/DeepSeekUtil.kt:102-116 | three reads, of which the first two yield one value each and the last yields none, call back with those two values in order |
| `DeepSeek.TwoEventsThenDone` | app/src/main/java/com/example/geminichat/util/DeepSeekUtil.kt:102-116 | two content events and the end event call back with the two texts in order |
| `DeepSeek.Callbacks` | app/src/main/java/com/example/geminichat/util/DeepSeekUtil.kt:94-131 | without streaming there is exactly one callback, whatever happens; while streaming there are never more callbacks than reads. `FailurePaths` gives the failure cases |
| `DeepSeek.FailurePaths` | app/src/main/java/com/example/geminichat/util/DeepSeekUtil.kt:118-131 | a failed call answers "Something go wrong." once. A read error while streaming adds nothing after the reads already processed. A read error on a whole body answers "Something go wrong." |
| `DeepSeek.SendMessage` | app/src/main/java/com/example/geminichat/util/DeepSeekUtil.kt:67-133 | the request is the default record with the given messages and flag, and the callbacks are those the exchange determines |
| `DeepSeek.HandleRead` | app/src/main/java/com/example/geminichat/util/DeepSeekUtil.kt:103-115 | one pass of the read loop sends exactly the callbacks of that read |
| `DeepSeek.ReadStream` | app/src/main/java/com/example/geminichat/util/DeepSeekUtil.kt:99-117 | the read loop sends the callbacks of all reads, in order |
| `DeepSeek.SendSentence` | app/src/main/java/com/example/geminichat/util/DeepSeekUtil.kt:135-141 | the single-sentence overload sends a one-sentence request with the same callbacks |
| `DeepSeek.AssistantTurnsAppend` | app/src/main/java/com/example/geminichat/util/DeepSeekUtil.kt:58-61 | each further callback value adds exactly one assistant turn, at the end of the history |
| `DeepSeek.Chat.RecordReplies` | app/src/main/java/com/example/geminichat/util/DeepSeekUtil.kt:58-61 | every callback value is forwarded unchanged, and the history gains one assistant turn per value, in order |
| `DeepSeek.Chat.constructor` | app/src/main/java/com/example/geminichat/util/DeepSeekUtil.kt:175-177 | a new chat has an empty history |
| `DeepSeek.Chat.SendMessageWithHistory` | app/src/main/java/com/example/geminichat/util/DeepSeekUtil.kt:52-62 | the user's turn is recorded before sending, the whole history is sent, every callback value is forwarded, and each becomes an assistant turn in order |
| `DeepSeek.ExchangeWithoutStreaming` | app/src/main/java/com/example/geminichat/util/DeepSeekUtil.kt:52-62 | without streaming, one call adds exactly the user's turn and one assistant turn |

## Left out

- The Gemini SDK chat, the MediaPipe on-device engine and the start-up probe (`initializeGemini`, `testOnlineModel`) are not modelled. What they deliver is a parameter: online chunks, whether the stream threw, the engine's partial results, and the online mode passed to the constructor.
- Coroutines, dispatchers and job cancellation are not modelled. Steps run one after another, and a stop simply ends the launched coroutine. A cancelled online coroutine's catch block (MainScreenViewModel.kt:81-82) could still overwrite the last entry after a stop; that interleaving is not modelled.
- The HTTP transport, headers, timeouts, the API key and the byte-to-text decoding with the default charset are not modelled. An exchange is an `HttpOutcome`: the call failed, or a body (possibly null) arrived as the texts of its successive reads, possibly ending in a read error.
- The JSON parser `JSONObject(text)` and the text form of the serializer's output are not modelled. The parser is the parameter `parse`, and the serializer's output is a `JsonTree.Json` tree.
- The floating-point fields of the request record (`frequency_penalty`, `presence_penalty`, `temperature`, `top_p`) are not modelled.
- `DeepSeek.EncodeDeepSeekRequestBody`: its contract gives the key set and the messages. The serialized values of `response_format`, `stop`, `stream_options`, `tools`, `logprobs` and `top_logprobs` are in its body but in no contract, because they are fixed defaults that nothing in the chat reads.
- `DeepSeek.Decode`: Android's `getString` coerces a non-string `content` to text: JSON null becomes "null", a number or a boolean its printed form, and an object or array its JSON text. The model answers "" for all of them instead, because the JSON printer is not modelled. `DeepSeek.DecodeDeepSeekResponse` inherits this.
- `DeepSeek.EncodeSentence`: `Sentence` has no serializer annotation in the source. The model serializes it under its property names `role` and `message`.
- `DeepSeek.Chat.SendMessageWithHistory`: the callbacks are collected first and then appended to the history. This matches the source because the request is serialized before the first callback fires.
- Toasts, logging, the Room conversation store, the chat field component and navigation are not modelled.
