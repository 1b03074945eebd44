# Avesta AI front end: a verified model of its core

Avesta AI is a Persian-language React front end over a generative-AI SDK.
Most of its panels send one request and show the result. This project
models the parts with real logic:

- **The chat turn engine** (`Chat`). One conversation is kept as an
  ordered message list. Staged attachments are two parallel lists: the
  files and their previews. A turn is guarded by a loading flag. It
  appends the user's message, clears the composer, builds a text or
  multi-part payload and sends it to a session created on demand. It then
  fills an AI message with the streamed reply, or appends a fixed apology.
  The list is saved in local storage under one key and restored on mount.
- **The provider adapters** (`GeminiService`). These cover chat history
  formatting, the model configuration, and data-URL handling for file
  reads. They also cover image URLs built from response parts, the
  edit-response part loop, and how provider errors become the messages
  the UI shows.
- **Speech** (`Tts`). Replies are cut into chunks of at most 200
  UTF-16 code units (the unit of JavaScript's `.length`). Only a single
  word too long to break is longer. A Persian voice is chosen. A
  module-level queue speaks the chunks one after another.
- **Live voice chat** (`VoiceChat`). This covers the byte/Base64 codecs,
  the transcript buffers that server messages fill and flush into turns,
  and the connection and camera flags.
- **The shared-project preview page** (`Preview`). This covers decoding
  the `share` parameter and classifying the project as web, Android or
  unknown.
- **The Android app builder** (`AndroidAppBuilder`). This covers choosing
  the explanation and the first file to show, and the generate and edit
  handlers.
- **The image generator** (`ImageGenerator`). The chosen model's
  capabilities clamp the image count and aspect ratio, and submission is
  gated on an API key.
- **The image editor** (`ImageEditor`). Staged images and their previews
  stay index-aligned, and the request payload follows staging order.

Shared modules:

- `Wrappers`: `Option`, `Result`.
- `Types`: the records of `types.ts`.
- `Js`: the JavaScript string and array semantics the code relies on
  (`trim`, `startsWith`, `includes`, `split`, `find`, `filter` by index,
  `+=` accumulation, the value a `catch` receives).
- `Base64`: `btoa` and `atob`, i.e. section 4 of RFC 4648 with the
  forgiving decoder of the HTML standard.
- `BinaryString`: the byte/character loops around `btoa` and `atob`.

The remote provider is never called. Each call's reply is an input: a
value, a sequence of streamed chunks, or the value the call threw. The same
applies to what the browser reports: file reads, storage contents,
microphone and camera permission, and the host page's key bridge. Each
React handler is one atomic step. A component is a class with the
component's fields. Each handler method is proved equal to a pure function
of the old state, and the properties are proved about those functions.

## Model

| member | source | states |
|---|---|---|
| `Chat.KindOf` | components/Chat.tsx:216-218 | An attachment is a video exactly when its MIME type starts with `video/`, audio exactly when it starts with `audio/`, and an image exactly when it starts with neither. |
| `Chat.Previews` | components/Chat.tsx:213-221 | The previews succeed exactly when every file reads as a string. They have one entry per file, in order, holding the file's data URL and kind. |
| `Chat.FileParts` | components/Chat.tsx:245-252 | The file parts succeed exactly when every file reads. They have one inline part per file, in order, holding the file's MIME type and the data after the first comma. |
| `Chat.BuildPayload` | components/Chat.tsx:244-256 | Without files, the payload is the bare text. With files, it succeeds exactly when all files read. It then opens with a text part exactly when the trimmed text is not empty, followed by one inline part per file at the matching offset. |
| `Chat.Reply` | components/Chat.tsx:258-273 | A refused send adds only the apology. A stream adds one AI message with all chunks joined, then the apology when the stream breaks off. |
| `Chat.TurnEffects` | components/Chat.tsx:210-277 | During a turn, or when a preview cannot be made, nothing changes. Otherwise the payload is built. One request goes to the turn's session (the existing one, or one seeded with the pre-turn history). When it is made, the panel already shows the old messages followed by the user's message, an empty composer and the loading flag. The messages end as the old ones, then the user's message, then the reply. The composer is empty, the loading flag is down and the whole list is saved under the key. The user's message carries previews exactly when there are attachments. |
| `Chat.Sent` | components/Chat.tsx:210-277 | The definition of a turn. Its effects are stated by `TurnEffects`, `TurnOrder` and `PreviewedTurnIsSent`. |
| `Chat.Submitted` | components/Chat.tsx:287-291 | A blank input with no files, or a turn in flight, is refused unchanged. Otherwise exactly one request is made, the composer is cleared, and the next message is the user's, holding the input. |
| `Chat.TurnOrder` | components/Chat.tsx:260-276 | When a stream breaks off, three messages are appended after the unchanged earlier ones: the user's message, the AI message with the text streamed so far, and the apology. |
| `Chat.PreviewedTurnIsSent` | components/Chat.tsx:237-258 | Once previews are made, one request is made to the turn's session. Without attachments, its payload is the bare text. |
| `Chat.FilesChosen` | components/Chat.tsx:176-200 | Choosing no file changes nothing. Chosen files are appended to the staged files. Their previews are appended only when all can be made. Nothing else changes. |
| `Chat.FileChoiceAlignment` | components/Chat.tsx:180-198 | If all previews are made, aligned lists stay aligned and each new preview belongs to the file at the same index. If a preview fails, the lists fall out of alignment. |
| `Chat.FileRemoved` | components/Chat.tsx:202-204 | Removing index `idx` removes entry `idx` from both lists, keeps the rest in order, and preserves alignment. |
| `Chat.RemovalKeepsPreviews` | components/Chat.tsx:202-204 | After a removal, every remaining file still sits next to the preview it was staged with. |
| `Chat.Cleared` | components/Chat.tsx:168-174 | If the dialog is declined, nothing changes. If it is confirmed, the list is emptied and the storage key is removed (other keys are kept), and the session is recreated for the model with no history. |
| `Chat.ModelChosen` | components/Chat.tsx:159-162 | A different model, chosen while no turn is in flight, replaces the session with one for that model seeded with the current history. Anything else changes nothing. |
| `Chat.ModelChangeReseedsSession` | components/Chat.tsx:238-240 | The turn after a model change goes to a session for the new model whose history is the pre-turn conversation. |
| `Chat.Mounted` | components/Chat.tsx:134-162 | On mount, the saved list is restored when it parses and otherwise left empty. The session that remains has no history (the `[model]` effect runs last). A non-empty restored list is saved back. Nothing else changes. |
| `Chat.TurnSurvivesReload` | components/Chat.tsx:135-157 | If the codec reads back what it wrote, a conversation saved by a turn is restored on the next mount, and the new session is for the default model with no history. |
| `Chat.ClearedHistoryStaysCleared` | components/Chat.tsx:168-171 | After clearing, the next mount restores no messages and writes no key. |
| `Chat.UnparsableHistoryIgnored` | components/Chat.tsx:138-146 | A saved value that does not parse leaves the list empty, the store untouched, and the session without history. |
| `Chat.Restored` | components/Chat.tsx:136-146 | The list the mount effect restores. Its cases are stated by `Mounted`, `TurnSurvivesReload` and `UnparsableHistoryIgnored`. |
| `Chat.InitialMessageSent` | components/Chat.tsx:279-285 | If the welcome page left a non-empty message, its key is removed. The message is then sent as a text-only turn, unless a turn is in flight. Without a message, nothing changes. |
| `Chat.StreamInto` | components/Chat.tsx:260-270 | After the streaming loop, the list is the earlier messages followed by one AI message holding every chunk, joined in order. |
| `Chat.Answer` | components/Chat.tsx:258-273 | If the payload cannot be built, the apology follows the shown messages. Otherwise the reply to the stream follows them. |
| `Chat.ChatPanel.constructor` | components/Chat.tsx:124-130 | The panel starts with no messages, an empty composer, no session and the default model. |
| `Chat.ChatPanel.Mount` | components/Chat.tsx:134-162 | The mount effects leave the state `Mounted` describes. |
| `Chat.ChatPanel.SendMessage` | components/Chat.tsx:210-277 | `sendMessage` shows the user's message, clears the composer and raises the loading flag before it records the request. It leaves the state that `TurnEffects` describes field by field. |
| `Chat.ChatPanel.HandleSubmit` | components/Chat.tsx:287-291 | `handleSubmit` leaves the state `Submitted` describes. |
| `Chat.ChatPanel.HandleFileChange` | components/Chat.tsx:176-200 | `handleFileChange` leaves the state `FilesChosen` describes. |
| `Chat.ChatPanel.HandleRemoveFile` | components/Chat.tsx:202-208 | `handleRemoveFile` leaves the state `FileRemoved` describes. |
| `Chat.ChatPanel.ClearHistory` | components/Chat.tsx:168-174 | `clearHistory` leaves the state `Cleared` describes. |
| `Chat.ChatPanel.ChooseModel` | components/Chat.tsx:309-314 | The model selector (disabled during a turn) leaves the state `ModelChosen` describes. |
| `Chat.ChatPanel.ConsumeInitialMessage` | components/Chat.tsx:279-285 | The initial-message effect leaves the state `InitialMessageSent` describes. |
| `GeminiService.Base64FieldOfDataUrl` | services/geminiService.ts:13 | For a data URL (RFC 2397, section 3) whose media type and data hold no comma, the field after the first comma is the data. |
| `GeminiService.FileToBase64` | services/geminiService.ts:7-20 | It resolves exactly when the reader loads a string, to the field after the first comma. A non-string result rejects with its `Error`. A reader error rejects with the event. |
| `GeminiService.FileToDataUrl` | services/geminiService.ts:22-35 | It resolves exactly when the reader loads a string, to the whole data URL. Otherwise it rejects as `fileToBase64` does, with its own message. |
| `GeminiService.ReadersAgree` | services/geminiService.ts:7-35 | The two readers succeed together. The base64 result is the field after the first comma of the data URL. |
| `GeminiService.GetModelConfig` | services/geminiService.ts:47-63 | The config uses temperature 0.7, topP 0.95 and topK 40, and has four safety entries, one per harm category, all `BLOCK_NONE`. It has a system instruction (the persona) exactly when `includePersona` holds. |
| `GeminiService.FormatHistoryEntries` | services/geminiService.ts:68-72 | History formatting keeps length and order. Each entry's role is `user` exactly for user messages, and its only part is the message text. |
| `GeminiService.FormatHistory` | services/geminiService.ts:69-72 | The history formatting that `createChatSession` applies. Its properties are stated by `FormatHistoryEntries`, `FormatHistoryAppend` and `FormatHistoryIgnoresPreviews`. |
| `GeminiService.FormatHistoryAppend` | services/geminiService.ts:68-72 | Formatting distributes over concatenation. |
| `GeminiService.FormatHistoryIgnoresPreviews` | services/geminiService.ts:69-72 | Histories that differ only in their media previews format the same. |
| `GeminiService.CreateChatSession` | services/geminiService.ts:68-79 | The session gets the given model, `getModelConfig()` with the persona, and the formatted history. |
| `GeminiService.GenerateText` | services/geminiService.ts:82-94 | It never fails. It returns the reply text, or the fixed error text when the provider fails. |
| `GeminiService.AssistDocumentRequest` | services/geminiService.ts:447-450 | The document assistant sends one request to the flash model. Its prompt starts and ends with the fixed template and contains both the document and the instruction. The answer is `generateText`'s. |
| `GeminiService.AssistCodeRequest` | services/geminiService.ts:552-555 | The same as the document assistant, using the pro model and the code template. |
| `GeminiService.GroundedSearch` | services/geminiService.ts:350-373 | A failure gives the fixed text and no sources. A success gives the reply text, with sources that are the grounding chunks, or `[]` when they are absent. |
| `GeminiService.ProviderErrorMessage` | services/geminiService.ts:156-162 | An `Error` whose message includes "Requested entity was not found" becomes the API-key message. Everything else becomes the feature's message. |
| `GeminiService.ApiKeyPhraseDistinguishes` | services/geminiService.ts:158-161 | The API-key message contains the key phrase the components look for, and the image feature message does not. |
| `GeminiService.InlineImageUrlsComplete` | services/geminiService.ts:129-133 | Every image URL comes from an inline-data part, and every inline-data part contributes its URL. |
| `GeminiService.InlineImageUrls` | services/geminiService.ts:129-133 | There are at most as many image URLs as parts. Their order and completeness are stated by `InlineImageUrlsComplete` and `CollectInlineImages`. |
| `GeminiService.CollectInlineImages` | services/geminiService.ts:129-133 | The `push` loop builds exactly the data URLs of the inline-data parts, in part order. |
| `GeminiService.JpegDataUrls` | services/geminiService.ts:121 | The Imagen path gives one `data:image/jpeg;base64,` URL per generated image, in order. |
| `GeminiService.GenerateImages` | services/geminiService.ts:97-163 | A failed translation gives the mapped error, and a success carries the trimmed translation. On the Imagen path, the images are JPEG data URLs of the generated bytes. On the flash and pro paths, they are the data URLs of the first candidate's inline-data parts. The flash path fails exactly when that candidate or its content is missing. The pro path then gives no images. A failure of the image call itself is mapped by `ProviderErrorMessage` with the image message. An unrecognised model gives no images. Every failure is the API-key message or the image message. |
| `GeminiService.FlashImageWithoutCandidates` | services/geminiService.ts:124-133 | On the flash image path, a reply without a first candidate or without its content throws a `TypeError`. That becomes the image message, not the key message. |
| `GeminiService.EditRequestParts` | services/geminiService.ts:168-180 | The request holds the image parts in the given order, followed by the prompt text part. |
| `GeminiService.LastText` | services/geminiService.ts:194-202 | The text result exists exactly when some part has truthy text. It is the text of the last such part. |
| `GeminiService.LastImage` | services/geminiService.ts:194-202 | The image result exists exactly when some part has inline data and no truthy text. It is the URL of the last such part, so a part with text is never taken as an image. |
| `GeminiService.ExtractParts` | services/geminiService.ts:191-203 | The part loop yields the last text and the last image as defined above. |
| `GeminiService.GenerateFromImages` | services/geminiService.ts:166-208 | No candidates gives two nulls. A first candidate without content, or a provider failure, gives the fixed edit message. Otherwise the result is the last text and the last image. |
| `GeminiService.VideoOutcome` | services/geminiService.ts:230-243 | A video succeeds exactly when it has a non-empty URI, which becomes the download link. A missing link gives the feature message. A caught error is mapped as in `ProviderErrorMessage`. |
| `GeminiService.GenerateVideo` | services/geminiService.ts:211-244 | A video succeeds exactly when the finished operation has a video with a non-empty URI. It returns that URI as the download link, with the video. Every failure is the API-key message or the video message. |
| `GeminiService.GenerateVideoFromImage` | services/geminiService.ts:247-284 | The same outcomes as `generateVideo`, with the image-to-video message. |
| `GeminiService.ExtendVideo` | services/geminiService.ts:307-320 | Video extension returns only the download link, with the same outcomes as the other video paths. |
| `GeminiService.VideoErrorsMapped` | services/geminiService.ts:237-243 | On all three video paths, an entity-not-found error gives the API-key message. Any other error gives that path's own message. |
| `GeminiService.GenerateSpeech` | services/geminiService.ts:338-346 | It succeeds exactly when the first inline data is present and non-empty. Any other outcome gives the fixed speech message. |
| `GeminiService.GenerateCodeProject` | services/geminiService.ts:492-498 | The parsed files are returned as they are. Any failure gives the fixed project message. |
| `GeminiService.EditCodeProject` | services/geminiService.ts:542-548 | The same as `GenerateCodeProject`, with the edit message. |
| `Tts.SentencesFromCover` | services/ttsService.ts:92 | The sentence matches joined give back the text, and each match is a run of non-terminators followed only by terminators. |
| `Tts.SentencesCoverText` | services/ttsService.ts:92 | Sentence splitting loses only the terminators before the first sentence. |
| `Tts.NonEmpty` | services/ttsService.ts:115 | The filter keeps exactly the non-empty chunks. |
| `Tts.NonEmptyAppend` | services/ttsService.ts:115 | The filter distributes over concatenation, so kept chunks stay in their order. |
| `Tts.NonEmptyKeepsFull` | services/ttsService.ts:115 | A list without empty chunks passes the filter whole. |
| `Tts.PackSentence` | services/ttsService.ts:99-111 | The word loop, which tests the UTF-16 length of `currentChunk + ' ' + word`, yields the greedy packing `PackWords` of the sentence's space-separated words. |
| `Tts.DropEmpty` | services/ttsService.ts:115 | The filter loop yields the non-empty chunks. |
| `Tts.ChunkText` | services/ttsService.ts:83-116 | The `chunkText` loops yield the chunks `Chunks` defines. All three length tests count UTF-16 code units. |
| `Tts.Chunks` | services/ttsService.ts:83-116 | What `chunkText` returns. Its properties are stated by `ChunksFit` and `ShortSentencesAreChunks`. |
| `Tts.Sentences` | services/ttsService.ts:92 | The matches of the sentence pattern. Their properties are stated by `SentencesFromCover` and `SentencesCoverText`. |
| `Tts.PackWords` | services/ttsService.ts:99-111 | The greedy word packing. Its bound is stated by `PackWordsFit`. |
| `Tts.PackWordsFit` | services/ttsService.ts:99-111 | Every packed chunk is trimmed, and within 200 UTF-16 code units unless it is a single word. |
| `Tts.AllSentenceChunksFit` | services/ttsService.ts:94-113 | Every chunk a sentence contributes is trimmed, and within 200 UTF-16 code units unless it is a single word. |
| `Tts.ChunksFit` | services/ttsService.ts:83-116 | A text of at most 200 UTF-16 code units is the single chunk `[text]`, untrimmed. A longer text gives non-empty trimmed chunks, each within 200 code units unless it is a single word too long to break. |
| `Tts.ShortSentencesAreChunks` | services/ttsService.ts:94-96 | When every sentence is within 200 UTF-16 code units, the chunks are the sentences trimmed, one each, in order. |
| `Tts.IndexOfLang` | services/ttsService.ts:43 | The index is that of the first voice whose language is exactly the one sought. |
| `Tts.IndexOfLangPrefix` | services/ttsService.ts:43 | The index is that of the first voice whose language starts with the prefix. |
| `Tts.FindPersianVoiceChoice` | services/ttsService.ts:37-48 | The chosen voice is a listed `fa-*` voice, and there is none exactly when no listed voice is Persian. The first `fa-IR` voice is preferred. Without one, the first `fa-*` voice is taken. |
| `Tts.FindPersianVoice` | services/ttsService.ts:43 | The voice the lookup settles on. Its choice is stated by `FindPersianVoiceChoice`. |
| `Tts.Utterances` | services/ttsService.ts:192-201 | The utterances are one per chunk, in order, in `fa-IR` at rate and pitch 1, with the loaded voice. |
| `Tts.UtteranceErrorMessage` | services/ttsService.ts:137-142 | `synthesis-failed` gives the friendly message. Any other code gives the prefix followed by the code. |
| `Tts.UtteranceErrorMessageNamesCode` | services/ttsService.ts:138-142 | Other codes give distinct messages, each ending with its code. |
| `Tts.SpeechService.constructor` | services/ttsService.ts:3-16 | The module state starts empty: no queue, no current utterance, no callbacks, no voice lookup. |
| `Tts.SpeechService.PersianVoice` | services/ttsService.ts:23-73 | The first lookup settles the voice for good. Later calls return the cached result. |
| `Tts.SpeechService.SpeakNextChunk` | services/ttsService.ts:122-150 | The queue's head becomes current and is spoken. If the queue is empty, the end is reported and nothing is current. |
| `Tts.SpeechService.Stop` | services/ttsService.ts:211-225 | If the engine is supported, the queue is emptied, the callbacks are dropped, nothing is current, and the engine is cancelled. Otherwise nothing changes. |
| `Tts.SpeechService.Speak` | services/ttsService.ts:160-209 | When nothing runs during the voice wait, it behaves as follows. It stops first. Without an engine, it reports the unsupported error. Blank text reports the end and queues nothing. Persian text without a Persian voice reports the error and queues nothing. Otherwise the pending utterances are the chunks, the start is reported, and the first chunk is spoken. |
| `Tts.SpeechService.BeginSpeak` | services/ttsService.ts:160-177 | The part of `speak` before `await getPersianVoice()` stops everything. Without an engine, it reports the error. For blank text, it reports the end. Otherwise it stores the caller's callbacks and waits. |
| `Tts.SpeechService.ResumeSpeak` | services/ttsService.ts:180-208 | After the wait, the missing-voice error goes to the caller's own `onError`. Otherwise the chunks' utterances replace the queue and the first is spoken. The start or end is reported through whatever callbacks are stored then. |
| `Tts.SpeechService.StopDuringVoiceWait` | services/ttsService.ts:177-225 | A `stop` during the voice wait does not cancel the pending `speak`. The chunks are queued and the first is spoken, while neither the start nor the end is reported. |
| `Tts.SpeechService.StartQueue` | services/ttsService.ts:192-208 | The utterances replace the queue. The start is reported and the first is spoken, or, with none, the end is reported and the current utterance is left alone. |
| `Tts.SpeechService.OnUtteranceEnd` | services/ttsService.ts:132-135 | The end of an utterance dequeues the next one, or reports the end. After `stop`, nothing happens. |
| `Tts.SpeechService.OnUtteranceError` | services/ttsService.ts:137-147 | An utterance error reports its message and then stops, so nothing more is spoken and no end is reported. |
| `VoiceChat.Encode` | components/VoiceChat.tsx:8-15 | `encode` is the Base64 encoding (RFC 4648, section 4) of the bytes, in order. |
| `VoiceChat.Decode` | components/VoiceChat.tsx:17-25 | `decode` fails exactly when `atob` throws. Otherwise the array holds the decoded bytes. |
| `VoiceChat.EncodeThenDecode` | components/VoiceChat.tsx:8-25 | `decode(encode(b))` gives back exactly the bytes of `b`. |
| `VoiceChat.TurnEntries` | components/VoiceChat.tsx:204-205 | A turn adds a user entry exactly when the input is not blank, and a model entry exactly when the output is not blank, user first. No added entry is blank. |
| `VoiceChat.Step` | components/VoiceChat.tsx:195-209 | Fragments are appended to their buffers. A completed turn commits the entries assembled from the closed-over buffers plus this message's fragments, and empties both buffers. |
| `VoiceChat.StepAppends` | components/VoiceChat.tsx:195-209 | One message keeps the transcript and adds only non-blank entries. |
| `VoiceChat.ReplayOnlyAppends` | components/VoiceChat.tsx:193-209 | Any number of messages only append non-blank entries to the transcript. |
| `VoiceChat.Replay` | components/VoiceChat.tsx:193-209 | A run of server messages through `onmessage`. Its effect is stated by `ReplayOnlyAppends`. |
| `VoiceChat.CommittedTurnUsesLastFragment` | components/VoiceChat.tsx:202-203 | Because of the stale closure, a committed user entry is the closed-over value followed by the last fragment only. |
| `VoiceChat.VoiceChatState.constructor` | components/VoiceChat.tsx:50-83 | The panel starts disconnected with an empty transcript. Without an API key, it starts with the missing-key error. |
| `VoiceChat.VoiceChatState.ToggleConnection` | components/VoiceChat.tsx:146-259 | Disconnecting drops both flags. Without a client, it shows the not-ready error. Connecting clears the error, the transcript and both buffers and raises the flag. A denied microphone shows its error and lowers the flag. |
| `VoiceChat.VoiceChatState.OnMessage` | components/VoiceChat.tsx:193-209 | The transcript and buffers become what `Step` gives, and the flags are unchanged. |
| `VoiceChat.VoiceChatState.OnSessionError` | components/VoiceChat.tsx:235-240 | A session error shows the connection error and disconnects. |
| `VoiceChat.VoiceChatState.OnSessionClose` | components/VoiceChat.tsx:241-245 | Closing the session drops both flags. |
| `VoiceChat.VoiceChatState.ToggleCamera` | components/VoiceChat.tsx:261-312 | While disconnected, it only shows an error. Otherwise it turns the camera off, or on when the camera is granted, or shows the camera error. |
| `Preview.Base64ToUint8Array` | preview.tsx:6-14 | It fails exactly when `atob` throws. Otherwise the array holds one decoded byte per character, in order. |
| `Preview.PreviewPage.constructor` | preview.tsx:17-20 | The page starts with no files, no error, an unknown type and no active file. |
| `Preview.PreviewPage.Mount` | preview.tsx:22-57 | The mount effect leaves the state `Load` gives for the `share` parameter and the library results. |
| `Preview.Load` | preview.tsx:22-57 | The state the mount effect reaches. Its cases are stated by `MissingShareShowsError`, `BrokenLinkShowsLoadError` and `LoadedListIsClassified`. |
| `Preview.Classify` | preview.tsx:42-52 | The project type. Its cases are stated by `WebListShowsIndex`, `AndroidListShowsCodeFile` and `OtherListShowsError`. |
| `Preview.Classified` | preview.tsx:40-52 | The state after a non-empty list is classified, as stated by the same three lemmas. |
| `Preview.RenderContent` | preview.tsx:59-113 | What the page shows. It is stated by the same three lemmas and by `WebPageHasIndex`. |
| `Preview.MissingShareShowsError` | preview.tsx:25-29 | Without `share`, no files load and the no-data error shows. |
| `Preview.WebListShowsIndex` | preview.tsx:42-80 | A list with a file whose name ends in `index.html` is a web page showing the first such file, whatever Android sources it holds. |
| `Preview.AndroidListShowsCodeFile` | preview.tsx:45-48 | A list without `index.html` but with a kotlin, xml or dart file shows the browser over all file names. It opens at the first file whose lowercased name lacks `explanation.md`, else at `files[0]`. |
| `Preview.OtherListShowsError` | preview.tsx:49-52 | Any other list shows the unknown-type error. |
| `Preview.LoadedListIsClassified` | preview.tsx:34-41 | A parsed empty array loads nothing and shows the invalid-format error. A non-empty one is loaded and classified. |
| `Preview.BrokenLinkShowsLoadError` | preview.tsx:53-56 | A failure of URI decoding, Base64, inflation or parsing loads nothing and shows the generic load error. |
| `Preview.WebPageHasIndex` | preview.tsx:77-81 | The web view's "index.html not found" branch is never reached from the mount effect. |
| `Preview.FileNames` | preview.tsx:97-101 | The tabs are the file names, in order. |
| `AndroidAppBuilder.ExplanationOf` | components/AndroidAppBuilder.tsx:29-30 | The explanation is the content of the first file whose lowercased name includes `explanation.md` or `readme.md`, else the fixed default text. |
| `AndroidAppBuilder.ActiveFileOf` | components/AndroidAppBuilder.tsx:32-33 | The active file belongs to the list. It is the first file that is neither marker, or `files[0]` when all are markers. |
| `AndroidAppBuilder.MixedProjectSelection` | components/AndroidAppBuilder.tsx:27-35 | A project with both kinds of file opens a source file and explains itself with the first marker file's content. |
| `AndroidAppBuilder.ShowFiles` | components/AndroidAppBuilder.tsx:27-35 | A non-empty list selects its explanation and active file. An empty list keeps both. |
| `AndroidAppBuilder.Submitted` | components/AndroidAppBuilder.tsx:37-56 | A blank prompt or a request in flight changes nothing. Otherwise the files, error, selection and instruction are reset and one request is made. Success shows the files. Failure shows the message. Loading ends on both paths. |
| `AndroidAppBuilder.Edited` | components/AndroidAppBuilder.tsx:58-74 | A blank instruction or an edit in flight changes nothing. Success replaces the files and clears the instruction. Failure keeps both and shows the message. |
| `AndroidAppBuilder.HandlersKeepSelection` | components/AndroidAppBuilder.tsx:27-74 | Neither handler leaves the active file or the explanation out of step with a non-empty file list. |
| `AndroidAppBuilder.Builder.constructor` | components/AndroidAppBuilder.tsx:15-25 | The builder starts empty. |
| `AndroidAppBuilder.Builder.Submit` | components/AndroidAppBuilder.tsx:37-56 | `handleSubmit` leaves the state `Submitted` describes. |
| `AndroidAppBuilder.Builder.EditSubmit` | components/AndroidAppBuilder.tsx:58-74 | `handleEditSubmit` leaves the state `Edited` describes. |
| `ImageGenerator.ModelInfoOf` | components/ImageGenerator.tsx:9-14 | A model has an entry exactly when it is one of the four offered, and the entry carries its id. |
| `ImageGenerator.Capabilities` | components/ImageGenerator.tsx:9-14 | Only the Imagen models make several images. Every model except flash takes an aspect ratio. Only the pro model needs a key. |
| `ImageGenerator.KeyChecked` | components/ImageGenerator.tsx:32-43 | The key is what the host bridge reports, and is assumed present without a bridge. The key lookup flag ends false. Nothing else changes. |
| `ImageGenerator.KeySelected` | components/ImageGenerator.tsx:45-51 | With the key chooser available, a key is assumed and the error is cleared. Otherwise nothing changes. |
| `ImageGenerator.ModelChanged` | components/ImageGenerator.tsx:53-65 | A model without several images forces the count to 1. A model without aspect ratios forces `1:1`. The result is consistent with the model, and other settings are kept. |
| `ImageGenerator.NumImagesChosen` | components/ImageGenerator.tsx:127 | The count changes exactly when the menu is enabled, and the change keeps consistency. |
| `ImageGenerator.AspectRatioChosen` | components/ImageGenerator.tsx:133 | The ratio changes exactly when the menu is enabled, and the change keeps consistency. |
| `ImageGenerator.Submitted` | components/ImageGenerator.tsx:67-92 | A key-requiring model without a key only shows the key error. Otherwise a blank prompt or a request in flight changes nothing. A request is made exactly when neither applies, after clearing images, error and enhanced prompt. Success shows images and the translated prompt. Failure shows the message, and a message with the key phrase withdraws the key. The key lookup flag is unchanged. |
| `ImageGenerator.HandlersKeepConsistent` | components/ImageGenerator.tsx:32-92 | Every handler keeps the count and ratio within the model's capabilities. |
| `ImageGenerator.KeyErrorWithdrawsKey` | components/ImageGenerator.tsx:83-88 | After an Imagen failure, the key survives exactly when the error did not name a missing entity. |
| `ImageGenerator.ProModelNeedsKey` | components/ImageGenerator.tsx:69-72 | The pro model without a key only shows the key error and makes no request. |
| `ImageGenerator.ImageGeneratorPanel.constructor` | components/ImageGenerator.tsx:17-27 | The panel starts with the flash model, one image at `1:1`, no key, and the key lookup pending. |
| `ImageGenerator.ImageGeneratorPanel.CheckKey` | components/ImageGenerator.tsx:32-43 | The mount effect leaves the state `KeyChecked` describes. |
| `ImageGenerator.ImageGeneratorPanel.SelectKey` | components/ImageGenerator.tsx:45-51 | `handleSelectKey` leaves the state `KeySelected` describes. |
| `ImageGenerator.ImageGeneratorPanel.ChangeModel` | components/ImageGenerator.tsx:53-65 | `handleModelChange` leaves the state `ModelChanged` describes. |
| `ImageGenerator.ImageGeneratorPanel.ChooseNumImages` | components/ImageGenerator.tsx:127 | The count menu leaves the state `NumImagesChosen` describes. |
| `ImageGenerator.ImageGeneratorPanel.ChooseAspectRatio` | components/ImageGenerator.tsx:133 | The ratio menu leaves the state `AspectRatioChosen` describes. |
| `ImageGenerator.ImageGeneratorPanel.Submit` | components/ImageGenerator.tsx:67-92 | `handleSubmit` leaves the state `Submitted` describes. |
| `ImageEditor.Payloads` | components/ImageEditor.tsx:53-56 | The payload succeeds exactly when every file reads. It has one `{base64ImageData, mimeType}` per staged file, in order. A failure is some file's read error. |
| `ImageEditor.ImagesAdded` | components/ImageEditor.tsx:26-34 | The files and one preview per file are appended to their lists in the same order, and the error is cleared. No file changes nothing. Alignment is kept. |
| `ImageEditor.ImageRemoved` | components/ImageEditor.tsx:36-42 | Entry `idx` leaves both lists, the rest keep their order, and alignment is kept. |
| `ImageEditor.RemovalKeepsPreviews` | components/ImageEditor.tsx:36-42 | Every remaining image still sits next to its own preview. |
| `ImageEditor.Submitted` | components/ImageEditor.tsx:44-64 | A blank prompt, no images, or a request in flight changes nothing. Otherwise the result and error are cleared. A read failure shows its error and makes no request. Else one request is made; success stores the result and failure stores the message. Loading ends on every path. |
| `ImageEditor.RequestFollowsStagingOrder` | components/ImageEditor.tsx:53-57 | The request sends the staged images' data in staging order, then the instruction. |
| `ImageEditor.ImageEditorPanel.constructor` | components/ImageEditor.tsx:14-20 | The editor starts empty with the flash image model. |
| `ImageEditor.ImageEditorPanel.AddImages` | components/ImageEditor.tsx:26-34 | `handleImageChange` leaves the state `ImagesAdded` describes. |
| `ImageEditor.ImageEditorPanel.RemoveImage` | components/ImageEditor.tsx:36-42 | `handleRemoveImage` leaves the state `ImageRemoved` describes. |
| `ImageEditor.ImageEditorPanel.Submit` | components/ImageEditor.tsx:44-64 | `handleSubmit` leaves the state `Submitted` describes. |
| `Base64.GroupRoundTrip` | components/VoiceChat.tsx:14 | Decoding one encoded group of one to three bytes gives the bytes back. |
| `Base64.NoPadRoundTrip` | components/VoiceChat.tsx:14 | Unpadded decoding inverts unpadded encoding. |
| `Base64.StripPaddingOfEncode` | components/VoiceChat.tsx:14 | Removing the `=` padding of an encoding leaves the unpadded encoding. |
| `Base64.RoundTrip` | components/VoiceChat.tsx:18 | `atob`'s decoder gives back the bytes that were encoded. |
| `Base64.EncodedLength` | components/VoiceChat.tsx:14 | The encoding has four characters per started group of three bytes. |
| `Base64.EncodeShape` | components/VoiceChat.tsx:14 | Only the last one or two characters of an encoding may be `=`, and every other character is in the alphabet. |
| `Base64.Btoa` | components/VoiceChat.tsx:14 | `btoa` succeeds exactly on binary strings. |
| `Base64.Atob` | components/VoiceChat.tsx:18 | `atob` succeeds exactly when the text decodes. The result is a binary string naming the decoded bytes. |
| `Base64.Encode` | components/VoiceChat.tsx:14 | The padded encoding of section 4 of RFC 4648, with its length and shape stated by `EncodedLength` and `EncodeShape`. |
| `Base64.Decode` | components/VoiceChat.tsx:18 | The forgiving decoder of the HTML standard, which inverts `Encode` as stated by `RoundTrip`. |
| `BinaryString.BytesRoundTrip` | components/VoiceChat.tsx:11-13 | Bytes survive the trip through a binary string. |
| `BinaryString.CharsRoundTrip` | components/VoiceChat.tsx:21-23 | A binary string survives the trip through bytes. |
| `BinaryString.FromByteArray` | components/VoiceChat.tsx:9-13 | The `String.fromCharCode` loop builds one character per byte, in order. |
| `BinaryString.ToByteArray` | components/VoiceChat.tsx:19-24 | The `charCodeAt` loop fills a fresh array of the string's length with the character codes. |
| `Js.BlankIffTrimmedEmpty` | components/Chat.tsx:289 | A string is blank exactly when `trim()` leaves nothing of it. |
| `Js.SplitJoin` | services/geminiService.ts:13 | Joining the pieces of `split(',')` gives the string back, and no piece holds a comma. |
| `Js.Without` | components/Chat.tsx:203-204 | `filter((_, i) => i !== idx)` drops exactly the element at `idx` and keeps the others in order. |
| `Js.WithoutKeepsPairs` | components/ImageEditor.tsx:37-40 | Filtering the same index from two equal-length lists keeps every remaining pair a pair. |
| `Js.TrimHasNoOuterWhitespace` | services/ttsService.ts:96 | A trimmed chunk neither starts nor ends with whitespace. |
| `Js.ToLower` | preview.tsx:47 | Lowercasing keeps the length and folds each ASCII capital to its small letter. |
| `Js.ConcatSnoc` | components/Chat.tsx:263 | Appending one chunk with `+=` extends the accumulated text by that chunk. |
| `Js.MessageOr` | components/AndroidAppBuilder.tsx:52 | A caught `Error` gives its message, and any other thrown value gives the fallback. |
| `Js.Find` | preview.tsx:47 | `find` gives some element exactly when one satisfies the test, and then it gives the first such element. |
| `Js.Utf16Length` | services/ttsService.ts:87 | `.length` counts UTF-16 code units: at least one and at most two per character. |
| `Js.Utf16LengthAppend` | services/ttsService.ts:102 | The length of a concatenation is the sum of the lengths. |
| `Js.Utf16LengthSlice` | services/ttsService.ts:96 | A slice, such as a trimmed string, is no longer than the whole string. |

## Left out

- The provider SDK (`@google/genai`). Every call returns an input: a result, a chunk sequence, or a thrown value.
- Video polling (`while (!operation.done)` with `setTimeout`). This is timing and I/O, so the video functions start from the finished operation.
- `FileReader` internals are not modelled. A file read is one of three outcomes.
- Object-URL creation and revocation: the preview URLs are inputs.
- The clipboard, download anchors and the `fileInput` reset: these are browser side effects with no state of their own.
- The host page's key bridge (`window.aistudio`). It is a parameter.
- Local and session storage are each a `map` from key to string.
- `JSON.stringify` and `JSON.parse` of the chat history are a codec passed in as two functions. A saved value that parses to something other than a list is treated as one that does not parse.
- `decodeURIComponent`, `pako.inflate` and `JSON.parse` on the preview page are results passed in.
- Audio: the float PCM conversion, `decodeAudioData`, AudioContext scheduling and interruption. This is floating point and timing.
- Camera frame capture (the `setInterval` canvas loop). This is timers and the DOM.
- `identifySongFromVideo` and `searchIranianMusic`, and the thin one-shot panels that call the service. These are one remote call each, with no logic beyond showing the result.
- Routing, the sidebar, the welcome page and the icons. The welcome page's `initialChatMessage` is only an entry in the session store.
- The markdown fence splitting in the chat's message bubbles, the code block and the loading indicator. These are presentation only.
- The multi-session record `ChatSessionRecord` of `types.ts`. It has no implementation.
- React scheduling is not modelled. Each handler and effect is one atomic step, and the chat's setters apply in program order.
- The `sendMessage` of an in-flight turn, seen from a second event, is the `isLoading` guard against the state before the turn: the model does not interleave two turns.
- Files are read deterministically: a second read of the same file gives the same outcome as the first. So once a turn's previews are made, its payload is always built and the apology-for-payload branch (`Chat.Answer` with an `Err` payload) is never taken from `Sent`.
- `Promise.all` rejects with the first failure to settle. The model reports the failure of the first file in list order.
- The `err instanceof Error ? err.message : …` fallbacks of the image panels are not modelled. The service always throws an `Error`, so the panels receive its message.
- The extra `mode` argument that the Android builder passes to the code project service. The service does not accept it.
- Input `onChange` setters (`setPrompt`, `setInput`, …): each is a plain field assignment. The model's handlers read the fields.
- A streamed chunk whose `text` is `undefined`: each chunk is a string.
- The persona text is stored once as a constant. The configuration carries the token `Persona`, which stands for that text (`InstructionText`).
- `toLowerCase` is modelled on ASCII letters only. It is only used to test whether a name includes `explanation.md` or `readme.md`, and ASCII folding decides those tests. Outside ASCII, only the Kelvin sign and `İ` lowercase to ASCII letters. The Kelvin sign becomes `k`, which neither needle holds. `İ` becomes `i` followed by U+0307, which neither needle can continue.
- The sentence pattern of `chunkText` is modelled by a splitter on `.`, `!` and `?`. It captures the pattern's matches as stated in `Tts.Sentences` and does not model general regular expressions.
- `Tts.PackSentence`: the greedy rule (flush the chunk only when the next word would take it past 200 code units) is stated in the definition of `PackWords`. No separate lemma states that rule.
- `Tts.SpeechService.Speak`: this composition assumes that nothing runs during the voice wait. Calls that run in that gap are modelled by `BeginSpeak`, an arbitrary step, then `ResumeSpeak`, and `StopDuringVoiceWait` shows one such case. The voice lookup's 1.5 s timeout and the `voiceschanged` event are replaced by the list of voices the browser reports, which is empty when the timeout wins.
- `Preview.PreviewPage.Mount`: a parsed array whose elements are not file records is not modelled. Examples are `[null]` or a record whose name is not a string. The source would store the array and then, when a `some` or `find` reaches such an element, show the load error. The model's parser yields only well-formed records.
- `Chat.TurnEffects`: the intermediate renders of the streaming loop (its growing AI message) are not recorded. Only the screen at the moment of the request and the final state are.
