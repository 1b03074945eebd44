/** The chat panel: one conversation kept as an ordered message list, the
    attachments staged for the next turn (the files and their previews, as
    two parallel lists), a loading flag and a provider session created on
    demand. A turn appends the user's message, sends it, and fills an AI
    message with the streamed reply; the list is saved under one storage
    key and restored when the panel mounts. */
module Chat {
  import opened Wrappers
  import opened Js
  import opened Types
  import GeminiService

  const StorageKey: string := "avesta_chat_history"
  const InitialMessageKey: string := "initialChatMessage"
  const DefaultModel: string := "gemini-2.5-flash"
  const Apology: string := "متاسفانه خطایی رخ داد."

  // ---------------------------------------------------------------------
  // Attachments

  /** The kind a preview is shown as: video and audio by MIME prefix, an
      image otherwise. */
  function KindOf(mimeType: string): (k: MediaKind)
    ensures k == Video <==> StartsWith(mimeType, "video/")
    ensures k == Audio <==> StartsWith(mimeType, "audio/")
    ensures k == Image <==> !StartsWith(mimeType, "video/") && !StartsWith(mimeType, "audio/")
  {
    if StartsWith(mimeType, "video/") then
      assert !StartsWith(mimeType, "audio/") by {
        assert mimeType[..6][0] == 'v';
      }
      Video
    else if StartsWith(mimeType, "audio/") then Audio
    else Image
  }

  /** `Promise.all` over `fileToDataURL`: one preview per file, in order,
      each with the file's kind; any file that cannot be read rejects the
      whole list. */
  function Previews(files: seq<LocalFile>): (r: Result<seq<MediaPreview>, Thrown>)
    ensures r.Ok? <==> forall i :: 0 <= i < |files| ==> files[i].read.LoadedString?
    ensures r.Ok? ==> |r.value| == |files|
    ensures r.Ok? ==> forall i :: 0 <= i < |files| ==>
      r.value[i] == MediaPreview(files[i].read.dataUrl, KindOf(files[i].mimeType))
  {
    if files == [] then Ok([])
    else
      match GeminiService.FileToDataUrl(files[0].read)
      case Err(t) => Err(t)
      case Ok(url) =>
        match Previews(files[1..])
        case Err(t) => Err(t)
        case Ok(rest) => Ok([MediaPreview(url, KindOf(files[0].mimeType))] + rest)
  }

  /** `Promise.all` over `fileToBase64`: one inline part per file, in
      order. */
  function FileParts(files: seq<LocalFile>): (r: Result<seq<GeminiService.RequestPart>, Thrown>)
    ensures r.Ok? <==> forall i :: 0 <= i < |files| ==> files[i].read.LoadedString?
    ensures r.Ok? ==> |r.value| == |files|
    ensures r.Ok? ==> forall i :: 0 <= i < |files| ==>
      r.value[i] == GeminiService.InlinePart(files[i].mimeType, GeminiService.Base64Field(files[i].read.dataUrl))
  {
    if files == [] then Ok([])
    else
      match GeminiService.FileToBase64(files[0].read)
      case Err(t) => Err(t)
      case Ok(data) =>
        match FileParts(files[1..])
        case Err(t) => Err(t)
        case Ok(rest) => Ok([GeminiService.InlinePart(files[0].mimeType, data)] + rest)
  }

  /** What `sendMessageStream` is given: the bare text, or a list of
      parts. */
  datatype Payload = TextMessage(text: string) | PartsMessage(parts: seq<GeminiService.RequestPart>)

  /** The message payload: the text alone without attachments; otherwise a
      text part when the trimmed text is not empty, followed by one inline
      part per file in attachment order. */
  function BuildPayload(text: string, files: seq<LocalFile>): (r: Result<Payload, Thrown>)
    ensures files == [] ==> r == Ok(TextMessage(text))
    ensures files != [] ==> (r.Ok? <==> forall i :: 0 <= i < |files| ==> files[i].read.LoadedString?)
    ensures files != [] && r.Ok? ==>
      && r.value.PartsMessage?
      && |r.value.parts| == |files| + (if IsBlank(text) then 0 else 1)
      && (!IsBlank(text) ==> r.value.parts[0] == GeminiService.TextPart(text))
      && forall i :: 0 <= i < |files| ==>
           r.value.parts[i + (if IsBlank(text) then 0 else 1)]
           == GeminiService.InlinePart(files[i].mimeType, GeminiService.Base64Field(files[i].read.dataUrl))
  {
    if files == [] then Ok(TextMessage(text))
    else
      match FileParts(files)
      case Err(t) => Err(t)
      case Ok(parts) => Ok(PartsMessage(if IsBlank(text) then parts else [GeminiService.TextPart(text)] + parts))
  }

  // ---------------------------------------------------------------------
  // A turn

  /** What the provider does with a sent message: it refuses it (the call
      throws), or it streams `chunks` and then either ends or breaks off
      (the iteration throws). */
  datatype Stream = Refused | Streamed(chunks: seq<string>, broken: bool)

  /** What the panel shows: the message list, the composer and the
      loading flag. */
  datatype Screen = Screen(messages: seq<ChatMessage>, input: string, files: seq<LocalFile>,
                           filePreviews: seq<MediaPreview>, isLoading: bool)

  /** A message handed to the provider, with the session it went to and
      what the panel showed at that moment. */
  datatype SentMessage = SentMessage(session: GeminiService.ChatSession, payload: Payload, screen: Screen)

  /** The panel's state between two events: the component's state, the
      session slot, the two browser stores, and every message sent. */
  datatype ChatView = ChatView(
    messages: seq<ChatMessage>,
    input: string,
    isLoading: bool,
    model: string,
    files: seq<LocalFile>,
    filePreviews: seq<MediaPreview>,
    session: Option<GeminiService.ChatSession>,
    localStore: map<string, string>,
    sessionStore: map<string, string>,
    requests: seq<SentMessage>)

  function ScreenOf(v: ChatView): Screen
  {
    Screen(v.messages, v.input, v.files, v.filePreviews, v.isLoading)
  }

  /** The screen while a turn waits for the provider: the user's message
      shown last, the composer empty, the loading flag up. */
  function WaitingScreen(messages: seq<ChatMessage>, user: ChatMessage): Screen
  {
    Screen(messages + [user], "", [], [], true)
  }

  function InitialView(localStore: map<string, string>, sessionStore: map<string, string>): ChatView
  {
    ChatView([], "", false, DefaultModel, [], [], None, localStore, sessionStore, [])
  }

  function AiText(text: string): ChatMessage
  {
    ChatMessage(Ai, text, None)
  }

  /** The user's message, with previews only when there is at least one. */
  function UserMessage(text: string, previews: seq<MediaPreview>): ChatMessage
  {
    ChatMessage(User, text, if previews == [] then None else Some(previews))
  }

  /** The session a turn sends to: the existing one, or a new one for the
      current model seeded with the history before the turn. */
  function TurnSession(v: ChatView): GeminiService.ChatSession
  {
    if v.session.Some? then v.session.value else GeminiService.CreateChatSession(v.model, v.messages)
  }

  /** The messages a sent turn adds after the user's: the apology when the
      provider refuses; otherwise the AI message holding all chunks joined,
      followed by the apology when the stream breaks off. */
  function Reply(stream: Stream): (r: seq<ChatMessage>)
    ensures stream.Refused? ==> r == [AiText(Apology)]
    ensures stream.Streamed? ==> |r| == if stream.broken then 2 else 1
    ensures stream.Streamed? ==> r[0] == AiText(Concat(stream.chunks))
    ensures stream.Streamed? && stream.broken ==> r[1] == AiText(Apology)
  {
    match stream
    case Refused => [AiText(Apology)]
    case Streamed(chunks, broken) => [AiText(Concat(chunks))] + (if broken then [AiText(Apology)] else [])
  }

  /** `sendMessage(text, attached)`. While a turn is in flight, or when an
      attachment cannot be read for its preview (the call rejects before
      the `try`), nothing changes. Otherwise the user's message is
      appended, the composer cleared and the loading flag raised; then the
      message goes to the turn's session, the reply is appended, the
      loading flag is down again, and the whole list is saved. */
  function Sent(v: ChatView, text: string, attached: seq<LocalFile>, stream: Stream,
                stringify: seq<ChatMessage> -> string): ChatView
  {
    if v.isLoading then v
    else
      match Previews(attached)
      case Err(_) => v
      case Ok(previews) =>
        var session := TurnSession(v);
        var shown := v.messages + [UserMessage(text, previews)];
        var turn := v.(messages := shown, input := "", files := [], filePreviews := [], isLoading := true,
                       session := Some(session));
        var done :=
          match BuildPayload(text, attached)
          case Err(_) => turn.(messages := shown + [AiText(Apology)], isLoading := false)
          case Ok(payload) =>
            turn.(messages := shown + Reply(stream), isLoading := false,
                  requests := v.requests + [SentMessage(session, payload, ScreenOf(turn))]);
        done.(localStore := v.localStore[StorageKey := stringify(done.messages)])
  }

  /** What a turn does, stated field by field: nothing while a turn is in
      flight or when a preview fails; otherwise the request goes to the
      turn's session while the panel shows the user's message after the
      earlier ones, an empty composer and the loading flag; the reply
      follows the user's message, the loading flag is down and the whole
      list is saved. The user's message carries previews exactly
      when there are attachments. */
  lemma TurnEffects(v: ChatView, text: string, attached: seq<LocalFile>, stream: Stream,
                    stringify: seq<ChatMessage> -> string)
    ensures var r := Sent(v, text, attached, stream, stringify);
      v.isLoading || Previews(attached).Err? ==> r == v
    ensures var r := Sent(v, text, attached, stream, stringify);
      !v.isLoading && Previews(attached).Ok? ==>
      && BuildPayload(text, attached).Ok?
      && !r.isLoading && r.input == "" && r.files == [] && r.filePreviews == []
      && |r.messages| >= |v.messages| + 2
      && r.model == v.model && r.sessionStore == v.sessionStore
      && r.session == Some(TurnSession(v))
      && r.requests == v.requests + [SentMessage(TurnSession(v), BuildPayload(text, attached).value,
                                                 WaitingScreen(v.messages, UserMessage(text, Previews(attached).value)))]
      && r.messages == v.messages + [UserMessage(text, Previews(attached).value)] + Reply(stream)
      && r.localStore == v.localStore[StorageKey := stringify(r.messages)]
    ensures var r := Sent(v, text, attached, stream, stringify);
      !v.isLoading && Previews(attached).Ok? ==>
      (r.messages[|v.messages|].mediaPreviews.Some? <==> attached != [])
  {
  }

  /** `handleSubmit`: a blank input with nothing attached, or a turn in
      flight, is refused; otherwise the composer's text and files are
      sent. */
  function Submitted(v: ChatView, stream: Stream, stringify: seq<ChatMessage> -> string): (r: ChatView)
    ensures (IsBlank(v.input) && v.files == []) || v.isLoading ==> r == v
    ensures !((IsBlank(v.input) && v.files == []) || v.isLoading) && Previews(v.files).Ok? ==>
      && r.input == "" && r.files == [] && r.filePreviews == [] && |r.requests| == |v.requests| + 1
      && |r.messages| > |v.messages|
      && r.messages[|v.messages|].sender == User && r.messages[|v.messages|].text == v.input
  {
    if (IsBlank(v.input) && v.files == []) || v.isLoading then v
    else
      TurnEffects(v, v.input, v.files, stream, stringify);
      Sent(v, v.input, v.files, stream, stringify)
  }

  /** A turn's user message comes right after the earlier messages and
      before its reply; a reply that breaks off keeps the text streamed so
      far and ends with the apology. */
  lemma TurnOrder(v: ChatView, text: string, attached: seq<LocalFile>, chunks: seq<string>,
                  stringify: seq<ChatMessage> -> string)
    requires !v.isLoading && Previews(attached).Ok?
    ensures var r := Sent(v, text, attached, Streamed(chunks, true), stringify);
      && |r.messages| == |v.messages| + 3
      && r.messages[..|v.messages|] == v.messages
      && r.messages[|v.messages|].sender == User
      && r.messages[|v.messages| + 1] == AiText(Concat(chunks))
      && r.messages[|v.messages| + 2] == AiText(Apology)
  {
    var r := Sent(v, text, attached, Streamed(chunks, true), stringify);
    TurnEffects(v, text, attached, Streamed(chunks, true), stringify);
    assert r.messages == v.messages + [UserMessage(text, Previews(attached).value)] + [AiText(Concat(chunks)), AiText(Apology)];
  }

  /** An attachment whose preview can be made can also be sent: once the
      previews are made, the payload is built and the request is made. */
  lemma PreviewedTurnIsSent(v: ChatView, text: string, attached: seq<LocalFile>, stream: Stream,
                            stringify: seq<ChatMessage> -> string)
    requires !v.isLoading && Previews(attached).Ok?
    ensures var r := Sent(v, text, attached, stream, stringify);
      && |r.requests| == |v.requests| + 1
      && r.requests[|v.requests|].session == TurnSession(v)
      && (attached == [] ==> r.requests[|v.requests|].payload == TextMessage(text))
  {
    TurnEffects(v, text, attached, stream, stringify);
  }

  // ---------------------------------------------------------------------
  // The other handlers and effects

  /** `handleFileChange`: the chosen files are staged at once; their
      previews follow only if every one can be read. A failed preview
      leaves the two lists of unequal length. */
  function FilesChosen(v: ChatView, selected: seq<LocalFile>): (r: ChatView)
    ensures selected == [] ==> r == v
    ensures selected != [] ==> r.files == v.files + selected
    ensures Previews(selected).Ok? ==> r.filePreviews == v.filePreviews + Previews(selected).value
    ensures Previews(selected).Err? ==> r.filePreviews == v.filePreviews
    ensures r.(files := v.files, filePreviews := v.filePreviews) == v
  {
    if selected == [] then v
    else
      var staged := v.(files := v.files + selected);
      match Previews(selected)
      case Ok(previews) => staged.(filePreviews := v.filePreviews + previews)
      case Err(_) => staged
  }

  /** The staged files and their previews are index-aligned. */
  predicate Aligned(v: ChatView)
  {
    |v.files| == |v.filePreviews|
  }

  /** Files whose previews can all be made stay aligned with them: the
      preview after the earlier ones is the one of the file at the same
      place. A file whose preview fails breaks the alignment. */
  lemma FileChoiceAlignment(v: ChatView, selected: seq<LocalFile>)
    requires Aligned(v)
    ensures Previews(selected).Ok? ==> Aligned(FilesChosen(v, selected))
    ensures Previews(selected).Ok? ==> forall i :: 0 <= i < |selected| ==>
      FilesChosen(v, selected).filePreviews[|v.files| + i]
      == MediaPreview(selected[i].read.dataUrl, KindOf(selected[i].mimeType))
    ensures Previews(selected).Err? ==> !Aligned(FilesChosen(v, selected))
  {
    var r := FilesChosen(v, selected);
    match Previews(selected) {
      case Ok(previews) =>
        assert r.filePreviews == v.filePreviews + previews;
        forall i | 0 <= i < |selected|
          ensures r.filePreviews[|v.files| + i] == MediaPreview(selected[i].read.dataUrl, KindOf(selected[i].mimeType))
        {
          assert r.filePreviews[|v.files| + i] == previews[i];
        }
      case Err(_) =>
        assert selected != [];
    }
  }

  /** `handleRemoveFile`: the file at `idx` and its preview leave both
      lists; the rest keep their order. */
  function FileRemoved(v: ChatView, idx: int): (r: ChatView)
    ensures Aligned(v) ==> Aligned(r)
    ensures r.files == Without(v.files, idx) && r.filePreviews == Without(v.filePreviews, idx)
    ensures r.(files := v.files, filePreviews := v.filePreviews) == v
  {
    v.(files := Without(v.files, idx), filePreviews := Without(v.filePreviews, idx))
  }

  /** Removing a file removes exactly its own preview. */
  lemma RemovalKeepsPreviews(v: ChatView, idx: int)
    requires Aligned(v)
    ensures var r := FileRemoved(v, idx);
      forall i :: 0 <= i < |r.files| ==>
        exists j :: 0 <= j < |v.files| && r.files[i] == v.files[j] && r.filePreviews[i] == v.filePreviews[j]
  {
    WithoutKeepsPairs(v.files, v.filePreviews, idx);
  }

  /** `clearHistory`, with `confirmed` the answer to the confirmation
      dialog: the list is emptied, the saved copy is removed, and the
      session starts again without history. */
  function Cleared(v: ChatView, confirmed: bool): (r: ChatView)
    ensures !confirmed ==> r == v
    ensures confirmed ==>
      && r.messages == [] && StorageKey !in r.localStore
      && (forall k :: k != StorageKey ==> (k in r.localStore <==> k in v.localStore))
      && r.session.Some? && r.session.value.model == v.model && r.session.value.history == []
      && r.(messages := v.messages, localStore := v.localStore, session := v.session) == v
  {
    if !confirmed then v
    else v.(messages := [], localStore := v.localStore - {StorageKey}, session := Some(GeminiService.CreateChatSession(v.model)))
  }

  /** Choosing a model (the selector is disabled during a turn): a
      different model rebuilds the session for it from the current
      history; the same model changes nothing. */
  function ModelChosen(v: ChatView, model: string): (r: ChatView)
    ensures v.isLoading || model == v.model ==> r == v
    ensures !v.isLoading && model != v.model ==>
      && r.model == model
      && r.session == Some(GeminiService.CreateChatSession(model, v.messages))
      && r.(model := v.model, session := v.session) == v
  {
    if v.isLoading || model == v.model then v
    else v.(model := model, session := Some(GeminiService.CreateChatSession(model, v.messages)))
  }

  /** After a model change, the next turn goes to a session for the new
      model seeded with the history before that turn. */
  lemma ModelChangeReseedsSession(v: ChatView, model: string, text: string, attached: seq<LocalFile>,
                                  stream: Stream, stringify: seq<ChatMessage> -> string)
    requires !v.isLoading && model != v.model && Previews(attached).Ok?
    ensures var r := Sent(ModelChosen(v, model), text, attached, stream, stringify);
      && r.requests[|v.requests|].session.model == model
      && r.requests[|v.requests|].session.history == GeminiService.FormatHistory(v.messages)
  {
    var w := ModelChosen(v, model);
    assert TurnSession(w) == GeminiService.CreateChatSession(model, v.messages);
    TurnEffects(w, text, attached, stream, stringify);
  }

  /** The list saved under the storage key, when the saved value is
      non-empty and parses; no list otherwise. */
  function Restored(store: map<string, string>, parse: string -> Option<seq<ChatMessage>>): seq<ChatMessage>
  {
    if StorageKey in store && store[StorageKey] != "" then
      match parse(store[StorageKey])
      case Some(history) => history
      case None => []
    else []
  }

  /** The effects of the first render, in order: the saved list is loaded
      (and a session seeded with it), the persist effect sees the empty
      initial list, and the model effect replaces the session with one
      seeded with that empty list; the loaded list is then saved back. */
  function Mounted(v: ChatView, parse: string -> Option<seq<ChatMessage>>,
                   stringify: seq<ChatMessage> -> string): (r: ChatView)
    requires v.messages == []
    ensures r.messages == Restored(v.localStore, parse)
    ensures r.session.Some? && r.session.value.model == v.model && r.session.value.history == []
    ensures StorageKey in r.localStore <==> StorageKey in v.localStore
    ensures r.messages != [] ==> r.localStore == v.localStore[StorageKey := stringify(r.messages)]
    ensures r.messages == [] ==> r.localStore == v.localStore
    ensures r.(messages := v.messages, session := v.session, localStore := v.localStore) == v
  {
    var history := Restored(v.localStore, parse);
    v.(messages := history,
       session := Some(GeminiService.CreateChatSession(v.model, v.messages)),
       localStore := if history != [] then v.localStore[StorageKey := stringify(history)] else v.localStore)
  }

  /** A turn's conversation comes back on the next mount when the codec
      reads back what it wrote, although the new session starts without
      it. */
  lemma TurnSurvivesReload(v: ChatView, text: string, attached: seq<LocalFile>, stream: Stream,
                           stringify: seq<ChatMessage> -> string, parse: string -> Option<seq<ChatMessage>>)
    requires !v.isLoading && Previews(attached).Ok?
    requires var w := Sent(v, text, attached, stream, stringify);
      parse(stringify(w.messages)) == Some(w.messages) && stringify(w.messages) != ""
    ensures var w := Sent(v, text, attached, stream, stringify);
      var m := Mounted(InitialView(w.localStore, w.sessionStore), parse, stringify);
      && m.messages == w.messages
      && m.session == Some(GeminiService.CreateChatSession(DefaultModel))
  {
    var w := Sent(v, text, attached, stream, stringify);
    TurnEffects(v, text, attached, stream, stringify);
    assert w.localStore[StorageKey] == stringify(w.messages);
  }

  /** A cleared history does not come back on the next mount. */
  lemma ClearedHistoryStaysCleared(v: ChatView, parse: string -> Option<seq<ChatMessage>>,
                                   stringify: seq<ChatMessage> -> string)
    ensures var c := Cleared(v, true);
      var m := Mounted(InitialView(c.localStore, c.sessionStore), parse, stringify);
      m.messages == [] && StorageKey !in m.localStore
  {
  }

  /** A saved value that does not parse leaves the list empty, the store
      as it was, and the session without history. */
  lemma UnparsableHistoryIgnored(store: map<string, string>, sessionStore: map<string, string>,
                                 parse: string -> Option<seq<ChatMessage>>, stringify: seq<ChatMessage> -> string)
    requires StorageKey in store && parse(store[StorageKey]) == None
    ensures var m := Mounted(InitialView(store, sessionStore), parse, stringify);
      m.messages == [] && m.localStore == store && m.session.value.history == []
  {
  }

  /** The effect that sends the message the welcome page left in session
      storage: a non-empty value is removed and sent as a text-only turn
      (which is refused while a turn is in flight); otherwise nothing
      changes. */
  function InitialMessageSent(v: ChatView, stream: Stream, stringify: seq<ChatMessage> -> string): (r: ChatView)
    ensures !(InitialMessageKey in v.sessionStore && v.sessionStore[InitialMessageKey] != "") ==> r == v
    ensures InitialMessageKey in v.sessionStore && v.sessionStore[InitialMessageKey] != "" ==>
      && InitialMessageKey !in r.sessionStore
      && (v.isLoading ==> r.messages == v.messages && r.requests == v.requests)
      && (!v.isLoading ==>
            && |r.messages| > |v.messages|
            && r.messages[|v.messages|] == ChatMessage(User, v.sessionStore[InitialMessageKey], None)
            && r.requests == v.requests + [SentMessage(TurnSession(v), TextMessage(v.sessionStore[InitialMessageKey]),
                 WaitingScreen(v.messages, ChatMessage(User, v.sessionStore[InitialMessageKey], None)))])
  {
    if InitialMessageKey in v.sessionStore && v.sessionStore[InitialMessageKey] != "" then
      var text := v.sessionStore[InitialMessageKey];
      TurnEffects(v.(sessionStore := v.sessionStore - {InitialMessageKey}), text, [], stream, stringify);
      Sent(v.(sessionStore := v.sessionStore - {InitialMessageKey}), text, [], stream, stringify)
    else v
  }

  // ---------------------------------------------------------------------
  // The streaming loop

  /** The `for await` loop: an empty AI message is appended, and each
      chunk extends the running text that overwrites it. */
  method StreamInto(messages: seq<ChatMessage>, chunks: seq<string>) returns (shown: seq<ChatMessage>)
    ensures shown == messages + [AiText(Concat(chunks))]
  {
    var reply := "";
    shown := messages + [AiText(reply)];
    for i := 0 to |chunks|
      invariant reply == Concat(chunks[..i])
      invariant shown == messages + [AiText(reply)]
    {
      ConcatSnoc(chunks[..i], chunks[i]);
      assert chunks[..i + 1] == chunks[..i] + [chunks[i]];
      reply := reply + chunks[i];
      shown := shown[|shown| - 1 := AiText(reply)];
    }
    assert chunks[..|chunks|] == chunks;
  }

  /** The `try` block of a turn after the user's message: with a payload,
      the placeholder is filled from the stream, and any failure (no
      payload, a refused request, a broken stream) appends the apology
      after what is already shown. */
  method Answer(shown: seq<ChatMessage>, payload: Result<Payload, Thrown>, stream: Stream)
    returns (final: seq<ChatMessage>)
    ensures payload.Err? ==> final == shown + [AiText(Apology)]
    ensures payload.Ok? ==> final == shown + Reply(stream)
  {
    match payload {
      case Err(_) =>
        final := shown + [AiText(Apology)];
      case Ok(_) =>
        match stream {
          case Refused =>
            final := shown + [AiText(Apology)];
          case Streamed(chunks, broken) =>
            final := StreamInto(shown, chunks);
            if broken {
              final := final + [AiText(Apology)];
            }
        }
    }
  }

  // ---------------------------------------------------------------------
  // The component

  /** The panel as an object: the component's state, the session slot, the
      browser stores and the sent messages as fields, and the JSON codec
      of the saved list as two functions. */
  class ChatPanel {
    var messages: seq<ChatMessage>
    var input: string
    var isLoading: bool
    var model: string
    var files: seq<LocalFile>
    var filePreviews: seq<MediaPreview>
    var session: Option<GeminiService.ChatSession>
    var localStore: map<string, string>
    var sessionStore: map<string, string>
    var requests: seq<SentMessage>
    const stringify: seq<ChatMessage> -> string
    const parse: string -> Option<seq<ChatMessage>>

    function State(): ChatView
      reads this
    {
      ChatView(messages, input, isLoading, model, files, filePreviews, session, localStore, sessionStore, requests)
    }

    constructor(local: map<string, string>, tab: map<string, string>,
                encode: seq<ChatMessage> -> string, decode: string -> Option<seq<ChatMessage>>)
      ensures State() == InitialView(local, tab)
      ensures stringify == encode && parse == decode
    {
      messages, input, isLoading, model := [], "", false, DefaultModel;
      files, filePreviews, session := [], [], None;
      localStore, sessionStore, requests := local, tab, [];
      stringify, parse := encode, decode;
    }

    /** Stores a state in the fields. */
    method Store(g: ChatView)
      modifies this
      ensures State() == g
    {
      messages, input, isLoading, model := g.messages, g.input, g.isLoading, g.model;
      files, filePreviews, session := g.files, g.filePreviews, g.session;
      localStore, sessionStore, requests := g.localStore, g.sessionStore, g.requests;
    }

    /** The first render's effects. */
    method Mount()
      requires messages == []
      modifies this
      ensures State() == Mounted(old(State()), parse, stringify)
    {
      var rendered := messages;
      var g := State();
      var saved := if StorageKey in localStore then localStore[StorageKey] else "";
      if saved != "" {
        var parsed := parse(saved);
        if parsed.Some? {
          g := g.(messages := parsed.value, session := Some(GeminiService.CreateChatSession(model, parsed.value)));
        } else {
          g := g.(session := Some(GeminiService.CreateChatSession(model)));
        }
      } else {
        g := g.(session := Some(GeminiService.CreateChatSession(model)));
      }
      assert g.messages == Restored(localStore, parse);
      g := g.(session := Some(GeminiService.CreateChatSession(model, rendered)));
      if |g.messages| > 0 {
        g := g.(localStore := g.localStore[StorageKey := stringify(g.messages)]);
      }
      Store(g);
    }

    /** `sendMessage`, with `stream` what the provider does with the
        message. The message list and the request log are built in locals,
        the setters are applied to a copy of the state, and the copy is
        stored once the turn is over; the persist effect
        then saves the final list. */
    method SendMessage(text: string, attached: seq<LocalFile>, stream: Stream)
      modifies this
      ensures State() == Sent(old(State()), text, attached, stream, stringify)
    {
      if isLoading {
        return;
      }
      var previews := Previews(attached);
      if previews.Err? {
        return;
      }
      var shown := messages + [UserMessage(text, previews.value)];
      var turnSession := session;
      if turnSession.None? {
        turnSession := Some(GeminiService.CreateChatSession(model, messages));
      }
      var g := State();
      g := g.(messages := shown, input := "", files := [], filePreviews := [], isLoading := true);
      g := g.(session := turnSession);
      var sent := requests;
      var payload := BuildPayload(text, attached);
      if payload.Ok? {
        sent := sent + [SentMessage(turnSession.value, payload.value, ScreenOf(g))];
      }
      assert sent == Sent(old(State()), text, attached, stream, stringify).requests;
      var final := Answer(shown, payload, stream);
      assert final == Sent(old(State()), text, attached, stream, stringify).messages;
      g := g.(messages := final, requests := sent);
      g := g.(isLoading := false, localStore := g.localStore[StorageKey := stringify(final)]);
      Store(g);
    }

    /** `handleSubmit`. */
    method HandleSubmit(stream: Stream)
      modifies this
      ensures State() == Submitted(old(State()), stream, stringify)
    {
      if (IsBlank(input) && |files| == 0) || isLoading {
        return;
      }
      var text, attached := input, files;
      SendMessage(text, attached, stream);
    }

    /** `handleFileChange`. */
    method HandleFileChange(selected: seq<LocalFile>)
      modifies this
      ensures State() == FilesChosen(old(State()), selected)
    {
      if |selected| > 0 {
        files := files + selected;
        var previews := Previews(selected);
        if previews.Ok? {
          filePreviews := filePreviews + previews.value;
        }
      }
    }

    /** `handleRemoveFile`. */
    method HandleRemoveFile(idx: int)
      modifies this
      ensures State() == FileRemoved(old(State()), idx)
    {
      files := Without(files, idx);
      filePreviews := Without(filePreviews, idx);
    }

    /** `clearHistory`. */
    method ClearHistory(confirmed: bool)
      modifies this
      ensures State() == Cleared(old(State()), confirmed)
    {
      if confirmed {
        messages := [];
        localStore := localStore - {StorageKey};
        session := Some(GeminiService.CreateChatSession(model));
      }
    }

    /** The model selector, with the `[model]` effect it triggers. */
    method ChooseModel(m: string)
      modifies this
      ensures State() == ModelChosen(old(State()), m)
    {
      if !isLoading && m != model {
        model := m;
        session := Some(GeminiService.CreateChatSession(m, messages));
      }
    }

    /** The effect that sends the welcome page's message. */
    method ConsumeInitialMessage(stream: Stream)
      modifies this
      ensures State() == InitialMessageSent(old(State()), stream, stringify)
    {
      if InitialMessageKey in sessionStore && sessionStore[InitialMessageKey] != "" {
        var text := sessionStore[InitialMessageKey];
        sessionStore := sessionStore - {InitialMessageKey};
        SendMessage(text, [], stream);
      }
    }
  }
}
