/** The image editor panel: staged images with one preview URL each, an
    instruction, and the text and image the model returns for them. The two
    staged lists are kept index for index. */
module ImageEditor {
  import opened Wrappers
  import opened Js
  import opened Types
  import GeminiService

  // ---------------------------------------------------------------------
  // The request payload

  /** `Promise.all(files.map(...))` over `fileToBase64`: one payload per
      file, in order, or the failure of the first file that cannot be
      read. */
  function Payloads(files: seq<LocalFile>): (r: Result<seq<GeminiService.ImagePayload>, Thrown>)
    ensures r.Ok? <==> forall i :: 0 <= i < |files| ==> files[i].read.LoadedString?
    ensures r.Ok? ==> |r.value| == |files|
    ensures r.Ok? ==> forall i :: 0 <= i < |files| ==>
      r.value[i] == GeminiService.ImagePayload(GeminiService.Base64Field(files[i].read.dataUrl), files[i].mimeType)
    ensures r.Err? ==> exists i :: 0 <= i < |files| && GeminiService.FileToBase64(files[i].read) == Err(r.error)
  {
    if files == [] then Ok([])
    else
      match GeminiService.FileToBase64(files[0].read)
      case Err(t) => Err(t)
      case Ok(data) =>
        match Payloads(files[1..])
        case Err(t) => Err(t)
        case Ok(rest) => Ok([GeminiService.ImagePayload(data, files[0].mimeType)] + rest)
  }

  // ---------------------------------------------------------------------
  // The panel

  const FlashImageModel: string := "gemini-2.5-flash-image"
  const UnknownErrorMessage: string := "خطای ناشناخته."

  /** A request handed to `generateFromImages`. */
  datatype EditRequest = EditRequest(prompt: string, images: seq<GeminiService.ImagePayload>, model: string)

  datatype Editor = Editor(
    prompt: string,
    originalImages: seq<LocalFile>,
    /** One object URL per staged image. */
    previews: seq<string>,
    generatedResult: Option<GeminiService.EditResult>,
    isLoading: bool,
    error: string,
    model: string,
    /** Every request made so far, oldest first. */
    requests: seq<EditRequest>)

  const InitialEditor: Editor := Editor("", [], [], None, false, "", FlashImageModel, [])

  /** The staged images and their previews are index-aligned. */
  predicate Aligned(e: Editor)
  {
    |e.originalImages| == |e.previews|
  }

  /** `handleImageChange`: the chosen files, each with the object URL made
      for it, are appended after the staged ones, and the error is
      cleared; choosing no file changes nothing. */
  function ImagesAdded(e: Editor, files: seq<LocalFile>, urls: seq<string>): (g: Editor)
    requires |urls| == |files|
    ensures Aligned(e) ==> Aligned(g)
    ensures files == [] ==> g == e
    ensures files != [] ==> g == e.(originalImages := e.originalImages + files, previews := e.previews + urls, error := "")
  {
    if files == [] then e
    else e.(originalImages := e.originalImages + files, previews := e.previews + urls, error := "")
  }

  /** `handleRemoveImage`: the image at `idx` and its preview leave both
      lists; the rest keep their order. */
  function ImageRemoved(e: Editor, idx: int): (g: Editor)
    ensures Aligned(e) ==> Aligned(g)
    ensures g.originalImages == Without(e.originalImages, idx) && g.previews == Without(e.previews, idx)
    ensures g.(originalImages := e.originalImages, previews := e.previews) == e
  {
    e.(originalImages := Without(e.originalImages, idx), previews := Without(e.previews, idx))
  }

  /** Removing an image removes exactly its own preview: every image left
      is still next to the preview it was staged with. */
  lemma RemovalKeepsPreviews(e: Editor, idx: int)
    requires Aligned(e)
    ensures var g := ImageRemoved(e, idx);
      forall i :: 0 <= i < |g.originalImages| ==>
        exists j :: 0 <= j < |e.originalImages| && g.originalImages[i] == e.originalImages[j] && g.previews[i] == e.previews[j]
  {
    WithoutKeepsPairs(e.originalImages, e.previews, idx);
  }

  /** `handleSubmit`, with `response` the outcome of the awaited
      `generateFromImages` (its result, or the message of the `Error` it
      throws). A blank instruction, no staged image or a request in flight
      changes nothing. Otherwise the error and the previous result are
      cleared; a file that cannot be read shows its error and makes no
      request; else one request with a payload per staged image is made
      and its result is shown, or its message becomes the error. */
  function Submitted(e: Editor, response: Result<GeminiService.EditResult, string>): (g: Editor)
    ensures IsBlank(e.prompt) || e.originalImages == [] || e.isLoading ==> g == e
    ensures !(IsBlank(e.prompt) || e.originalImages == [] || e.isLoading) ==>
      && !g.isLoading
      && g.(generatedResult := e.generatedResult, error := e.error, requests := e.requests) == e
      && match Payloads(e.originalImages)
         case Err(t) =>
           g.requests == e.requests && g.generatedResult.None? && g.error == MessageOr(t, UnknownErrorMessage)
         case Ok(payload) =>
           && g.requests == e.requests + [EditRequest(e.prompt, payload, e.model)]
           && (response.Ok? ==> g.generatedResult == Some(response.value) && g.error == "")
           && (response.Err? ==> g.generatedResult.None? && g.error == response.error)
  {
    if IsBlank(e.prompt) || e.originalImages == [] || e.isLoading then e
    else
      var cleared := e.(error := "", generatedResult := None);
      match Payloads(e.originalImages)
      case Err(t) => cleared.(error := MessageOr(t, UnknownErrorMessage))
      case Ok(payload) =>
        var sent := cleared.(requests := e.requests + [EditRequest(e.prompt, payload, e.model)]);
        match response
        case Ok(result) => sent.(generatedResult := Some(result))
        case Err(message) => sent.(error := message)
  }

  /** The request sends the staged images' data in staging order, followed
      by the instruction. */
  lemma RequestFollowsStagingOrder(e: Editor, response: Result<GeminiService.EditResult, string>)
    requires !IsBlank(e.prompt) && e.originalImages != [] && !e.isLoading
    requires forall i :: 0 <= i < |e.originalImages| ==> e.originalImages[i].read.LoadedString?
    ensures var g := Submitted(e, response);
      && |g.requests| == |e.requests| + 1
      && var parts := GeminiService.EditRequestParts(e.prompt, g.requests[|e.requests|].images);
      && |parts| == |e.originalImages| + 1
      && parts[|e.originalImages|] == GeminiService.TextPart(e.prompt)
      && forall i :: 0 <= i < |e.originalImages| ==>
           parts[i] == GeminiService.InlinePart(e.originalImages[i].mimeType,
                                                GeminiService.Base64Field(e.originalImages[i].read.dataUrl))
  {
    var payload := Payloads(e.originalImages).value;
    assert Submitted(e, response).requests[|e.requests|] == EditRequest(e.prompt, payload, e.model);
  }

  /** The panel as an object whose handlers update its fields. */
  class ImageEditorPanel {
    var prompt: string
    var originalImages: seq<LocalFile>
    var previews: seq<string>
    var generatedResult: Option<GeminiService.EditResult>
    var isLoading: bool
    var error: string
    var model: string
    var requests: seq<EditRequest>

    function State(): Editor
      reads this
    {
      Editor(prompt, originalImages, previews, generatedResult, isLoading, error, model, requests)
    }

    constructor()
      ensures State() == InitialEditor
    {
      prompt, originalImages, previews, generatedResult := "", [], [], None;
      isLoading, error, model, requests := false, "", FlashImageModel, [];
    }

    /** Stores an editor state in the fields. */
    method Store(g: Editor)
      modifies this
      ensures State() == g
    {
      prompt, originalImages, previews, generatedResult := g.prompt, g.originalImages, g.previews, g.generatedResult;
      isLoading, error, model, requests := g.isLoading, g.error, g.model, g.requests;
    }

    /** `handleImageChange`, with `urls` the object URLs the browser made
        for the chosen files. */
    method AddImages(files: seq<LocalFile>, urls: seq<string>)
      requires |urls| == |files|
      modifies this
      ensures State() == ImagesAdded(old(State()), files, urls)
    {
      if |files| > 0 {
        originalImages := originalImages + files;
        previews := previews + urls;
        error := "";
      }
    }

    /** `handleRemoveImage`. */
    method RemoveImage(idx: int)
      modifies this
      ensures State() == ImageRemoved(old(State()), idx)
    {
      originalImages := Without(originalImages, idx);
      previews := Without(previews, idx);
    }

    /** `handleSubmit`. The setters it calls are applied to a copy of the
        state, which is stored once the outcome has been handled. */
    method Submit(response: Result<GeminiService.EditResult, string>)
      modifies this
      ensures State() == Submitted(old(State()), response)
    {
      if IsBlank(prompt) || |originalImages| == 0 || isLoading {
        return;
      }
      var g := State();
      g := g.(isLoading := true, error := "", generatedResult := None);
      var payload := Payloads(originalImages);
      match payload {
        case Err(t) =>
          g := g.(error := MessageOr(t, UnknownErrorMessage));
        case Ok(images) =>
          g := g.(requests := g.requests + [EditRequest(prompt, images, model)]);
          match response {
            case Ok(result) =>
              g := g.(generatedResult := Some(result));
            case Err(message) =>
              g := g.(error := message);
          }
      }
      g := g.(isLoading := false);
      Store(g);
    }
  }
}
