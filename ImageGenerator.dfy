/** The image generator panel: a Persian description, an image model, an
    image count and an aspect ratio. The model decides which of the other
    two controls apply and whether an API key chosen in the host page is
    required; a key error reported by the service withdraws the key. */
module ImageGenerator {
  import opened Wrappers
  import opened Js
  import GeminiService

  // ---------------------------------------------------------------------
  // The models offered

  datatype ModelInfo = ModelInfo(id: string, name: string, supportsMultiple: bool,
                                 supportsAspectRatio: bool, requiresApiKey: bool)

  const FlashImage: string := "gemini-2.5-flash-image"
  const ProImage: string := "gemini-3-pro-image-preview"
  const Imagen3: string := "imagen-3.0-generate-001"
  const Imagen4: string := "imagen-4.0-generate-001"

  /** `imageModels`, in the order of the model menu. */
  const ImageModels: seq<ModelInfo> := [
    ModelInfo(FlashImage, "Gemini 2.5 Flash Image (سریع)", false, false, false),
    ModelInfo(ProImage, "Gemini 3.0 Pro Image (کیفیت بالا)", false, true, true),
    ModelInfo(Imagen3, "Imagen 3 (کیفیت خوب)", true, true, false),
    ModelInfo(Imagen4, "Imagen 4 (جدیدترین)", true, true, false)
  ]

  const AspectRatios: seq<string> := ["1:1", "16:9", "9:16", "4:3", "3:4"]
  const DefaultAspectRatio: string := "1:1"

  /** `imageModels.find(m => m.id === id)`. */
  function ModelInfoOf(id: string): (r: Option<ModelInfo>)
    ensures r.Some? <==> id == FlashImage || id == ProImage || id == Imagen3 || id == Imagen4
    ensures r.Some? ==> r.value in ImageModels && r.value.id == id
  {
    assert ImageModels[0].id == FlashImage && ImageModels[1].id == ProImage;
    assert ImageModels[2].id == Imagen3 && ImageModels[3].id == Imagen4;
    Find(ImageModels, (m: ModelInfo) => m.id == id)
  }

  /** Of the models offered only the Imagen ones make several images, all
      but the flash model take an aspect ratio, and only the pro model
      needs a chosen key. */
  lemma Capabilities()
    ensures ModelInfoOf(FlashImage).Some? && ModelInfoOf(ProImage).Some?
    ensures ModelInfoOf(Imagen3).Some? && ModelInfoOf(Imagen4).Some?
    ensures forall id :: ModelInfoOf(id).Some? ==>
      && (ModelInfoOf(id).value.supportsMultiple <==> GeminiService.IsImagenModel(id))
      && (ModelInfoOf(id).value.supportsAspectRatio <==> id != FlashImage)
      && (ModelInfoOf(id).value.requiresApiKey <==> id == ProImage)
  {
    forall id | ModelInfoOf(id).Some?
      ensures ModelInfoOf(id).value == ImageModels[if id == FlashImage then 0 else if id == ProImage then 1
                                                    else if id == Imagen3 then 2 else 3]
    {
      var m := ModelInfoOf(id).value;
      assert m in ImageModels && m.id == id;
    }
  }

  predicate RequiresKey(model: string)
  {
    ModelInfoOf(model).Some? && ModelInfoOf(model).value.requiresApiKey
  }

  // ---------------------------------------------------------------------
  // The panel

  const KeyRequiredMessage: string := "لطفا ابتدا یک کلید API انتخاب کنید."

  /** A request handed to the image service. */
  datatype ImageRequest = ImageRequest(prompt: string, numImages: int, aspectRatio: string, model: string)

  datatype Form = Form(
    prompt: string,
    images: seq<string>,
    isLoading: bool,
    error: string,
    numImages: int,
    aspectRatio: string,
    enhancedPrompt: string,
    model: string,
    hasApiKey: bool,
    isCheckingApiKey: bool,
    /** Every request made so far, oldest first. */
    requests: seq<ImageRequest>)

  const InitialForm: Form := Form("", [], false, "", 1, DefaultAspectRatio, "", FlashImage, false, true, [])

  /** The count and the ratio never claim a capability the chosen model
      lacks. */
  predicate Consistent(f: Form)
  {
    ModelInfoOf(f.model).Some? ==>
      && (!ModelInfoOf(f.model).value.supportsMultiple ==> f.numImages == 1)
      && (!ModelInfoOf(f.model).value.supportsAspectRatio ==> f.aspectRatio == DefaultAspectRatio)
  }

  /** The mount effect. `bridge` is the host page's answer to
      `hasSelectedApiKey`, or `None` when the page offers no such call:
      then a key is assumed. The key lookup flag drops either way. */
  function KeyChecked(f: Form, bridge: Option<bool>): (g: Form)
    ensures g.hasApiKey == (bridge.None? || bridge.value) && !g.isCheckingApiKey
    ensures g.(hasApiKey := f.hasApiKey, isCheckingApiKey := f.isCheckingApiKey) == f
  {
    f.(hasApiKey := bridge.GetOr(true), isCheckingApiKey := false)
  }

  /** `handleSelectKey`: when the host page can open its key chooser, a
      key is assumed chosen and the error is cleared. */
  function KeySelected(f: Form, bridgeAvailable: bool): (g: Form)
    ensures !bridgeAvailable ==> g == f
    ensures bridgeAvailable ==> g.hasApiKey && g.error == "" && g.(hasApiKey := f.hasApiKey, error := f.error) == f
  {
    if bridgeAvailable then f.(hasApiKey := true, error := "") else f
  }

  /** `handleModelChange`: the model is switched; a model of the table
      without several images resets the count to one, and one without
      aspect ratios resets the ratio to 1:1. Other settings are kept. */
  function ModelChanged(f: Form, id: string): (g: Form)
    ensures g.model == id
    ensures ModelInfoOf(id).Some? ==> Consistent(g)
    ensures g.numImages == (if ModelInfoOf(id).Some? && !ModelInfoOf(id).value.supportsMultiple then 1 else f.numImages)
    ensures g.aspectRatio == (if ModelInfoOf(id).Some? && !ModelInfoOf(id).value.supportsAspectRatio then DefaultAspectRatio else f.aspectRatio)
    ensures g.(model := f.model, numImages := f.numImages, aspectRatio := f.aspectRatio) == f
  {
    var switched := f.(model := id);
    match ModelInfoOf(id)
    case None => switched
    case Some(m) =>
      var counted := if !m.supportsMultiple then switched.(numImages := 1) else switched;
      if !m.supportsAspectRatio then counted.(aspectRatio := DefaultAspectRatio) else counted
  }

  /** The count menu, disabled while loading and for a model without
      several images. */
  function NumImagesChosen(f: Form, n: int): (g: Form)
    ensures Consistent(f) ==> Consistent(g)
    ensures g == f || g == f.(numImages := n)
    ensures g.numImages == n <==> f.numImages == n || (!f.isLoading && ModelInfoOf(f.model).Some? && ModelInfoOf(f.model).value.supportsMultiple)
  {
    if f.isLoading || !(ModelInfoOf(f.model).Some? && ModelInfoOf(f.model).value.supportsMultiple) then f
    else f.(numImages := n)
  }

  /** The ratio menu, disabled while loading and for a model without
      aspect ratios. */
  function AspectRatioChosen(f: Form, ratio: string): (g: Form)
    ensures Consistent(f) ==> Consistent(g)
    ensures g == f || g == f.(aspectRatio := ratio)
    ensures g.aspectRatio == ratio <==> f.aspectRatio == ratio || (!f.isLoading && ModelInfoOf(f.model).Some? && ModelInfoOf(f.model).value.supportsAspectRatio)
  {
    if f.isLoading || !(ModelInfoOf(f.model).Some? && ModelInfoOf(f.model).value.supportsAspectRatio) then f
    else f.(aspectRatio := ratio)
  }

  /** `handleSubmit`, with `response` the outcome of `generateImages`
      (its result, or the message of the `Error` it throws). A model that
      needs a key, without one, only shows the key error. Otherwise a
      blank description or a request in flight changes nothing; else the
      images, the error and the enhanced prompt are cleared and one
      request is made: its images and translated prompt are shown, or its
      message becomes the error and, when that is a key error, the key is
      withdrawn. */
  function Submitted(f: Form, response: Result<GeminiService.ImagesResult, string>): (g: Form)
    ensures RequiresKey(f.model) && !f.hasApiKey ==> g == f.(error := KeyRequiredMessage)
    ensures !(RequiresKey(f.model) && !f.hasApiKey) && (IsBlank(f.prompt) || f.isLoading) ==> g == f
    ensures g.requests == f.requests || g.requests == f.requests + [ImageRequest(f.prompt, f.numImages, f.aspectRatio, f.model)]
    ensures |g.requests| == |f.requests| + 1 <==> !(RequiresKey(f.model) && !f.hasApiKey) && !IsBlank(f.prompt) && !f.isLoading
    ensures |g.requests| == |f.requests| + 1 && response.Ok? ==>
      && !g.isLoading && g.error == "" && g.hasApiKey == f.hasApiKey
      && g.images == response.value.images && g.enhancedPrompt == response.value.translatedPrompt
    ensures |g.requests| == |f.requests| + 1 && response.Err? ==>
      && !g.isLoading && g.images == [] && g.enhancedPrompt == "" && g.error == response.error
      && g.hasApiKey == (f.hasApiKey && !Includes(response.error, GeminiService.ApiKeyPhrase))
    ensures g.model == f.model && g.numImages == f.numImages && g.aspectRatio == f.aspectRatio && g.prompt == f.prompt
    ensures g.isCheckingApiKey == f.isCheckingApiKey
  {
    if RequiresKey(f.model) && !f.hasApiKey then f.(error := KeyRequiredMessage)
    else if IsBlank(f.prompt) || f.isLoading then f
    else
      var sent := f.(images := [], error := "", enhancedPrompt := "",
                     requests := f.requests + [ImageRequest(f.prompt, f.numImages, f.aspectRatio, f.model)]);
      match response
      case Ok(result) => sent.(images := result.images, enhancedPrompt := result.translatedPrompt)
      case Err(message) =>
        if Includes(message, GeminiService.ApiKeyPhrase) then sent.(error := message, hasApiKey := false)
        else sent.(error := message)
  }

  /** Every handler keeps the count and the ratio within the chosen
      model's capabilities. */
  lemma HandlersKeepConsistent(f: Form, bridge: Option<bool>, id: string, n: int, ratio: string,
                               response: Result<GeminiService.ImagesResult, string>)
    requires Consistent(f)
    requires ModelInfoOf(id).Some?
    ensures Consistent(KeyChecked(f, bridge)) && Consistent(KeySelected(f, true))
    ensures Consistent(ModelChanged(f, id))
    ensures Consistent(NumImagesChosen(f, n)) && Consistent(AspectRatioChosen(f, ratio))
    ensures Consistent(Submitted(f, response))
  {
    var g := Submitted(f, response);
    assert g.model == f.model && g.numImages == f.numImages && g.aspectRatio == f.aspectRatio;
  }

  /** An entity-not-found failure of the Imagen call withdraws the key, so
      the pro model's next submission makes no request; any other failure
      keeps the key. */
  lemma KeyErrorWithdrawsKey(f: Form, translated: string, message: string,
                             contentReply: Result<seq<GeminiService.Candidate>, Thrown>)
    requires f.hasApiKey && !IsBlank(f.prompt) && !f.isLoading
    requires GeminiService.IsImagenModel(f.model)
    ensures var g := Submitted(f, GeminiService.GenerateImages(f.model, Ok(translated), Err(ErrorObject(message)), contentReply));
      && |g.requests| == |f.requests| + 1
      && (g.hasApiKey <==> !Includes(message, GeminiService.EntityNotFound))
  {
    Capabilities();
    GeminiService.ApiKeyPhraseDistinguishes();
    var g := Submitted(f, GeminiService.GenerateImages(f.model, Ok(translated), Err(ErrorObject(message)), contentReply));
    assert !RequiresKey(f.model);
    assert |g.requests| == |f.requests| + 1;
  }

  /** Without a key the pro model's submission only shows the key error. */
  lemma ProModelNeedsKey(f: Form, response: Result<GeminiService.ImagesResult, string>)
    requires f.model == ProImage && !f.hasApiKey
    ensures Submitted(f, response) == f.(error := KeyRequiredMessage)
  {
    Capabilities();
  }

  /** The panel as an object whose handlers update its fields. */
  class ImageGeneratorPanel {
    var prompt: string
    var images: seq<string>
    var isLoading: bool
    var error: string
    var numImages: int
    var aspectRatio: string
    var enhancedPrompt: string
    var model: string
    var hasApiKey: bool
    var isCheckingApiKey: bool
    var requests: seq<ImageRequest>

    function State(): Form
      reads this
    {
      Form(prompt, images, isLoading, error, numImages, aspectRatio, enhancedPrompt, model, hasApiKey, isCheckingApiKey, requests)
    }

    constructor()
      ensures State() == InitialForm
    {
      prompt, images, isLoading, error, numImages, aspectRatio := "", [], false, "", 1, DefaultAspectRatio;
      enhancedPrompt, model, hasApiKey, isCheckingApiKey, requests := "", FlashImage, false, true, [];
    }

    /** Stores a form state in the fields. */
    method Store(g: Form)
      modifies this
      ensures State() == g
    {
      prompt, images, isLoading, error, numImages, aspectRatio := g.prompt, g.images, g.isLoading, g.error, g.numImages, g.aspectRatio;
      enhancedPrompt, model, hasApiKey, isCheckingApiKey, requests := g.enhancedPrompt, g.model, g.hasApiKey, g.isCheckingApiKey, g.requests;
    }

    method CheckKey(bridge: Option<bool>)
      modifies this
      ensures State() == KeyChecked(old(State()), bridge)
    {
      if bridge.Some? {
        hasApiKey := bridge.value;
      } else {
        hasApiKey := true;
      }
      isCheckingApiKey := false;
    }

    method SelectKey(bridgeAvailable: bool)
      modifies this
      ensures State() == KeySelected(old(State()), bridgeAvailable)
    {
      if bridgeAvailable {
        hasApiKey := true;
        error := "";
      }
    }

    method ChangeModel(id: string)
      modifies this
      ensures State() == ModelChanged(old(State()), id)
    {
      model := id;
      var selected := ModelInfoOf(id);
      if selected.Some? {
        if !selected.value.supportsMultiple {
          numImages := 1;
        }
        if !selected.value.supportsAspectRatio {
          aspectRatio := DefaultAspectRatio;
        }
      }
    }

    method ChooseNumImages(n: int)
      modifies this
      ensures State() == NumImagesChosen(old(State()), n)
    {
      var current := ModelInfoOf(model);
      if !isLoading && current.Some? && current.value.supportsMultiple {
        numImages := n;
      }
    }

    method ChooseAspectRatio(ratio: string)
      modifies this
      ensures State() == AspectRatioChosen(old(State()), ratio)
    {
      var current := ModelInfoOf(model);
      if !isLoading && current.Some? && current.value.supportsAspectRatio {
        aspectRatio := ratio;
      }
    }

    /** `handleSubmit`, with the outcome of the awaited `generateImages`.
        The setters it calls are applied to a copy of the state, which is
        stored once the outcome has been handled. */
    method Submit(response: Result<GeminiService.ImagesResult, string>)
      modifies this
      ensures State() == Submitted(old(State()), response)
    {
      var current := ModelInfoOf(model);
      if current.Some? && current.value.requiresApiKey && !hasApiKey {
        error := KeyRequiredMessage;
        return;
      }
      if IsBlank(prompt) || isLoading {
        return;
      }
      var g := State();
      g := g.(isLoading := true, images := [], error := "", enhancedPrompt := "");
      g := g.(requests := g.requests + [ImageRequest(prompt, numImages, aspectRatio, model)]);
      match response {
        case Ok(result) =>
          g := g.(images := result.images, enhancedPrompt := result.translatedPrompt);
        case Err(message) =>
          g := g.(error := message);
          if Includes(message, GeminiService.ApiKeyPhrase) {
            g := g.(hasApiKey := false);
          }
      }
      g := g.(isLoading := false);
      Store(g);
    }
  }
}
