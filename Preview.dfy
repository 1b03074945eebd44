/** The stand-alone preview page for a shared project: the `share`
    parameter carries a file list as URI-encoded Base64 of a deflated JSON
    array. The page decodes it, classifies the project and renders either
    the web page, the Android file browser or an error. URI decoding,
    inflation and JSON parsing are library calls whose results are inputs
    here. */
module Preview {
  import opened Wrappers
  import opened Js
  import opened Types
  import opened BinaryString
  import Base64

  /** `base64ToUint8Array`: `atob`, then one byte per decoded character;
      `atob` throws (`None`) on text that is not Base64. */
  method Base64ToUint8Array(base64: string) returns (bytes: Option<array<byte>>)
    ensures bytes.None? <==> Base64.Decode(base64).None?
    ensures bytes.Some? ==> bytes.value[..] == Base64.Decode(base64).value
  {
    var binary := Base64.Atob(base64);
    if binary.None? {
      return None;
    }
    var filled := ToByteArray(binary.value);
    return Some(filled);
  }

  // ---------------------------------------------------------------------
  // Classification

  datatype ProjectType = Web | Android | Unknown

  /** What `JSON.parse` produced from the inflated text: a failure (it
      threw), a value that is not an array, or an array of files. */
  datatype Parsed = ParseFailed | NotAnArray | FileArray(files: seq<CodeFile>)

  predicate IsIndexFile(f: CodeFile)
  {
    EndsWith(f.name, "index.html")
  }

  predicate IsAndroidLanguage(language: string)
  {
    language == "kotlin" || language == "xml" || language == "dart"
  }

  /** A file the Android view may open first: its lowercased name does not
      mention `explanation.md`. */
  predicate IsCodeFile(f: CodeFile)
  {
    !Includes(ToLower(f.name), "explanation.md")
  }

  /** `files.find(f => f.name.endsWith('index.html'))`. */
  function FindIndexFile(files: seq<CodeFile>): Option<CodeFile>
  {
    Find(files, IsIndexFile)
  }

  /** `files.find(f => !f.name.toLowerCase().includes('explanation.md'))`. */
  function FindCodeFile(files: seq<CodeFile>): Option<CodeFile>
  {
    Find(files, IsCodeFile)
  }

  /** `files.some(f => f.name.endsWith('index.html'))`. */
  predicate HasIndexFile(files: seq<CodeFile>)
  {
    exists i :: 0 <= i < |files| && IsIndexFile(files[i])
  }

  /** `files.some(f => ['kotlin', 'xml', 'dart'].includes(f.language))`. */
  predicate HasAndroidSource(files: seq<CodeFile>)
  {
    exists i :: 0 <= i < |files| && IsAndroidLanguage(files[i].language)
  }

  /** The project type: a web page wins over any Android source. */
  function Classify(files: seq<CodeFile>): ProjectType
  {
    if HasIndexFile(files) then Web
    else if HasAndroidSource(files) then Android
    else Unknown
  }

  // ---------------------------------------------------------------------
  // The page

  const NoDataMessage: string := "داده‌ای برای نمایش یافت نشد."
  const InvalidFormatMessage: string := "فرمت داده اشتراک‌گذاری شده نامعتبر است."
  const UnknownTypeMessage: string := "نوع پروژه قابل تشخیص نیست."
  const LoadErrorMessage: string := "خطا در بارگذاری پیش‌نمایش. ممکن است لینک ناقص یا خراب باشد."
  const MissingIndexMessage: string := "فایل index.html برای پیش‌نمایش یافت نشد."

  /** The page's state: `files` is `None` until a list is loaded. */
  datatype PageState = PageState(files: Option<seq<CodeFile>>, error: string, projectType: ProjectType, activeFile: Option<CodeFile>)

  const InitialPage: PageState := PageState(None, "", Unknown, None)

  /** The state once a non-empty list has been loaded and classified. */
  function Classified(files: seq<CodeFile>): (p: PageState)
    requires files != []
  {
    match Classify(files)
    case Web => PageState(Some(files), "", Web, None)
    case Android => PageState(Some(files), "", Android, Some(FindCodeFile(files).GetOr(files[0])))
    case Unknown => PageState(Some(files), UnknownTypeMessage, Unknown, None)
  }

  /** The state the mount effect leaves, from the `share` parameter (`None`
      when absent) and the results of `decodeURIComponent`, `pako.inflate`
      and `JSON.parse` (`None` or `ParseFailed` when they throw). */
  function Load(share: Option<string>, decodeUri: string -> Option<string>,
                inflate: seq<byte> -> Option<string>, parse: string -> Parsed): PageState
  {
    if share.None? || share.value == "" then InitialPage.(error := NoDataMessage)
    else match decodeUri(share.value)
      case None => InitialPage.(error := LoadErrorMessage)
      case Some(decoded) =>
        match Base64.Decode(decoded)
        case None => InitialPage.(error := LoadErrorMessage)
        case Some(compressed) =>
          match inflate(compressed)
          case None => InitialPage.(error := LoadErrorMessage)
          case Some(json) =>
            match parse(json)
            case ParseFailed => InitialPage.(error := LoadErrorMessage)
            case NotAnArray => InitialPage.(error := InvalidFormatMessage)
            case FileArray(files) => if files == [] then InitialPage.(error := InvalidFormatMessage) else Classified(files)
  }

  /** What `renderContent` shows. */
  datatype View =
    | ErrorView(message: string)
    | Spinner
    | WebPreview(srcDoc: string)
    | MissingIndex(message: string)
    | AndroidBrowser(tabs: seq<string>, shown: Option<CodeFile>)
    | Nothing

  function FileNames(files: seq<CodeFile>): (names: seq<string>)
    ensures |names| == |files|
    ensures forall i :: 0 <= i < |files| ==> names[i] == files[i].name
  {
    if files == [] then [] else [files[0].name] + FileNames(files[1..])
  }

  /** `renderContent`: an error wins, then the spinner while no list is
      loaded, then the view of the project type. */
  function RenderContent(p: PageState): View
  {
    if p.error != "" then ErrorView(p.error)
    else if p.files.None? then Spinner
    else match p.projectType
      case Web =>
        (match FindIndexFile(p.files.value)
         case Some(f) => WebPreview(f.content)
         case None => MissingIndex(MissingIndexMessage))
      case Android => AndroidBrowser(FileNames(p.files.value), p.activeFile)
      case Unknown => Nothing
  }

  /** The page state as a class whose mount effect runs once. */
  class PreviewPage {
    var files: Option<seq<CodeFile>>
    var error: string
    var projectType: ProjectType
    var activeFile: Option<CodeFile>

    function State(): PageState
      reads this
    {
      PageState(files, error, projectType, activeFile)
    }

    constructor()
      ensures State() == InitialPage
    {
      files, error, projectType, activeFile := None, "", Unknown, None;
    }

    /** The mount effect, run on the first render. */
    method Mount(share: Option<string>, decodeUri: string -> Option<string>,
                 inflate: seq<byte> -> Option<string>, parse: string -> Parsed)
      requires State() == InitialPage
      modifies this
      ensures State() == Load(share, decodeUri, inflate, parse)
    {
      if share.None? || share.value == "" {
        error := NoDataMessage;
        return;
      }
      var decoded := decodeUri(share.value);
      if decoded.None? {
        error := LoadErrorMessage;
        return;
      }
      var compressed := Base64ToUint8Array(decoded.value);
      if compressed.None? {
        error := LoadErrorMessage;
        return;
      }
      var json := inflate(compressed.value[..]);
      if json.None? {
        error := LoadErrorMessage;
        return;
      }
      var parsed := parse(json.value);
      if parsed.ParseFailed? {
        error := LoadErrorMessage;
        return;
      }
      if parsed.NotAnArray? || parsed.files == [] {
        error := InvalidFormatMessage;
        return;
      }
      var list := parsed.files;
      files := Some(list);
      if HasIndexFile(list) {
        projectType := Web;
      } else if HasAndroidSource(list) {
        projectType := Android;
        activeFile := Some(FindCodeFile(list).GetOr(list[0]));
      } else {
        projectType := Unknown;
        error := UnknownTypeMessage;
      }
    }
  }

  // ---------------------------------------------------------------------
  // What the page shows

  /** Without a `share` parameter the page shows the missing-data error and
      loads no files. */
  lemma MissingShareShowsError(share: Option<string>, decodeUri: string -> Option<string>,
                               inflate: seq<byte> -> Option<string>, parse: string -> Parsed)
    requires share.None? || share.value == ""
    ensures Load(share, decodeUri, inflate, parse).files.None?
    ensures RenderContent(Load(share, decodeUri, inflate, parse)) == ErrorView(NoDataMessage)
  {
  }

  /** A loaded list with an `index.html` file shows the first such file's
      content, whatever other files it holds. */
  lemma WebListShowsIndex(files: seq<CodeFile>)
    requires HasIndexFile(files)
    ensures RenderContent(Classified(files)) == WebPreview(files[FindIndex(files, IsIndexFile)].content)
  {
    assert FindIndexFile(files).Some?;
  }

  /** A loaded list without an `index.html` file but with an Android source
      shows the browser over all file names, opened at the first file that
      is not the explanation (`Find` returns the first match), or at the
      first file when all are. */
  lemma AndroidListShowsCodeFile(files: seq<CodeFile>)
    requires files != [] && !HasIndexFile(files) && HasAndroidSource(files)
    ensures RenderContent(Classified(files)) == AndroidBrowser(FileNames(files), Some(FindCodeFile(files).GetOr(files[0])))
  {
    assert Classify(files) == Android;
  }

  /** A loaded list of neither kind shows the unknown-type error. */
  lemma OtherListShowsError(files: seq<CodeFile>)
    requires files != [] && !HasIndexFile(files) && !HasAndroidSource(files)
    ensures RenderContent(Classified(files)) == ErrorView(UnknownTypeMessage)
  {
  }

  /** A parameter that decodes, inflates and parses to a list of files
      loads that list: an empty one is refused with the invalid-format
      error. */
  lemma LoadedListIsClassified(share: string, decodeUri: string -> Option<string>,
                               inflate: seq<byte> -> Option<string>, parse: string -> Parsed)
    requires share != ""
    requires decodeUri(share).Some? && Base64.Decode(decodeUri(share).value).Some?
    requires inflate(Base64.Decode(decodeUri(share).value).value).Some?
    requires parse(inflate(Base64.Decode(decodeUri(share).value).value).value).FileArray?
    ensures var files := parse(inflate(Base64.Decode(decodeUri(share).value).value).value).files;
      var p := Load(Some(share), decodeUri, inflate, parse);
      && (files == [] ==> p.files.None? && RenderContent(p) == ErrorView(InvalidFormatMessage))
      && (files != [] ==> p == Classified(files) && p.files == Some(files))
  {
  }

  /** Any failure of URI decoding, Base64 decoding, inflation or parsing
      shows the generic load error. */
  lemma BrokenLinkShowsLoadError(share: string, decodeUri: string -> Option<string>,
                                 inflate: seq<byte> -> Option<string>, parse: string -> Parsed)
    requires share != ""
    requires || decodeUri(share).None?
             || Base64.Decode(decodeUri(share).value).None?
             || inflate(Base64.Decode(decodeUri(share).value).value).None?
             || parse(inflate(Base64.Decode(decodeUri(share).value).value).value).ParseFailed?
    ensures Load(Some(share), decodeUri, inflate, parse).files.None?
    ensures RenderContent(Load(Some(share), decodeUri, inflate, parse)) == ErrorView(LoadErrorMessage)
  {
  }

  /** The "index.html not found" branch of the web view is never reached
      from a loaded page: a page is of web type only when such a file
      exists. */
  lemma WebPageHasIndex(share: Option<string>, decodeUri: string -> Option<string>,
                        inflate: seq<byte> -> Option<string>, parse: string -> Parsed)
    ensures !RenderContent(Load(share, decodeUri, inflate, parse)).MissingIndex?
  {
    var p := Load(share, decodeUri, inflate, parse);
    if p.error == "" && p.files.Some? && p.projectType == Web {
      assert FindIndexFile(p.files.value).Some?;
    }
  }
}
