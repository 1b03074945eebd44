/** The Android app builder panel: a description is sent to the code
    project service, the returned files are shown with one of them open and
    the project's explanation beside them, and an edit instruction sends the
    current files back for a revised set. */
module AndroidAppBuilder {
  import opened Wrappers
  import opened Js
  import opened Types
  import GeminiService

  // ---------------------------------------------------------------------
  // Which file explains the project and which one is opened first

  /** A file whose lowercased name mentions `explanation.md` or
      `readme.md`. */
  predicate IsExplanationFile(f: CodeFile)
  {
    Includes(ToLower(f.name), "explanation.md") || Includes(ToLower(f.name), "readme.md")
  }

  predicate IsSourceFile(f: CodeFile)
  {
    !IsExplanationFile(f)
  }

  const NoExplanation: string := "توضیحات این پروژه یافت نشد."

  /** The text shown as the explanation: the content of the first
      explanation file, or a fixed notice when there is none. */
  function ExplanationOf(files: seq<CodeFile>): (e: string)
    ensures (forall i :: 0 <= i < |files| ==> !IsExplanationFile(files[i])) ==> e == NoExplanation
    ensures (exists i :: 0 <= i < |files| && IsExplanationFile(files[i])) ==>
      exists j :: 0 <= j < |files| && IsExplanationFile(files[j]) && e == files[j].content
        && forall k :: 0 <= k < j ==> !IsExplanationFile(files[k])
  {
    match Find(files, IsExplanationFile)
    case Some(f) => f.content
    case None => NoExplanation
  }

  /** The file opened first: the first file that is not an explanation, or
      the first file when every file is one. */
  function ActiveFileOf(files: seq<CodeFile>): (f: CodeFile)
    requires files != []
    ensures f in files
    ensures (forall i :: 0 <= i < |files| ==> IsExplanationFile(files[i])) ==> f == files[0]
    ensures (exists i :: 0 <= i < |files| && IsSourceFile(files[i])) ==>
      exists j :: 0 <= j < |files| && IsSourceFile(files[j]) && f == files[j]
        && forall k :: 0 <= k < j ==> IsExplanationFile(files[k])
  {
    Find(files, IsSourceFile).GetOr(files[0])
  }

  /** A project with both kinds of file opens a source file and takes its
      explanation from a different file. */
  lemma MixedProjectSelection(files: seq<CodeFile>, i: nat, j: nat)
    requires i < |files| && j < |files|
    requires IsExplanationFile(files[i]) && IsSourceFile(files[j])
    ensures IsSourceFile(ActiveFileOf(files))
    ensures exists k ::
      0 <= k < |files| && IsExplanationFile(files[k])
      && ExplanationOf(files) == files[k].content && files[k] != ActiveFileOf(files)
  {
    var e := ExplanationOf(files);
    var k :| 0 <= k < |files| && IsExplanationFile(files[k]) && e == files[k].content
             && forall m :: 0 <= m < k ==> !IsExplanationFile(files[m]);
    assert files[k] != ActiveFileOf(files);
  }

  /** The open file and the explanation agree with a non-empty file list;
      an empty list constrains neither. */
  predicate Selected(files: seq<CodeFile>, activeFile: Option<CodeFile>, explanation: string)
  {
    files != [] ==> activeFile == Some(ActiveFileOf(files)) && explanation == ExplanationOf(files)
  }

  // ---------------------------------------------------------------------
  // The panel

  /** A request sent to the code project service: a generation from the
      description and technology, or an edit of the given files. */
  datatype Request =
    | Generate(prompt: string, language: string)
    | Edit(files: seq<CodeFile>, instruction: string, language: string)

  /** The panel's state between two events. */
  datatype Panel = Panel(
    prompt: string,
    language: string,
    files: seq<CodeFile>,
    isLoading: bool,
    error: string,
    activeFile: Option<CodeFile>,
    explanation: string,
    editInstruction: string,
    isEditing: bool,
    /** Every request made so far, oldest first. */
    requests: seq<Request>)

  const InitialPanel: Panel := Panel("", "compose", [], false, "", None, "", "", false, [])

  /** The `[files]` effect: a non-empty list selects its explanation and
      its first file; an empty one changes nothing. */
  function ShowFiles(p: Panel, files: seq<CodeFile>): (q: Panel)
    ensures Selected(q.files, q.activeFile, q.explanation)
    ensures q.files == files
    ensures files == [] ==> q.activeFile == p.activeFile && q.explanation == p.explanation
  {
    if files == [] then p.(files := files)
    else p.(files := files, activeFile := Some(ActiveFileOf(files)), explanation := ExplanationOf(files))
  }

  /** `handleSubmit` with the service's `reply`. A blank description or a
      request in flight changes nothing. Otherwise the files, the error,
      the open file, the explanation and the edit instruction are cleared
      and the request is made; its files replace the list (and the
      selection effect runs on them) or its message becomes the error, and
      the loading flag is down again. */
  function Submitted(p: Panel, reply: Result<seq<CodeFile>, Thrown>): (q: Panel)
    ensures IsBlank(p.prompt) || p.isLoading ==> q == p
    ensures !(IsBlank(p.prompt) || p.isLoading) ==>
      && q.requests == p.requests + [Generate(p.prompt, p.language)]
      && !q.isLoading && q.editInstruction == ""
      && q.prompt == p.prompt && q.language == p.language && q.isEditing == p.isEditing
      && Selected(q.files, q.activeFile, q.explanation)
    ensures !(IsBlank(p.prompt) || p.isLoading) && reply.Ok? ==>
      q.files == reply.value && q.error == ""
      && (reply.value == [] ==> q.activeFile.None? && q.explanation == "")
    ensures !(IsBlank(p.prompt) || p.isLoading) && reply.Err? ==>
      q.files == [] && q.error == GeminiService.CodeProjectErrorMessage
      && q.activeFile.None? && q.explanation == ""
  {
    if IsBlank(p.prompt) || p.isLoading then p
    else
      var cleared := p.(files := [], error := "", activeFile := None, explanation := "", editInstruction := "",
                        requests := p.requests + [Generate(p.prompt, p.language)]);
      match GeminiService.GenerateCodeProject(reply)
      case Ok(files) => ShowFiles(cleared, files)
      case Err(message) => cleared.(error := message)
  }

  /** `handleEditSubmit` with the service's `reply`. A blank instruction or
      an edit in flight changes nothing. Otherwise the error is cleared and
      the current files are sent with the instruction; the reply's files
      replace the list and the instruction is cleared, or the reply's
      message becomes the error and files, selection and instruction are
      kept. */
  function Edited(p: Panel, reply: Result<seq<CodeFile>, Thrown>): (q: Panel)
    ensures IsBlank(p.editInstruction) || p.isEditing ==> q == p
    ensures !(IsBlank(p.editInstruction) || p.isEditing) ==>
      && q.requests == p.requests + [Edit(p.files, p.editInstruction, p.language)]
      && !q.isEditing
      && q.prompt == p.prompt && q.language == p.language && q.isLoading == p.isLoading
    ensures !(IsBlank(p.editInstruction) || p.isEditing) && reply.Ok? ==>
      q.files == reply.value && q.editInstruction == "" && q.error == ""
      && Selected(q.files, q.activeFile, q.explanation)
    ensures !(IsBlank(p.editInstruction) || p.isEditing) && reply.Err? ==>
      q.files == p.files && q.editInstruction == p.editInstruction
      && q.activeFile == p.activeFile && q.explanation == p.explanation
      && q.error == GeminiService.EditProjectErrorMessage
  {
    if IsBlank(p.editInstruction) || p.isEditing then p
    else
      var sent := p.(error := "", requests := p.requests + [Edit(p.files, p.editInstruction, p.language)]);
      match GeminiService.EditCodeProject(reply)
      case Ok(files) => ShowFiles(sent, files).(editInstruction := "")
      case Err(message) => sent.(error := message)
  }

  /** Neither handler ever leaves the open file or the explanation out of
      step with a non-empty file list. */
  lemma HandlersKeepSelection(p: Panel, reply: Result<seq<CodeFile>, Thrown>)
    requires Selected(p.files, p.activeFile, p.explanation)
    ensures var q := Submitted(p, reply); Selected(q.files, q.activeFile, q.explanation)
    ensures var q := Edited(p, reply); Selected(q.files, q.activeFile, q.explanation)
  {
  }

  /** The panel as an object whose handlers update its fields. */
  class Builder {
    var prompt: string
    var language: string
    var files: seq<CodeFile>
    var isLoading: bool
    var error: string
    var activeFile: Option<CodeFile>
    var explanation: string
    var editInstruction: string
    var isEditing: bool
    var requests: seq<Request>

    function State(): Panel
      reads this
    {
      Panel(prompt, language, files, isLoading, error, activeFile, explanation, editInstruction, isEditing, requests)
    }

    constructor()
      ensures State() == InitialPanel
    {
      prompt, language, files, isLoading, error := "", "compose", [], false, "";
      activeFile, explanation, editInstruction, isEditing := None, "", "", false;
      requests := [];
    }

    /** Stores a panel state in the fields. */
    method Store(q: Panel)
      modifies this
      ensures State() == q
    {
      prompt, language, files, isLoading, error := q.prompt, q.language, q.files, q.isLoading, q.error;
      activeFile, explanation, editInstruction, isEditing := q.activeFile, q.explanation, q.editInstruction, q.isEditing;
      requests := q.requests;
    }

    /** `handleSubmit`. The setters it calls are applied to a copy of the
        state, which is stored once the reply has been handled. */
    method Submit(reply: Result<seq<CodeFile>, Thrown>)
      modifies this
      ensures State() == Submitted(old(State()), reply)
    {
      if IsBlank(prompt) || isLoading {
        return;
      }
      var q := State();
      q := q.(isLoading := true, files := [], error := "", activeFile := None, explanation := "", editInstruction := "");
      q := q.(requests := q.requests + [Generate(prompt, language)]);
      var outcome := GeminiService.GenerateCodeProject(reply);
      match outcome {
        case Ok(fs) =>
          q := ShowFiles(q, fs);
        case Err(message) =>
          q := q.(error := message);
      }
      q := q.(isLoading := false);
      Store(q);
    }

    /** `handleEditSubmit`, with the setters applied to a copy of the state
        as in `Submit`. */
    method EditSubmit(reply: Result<seq<CodeFile>, Thrown>)
      modifies this
      ensures State() == Edited(old(State()), reply)
    {
      if IsBlank(editInstruction) || isEditing {
        return;
      }
      var q := State();
      q := q.(isEditing := true, error := "");
      q := q.(requests := q.requests + [Edit(files, editInstruction, language)]);
      var outcome := GeminiService.EditCodeProject(reply);
      match outcome {
        case Ok(fs) =>
          q := ShowFiles(q, fs);
          q := q.(editInstruction := "");
        case Err(message) =>
          q := q.(error := message);
      }
      q := q.(isEditing := false);
      Store(q);
    }
  }
}
