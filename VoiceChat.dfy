/** The live voice chat: the byte codecs around Base64 used for audio
    payloads, and the component state that the connection, camera and
    server-message handlers update. Audio, camera frames and the live
    session itself are outside the model; the handlers receive what the
    browser and the server reported. */
module VoiceChat {
  import opened Wrappers
  import opened Js
  import opened BinaryString
  import Base64

  /** `encode`: each byte becomes the character with that code, in order
      (the loop), and the binary string is Base64-encoded with `btoa`. */
  method Encode(bytes: array<byte>) returns (b64: string)
    ensures b64 == Base64.Encode(bytes[..])
  {
    var binary := FromByteArray(bytes);
    BytesRoundTrip(bytes[..]);
    b64 := Base64.Btoa(binary).value;
  }

  /** `decode`: `atob`, then a byte array of the same length filled with
      the character codes. `atob` throws on text that is not Base64,
      which is `None` here. */
  method Decode(b64: string) returns (bytes: Option<array<byte>>)
    ensures bytes.None? <==> Base64.Decode(b64).None?
    ensures bytes.Some? ==> bytes.value[..] == Base64.Decode(b64).value
  {
    var binary := Base64.Atob(b64);
    if binary.None? {
      return None;
    }
    var filled := ToByteArray(binary.value);
    return Some(filled);
  }

  /** The two codecs are inverse: decoding an encoded buffer gives a fresh
      buffer holding the same bytes. */
  method EncodeThenDecode(bytes: array<byte>) returns (back: Option<array<byte>>)
    ensures back.Some? && back.value[..] == bytes[..]
  {
    var b64 := Encode(bytes);
    Base64.RoundTrip(bytes[..]);
    back := Decode(b64);
  }

  // ---------------------------------------------------------------------
  // Transcript

  datatype Role = UserRole | ModelRole

  /** `{ role, text }` of the transcript list. */
  datatype TranscriptEntry = TranscriptEntry(role: Role, text: string)

  /** What the component reads of a live server message: the input and
      output transcription fragments, when present, and `turnComplete`. */
  datatype ServerMessage = ServerMessage(
    inputTranscription: Option<string>,
    outputTranscription: Option<string>,
    turnComplete: bool)

  /** The entries a completed turn adds: the user's words when they are not
      blank, then the model's when they are not blank. */
  function TurnEntries(fullInput: string, fullOutput: string): (entries: seq<TranscriptEntry>)
    ensures |entries| == (if IsBlank(fullInput) then 0 else 1) + (if IsBlank(fullOutput) then 0 else 1)
    ensures forall k :: 0 <= k < |entries| ==> !IsBlank(entries[k].text)
    ensures !IsBlank(fullInput) ==> entries[0] == TranscriptEntry(UserRole, fullInput)
    ensures !IsBlank(fullOutput) ==> entries[|entries| - 1] == TranscriptEntry(ModelRole, fullOutput)
  {
    (if !IsBlank(fullInput) then [TranscriptEntry(UserRole, fullInput)] else [])
    + (if !IsBlank(fullOutput) then [TranscriptEntry(ModelRole, fullOutput)] else [])
  }

  /** A fragment that may be missing, as `fragment?.text || ''`. */
  function FragmentText(fragment: Option<string>): string
  {
    fragment.GetOr("")
  }

  /** The transcript, the input buffer and the output buffer. */
  type Transcript = (seq<TranscriptEntry>, string, string)

  /** What one server message does to the transcript, given the buffer
      values the handler closed over: fragments are appended to their
      buffers; a completed turn commits the entries assembled from the
      closed-over values and this message's own fragments, and empties both
      buffers. */
  function Step(captured: (string, string), t: Transcript, m: ServerMessage): (r: Transcript)
    ensures !m.turnComplete ==>
      r == (t.0, t.1 + FragmentText(m.inputTranscription), t.2 + FragmentText(m.outputTranscription))
    ensures m.turnComplete ==>
      r.1 == "" && r.2 == ""
      && r.0 == t.0 + TurnEntries(captured.0 + FragmentText(m.inputTranscription), captured.1 + FragmentText(m.outputTranscription))
  {
    if m.turnComplete then
      (t.0 + TurnEntries(captured.0 + FragmentText(m.inputTranscription), captured.1 + FragmentText(m.outputTranscription)), "", "")
    else (t.0, t.1 + FragmentText(m.inputTranscription), t.2 + FragmentText(m.outputTranscription))
  }

  const ApiKeyMissingMessage: string := "کلید API تعریف نشده است."
  const ServiceNotReadyMessage: string := "سرویس هوش مصنوعی آماده نیست."
  const MicrophoneDeniedMessage: string := "دسترسی به میکروفون امکان‌پذیر نیست. لطفا دسترسی لازم را بدهید."
  const ConnectionErrorMessage: string := "خطا در اتصال. لطفا دوباره تلاش کنید."
  const ConnectFirstMessage: string := "لطفا ابتدا چت صوتی را شروع کنید."
  const CameraDeniedMessage: string := "امکان دسترسی به دوربین وجود ندارد. لطفا دسترسی لازم را بدهید."

  /** The component's state. `aiReady` is whether the provider client was
      created (an API key was configured). `capturedInput` and
      `capturedOutput` are the buffer values the `onmessage` handler
      closed over: those of the render in which the connection was
      started. */
  class VoiceChatState {
    const aiReady: bool
    var isConnected: bool
    var isCameraOn: bool
    var error: string
    var messages: seq<TranscriptEntry>
    var currentInput: string
    var currentOutput: string
    var capturedInput: string
    var capturedOutput: string

    /** The first render and the initialisation effect: without a key the
        error is shown at once. */
    constructor(apiKeyDefined: bool)
      ensures aiReady == apiKeyDefined
      ensures !isConnected && !isCameraOn && messages == []
      ensures currentInput == "" && currentOutput == ""
      ensures error == (if apiKeyDefined then "" else ApiKeyMissingMessage)
    {
      aiReady := apiKeyDefined;
      isConnected := false;
      isCameraOn := false;
      messages := [];
      currentInput := "";
      currentOutput := "";
      capturedInput := "";
      capturedOutput := "";
      error := if apiKeyDefined then "" else ApiKeyMissingMessage;
    }

    /** `toggleConnection`. Connected: the session is closed and both flags
        drop. Otherwise, with a client, the error, the transcript and both
        buffers are cleared and the flag is raised; `micGranted` is whether
        the microphone and the audio contexts were obtained, which decides
        whether the flag stays up. */
    method ToggleConnection(micGranted: bool)
      modifies this
      ensures old(isConnected) ==>
        !isConnected && !isCameraOn && error == old(error) && messages == old(messages)
        && currentInput == old(currentInput) && currentOutput == old(currentOutput)
        && capturedInput == old(capturedInput) && capturedOutput == old(capturedOutput)
      ensures !old(isConnected) && !aiReady ==>
        error == ServiceNotReadyMessage && !isConnected && isCameraOn == old(isCameraOn)
        && messages == old(messages) && currentInput == old(currentInput) && currentOutput == old(currentOutput)
        && capturedInput == old(capturedInput) && capturedOutput == old(capturedOutput)
      ensures !old(isConnected) && aiReady ==>
        messages == [] && currentInput == "" && currentOutput == ""
        && capturedInput == old(currentInput) && capturedOutput == old(currentOutput)
        && isCameraOn == old(isCameraOn)
        && isConnected == micGranted
        && error == (if micGranted then "" else MicrophoneDeniedMessage)
    {
      if isConnected {
        isConnected := false;
        isCameraOn := false;
        return;
      }
      if !aiReady {
        error := ServiceNotReadyMessage;
        return;
      }
      error := "";
      isConnected := true;
      messages := [];
      capturedInput := currentInput;
      capturedOutput := currentOutput;
      currentInput := "";
      currentOutput := "";
      if !micGranted {
        error := MicrophoneDeniedMessage;
        isConnected := false;
      }
    }

    /** The transcript part of `onmessage`. */
    method OnMessage(m: ServerMessage)
      modifies this
      ensures var r := Step((capturedInput, capturedOutput), (old(messages), old(currentInput), old(currentOutput)), m);
        messages == r.0 && currentInput == r.1 && currentOutput == r.2
      ensures isConnected == old(isConnected) && isCameraOn == old(isCameraOn) && error == old(error)
      ensures capturedInput == old(capturedInput) && capturedOutput == old(capturedOutput)
    {
      var input, output, entries := currentInput, currentOutput, messages;
      if m.inputTranscription.Some? {
        input := input + m.inputTranscription.value;
      }
      if m.outputTranscription.Some? {
        output := output + m.outputTranscription.value;
      }
      if m.turnComplete {
        var fullInput := capturedInput + FragmentText(m.inputTranscription);
        var fullOutput := capturedOutput + FragmentText(m.outputTranscription);
        entries := entries + TurnEntries(fullInput, fullOutput);
        input, output := "", "";
      } else {
        assert input == currentInput + FragmentText(m.inputTranscription);
        assert output == currentOutput + FragmentText(m.outputTranscription);
      }
      messages, currentInput, currentOutput := entries, input, output;
    }

    /** The session's `onerror`: the camera flag is left as it was. */
    method OnSessionError()
      modifies this
      ensures error == ConnectionErrorMessage && !isConnected && isCameraOn == old(isCameraOn)
      ensures messages == old(messages) && currentInput == old(currentInput) && currentOutput == old(currentOutput)
      ensures capturedInput == old(capturedInput) && capturedOutput == old(capturedOutput)
    {
      error := ConnectionErrorMessage;
      isConnected := false;
    }

    /** The session's `onclose`. */
    method OnSessionClose()
      modifies this
      ensures !isConnected && !isCameraOn && error == old(error)
      ensures messages == old(messages) && currentInput == old(currentInput) && currentOutput == old(currentOutput)
      ensures capturedInput == old(capturedInput) && capturedOutput == old(capturedOutput)
    {
      isConnected := false;
      isCameraOn := false;
    }

    /** `toggleCamera`: only while connected; `cameraGranted` is whether
        the browser granted the camera. */
    method ToggleCamera(cameraGranted: bool)
      modifies this
      ensures !old(isConnected) ==> error == ConnectFirstMessage && isCameraOn == old(isCameraOn)
      ensures old(isConnected) && old(isCameraOn) ==> !isCameraOn && error == old(error)
      ensures old(isConnected) && !old(isCameraOn) ==>
        isCameraOn == cameraGranted && error == (if cameraGranted then old(error) else CameraDeniedMessage)
      ensures isConnected == old(isConnected) && messages == old(messages)
      ensures currentInput == old(currentInput) && currentOutput == old(currentOutput)
      ensures capturedInput == old(capturedInput) && capturedOutput == old(capturedOutput)
    {
      if !isConnected {
        error := ConnectFirstMessage;
        return;
      }
      if isCameraOn {
        isCameraOn := false;
      } else if cameraGranted {
        isCameraOn := true;
      } else {
        error := CameraDeniedMessage;
      }
    }
  }

  /** The transcript a sequence of server messages leaves. */
  function Replay(captured: (string, string), t: Transcript, ms: seq<ServerMessage>): Transcript
    decreases |ms|
  {
    if ms == [] then t else Replay(captured, Step(captured, t, ms[0]), ms[1..])
  }

  /** One message keeps the transcript and may only add non-blank
      entries to it. */
  lemma StepAppends(captured: (string, string), t: Transcript, m: ServerMessage)
    ensures var r := Step(captured, t, m);
      && |t.0| <= |r.0| && r.0[..|t.0|] == t.0
      && forall k :: |t.0| <= k < |r.0| ==> !IsBlank(r.0[k].text)
  {
    var r := Step(captured, t, m);
    if m.turnComplete {
      var added := TurnEntries(captured.0 + FragmentText(m.inputTranscription), captured.1 + FragmentText(m.outputTranscription));
      assert r.0 == t.0 + added;
      forall k | |t.0| <= k < |r.0| ensures !IsBlank(r.0[k].text) {
        assert r.0[k] == added[k - |t.0|];
      }
    }
  }

  /** Replaying never removes an entry: the transcript only grows, and
      every entry it gains is non-blank. */
  lemma {:induction false} ReplayOnlyAppends(captured: (string, string), t: Transcript, ms: seq<ServerMessage>)
    ensures var r := Replay(captured, t, ms);
      && |t.0| <= |r.0| && r.0[..|t.0|] == t.0
      && forall k :: |t.0| <= k < |r.0| ==> !IsBlank(r.0[k].text)
    decreases |ms|
  {
    if ms != [] {
      var next := Step(captured, t, ms[0]);
      StepAppends(captured, t, ms[0]);
      ReplayOnlyAppends(captured, next, ms[1..]);
      var r := Replay(captured, next, ms[1..]);
      assert r == Replay(captured, t, ms);
      assert r.0[..|t.0|] == next.0[..|t.0|];
      forall k | |t.0| <= k < |r.0| ensures !IsBlank(r.0[k].text) {
        if k < |next.0| {
          assert r.0[k] == r.0[..|next.0|][k];
        }
      }
    }
  }

  /** The stale-closure consequence: within one turn, the committed user
      entry is the closed-over value followed by the last fragment only,
      although the buffer had accumulated every fragment. */
  lemma CommittedTurnUsesLastFragment(captured: string, first: string, last: string)
    requires !IsBlank(captured + last)
    ensures var ms := [ServerMessage(Some(first), None, false), ServerMessage(Some(last), None, true)];
      var r := Replay((captured, ""), ([], "", ""), ms);
      r.0 == [TranscriptEntry(UserRole, captured + last)] && r.1 == "" && r.2 == ""
  {
    var ms := [ServerMessage(Some(first), None, false), ServerMessage(Some(last), None, true)];
    var c := (captured, "");
    var s1 := Step(c, ([], "", ""), ms[0]);
    assert Replay(c, ([], "", ""), ms) == Replay(c, s1, ms[1..]);
    var s2 := Step(c, s1, ms[1]);
    assert Replay(c, s1, ms[1..]) == Replay(c, s2, []);
    assert FragmentText(None) == "";
    assert "" + "" == "";
  }
}
