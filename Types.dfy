/** The shared records of `types.ts`. */
module Types {
  import opened Wrappers

  /** `ChatMessage.sender`: `'user' | 'ai'`. */
  datatype Sender = User | Ai

  /** `mediaPreviews[i].type`: `'image' | 'video' | 'audio'`. */
  datatype MediaKind = Image | Video | Audio

  /** One rendered attachment of a user message. */
  datatype MediaPreview = MediaPreview(url: string, kind: MediaKind)

  /** `ChatMessage`; `mediaPreviews` is the optional property, absent when
      the message carries no attachment. */
  datatype ChatMessage = ChatMessage(sender: Sender, text: string, mediaPreviews: Option<seq<MediaPreview>>)

  /** `CodeFile`: one file of a generated project. */
  datatype CodeFile = CodeFile(name: string, content: string, language: string)

  /** A browser `File` as the app uses it: its name, its MIME type, and
      what a `FileReader` yields when reading it as a data URL. */
  datatype LocalFile = LocalFile(name: string, mimeType: string, read: ReadOutcome)

  /** The three ways `FileReader.readAsDataURL` can finish: `onload` with a
      string result, `onload` with a non-string result, or `onerror`. */
  datatype ReadOutcome = LoadedString(dataUrl: string) | LoadedNonString | ReadFailed
}
