/** `validateFile` of the App component: an ordered chain of checks on a candidate
    upload, the first failing check choosing the message. */
module FileValidation {
  import opened Optional
  import opened Strings

  /** What the component reads of a browser `File`: its name, byte size and MIME type. */
  datatype FileInfo = FileInfo(name: string, size: nat, mimeType: string)

  /** The `{ isValid, error }` record `validateFile` returns. */
  datatype Verdict = Verdict(isValid: bool, error: Option<string>)

  const MaxFileSize: nat := 50 * 1024 * 1024

  const ImageTypes: seq<string> := ["image/jpeg", "image/jpg", "image/png", "image/webp"]
  const VideoTypes: seq<string> := ["video/mp4", "video/webm", "video/ogg", "video/avi"]
  const SupportedTypes: seq<string> := ImageTypes + VideoTypes

  const NoFileMessage: string := "No file selected"
  /** The limit is rendered from the constant, in MB, as the template literal does. */
  const TooLargeMessage: string :=
    "File size too large. Maximum size is " + NatToString(MaxFileSize / (1024 * 1024)) + "MB"
  const UnsupportedTypeMessage: string :=
    "Unsupported file type. Please use JPEG, PNG, WebP images or MP4, WebM videos"
  const EmptyFileMessage: string := "File is empty"

  /** The acceptance rule stated on its own, without the order of the checks. */
  predicate Acceptable(file: Option<FileInfo>) {
    file.Some? && 0 < file.value.size <= MaxFileSize && file.value.mimeType in SupportedTypes
  }

  function ValidateFile(file: Option<FileInfo>): (v: Verdict)
    // accepted exactly when the file is acceptable, and then without a message
    ensures v.isValid <==> Acceptable(file)
    ensures v.isValid <==> v.error.None?
    // otherwise the first failing check, in source order, chooses the message
    ensures file.None? ==> v.error == Some(NoFileMessage)
    ensures file.Some? && file.value.size > MaxFileSize ==> v.error == Some(TooLargeMessage)
    ensures file.Some? && file.value.size <= MaxFileSize && file.value.mimeType !in SupportedTypes ==>
              v.error == Some(UnsupportedTypeMessage)
    ensures file.Some? && file.value.size == 0 && file.value.mimeType in SupportedTypes ==>
              v.error == Some(EmptyFileMessage)
  {
    if file.None? then Verdict(false, Some(NoFileMessage))
    else if file.value.size > MaxFileSize then Verdict(false, Some(TooLargeMessage))
    else if file.value.mimeType !in SupportedTypes then Verdict(false, Some(UnsupportedTypeMessage))
    else if file.value.size == 0 then Verdict(false, Some(EmptyFileMessage))
    else Verdict(true, None)
  }

  /** The size limit is 52428800 bytes and the message reports it as 50MB. */
  lemma TooLargeMessageReportsLimit()
    ensures MaxFileSize == 52428800
    ensures EndsWith(TooLargeMessage, "50MB")
  {
  }

  /** The type check comes before the emptiness check: an empty file of an
      unsupported type is reported for its type. */
  lemma EmptyUnsupportedFileReportsType(f: FileInfo)
    requires f.size == 0 && f.mimeType !in SupportedTypes
    ensures ValidateFile(Some(f)).error == Some(UnsupportedTypeMessage)
    ensures ValidateFile(Some(f)).error != Some(EmptyFileMessage)
  {
  }
}
