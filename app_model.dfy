/** The App component's state record and what each of its event handlers does to it,
    as pure transitions. Browser resources are opaque handles: an object URL is a
    number drawn from a counter, and the URLs revoked and the tracks stopped are kept
    as logs, so that releasing a resource is a visible change of state. */
module AppModel {
  import opened Optional
  import opened Strings
  import opened FileValidation

  type Url = nat
  type TrackId = nat

  /** A live camera stream, as far as the component uses it: its tracks. */
  datatype MediaStream = MediaStream(id: nat, tracks: seq<TrackId>)

  /** The two values of the posture radio group. */
  datatype Posture = Squat | Sitting

  /** The `posture_type` form field sent with a frame. */
  function PostureField(p: Posture): string {
    match p
    case Squat => "squat"
    case Sitting => "sitting"
  }

  /** The analysis service's reply body. */
  datatype AnalysisResult = AnalysisResult(hasBadPosture: bool, issues: seq<string>, annotatedImage: Option<string>)

  /** An image blob handed to `analyzeFrame`. */
  datatype Blob = Blob(size: nat, mimeType: string)

  /** The `source` argument of `analyzeFrame`. */
  datatype Source = FromFile | FromWebcam

  /** The multipart request `analyzeFrame` posts: file name, payload size, posture field. */
  datatype Request = Request(fileName: string, size: nat, postureType: string)

  /** How a request can fail: the server answered with an error status (and maybe a
      `message` or `detail` field), nothing came back, or the fault was local. */
  datatype Failure =
    | ServerRejected(status: nat, message: Option<string>, detail: Option<string>)
    | NoResponse
    | LocalFault(reason: string)

  /** What the awaited `axios.post` produced: a reply (whose body may be empty) or a failure. */
  datatype Response = Delivered(data: Option<AnalysisResult>) | Failed(failure: Failure)

  /** The error `getUserMedia` rejects with: its `name` and its `message`. */
  datatype CameraError = CameraError(name: string, message: string)

  /** What asking for the camera produced: a stream, no media API in this browser, or a rejection. */
  datatype CameraOutcome = Granted(stream: MediaStream) | Unsupported | Refused(error: CameraError)

  /** The mounted `<video>` element: its ready state and its reported frame size. */
  datatype VideoElement = VideoElement(readyState: nat, videoWidth: nat, videoHeight: nat)

  /** The refs `captureFrame` reads: the video element, whether the canvas is mounted,
      and whether the canvas gave a 2-D context. */
  datatype CaptureRefs = CaptureRefs(video: Option<VideoElement>, canvasMounted: bool, hasContext: bool)

  /** What drawing and encoding the frame produced: the `toBlob` blob (maybe null), or a
      fault thrown while drawing. */
  datatype Encoding = Encoded(blob: Option<Blob>) | DrawFault(message: string)

  datatype Dims = Dims(width: nat, height: nat)

  /** The component's state. `nextUrl`, `revoked` and `stoppedTracks` stand for the
      browser's side of the resources: the next object URL it would create, and the
      URLs and tracks the component has released so far, in order. */
  datatype State = State(
    selectedFile: Option<FileInfo>,
    filePreview: Option<Url>,
    useWebcam: bool,
    stream: Option<MediaStream>,
    analysis: Option<AnalysisResult>,
    error: Option<string>,
    loading: bool,
    postureType: Posture,
    pendingPostureType: Option<Posture>,
    nextUrl: nat,
    revoked: seq<Url>,
    stoppedTracks: seq<TrackId>)

  function Initial(): State {
    State(None, None, false, None, None, None, false, Squat, None, 0, [], [])
  }

  // ---------------------------------------------------------------------------
  // The invariant the handlers keep
  // ---------------------------------------------------------------------------

  /** An uploaded file and a live camera are never active together. */
  predicate Exclusive(s: State) {
    s.useWebcam ==> s.selectedFile.None?
  }

  /** The stream is held exactly while the camera is on, and a preview exists only for a
      selected image file. */
  predicate Consistent(s: State) {
    (s.useWebcam <==> s.stream.Some?) &&
    (s.filePreview.Some? ==> s.selectedFile.Some? && s.selectedFile.value.mimeType in ImageTypes)
  }

  /** Every object URL created so far is either the live preview or has been revoked,
      never both, and none has been revoked twice. */
  predicate UrlsAccounted(s: State) {
    (forall i :: 0 <= i < |s.revoked| ==> s.revoked[i] < s.nextUrl) &&
    (forall i, j :: 0 <= i < j < |s.revoked| ==> s.revoked[i] != s.revoked[j]) &&
    (s.filePreview.Some? ==> s.filePreview.value < s.nextUrl && s.filePreview.value !in s.revoked) &&
    (forall u: Url :: u < s.nextUrl && u !in s.revoked ==> s.filePreview == Some(u))
  }

  /** What every handler keeps, including when a file is chosen while the camera
      permission prompt is open. */
  predicate Coherent(s: State) {
    Consistent(s) && UrlsAccounted(s)
  }

  /** What the component is meant to keep: coherence and exclusive inputs. */
  predicate Inv(s: State) {
    Coherent(s) && Exclusive(s)
  }

  // ---------------------------------------------------------------------------
  // Messages
  // ---------------------------------------------------------------------------

  const WebcamErrorPrefix: string := "Webcam error: "
  const CameraDeniedText: string := "Camera access " + "denied" + ". Please allow camera permissions."
  const NoCameraText: string := "No camera found. Please connect a camera."
  const CameraBusyText: string := "Camera is being used by another application."
  const CameraFallbackText: string := "Please check permissions and try again."
  /** The error thrown when the browser has no `navigator.mediaDevices.getUserMedia`. */
  const UnsupportedCameraError: CameraError := CameraError("Error", "Camera access is not supported in this browser")

  const AnalysisErrorPrefix: string := "Analysis failed: "
  const NoResponseText: string := "No response from server. Please check if the API is running."
  const InvalidImageText: string := "Invalid image data"
  const NoDataText: string := "No analysis data received"

  const NotInitializedMessage: string := "Webcam not initialized"
  const NotReadyMessage: string := "Webcam not ready. Please wait for video to load."
  const NoImageDataMessage: string := "Failed to capture frame - no image data"
  const CaptureFaultPrefix: string := "Failed to capture frame: "
  const SelectFileFirstMessage: string := "Please select a file first"

  /** JavaScript truthiness of an optional string: present and not empty. */
  predicate Truthy(o: Option<string>) {
    o.Some? && o.value != ""
  }

  /** The part of the webcam error message chosen by the error's name. */
  function CameraErrorText(e: CameraError): (t: string)
    ensures e.name == "NotAllowedError" ==> t == CameraDeniedText
    ensures e.name == "NotFoundError" ==> t == NoCameraText
    ensures e.name == "NotReadableError" ==> t == CameraBusyText
    ensures e.name !in {"NotAllowedError", "NotFoundError", "NotReadableError"} ==>
              t == (if e.message != "" then e.message else CameraFallbackText)
    ensures t != ""
  {
    if e.name == "NotAllowedError" then CameraDeniedText
    else if e.name == "NotFoundError" then NoCameraText
    else if e.name == "NotReadableError" then CameraBusyText
    else if e.message != "" then e.message
    else CameraFallbackText
  }

  function WebcamErrorMessage(e: CameraError): (m: string)
    ensures StartsWith(m, WebcamErrorPrefix)
    ensures m[|WebcamErrorPrefix|..] == CameraErrorText(e)
    ensures e.name == "NotAllowedError" ==> Contains(m, "denied")
  {
    ConcatStartsWith(WebcamErrorPrefix, CameraErrorText(e));
    DeniedMessageSaysDenied();
    WebcamErrorPrefix + CameraErrorText(e)
  }

  lemma DeniedMessageSaysDenied()
    ensures Contains(WebcamErrorPrefix + CameraDeniedText, "denied")
  {
    var m := WebcamErrorPrefix + CameraDeniedText;
    var k := |WebcamErrorPrefix| + |"Camera access "|;
    assert m[k..][..|"denied"|] == "denied";
    assert StartsWith(m[k..], "denied");
  }

  /** The part of the analysis error message chosen by how the request failed. */
  function FailureText(f: Failure): (t: string)
    ensures f.ServerRejected? && Truthy(f.message) ==> t == f.message.value
    ensures f.ServerRejected? && !Truthy(f.message) && Truthy(f.detail) ==> t == f.detail.value
    ensures f.ServerRejected? && !Truthy(f.message) && !Truthy(f.detail) ==>
              t == "Server error (" + NatToString(f.status) + ")"
    ensures f.NoResponse? ==> t == NoResponseText
    ensures f.LocalFault? ==> t == f.reason
  {
    match f
    case ServerRejected(status, message, detail) =>
      if Truthy(message) then message.value
      else if Truthy(detail) then detail.value
      else "Server error (" + NatToString(status) + ")"
    case NoResponse => NoResponseText
    case LocalFault(reason) => reason
  }

  function AnalysisFailureMessage(f: Failure): (m: string)
    ensures StartsWith(m, AnalysisErrorPrefix)
    ensures m[|AnalysisErrorPrefix|..] == FailureText(f)
  {
    ConcatStartsWith(AnalysisErrorPrefix, FailureText(f));
    AnalysisErrorPrefix + FailureText(f)
  }

  /** When the server gives neither message nor detail, the status can be read back
      from the message. */
  lemma {:induction false} ServerStatusRecoverable(f: Failure)
    requires f.ServerRejected? && !Truthy(f.message) && !Truthy(f.detail)
    ensures var m := AnalysisFailureMessage(f);
            var digits := m[|AnalysisErrorPrefix| + |"Server error ("|..|m| - 1];
            AllDigits(digits) && DigitsValue(digits) == f.status
  {
    var m := AnalysisFailureMessage(f);
    var n := NatToString(f.status);
    assert m == AnalysisErrorPrefix + "Server error (" + n + ")";
    assert m[|AnalysisErrorPrefix| + |"Server error ("|..|m| - 1] == n;
    NatToStringRoundTrip(f.status);
  }

  /** The canvas takes the video's frame size, 640 by 480 where the video reports 0. */
  function CanvasSize(v: VideoElement): (d: Dims)
    ensures d.width > 0 && d.height > 0
    ensures v.videoWidth > 0 ==> d.width == v.videoWidth
    ensures v.videoHeight > 0 ==> d.height == v.videoHeight
    ensures v.videoWidth == 0 ==> d.width == 640
    ensures v.videoHeight == 0 ==> d.height == 480
  {
    Dims(if v.videoWidth != 0 then v.videoWidth else 640,
         if v.videoHeight != 0 then v.videoHeight else 480)
  }

  // ---------------------------------------------------------------------------
  // Transitions, one per handler
  // ---------------------------------------------------------------------------

  /** Revokes the preview URL if there is one and clears it. */
  function ReleasePreview(s: State): (r: State)
    ensures r.filePreview.None?
    ensures r.revoked == s.revoked + (if s.filePreview.Some? then [s.filePreview.value] else [])
    ensures r == s.(filePreview := None, revoked := r.revoked)
  {
    if s.filePreview.Some? then s.(revoked := s.revoked + [s.filePreview.value], filePreview := None)
    else s
  }

  /** `stopWebcam`: stops every track of the stream if there is one, then turns the camera off
      and clears the error and the analysis. */
  function StopWebcam(s: State): (r: State)
    ensures r.stream.None? && !r.useWebcam && r.error.None? && r.analysis.None?
    ensures r.stoppedTracks == s.stoppedTracks + (if s.stream.Some? then s.stream.value.tracks else [])
    ensures r == s.(stream := None, useWebcam := false, error := None, analysis := None,
                    stoppedTracks := r.stoppedTracks)
  {
    var afterStop :=
      if s.stream.Some? then s.(stoppedTracks := s.stoppedTracks + s.stream.value.tracks, stream := None)
      else s;
    afterStop.(useWebcam := false, error := None, analysis := None)
  }

  /** `handleFileChange`: clears the error and the analysis, turns a running camera off,
      then takes the chosen file if it validates (previewing it only when it is an image),
      and otherwise drops the current selection, reporting why unless no file was chosen. */
  function FileChanged(s: State, file: Option<FileInfo>): (r: State)
    ensures r.analysis.None? && !r.useWebcam
    ensures r.stream == (if s.useWebcam then None else s.stream)
    ensures r.stoppedTracks == s.stoppedTracks + (if s.useWebcam && s.stream.Some? then s.stream.value.tracks else [])
    ensures r.selectedFile == (if ValidateFile(file).isValid then file else None)
    ensures r.error == (if file.Some? then ValidateFile(file).error else None)
    ensures r.filePreview.Some? <==> r.selectedFile.Some? && r.selectedFile.value.mimeType in ImageTypes
    ensures r.filePreview.Some? ==> r.filePreview == Some(s.nextUrl) && r.nextUrl == s.nextUrl + 1
    ensures r.filePreview.None? ==> r.nextUrl == s.nextUrl
    ensures r.revoked == s.revoked + (if s.filePreview.Some? then [s.filePreview.value] else [])
    ensures r.loading == s.loading && r.postureType == s.postureType
    ensures r.pendingPostureType == s.pendingPostureType
  {
    var cleared := s.(error := None, analysis := None);
    var off := if cleared.useWebcam then StopWebcam(cleared) else cleared;
    if file.None? then
      ReleasePreview(off.(selectedFile := None))
    else
      var verdict := ValidateFile(file);
      if !verdict.isValid then
        ReleasePreview(off.(error := verdict.error, selectedFile := None))
      else
        var released := ReleasePreview(off.(selectedFile := file));
        if file.value.mimeType in ImageTypes then
          released.(filePreview := Some(released.nextUrl), nextUrl := released.nextUrl + 1)
        else
          released
  }

  /** Drops the selected file with its preview (revoking it) and the analysis. */
  function DropFile(s: State): (r: State)
    ensures r.selectedFile.None? && r.filePreview.None? && r.analysis.None?
    ensures r.revoked == s.revoked + (if s.filePreview.Some? then [s.filePreview.value] else [])
    ensures r == s.(selectedFile := None, filePreview := None, analysis := None, revoked := r.revoked)
  {
    ReleasePreview(s).(selectedFile := None, analysis := None)
  }

  /** `startWebcam` up to its `await getUserMedia`: clears the error and, if a file is
      selected, drops it with its preview and the analysis. */
  function StartWebcamBegin(s: State): (r: State)
    ensures r.selectedFile.None? && r.error.None?
    ensures s.selectedFile.Some? ==> r == DropFile(s.(error := None))
    ensures s.selectedFile.None? ==> r == s.(error := None)
  {
    var cleared := s.(error := None);
    if cleared.selectedFile.Some? then DropFile(cleared) else cleared
  }

  /** `startWebcam` after the camera answered: a granted stream is stored and the camera
      turned on, without looking at the selection again; a failure sets the classified
      message and leaves the stream and the camera flag alone. */
  function StartWebcamResume(s: State, outcome: CameraOutcome): (r: State)
    ensures outcome.Granted? ==> r == s.(stream := Some(outcome.stream), useWebcam := true)
    ensures outcome.Unsupported? ==> r == s.(error := Some(WebcamErrorMessage(UnsupportedCameraError)))
    ensures outcome.Refused? ==> r == s.(error := Some(WebcamErrorMessage(outcome.error)))
    ensures r.selectedFile == s.selectedFile && r.filePreview == s.filePreview
    ensures !outcome.Granted? ==> StartsWith(r.error.value, WebcamErrorPrefix)
  {
    match outcome
    case Granted(stream) => s.(stream := Some(stream), useWebcam := true)
    case Unsupported => s.(error := Some(WebcamErrorMessage(UnsupportedCameraError)))
    case Refused(e) => s.(error := Some(WebcamErrorMessage(e)))
  }

  /** The second half of `startWebcam` as the component evidently intends it: a file
      chosen while the permission prompt was open is dropped, as the first half drops
      one, before the camera turns on. */
  function StartWebcamResumeChecked(s: State, outcome: CameraOutcome): (r: State)
    ensures outcome.Granted? ==> r.selectedFile.None? && r.stream == Some(outcome.stream) && r.useWebcam
    ensures outcome.Granted? && s.selectedFile.None? ==> r == StartWebcamResume(s, outcome)
    ensures outcome.Granted? && s.selectedFile.Some? ==> r == StartWebcamResume(DropFile(s), outcome)
    ensures !outcome.Granted? ==> r == StartWebcamResume(s, outcome)
  {
    if outcome.Granted? && s.selectedFile.Some? then StartWebcamResume(DropFile(s), outcome)
    else StartWebcamResume(s, outcome)
  }

  /** The `catch` and `finally` of `analyzeFrame`: stores the reply or the classified
      failure, ends loading, and applies a pending posture change. */
  function SettleAnalysis(s: State, response: Response): (r: State)
    ensures !r.loading && r.pendingPostureType.None?
    ensures r.postureType == (if s.pendingPostureType.Some? then s.pendingPostureType.value else s.postureType)
    ensures response.Delivered? && response.data.Some? ==>
              r.analysis == response.data && r.error == s.error
    ensures response.Delivered? && response.data.None? ==>
              r.analysis == s.analysis && r.error == Some(AnalysisFailureMessage(LocalFault(NoDataText)))
    ensures response.Failed? ==>
              r.analysis == s.analysis && r.error == Some(AnalysisFailureMessage(response.failure))
    ensures r.error != s.error ==> StartsWith(r.error.value, AnalysisErrorPrefix)
    ensures r == s.(loading := false, pendingPostureType := None, postureType := r.postureType,
                    analysis := r.analysis, error := r.error)
  {
    var caught :=
      match response
      case Delivered(Some(data)) => s.(analysis := Some(data))
      case Delivered(None) => s.(error := Some(AnalysisFailureMessage(LocalFault(NoDataText))))
      case Failed(f) => s.(error := Some(AnalysisFailureMessage(f)));
    var posture := if s.pendingPostureType.Some? then s.pendingPostureType.value else s.postureType;
    caught.(loading := false, postureType := posture, pendingPostureType := None)
  }

  /** The file name `analyzeFrame` gives the payload. */
  function PayloadName(s: State, source: Source): (name: string)
    ensures name != ""
    ensures source == FromWebcam ==> name == "webcam_frame.jpg"
    ensures source == FromFile && s.selectedFile.Some? && s.selectedFile.value.name != "" ==>
              name == s.selectedFile.value.name
    ensures source == FromFile && (s.selectedFile.None? || s.selectedFile.value.name == "") ==>
              name == "upload.jpg"
  {
    match source
    case FromWebcam => "webcam_frame.jpg"
    case FromFile =>
      if s.selectedFile.Some? && s.selectedFile.value.name != "" then s.selectedFile.value.name
      else "upload.jpg"
  }

  /** `analyzeFrame` up to its `await`: sets loading and clears the error; a missing or
      empty blob fails at once, before any request, and settles as a local fault;
      otherwise the request is issued with the current posture. */
  function BeginAnalysis(s: State, blob: Option<Blob>, source: Source): (r: (State, Option<Request>))
    ensures r.1.Some? <==> blob.Some? && blob.value.size > 0
    ensures r.1.Some? ==>
              r.0 == s.(loading := true, error := None) &&
              r.1.value == Request(PayloadName(s, source), blob.value.size, PostureField(s.postureType))
    ensures r.1.None? ==>
              r.0 == SettleAnalysis(s.(loading := true, error := None), Failed(LocalFault(InvalidImageText)))
  {
    var busy := s.(loading := true, error := None);
    if blob.None? || blob.value.size == 0 then
      (SettleAnalysis(busy, Failed(LocalFault(InvalidImageText))), None)
    else
      (busy, Some(Request(PayloadName(s, source), blob.value.size, PostureField(s.postureType))))
  }

  /** What `captureFrame` did: the state after, the size the canvas was given (if it
      got that far) and the request issued (if any). */
  datatype Capture = Capture(next: State, canvas: Option<Dims>, request: Option<Request>)

  /** `captureFrame`: refuses with a message unless the video and canvas are mounted,
      the canvas has a context and the video has a current frame (ready state at least 2);
      then sizes the canvas, and submits the encoded frame unless it is null or empty. */
  function CaptureFrame(s: State, refs: CaptureRefs, encoding: Encoding): (c: Capture)
    ensures c.request.Some? <==>
              refs.video.Some? && refs.canvasMounted && refs.hasContext && refs.video.value.readyState >= 2 &&
              encoding.Encoded? && encoding.blob.Some? && encoding.blob.value.size > 0
    ensures refs.video.None? || !refs.canvasMounted ==>
              c == Capture(s.(error := Some(NotInitializedMessage)), None, None)
    ensures refs.video.Some? && refs.canvasMounted && (!refs.hasContext || refs.video.value.readyState < 2) ==>
              c == Capture(s.(error := Some(NotReadyMessage)), None, None)
    ensures c.canvas.Some? ==> c.canvas == Some(CanvasSize(refs.video.value))
    ensures refs.video.Some? && refs.canvasMounted && refs.hasContext && refs.video.value.readyState >= 2 ==>
              c.canvas == Some(CanvasSize(refs.video.value))
    ensures c.request.Some? ==>
              (c.next, c.request) == BeginAnalysis(s, encoding.blob, FromWebcam) &&
              c.request.value.fileName == "webcam_frame.jpg"
    ensures c.request.None? && c.canvas.Some? ==>
              c.next == s.(error := Some(if encoding.DrawFault? then CaptureFaultPrefix + encoding.message
                                         else NoImageDataMessage))
  {
    if refs.video.None? || !refs.canvasMounted then
      Capture(s.(error := Some(NotInitializedMessage)), None, None)
    else if !refs.hasContext || refs.video.value.readyState < 2 then
      Capture(s.(error := Some(NotReadyMessage)), None, None)
    else
      var dims := CanvasSize(refs.video.value);
      match encoding
      case DrawFault(message) =>
        Capture(s.(error := Some(CaptureFaultPrefix + message)), Some(dims), None)
      case Encoded(blob) =>
        if blob.Some? && blob.value.size > 0 then
          var started := BeginAnalysis(s, blob, FromWebcam);
          Capture(started.0, Some(dims), started.1)
        else
          Capture(s.(error := Some(NoImageDataMessage)), Some(dims), None)
  }

  /** `handleAnalyze`: refuses without a selected file, re-validates the selection and
      refuses with the validation message, and only then starts the analysis. */
  function HandleAnalyze(s: State): (r: (State, Option<Request>))
    ensures r.1.Some? <==> s.selectedFile.Some? && ValidateFile(s.selectedFile).isValid
    ensures s.selectedFile.None? ==> r == (s.(error := Some(SelectFileFirstMessage)), None)
    ensures s.selectedFile.Some? && !ValidateFile(s.selectedFile).isValid ==>
              r == (s.(error := ValidateFile(s.selectedFile).error), None)
    ensures r.1.Some? ==>
              r.0 == s.(loading := true, error := None) &&
              r.1.value == Request(PayloadName(s, FromFile), s.selectedFile.value.size, PostureField(s.postureType))
  {
    if s.selectedFile.None? then
      (s.(error := Some(SelectFileFirstMessage)), None)
    else
      var verdict := ValidateFile(s.selectedFile);
      if !verdict.isValid then
        (s.(error := verdict.error), None)
      else
        var f := s.selectedFile.value;
        BeginAnalysis(s, Some(Blob(f.size, f.mimeType)), FromFile)
  }

  /** `handlePostureChange`: while loading only records the choice as pending (replacing
      any earlier one); otherwise applies it and drops the analysis. */
  function PostureChanged(s: State, value: Posture): (r: State)
    ensures s.loading ==> r.pendingPostureType == Some(value) && r.postureType == s.postureType &&
                          r.analysis == s.analysis
    ensures !s.loading ==> r.postureType == value && r.analysis.None? &&
                           r.pendingPostureType == s.pendingPostureType
    ensures r == s.(pendingPostureType := r.pendingPostureType, postureType := r.postureType,
                    analysis := r.analysis)
  {
    if s.loading then s.(pendingPostureType := Some(value))
    else s.(postureType := value, analysis := None)
  }

  /** The unmount cleanup: stops the stream's tracks and revokes the preview, if any. */
  function Unmount(s: State): (r: State)
    ensures r.stoppedTracks == s.stoppedTracks + (if s.stream.Some? then s.stream.value.tracks else [])
    ensures r.revoked == s.revoked + (if s.filePreview.Some? then [s.filePreview.value] else [])
    ensures r == s.(stoppedTracks := r.stoppedTracks, revoked := r.revoked)
  {
    var stopped := if s.stream.Some? then s.stoppedTracks + s.stream.value.tracks else s.stoppedTracks;
    var revoked := if s.filePreview.Some? then s.revoked + [s.filePreview.value] else s.revoked;
    s.(stoppedTracks := stopped, revoked := revoked)
  }

  // ---------------------------------------------------------------------------
  // Sequences of events
  // ---------------------------------------------------------------------------

  /** The user intents and browser completions that drive the component. `startWebcam`
      is two events, because other handlers can run while it awaits the camera. */
  datatype Event =
    | SelectFile(file: Option<FileInfo>)
    | StartCamera
    | CameraAnswered(outcome: CameraOutcome)
    | StopCamera
    | CaptureAndAnalyze(refs: CaptureRefs, encoding: Encoding)
    | Analyze
    | ChangePosture(value: Posture)
    | Settle(response: Response)

  /** One event, handled as the component's code does. */
  function Step(s: State, e: Event): State {
    match e
    case SelectFile(file) => FileChanged(s, file)
    case StartCamera => StartWebcamBegin(s)
    case CameraAnswered(outcome) => StartWebcamResume(s, outcome)
    case StopCamera => StopWebcam(s)
    case CaptureAndAnalyze(refs, encoding) => CaptureFrame(s, refs, encoding).next
    case Analyze => HandleAnalyze(s).0
    case ChangePosture(value) => PostureChanged(s, value)
    case Settle(response) => SettleAnalysis(s, response)
  }

  function Run(s: State, events: seq<Event>): State
    decreases |events|
  {
    if events == [] then s else Run(Step(s, events[0]), events[1..])
  }

  /** One event, with the camera's answer handled by the corrected second half. */
  function IntendedStep(s: State, e: Event): State {
    match e
    case CameraAnswered(outcome) => StartWebcamResumeChecked(s, outcome)
    case _ => Step(s, e)
  }

  function IntendedRun(s: State, events: seq<Event>): State
    decreases |events|
  {
    if events == [] then s else IntendedRun(IntendedStep(s, events[0]), events[1..])
  }

  // ---------------------------------------------------------------------------
  // Lemmas
  // ---------------------------------------------------------------------------

  lemma InitialInv()
    ensures Inv(Initial())
  {
  }

  /** Revoking the preview keeps every created URL accounted for. */
  lemma ReleasePreviewAccounts(s: State)
    requires UrlsAccounted(s)
    ensures UrlsAccounted(ReleasePreview(s))
    ensures forall u: Url :: u < s.nextUrl ==> u in ReleasePreview(s).revoked
  {
  }

  // Each handler keeps coherence, and keeps exclusivity where it held before.

  lemma StopWebcamKeeps(s: State)
    requires Coherent(s)
    ensures Coherent(StopWebcam(s)) && (Exclusive(s) ==> Exclusive(StopWebcam(s)))
  {
  }

  lemma FileChangedKeeps(s: State, file: Option<FileInfo>)
    requires Coherent(s)
    ensures Coherent(FileChanged(s, file)) && Exclusive(FileChanged(s, file))
  {
  }

  lemma StartWebcamBeginKeeps(s: State)
    requires Coherent(s)
    ensures Coherent(StartWebcamBegin(s)) && Exclusive(StartWebcamBegin(s))
  {
  }

  /** The second half of `startWebcam` keeps coherence, but not exclusivity: it does not
      look at a file selected during the wait. */
  lemma StartWebcamResumeKeeps(s: State, outcome: CameraOutcome)
    requires Coherent(s)
    ensures Coherent(StartWebcamResume(s, outcome))
    ensures !outcome.Granted? && Exclusive(s) ==> Exclusive(StartWebcamResume(s, outcome))
  {
  }

  lemma StartWebcamResumeCheckedKeeps(s: State, outcome: CameraOutcome)
    requires Coherent(s)
    ensures Coherent(StartWebcamResumeChecked(s, outcome))
    ensures Exclusive(s) || outcome.Granted? ==> Exclusive(StartWebcamResumeChecked(s, outcome))
  {
  }

  lemma SettleAnalysisKeeps(s: State, response: Response)
    requires Coherent(s)
    ensures Coherent(SettleAnalysis(s, response))
    ensures Exclusive(s) ==> Exclusive(SettleAnalysis(s, response))
  {
  }

  lemma CaptureFrameKeeps(s: State, refs: CaptureRefs, encoding: Encoding)
    requires Coherent(s)
    ensures Coherent(CaptureFrame(s, refs, encoding).next)
    ensures Exclusive(s) ==> Exclusive(CaptureFrame(s, refs, encoding).next)
  {
  }

  lemma HandleAnalyzeKeeps(s: State)
    requires Coherent(s)
    ensures Coherent(HandleAnalyze(s).0) && (Exclusive(s) ==> Exclusive(HandleAnalyze(s).0))
  {
  }

  lemma PostureChangedKeeps(s: State, value: Posture)
    requires Coherent(s)
    ensures Coherent(PostureChanged(s, value)) && (Exclusive(s) ==> Exclusive(PostureChanged(s, value)))
  {
  }

  lemma StepKeeps(s: State, e: Event)
    requires Coherent(s)
    ensures Coherent(Step(s, e))
    ensures Exclusive(s) && !e.CameraAnswered? ==> Exclusive(Step(s, e))
    ensures Exclusive(s) ==> Exclusive(IntendedStep(s, e)) && Coherent(IntendedStep(s, e))
  {
    match e
    case SelectFile(file) => FileChangedKeeps(s, file);
    case StartCamera => StartWebcamBeginKeeps(s);
    case CameraAnswered(outcome) =>
      StartWebcamResumeKeeps(s, outcome);
      StartWebcamResumeCheckedKeeps(s, outcome);
    case StopCamera => StopWebcamKeeps(s);
    case CaptureAndAnalyze(refs, encoding) => CaptureFrameKeeps(s, refs, encoding);
    case Analyze => HandleAnalyzeKeeps(s);
    case ChangePosture(value) => PostureChangedKeeps(s, value);
    case Settle(response) => SettleAnalysisKeeps(s, response);
  }

  /** After any sequence of events, the stream is held exactly while the camera is on, a
      preview implies a selected image, and every created object URL is live or revoked,
      none twice. */
  lemma {:induction false} RunCoherent(s: State, events: seq<Event>)
    requires Coherent(s)
    ensures Coherent(Run(s, events))
    decreases |events|
  {
    if events != [] {
      StepKeeps(s, events[0]);
      RunCoherent(Step(s, events[0]), events[1..]);
    }
  }

  /** With the corrected second half of `startWebcam`, the camera and an uploaded file are
      never active together, after any sequence of events. */
  lemma {:induction false} IntendedRunInv(s: State, events: seq<Event>)
    requires Inv(s)
    ensures Inv(IntendedRun(s, events))
    decreases |events|
  {
    if events != [] {
      StepKeeps(s, events[0]);
      IntendedRunInv(IntendedStep(s, events[0]), events[1..]);
    }
  }

  /** When nothing runs while the camera is being asked for, starting it keeps the
      camera and an uploaded file exclusive. */
  lemma StartWebcamUninterrupted(s: State, outcome: CameraOutcome)
    requires Inv(s)
    ensures Inv(StartWebcamResume(StartWebcamBegin(s), outcome))
  {
    StartWebcamBeginKeeps(s);
    StartWebcamResumeKeeps(StartWebcamBegin(s), outcome);
  }

  /** As written, choosing an image while the camera permission prompt is open (the file
      input is still enabled, since the camera flag is not yet set) ends with the camera on
      and the file and its preview still selected. Every state before the last is
      consistent and exclusive. The corrected second half drops the file instead. */
  lemma CameraRaceBreaksExclusion()
    ensures var f := FileInfo("a.jpg", 2048, "image/jpeg");
            var answer := Granted(MediaStream(0, [0]));
            var asked := StartWebcamBegin(Initial());
            var chosen := FileChanged(asked, Some(f));
            var written := StartWebcamResume(chosen, answer);
            Inv(asked) && Inv(chosen) &&
            Coherent(written) && !Exclusive(written) &&
            written.useWebcam && written.selectedFile == Some(f) && written.filePreview.Some? &&
            written == Run(Initial(), [StartCamera, SelectFile(Some(f)), CameraAnswered(answer)]) &&
            Inv(IntendedRun(Initial(), [StartCamera, SelectFile(Some(f)), CameraAnswered(answer)]))
  {
    var f := FileInfo("a.jpg", 2048, "image/jpeg");
    var answer := Granted(MediaStream(0, [0]));
    var events := [StartCamera, SelectFile(Some(f)), CameraAnswered(answer)];
    assert ValidateFile(Some(f)).isValid;
    var asked := StartWebcamBegin(Initial());
    var chosen := FileChanged(asked, Some(f));
    assert events[1..] == [SelectFile(Some(f)), CameraAnswered(answer)];
    assert events[1..][1..] == [CameraAnswered(answer)];
    calc {
      Run(Initial(), events);
      Run(asked, events[1..]);
      Run(chosen, events[1..][1..]);
      Run(StartWebcamResume(chosen, answer), []);
    }
    InitialInv();
    IntendedRunInv(Initial(), events);
  }

  /** Unmounting a consistent component releases everything: every object URL ever
      created ends up revoked, none twice, and the live stream's tracks are stopped. */
  lemma UnmountReleasesAll(s: State)
    requires Coherent(s)
    ensures var r := Unmount(s);
            (forall u: Url :: u < r.nextUrl ==> u in r.revoked) &&
            (forall i, j :: 0 <= i < j < |r.revoked| ==> r.revoked[i] != r.revoked[j]) &&
            (s.stream.Some? ==> forall t :: t in s.stream.value.tracks ==> t in r.stoppedTracks)
  {
  }

  /** Stopping the camera twice is the same as stopping it once, and stopping it when
      there is no stream stops no track. */
  lemma StopWebcamIdempotent(s: State)
    ensures StopWebcam(StopWebcam(s)) == StopWebcam(s)
    ensures s.stream.None? ==> StopWebcam(s).stoppedTracks == s.stoppedTracks
  {
  }

  /** A posture change during an analysis is deferred: the mode in effect and the analysis
      stay put until the request settles, and then the new mode applies, whatever the
      outcome; a delivered result is shown even though the mode has changed under it. */
  lemma DeferredPostureChange(s: State, value: Posture, response: Response)
    requires s.loading
    ensures var during := PostureChanged(s, value);
            during.postureType == s.postureType && during.analysis == s.analysis &&
            var after := SettleAnalysis(during, response);
            after.postureType == value && after.pendingPostureType.None? && !after.loading &&
            (response.Delivered? && response.data.Some? ==> after.analysis == response.data)
  {
  }

  /** Only the last of several posture changes during an analysis takes effect. */
  lemma {:induction false} LastPendingPostureWins(s: State, values: seq<Posture>, response: Response)
    requires s.loading && |values| > 0
    ensures var during := Run(s, ChangePostures(values));
            during.loading && during.postureType == s.postureType &&
            SettleAnalysis(during, response).postureType == values[|values| - 1]
    decreases |values|
  {
    if |values| > 1 {
      LastPendingPostureWins(PostureChanged(s, values[0]), values[1..], response);
      assert ChangePostures(values)[1..] == ChangePostures(values[1..]);
    }
  }

  function ChangePostures(values: seq<Posture>): (es: seq<Event>)
    ensures |es| == |values|
    ensures forall i :: 0 <= i < |values| ==> es[i] == ChangePosture(values[i])
  {
    seq(|values|, i requires 0 <= i < |values| => ChangePosture(values[i]))
  }

  /** A posture change while idle drops the analysis shown. */
  lemma IdlePostureChangeClearsAnalysis(s: State, value: Posture)
    requires !s.loading
    ensures PostureChanged(s, value).analysis.None?
    ensures PostureChanged(s, value).postureType == value
  {
  }

  /** Neither guard of `handleAnalyze` lets a request through, and an accepted
      submission carries the selected file's bytes. */
  lemma AnalyzeGuards(s: State)
    ensures s.selectedFile.None? ==> HandleAnalyze(s).1.None? &&
                                     HandleAnalyze(s).0.error == Some(SelectFileFirstMessage)
    ensures HandleAnalyze(s).1.Some? ==> Acceptable(s.selectedFile)
  {
  }

  /** A camera denial leaves the component without an input and with a message that
      says access was denied. */
  lemma CameraDeniedLeavesNoInput(s: State, message: string)
    requires !s.useWebcam && Consistent(s)
    ensures var r := StartWebcamResume(StartWebcamBegin(s), Refused(CameraError("NotAllowedError", message)));
            r.selectedFile.None? && r.stream.None? && !r.useWebcam &&
            r.error.Some? && StartsWith(r.error.value, WebcamErrorPrefix) && Contains(r.error.value, "denied")
  {
  }

  /** An oversized file is refused with the size message, clears the selection and
      submits nothing. */
  lemma OversizedFileRejected(s: State, f: FileInfo)
    requires f.size > MaxFileSize
    ensures var r := FileChanged(s, Some(f));
            r.selectedFile.None? && r.filePreview.None? && r.error == Some(TooLargeMessage) &&
            HandleAnalyze(r).1.None?
  {
  }
}
