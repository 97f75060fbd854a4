/** The App component as an object: its state hooks are fields, and each event handler
    is a method that updates them in the order the handler calls its setters. Every
    method is proved to produce exactly the state the matching transition of `AppModel`
    describes, and to keep the component's invariant. */
module AppComponent {
  import opened Optional
  import opened FileValidation
  import opened AppModel

  class App {
    var selectedFile: Option<FileInfo>
    var filePreview: Option<Url>
    var useWebcam: bool
    var stream: Option<MediaStream>
    var analysis: Option<AnalysisResult>
    var error: Option<string>
    var loading: bool
    var postureType: Posture
    var pendingPostureType: Option<Posture>
    // the browser's side of the resources: the next object URL, and what was released
    var nextUrl: nat
    var revoked: seq<Url>
    var stoppedTracks: seq<TrackId>

    /** The state record these fields hold. */
    function Snapshot(): State
      reads this
    {
      State(selectedFile, filePreview, useWebcam, stream, analysis, error, loading,
            postureType, pendingPostureType, nextUrl, revoked, stoppedTracks)
    }

    /** The invariant every handler keeps (exclusivity of camera and file is not among
        them: see `StartWebcamResume`). It is a derived fact, not a precondition: the
        handlers run from any state, and each method's `Snapshot()` ensures gives the
        whole new state whether or not it holds. */
    ghost predicate Valid()
      reads this
    {
      Coherent(Snapshot())
    }

    /** The initial values of the state hooks. */
    constructor ()
      ensures Snapshot() == Initial() && Valid() && Exclusive(Snapshot())
    {
      selectedFile, filePreview, useWebcam, stream := None, None, false, None;
      analysis, error, loading := None, None, false;
      postureType, pendingPostureType := Squat, None;
      nextUrl, revoked, stoppedTracks := 0, [], [];
    }

    /** `stream.getTracks().forEach(track => track.stop())`: stops the tracks in order. */
    method StopTracks(tracks: seq<TrackId>)
      modifies this`stoppedTracks
      ensures stoppedTracks == old(stoppedTracks) + tracks
    {
      var i := 0;
      while i < |tracks|
        invariant 0 <= i <= |tracks|
        invariant stoppedTracks == old(stoppedTracks) + tracks[..i]
      {
        stoppedTracks := stoppedTracks + [tracks[i]];
        i := i + 1;
      }
      assert tracks[..i] == tracks;
    }

    /** `URL.revokeObjectURL`. */
    method RevokeObjectUrl(u: Url)
      modifies this`revoked
      ensures revoked == old(revoked) + [u]
    {
      revoked := revoked + [u];
    }

    /** `URL.createObjectURL`: a URL not handed out before. */
    method CreateObjectUrl() returns (u: Url)
      modifies this`nextUrl
      ensures u == old(nextUrl) && nextUrl == old(nextUrl) + 1
    {
      u := nextUrl;
      nextUrl := nextUrl + 1;
    }

    method StopWebcam()
      modifies this
      ensures Snapshot() == AppModel.StopWebcam(old(Snapshot()))
      ensures old(Valid()) ==> Valid()
    {
      if Valid() {
        StopWebcamKeeps(Snapshot());
      }
      if stream.Some? {
        StopTracks(stream.value.tracks);
        stream := None;
      }
      useWebcam := false;
      error := None;
      analysis := None;
    }

    method HandleFileChange(file: Option<FileInfo>)
      modifies this
      ensures Snapshot() == FileChanged(old(Snapshot()), file)
      ensures old(Valid()) ==> Valid()
    {
      if Valid() {
        FileChangedKeeps(Snapshot(), file);
      }
      error := None;
      analysis := None;
      if useWebcam {
        StopWebcam();
      }
      if file.None? {
        selectedFile := None;
        if filePreview.Some? {
          RevokeObjectUrl(filePreview.value);
        }
        filePreview := None;
        return;
      }
      var validation := ValidateFile(file);
      if !validation.isValid {
        error := validation.error;
        selectedFile := None;
        if filePreview.Some? {
          RevokeObjectUrl(filePreview.value);
        }
        filePreview := None;
        return;
      }
      selectedFile := file;
      if filePreview.Some? {
        RevokeObjectUrl(filePreview.value);
      }
      if file.value.mimeType in ImageTypes {
        var preview := CreateObjectUrl();
        filePreview := Some(preview);
      } else {
        filePreview := None;
      }
    }

    /** `startWebcam` up to its `await getUserMedia`. */
    method StartWebcamBegin()
      modifies this
      ensures Snapshot() == AppModel.StartWebcamBegin(old(Snapshot()))
      ensures old(Valid()) ==> Valid()
    {
      if Valid() {
        StartWebcamBeginKeeps(Snapshot());
      }
      error := None;
      if selectedFile.Some? {
        selectedFile := None;
        if filePreview.Some? {
          RevokeObjectUrl(filePreview.value);
          filePreview := None;
        }
        analysis := None;
      }
    }

    /** `startWebcam` once the camera has answered. */
    method StartWebcamResume(outcome: CameraOutcome)
      modifies this
      ensures Snapshot() == AppModel.StartWebcamResume(old(Snapshot()), outcome)
      ensures old(Valid()) ==> Valid()
    {
      if Valid() {
        StartWebcamResumeKeeps(Snapshot(), outcome);
      }
      match outcome {
        case Granted(mediaStream) =>
          stream := Some(mediaStream);
          useWebcam := true;
        case Unsupported =>
          error := Some(WebcamErrorMessage(UnsupportedCameraError));
        case Refused(e) =>
          error := Some(WebcamErrorMessage(e));
      }
    }

    /** The `catch` and `finally` blocks of `analyzeFrame`, run when the request settles. */
    method SettleAnalysis(response: Response)
      modifies this
      ensures Snapshot() == AppModel.SettleAnalysis(old(Snapshot()), response)
      ensures old(Valid()) ==> Valid()
    {
      match response {
        case Delivered(Some(data)) =>
          analysis := Some(data);
        case Delivered(None) =>
          error := Some(AnalysisFailureMessage(LocalFault(NoDataText)));
        case Failed(f) =>
          error := Some(AnalysisFailureMessage(f));
      }
      loading := false;
      if pendingPostureType.Some? {
        postureType := pendingPostureType.value;
        pendingPostureType := None;
      }
    }

    /** `analyzeFrame` up to its `await`: returns the request it issues, if any. */
    method AnalyzeFrame(blob: Option<Blob>, source: Source) returns (request: Option<Request>)
      modifies this
      ensures (Snapshot(), request) == BeginAnalysis(old(Snapshot()), blob, source)
      ensures old(Valid()) ==> Valid()
    {
      ghost var before := Snapshot();
      loading := true;
      error := None;
      if blob.None? || blob.value.size == 0 {
        SettleAnalysis(Failed(LocalFault(InvalidImageText)));
        request := None;
      } else {
        var name :=
          if source == FromWebcam then "webcam_frame.jpg"
          else if selectedFile.Some? && selectedFile.value.name != "" then selectedFile.value.name
          else "upload.jpg";
        assert name == PayloadName(before, source);
        request := Some(Request(name, blob.value.size, PostureField(postureType)));
      }
    }

    method CaptureFrame(refs: CaptureRefs, encoding: Encoding) returns (canvas: Option<Dims>, request: Option<Request>)
      modifies this
      ensures Capture(Snapshot(), canvas, request) == AppModel.CaptureFrame(old(Snapshot()), refs, encoding)
      ensures old(Valid()) ==> Valid()
    {
      canvas, request := None, None;
      if refs.video.None? || !refs.canvasMounted {
        error := Some(NotInitializedMessage);
        return;
      }
      var video := refs.video.value;
      if !refs.hasContext || video.readyState < 2 {
        error := Some(NotReadyMessage);
        return;
      }
      var width := if video.videoWidth != 0 then video.videoWidth else 640;
      var height := if video.videoHeight != 0 then video.videoHeight else 480;
      canvas := Some(Dims(width, height));
      match encoding {
        case DrawFault(message) =>
          error := Some(CaptureFaultPrefix + message);
        case Encoded(blob) =>
          if blob.Some? && blob.value.size > 0 {
            request := AnalyzeFrame(blob, FromWebcam);
          } else {
            error := Some(NoImageDataMessage);
          }
      }
    }

    method HandleAnalyze() returns (request: Option<Request>)
      modifies this
      ensures (Snapshot(), request) == AppModel.HandleAnalyze(old(Snapshot()))
      ensures old(Valid()) ==> Valid()
    {
      if selectedFile.None? {
        error := Some(SelectFileFirstMessage);
        return None;
      }
      var validation := ValidateFile(selectedFile);
      if !validation.isValid {
        error := validation.error;
        return None;
      }
      var f := selectedFile.value;
      request := AnalyzeFrame(Some(Blob(f.size, f.mimeType)), FromFile);
    }

    method HandlePostureChange(value: Posture)
      modifies this
      ensures Snapshot() == PostureChanged(old(Snapshot()), value)
      ensures old(Valid()) ==> Valid()
    {
      if loading {
        pendingPostureType := Some(value);
      } else {
        postureType := value;
        analysis := None;
      }
    }

    /** The cleanup of the unmount effect. */
    method Unmount()
      modifies this
      ensures Snapshot() == AppModel.Unmount(old(Snapshot()))
    {
      if stream.Some? {
        StopTracks(stream.value.tracks);
      }
      if filePreview.Some? {
        RevokeObjectUrl(filePreview.value);
      }
    }
  }

  /** A session driven through the object: select an image, submit it, change the
      posture while the request is in flight, and settle; the change waits for the
      settlement and the delivered result is shown. */
  method DeferredPostureSession(f: FileInfo, result: AnalysisResult)
    requires ValidateFile(Some(f)).isValid && f.mimeType in ImageTypes
  {
    var app := new App();
    app.HandleFileChange(Some(f));
    assert app.selectedFile == Some(f) && app.filePreview.Some?;
    var request := app.HandleAnalyze();
    assert request.Some? && app.loading && request.value.postureType == "squat";
    app.HandlePostureChange(Sitting);
    assert app.postureType == Squat && app.pendingPostureType == Some(Sitting);
    app.SettleAnalysis(Delivered(Some(result)));
    assert !app.loading && app.postureType == Sitting && app.analysis == Some(result);
    assert app.Valid();
  }

  /** The camera is asked for, an image is chosen while the permission prompt is open,
      and then the camera is granted: the object ends with the camera on and the image
      still selected and previewed. */
  method CameraRaceSession(f: FileInfo, mediaStream: MediaStream)
    requires ValidateFile(Some(f)).isValid && f.mimeType in ImageTypes
  {
    var app := new App();
    app.StartWebcamBegin();
    app.HandleFileChange(Some(f));
    app.StartWebcamResume(Granted(mediaStream));
    assert app.useWebcam && app.selectedFile == Some(f) && app.filePreview.Some?;
    assert app.Valid() && !Exclusive(app.Snapshot());
  }
}
