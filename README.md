# Bad-posture detection front end: the App component's orchestration logic

The App component (`frontend/src/App.jsx`) lets a user either upload an image or
video file or turn on the camera, validates the input, sends one frame to the
posture-analysis service, and reconciles the reply with posture-mode changes made
while the request was in flight. This project models that logic and proves what it
guarantees.

- `optional.dfy` — `Option`, for the state slots that hold `null` or a value.
- `strings.dfy` — decimal rendering of numbers as template literals produce it, with
  its inverse, and prefix/suffix/substring tests for stating what a message says.
- `file_validation.dfy` — `validateFile`: null, then over 50 MiB, then outside the
  eight supported MIME types, then empty; the first failing check picks the message.
- `app_model.dfy` — the component's nine state hooks as one `State` record, the
  browser's resources as opaque handles (object URLs drawn from a counter, with logs
  of the URLs revoked and the tracks stopped), one pure transition per event handler,
  and the lemmas: the invariant every handler keeps, the camera race and its
  correction, idempotence of stopping the camera, the deferred posture change, the
  submission guards, and the release of every resource on unmount.
- `app_component.dfy` — the component as a class `App` whose fields are the state
  hooks. Each handler is a method that updates the fields in the order the handler
  calls its setters. Each handler method is proved to yield exactly the state of its
  transition in `app_model.dfy`, and each except `Unmount` to keep the coherence
  invariant. The browser calls they make (stopping tracks, creating and revoking
  object URLs) are small methods that state which log they extend.

The browser is a parameter. The `getUserMedia` result is a `CameraOutcome`. The
refs and ready state `captureFrame` reads are `CaptureRefs`. What `drawImage` and
`toBlob` produce is an `Encoding`. What the awaited `axios.post` produced is a
`Response`. The two handlers that await something the user can act around are split
at that `await`, and other events may run in between:

- `startWebcam` becomes `StartWebcamBegin`, which runs up to the camera request, and
  `StartWebcamResume`, which runs once the camera has answered.
- `analyzeFrame` becomes `AnalyzeFrame`, which runs up to the request and returns the
  request it issues, and `SettleAnalysis`, which runs the `catch` and `finally` blocks
  once the reply or failure is in. A posture change made in between becomes pending.

`Run` applies a sequence of these events as the code is written. Two invariants are
stated separately. `Coherent` says the stream is held exactly while the camera is on,
a preview exists only for a selected image, and every object URL is live or revoked,
none twice. Every event handler keeps it; the unmount cleanup does not, since the
revoked preview URL is still held afterwards. `Exclusive` says the camera and an uploaded file
are never active together. The code does not keep it (see "## Findings"). `IntendedRun`
uses the corrected second half of `startWebcam`, and keeps both.

Behaviour of the code worth noting:

- A rejected file clears the previous selection and preview (`App.jsx:90-97`). It
  does not leave the input unchanged.
- `handleFileChange` clears the analysis on every call, not only when the camera was on.
- `stopWebcam` with no camera still clears the error and the analysis. It is
  idempotent, but it does not leave the state unchanged.
- `analyzeFrame` does not refuse a second submission while one is in flight. Only the
  rendering guards against it: during loading the file input and the camera buttons
  are disabled (`App.jsx:344`, `:359`, `:363`) and the Start Analysis button is not
  rendered at all (`:351`). The model claims no single-flight property.

## Model

| member | source | states |
|---|---|---|
| `Strings.NatToString` | frontend/src/App.jsx:52 | a number inside a template literal renders as a non-empty string of decimal digits with no leading zero |
| `Strings.NatToStringRoundTrip` | frontend/src/App.jsx:52 | reading the rendered digits back gives the number, so the rendering loses nothing |
| `Strings.NatToStringInjective` | frontend/src/App.jsx:261 | two numbers (sizes, HTTP statuses) render alike only when equal |
| `FileValidation.ValidateFile` | frontend/src/App.jsx:46-68 | a file is accepted exactly when it is present, 1 to 52428800 bytes, and of one of the eight supported types, and then without a message; otherwise the first failing check in the order null, too large, unsupported type, empty chooses the message |
| `FileValidation.TooLargeMessageReportsLimit` | frontend/src/App.jsx:21-53 | the limit is 52428800 bytes and the size message, built from the constant, ends in "50MB" |
| `FileValidation.EmptyUnsupportedFileReportsType` | frontend/src/App.jsx:56-65 | an empty file of an unsupported type is reported for its type, not as empty |
| `AppModel.CameraErrorText` | frontend/src/App.jsx:159-167 | the camera error's name picks the denied, no-camera or busy text; any other name gives the error's own message, or the fallback when that is empty |
| `AppModel.WebcamErrorMessage` | frontend/src/App.jsx:155-170 | every camera failure message is "Webcam error: " followed by the text the error's name chooses |
| `AppModel.DeniedMessageSaysDenied` | frontend/src/App.jsx:159-160 | the message for a permission denial contains "denied" |
| `AppModel.FailureText` | frontend/src/App.jsx:259-268 | a server error shows its non-empty `message`, else its non-empty `detail`, else "Server error (status)"; no response shows the no-response text; a local fault shows its own message |
| `AppModel.AnalysisFailureMessage` | frontend/src/App.jsx:254-270 | every analysis failure message is "Analysis failed: " followed by the text for that failure |
| `AppModel.ServerStatusRecoverable` | frontend/src/App.jsx:261 | when the server gives neither message nor detail, the HTTP status can be read back from the error message |
| `AppModel.CanvasSize` | frontend/src/App.jsx:202-204 | the canvas takes the video's frame size, 640 by 480 where the video reports 0, so it is never empty |
| `AppModel.ReleasePreview` | frontend/src/App.jsx:82-85 | revoking the preview logs its URL as revoked and clears it, changing nothing else |
| `AppModel.StopWebcam` | frontend/src/App.jsx:173-184 | afterwards there is no stream, the camera is off, error and analysis are cleared, and exactly the old stream's tracks (none without a stream) were stopped; nothing else changes |
| `AppModel.FileChanged` | frontend/src/App.jsx:70-113 | the analysis is cleared and a running camera is stopped; the file is selected exactly when it validates; the error is the validation message for a rejected file and none otherwise; a new preview URL exists exactly for a selected image; the previous preview is always revoked |
| `AppModel.DropFile` | frontend/src/App.jsx:119-126 | the selected file, its preview and the analysis are cleared, the preview's URL (if any) is logged as revoked, and nothing else changes |
| `AppModel.StartWebcamBegin` | frontend/src/App.jsx:115-126 | before the camera is asked for, the error is cleared and a selected file is dropped with its preview and the analysis; no file is selected afterwards |
| `AppModel.StartWebcamResume` | frontend/src/App.jsx:143-170 | a granted stream is stored and turns the camera on, changing nothing else; a missing camera API or a refusal sets the classified "Webcam error: " message and changes nothing else; the selection and preview are never touched |
| `AppModel.StartWebcamResumeChecked` | frontend/src/App.jsx:143-144 | corrected second half: a granted stream first drops a file selected during the wait, so afterwards the camera is on with no file; a failure behaves as written |
| `AppModel.SettleAnalysis` | frontend/src/App.jsx:254-278 | whatever the outcome, loading ends and a pending posture moves into effect and is cleared; a delivered body becomes the analysis; every failure sets an error starting with "Analysis failed: " |
| `AppModel.PayloadName` | frontend/src/App.jsx:233 | a webcam frame is named "webcam_frame.jpg"; a file with a non-empty name keeps it; a file without a name (or no file) gives "upload.jpg" |
| `AppModel.BeginAnalysis` | frontend/src/App.jsx:223-245 | a request is issued exactly when the blob is present and non-empty, carrying the payload name, its size and the current posture, with loading set and the error cleared and nothing else changed; otherwise the call settles at once as the local fault "Invalid image data" |
| `AppModel.CaptureFrame` | frontend/src/App.jsx:186-221 | a frame is submitted exactly when video and canvas are mounted, the context exists, the ready state is at least 2 and the encoded blob is non-empty; missing refs and an unready video refuse with their messages and change nothing else; once past those guards the canvas is sized to the video; a draw fault sets the capture message and an empty blob sets the no-image-data message, changing nothing else; a submitted frame is named "webcam_frame.jpg" |
| `AppModel.HandleAnalyze` | frontend/src/App.jsx:281-294 | a request is issued exactly when a file is selected and still validates, with loading set and the error cleared, carrying the file's name, size and the posture; no selection sets "Please select a file first" and a failed re-validation sets its message, both without a request and changing nothing else |
| `AppModel.PostureChanged` | frontend/src/App.jsx:296-304 | while loading only the pending posture changes; when idle the posture applies at once and the analysis is cleared |
| `AppModel.Unmount` | frontend/src/App.jsx:35-44 | the unmount cleanup stops the live stream's tracks and revokes the preview URL, if any, and does nothing else |
| `AppModel.InitialInv` | frontend/src/App.jsx:8-16 | the initial state is coherent and exclusive |
| `AppModel.ReleasePreviewAccounts` | frontend/src/App.jsx:93-95 | revoking the preview keeps every created URL accounted for, and every URL created so far is then revoked |
| `AppModel.StopWebcamKeeps` | frontend/src/App.jsx:173-184 | stopping the camera keeps coherence and exclusivity |
| `AppModel.FileChangedKeeps` | frontend/src/App.jsx:70-113 | selecting a file keeps coherence and leaves camera and file exclusive, whatever the state before |
| `AppModel.StartWebcamBeginKeeps` | frontend/src/App.jsx:115-126 | the first half of starting the camera keeps coherence and leaves no file selected |
| `AppModel.StartWebcamResumeKeeps` | frontend/src/App.jsx:143-170 | the second half of starting the camera keeps coherence, and keeps exclusivity when the camera is not granted |
| `AppModel.StartWebcamResumeCheckedKeeps` | frontend/src/App.jsx:143-144 | the corrected second half keeps coherence, and leaves camera and file exclusive when granted or when they were before |
| `AppModel.SettleAnalysisKeeps` | frontend/src/App.jsx:254-278 | settling a request keeps coherence and exclusivity |
| `AppModel.CaptureFrameKeeps` | frontend/src/App.jsx:186-221 | capturing a frame keeps coherence and exclusivity |
| `AppModel.HandleAnalyzeKeeps` | frontend/src/App.jsx:281-294 | submitting a file keeps coherence and exclusivity |
| `AppModel.PostureChangedKeeps` | frontend/src/App.jsx:296-304 | changing the posture keeps coherence and exclusivity |
| `AppModel.StepKeeps` | frontend/src/App.jsx:70-304 | every handler keeps coherence; every handler but the camera's answer keeps exclusivity; with the corrected answer every handler keeps both |
| `AppModel.RunCoherent` | frontend/src/App.jsx:70-304 | after any sequence of handler runs as written, the stream is held exactly while the camera is on, a preview implies a selected image, and every created object URL is live or revoked, none twice |
| `AppModel.IntendedRunInv` | frontend/src/App.jsx:70-304 | with the corrected second half of `startWebcam`, after any sequence of handler runs the camera and an uploaded file are never active together, and coherence holds |
| `AppModel.StartWebcamUninterrupted` | frontend/src/App.jsx:115-171 | when nothing runs while the camera is asked for, starting it keeps coherence and exclusivity |
| `AppModel.CameraRaceBreaksExclusion` | frontend/src/App.jsx:134-144 | starting the camera, choosing "a.jpg" while the prompt is open and then granting ends with the camera on and the file and its preview still selected, from states that were all coherent and exclusive; the corrected run of the same events stays exclusive |
| `AppModel.UnmountReleasesAll` | frontend/src/App.jsx:35-44 | unmounting a coherent component leaves every object URL ever created revoked, none twice, and every track of the live stream stopped |
| `AppModel.StopWebcamIdempotent` | frontend/src/App.jsx:173-184 | stopping the camera twice equals stopping it once, and with no stream no track is stopped |
| `AppModel.DeferredPostureChange` | frontend/src/App.jsx:271-304 | a posture change during a request leaves the posture and analysis as they were until settlement, then applies whatever the outcome; a delivered result is shown under the new posture |
| `AppModel.LastPendingPostureWins` | frontend/src/App.jsx:296-299 | of several posture changes during one request, the last one takes effect at settlement |
| `AppModel.IdlePostureChangeClearsAnalysis` | frontend/src/App.jsx:300-303 | an idle posture change applies the posture and drops the analysis |
| `AppModel.AnalyzeGuards` | frontend/src/App.jsx:281-294 | no request without a selected file, and every submitted file is acceptable |
| `AppModel.CameraDeniedLeavesNoInput` | frontend/src/App.jsx:115-170 | starting the camera and having it denied leaves no file and no stream, with a "Webcam error: " message that contains "denied" |
| `AppModel.OversizedFileRejected` | frontend/src/App.jsx:89-98 | an oversized file clears the selection and preview, sets the size message, and cannot then be submitted |
| `AppComponent.App.constructor` | frontend/src/App.jsx:8-16 | the hooks start empty, idle, in squat mode, and are coherent and exclusive |
| `AppComponent.App.StopTracks` | frontend/src/App.jsx:175 | stops the given tracks one by one, in order, and nothing else |
| `AppComponent.App.RevokeObjectUrl` | frontend/src/App.jsx:83 | logs the URL as revoked |
| `AppComponent.App.CreateObjectUrl` | frontend/src/App.jsx:108 | returns a URL never handed out before |
| `AppComponent.App.StopWebcam` | frontend/src/App.jsx:173-184 | updates the fields to exactly the `StopWebcam` transition and keeps coherence |
| `AppComponent.App.HandleFileChange` | frontend/src/App.jsx:70-113 | updates the fields to exactly the `FileChanged` transition and keeps coherence |
| `AppComponent.App.StartWebcamBegin` | frontend/src/App.jsx:115-126 | updates the fields to exactly the `StartWebcamBegin` transition and keeps coherence |
| `AppComponent.App.StartWebcamResume` | frontend/src/App.jsx:128-171 | updates the fields to exactly the `StartWebcamResume` transition and keeps coherence |
| `AppComponent.App.SettleAnalysis` | frontend/src/App.jsx:254-278 | updates the fields to exactly the `SettleAnalysis` transition and keeps coherence |
| `AppComponent.App.AnalyzeFrame` | frontend/src/App.jsx:223-245 | updates the fields and returns the request exactly as `BeginAnalysis` says, keeping coherence |
| `AppComponent.App.CaptureFrame` | frontend/src/App.jsx:186-221 | updates the fields, sizes the canvas and returns the request exactly as the `CaptureFrame` transition says, keeping coherence |
| `AppComponent.App.HandleAnalyze` | frontend/src/App.jsx:281-294 | updates the fields and returns the request exactly as the `HandleAnalyze` transition says, keeping coherence |
| `AppComponent.App.HandlePostureChange` | frontend/src/App.jsx:296-304 | updates the fields to exactly the `PostureChanged` transition and keeps coherence |
| `AppComponent.App.Unmount` | frontend/src/App.jsx:35-44 | releases the stream's tracks and the preview URL exactly as the `Unmount` transition says |

## Findings

| source | as written | input that shows it | evidently intended | confidence | as-written member | corrected member |
|---|---|---|---|---|---|---|
| frontend/src/App.jsx:134-144 | after `await getUserMedia` returns, `setStream` and `setUseWebcam(true)` run without looking at `selectedFile` again | start the camera; while the permission prompt is open, choose the image "a.jpg" (2048 bytes, image/jpeg), which the file input allows because `disabled={useWebcam \|\| loading}` (:344) is still false; then grant the camera. The camera ends on, with the file and its preview still selected | the camera and an uploaded file are never active together (comments at :75 and :118) | not executed | `AppModel.CameraRaceBreaksExclusion` (with `AppModel.StartWebcamResume`) | `AppModel.StartWebcamResumeChecked` (with `AppModel.IntendedRunInv`) |

## Left out

- `backend/main.py` is not part of this model. Its pose estimation and angle rules are floating-point code around foreign libraries.
- Rendering (`App.jsx:306-412`) is not modelled. The rendering is the only guard against a second submission while one is in flight: the `disabled` attributes and the Start Analysis button that is not rendered during loading (`:351`). `startWebcam` is only offered while the camera is off because the camera button's handler is `useWebcam ? stopWebcam : startWebcam` (`:359`); that button's `disabled={loading}` only blocks it during a request. The file input is disabled only while the camera flag is set or a request is loading (`:344`), neither of which holds while the permission prompt is open (see "## Findings").
- `startWebcam` called while a stream is live overwrites the stream. The handler does not stop the old tracks. The effect cleanup at `App.jsx:36-39` does: it runs when `stream` changes and stops the previous stream's tracks. The model runs that cleanup only at unmount, so in the model the old tracks stay unstopped, and no "every stream is eventually stopped" property is claimed.
- The 5-second error auto-clear (`App.jsx:27-32`) is timing behaviour and is left out.
- The 100 ms timer that attaches the stream to the `<video>` element (`App.jsx:146-154`) is left out, along with its `play()`. So is clearing `srcObject` in `stopWebcam` (`App.jsx:178-180`). These are DOM effects and hold no component state.
- The effect at `App.jsx:35-44` lists `stream` and `filePreview` as dependencies. React therefore also runs its cleanup whenever either one changes, with the previous values. The model runs it only at unmount. Three cases differ. When a handler already released the old value, the cleanup repeats that revoke or track stop. When a stream is replaced, the cleanup is the only stop of the old tracks. In the race under "## Findings", turning the camera on changes `stream`, so the cleanup revokes the preview URL that is still shown for the selected file. The model's "revoked at most once" is therefore a property of the handlers' own calls.
- React closure staleness is not modelled. Every handler here acts on one up-to-date state record. In the code, `captureFrame` is memoised with no dependencies, so it calls the first render's `analyzeFrame`. Two things follow. First, the `finally` block of a request reads the `pendingPostureType` of the render that started it, which never holds a posture chosen during that request. A posture chosen during a request is therefore not applied when that request settles. It stays pending until a file submission started after the change settles. A webcam capture's `finally` never applies it, since it reads the first render's null. Second, webcam captures read the first render's `postureType` and always post `squat`. `DeferredPostureChange` and `LastPendingPostureWins` describe the up-to-date-record model, not these stale closures.
- The `toBlob` callback inside `captureFrame` is not split from the handler. `captureFrame` runs as one step, with the encoder's result as a parameter.
- The request's transport is left out: endpoint URL, multipart encoding, headers, the 30-second timeout, and `console` logging. The model keeps what the request carries: file name, payload size and posture field.
- JPEG encoding at quality 0.8 and the pixel content of frames are left out. A captured blob is its size and type.
- Thrown values whose `message` is `undefined` are left out. There `'…: ' + error.message` would render "undefined". The model's messages are always strings.
- A reply body that is truthy but not an analysis object is left out. The model's `Delivered` carries either a structured result or nothing.
