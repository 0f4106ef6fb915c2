# AnalogReader core in Dafny

AnalogReader is a WinForms application that reads an analog voltmeter. It
shows a live camera picture (a USB camera index or an RTSP stream), lets the
user shoot the current frame or pick an image file, and hands the image to an
external Python script. The script finds the needle and answers with one JSON
object on standard output. This project models the core of
`AnalogReader/FormMain.cs` in two layers:

- **Analysis client** (`text.dfy`, `detection.dfy`). This is the pure part of
  `DetectNeedleWithPython`. It cleans the script's standard output with .NET
  `Trim` and a byte-order-mark strip, cuts the candidate from the first `{`
  to the last `}`, and classifies the run. The order is: an `error` field,
  then a decoded record, then a non-zero exit code, then "no JSON". It also
  fixes the annotated image path. The JSON decoder is a function parameter.
  `Path.IsPathRooted`, `Path.Combine` and `Path.GetFullPath` (which may
  throw) are function values.
- **Controller** (`staging.dfy`, `controller.dfy`). These are the parts of
  the form that change state step by step:
  - `Staging.Disk` is the file system, updated in place.
  - `Staging.ProcessImage` stages the image in a scratch file, analyses it
    and cleans up.
  - `Controller.CaptureController` holds the form's fields (`_initFlg`,
    `RTSPShow`, `RTSPBeforeShow`, `_isProcessingFrame`, the capture, the
    timer, the three buttons' `Enabled` flags and the pending reconnections)
    and one method per event handler.

  Every method states its whole new state. The handlers and the staging
  routine are proved equal to transition functions on a value snapshot
  (`Staging.Process`, `Controller.Initialized`, `Controller.Ticked`, …).
  The properties are proved about those functions.

`wrappers.dfy` holds `Option` and a `Result` whose failure case is a thrown
exception's message.

Where the design intent and the code differ, the model follows the code:

- **A zero-byte staged file stays on disk.** The size check throws before
  the delete step (`Staging.EmptyStagedFileLeft`).
- **`_initFlg` is never set back to true.** The first-frame transition
  therefore happens once per run of the program, not once per connection
  (`Controller.Ticked`). A reconnection that fails to open the device leaves
  the camera off for good. The start button then pauses a camera still
  marked live, and otherwise tries to resume a capture that is not open;
  nothing connects again (`Controller.FailedReconnectStalls`,
  `Controller.StalledIsFinal`, `Controller.StalledLiveTwoClicks`).
- **Cancelling the file dialog resumes a camera the user had paused.**
  `PauseRTSPCamera` sets `RTSPBeforeShow` for manual pauses too, so after
  the first frame a cancel resumes the live view
  (`Controller.CancelAfterPauseResumes`). Before the first frame the shoot
  button's pause sets it as well, so shooting and then cancelling the dialog
  connects the camera (`Controller.ShotThenCancelConnects`).
- **A missing or invalid poll interval does not fall back to 67 ms.** The
  parse overwrites the default with 0, the new timer refuses any interval
  below 1, and the handler's catch swallows that. The camera then opens, the
  old timer is stopped, and no frame is ever shown
  (`Controller.RefusedIntervalNeverStarts`; see Findings).

## Model

| member | source | states |
|---|---|---|
| Text.TrimStart | AnalogReader/FormMain.cs:666 | the result is a suffix of the input; what was cut is all white space; the result does not start with white space |
| Text.TrimEnd | AnalogReader/FormMain.cs:666 | the result is a prefix of the input; what was cut is all white space; the result does not end with white space |
| Text.Trim | AnalogReader/FormMain.cs:666 | the result is the slice of the input that starts right after its leading white space and has only white space after it; neither end of a non-empty result is white space |
| Text.TrimUnchanged | AnalogReader/FormMain.cs:666 | text that neither starts nor ends with white space is its own trim |
| Text.TrimEmptyIff | AnalogReader/FormMain.cs:666 | trimming gives the empty string exactly when the input is all white space |
| Text.TrimStartChar | AnalogReader/FormMain.cs:666 | the result is a suffix; every cut character is the given one; the result does not start with it |
| Text.TrimStartCharUnchanged | AnalogReader/FormMain.cs:666 | text that does not start with the character is left as it is |
| Text.IndexOf | AnalogReader/FormMain.cs:667 | -1 exactly when the character is absent, otherwise the index of its first occurrence |
| Text.LastIndexOf | AnalogReader/FormMain.cs:668 | -1 exactly when the character is absent, otherwise the index of its last occurrence |
| Text.IndexOfAt | AnalogReader/FormMain.cs:667 | a position holding the character with no earlier occurrence is the one `IndexOf` returns |
| Text.LastIndexOfAt | AnalogReader/FormMain.cs:668 | a position holding the character with no later occurrence is the one `LastIndexOf` returns |
| Detection.FaultResult | AnalogReader/FormMain.cs:748-759 | a caught exception gives confidence 0, no annotated image, and the exception's message as the error and in the detection method |
| Detection.Cleaned | AnalogReader/FormMain.cs:666 | the cleaned output is no longer than the output and does not start with a byte-order mark |
| Detection.CleanedSlice | AnalogReader/FormMain.cs:666 | the cleaned output is a slice of the output; only white space and byte-order marks precede it and only white space follows it |
| Detection.CleanedUnchanged | AnalogReader/FormMain.cs:666 | output that starts with neither white space nor a byte-order mark and does not end with white space is already clean |
| Detection.CleanedEnds | AnalogReader/FormMain.cs:666 | a non-empty cleaned output starts with no byte-order mark and ends with no white space |
| Detection.CleanSliceStep | AnalogReader/FormMain.cs:666 | stripping leading byte-order marks from a trimmed slice leaves a clean slice |
| Detection.BraceTestIff | AnalogReader/FormMain.cs:667-671 | the guard `braceStart >= 0 && braceEnd >= braceStart` holds exactly when some `{` precedes some `}` |
| Detection.BraceSpan | AnalogReader/FormMain.cs:667-673 | a candidate exists exactly when some `{` precedes some `}`; it is the span from the first `{` to the last `}`, starting with `{` and ending with `}` |
| Detection.OutermostSpanIsBraceSpan | AnalogReader/FormMain.cs:667-673 | whenever a span runs from the first `{` to the last `}`, that span is the candidate |
| Detection.ExtractJson | AnalogReader/FormMain.cs:666-673 | there is a JSON candidate exactly when the cleaned output has a `{` at or before a `}` |
| Detection.Decoded | AnalogReader/FormMain.cs:666-683 | with a JSON candidate the record is that candidate's decoding; without one there is no record |
| Detection.Fix | AnalogReader/FormMain.cs:692-696 | a null or blank path maps to itself (null to empty), a rooted path is unchanged, and a relative path is `Path.GetFullPath(Path.Combine(baseDir, p))`, the only case that can throw |
| Detection.FixIdempotent | AnalogReader/FormMain.cs:692-696 | when resolution yields rooted paths, a fixed path is blank or rooted and fixing it again changes nothing |
| Detection.ErrorWithStderr | AnalogReader/FormMain.cs:704 | the message starts with the record's `error`; it is that alone exactly when the standard error is blank, and otherwise ends with the trimmed standard error |
| Detection.Classify | AnalogReader/FormMain.cs:690-746 | confidence is positive exactly when a record without an error decoded with positive confidence and its path fix-up did not throw; there is no error message exactly when the record was processed |
| Detection.ErrorFieldWins | AnalogReader/FormMain.cs:699-708 | a record with a non-empty `error` gives confidence 0, whatever the exit code; the message is `error`, joined with the trimmed standard error when that is not blank; the annotated path is fixed |
| Detection.RecordCopied | AnalogReader/FormMain.cs:711-722 | a record without an error is copied verbatim (angle, value and confidence, with no clamping) with the fixed annotated path and no error message |
| Detection.NoRecordByExitCode | AnalogReader/FormMain.cs:724-746 | with no record, a non-zero exit code gives the trimmed standard error or the fixed fallback, and exit code 0 gives the fixed "no JSON" message; both have confidence 0 and no annotated path |
| Detection.FailureHasMessage | AnalogReader/FormMain.cs:699-746 | every unsuccessful classification that is not a caught exception carries a non-empty message |
| Detection.DetectNeedleWithPython | AnalogReader/FormMain.cs:608-764 | a missing script or image gives the corresponding exception's result; positive confidence needs the script, the image and a completed run |
| Detection.SuccessIff | AnalogReader/FormMain.cs:608-746 | the caller's test `Confidence > 0` holds exactly when the script and image exist, the script ran, and its output decoded to an error-free record with positive confidence whose path fix-up did not throw |
| Detection.StartFailureCaught | AnalogReader/FormMain.cs:748-759 | failing to start the script gives confidence 0, the exception's message and no annotated path |
| Detection.NoisyOutputExample | AnalogReader/FormMain.cs:666-673 | log text around the object and a trailing newline are cut away: `log {"v":1} end` yields `{"v":1}` |
| Detection.BraceSpanExample | AnalogReader/FormMain.cs:667-673 | the span from the first `{` to the last `}` of a concrete line |
| Detection.BareObjectExample | AnalogReader/FormMain.cs:666-673 | a bare JSON object is its own candidate |
| Detection.BlankOutputNoRecord | AnalogReader/FormMain.cs:666-688 | output that is all white space yields no record |
| Detection.ProcessErrorExample | AnalogReader/FormMain.cs:726-737 | empty output, standard error `boom` and exit code 1 give a process failure with message `boom` |
| Detection.BlankOutputNoJson | AnalogReader/FormMain.cs:739-745 | blank output with exit code 0 gives the "no JSON" result with confidence 0, whatever the standard error |
| Detection.DomainErrorExample | AnalogReader/FormMain.cs:699-708 | the script's own error object `{"error":…,"confidence":0}` gives a Python error with that message and an empty annotated path |
| Detection.ClassifyRecordExample | AnalogReader/FormMain.cs:699-708 | a decoded record with an error, no annotated path and quiet standard error gives a Python error with the record's message |
| Staging.PathCombine | AnalogReader/FormMain.cs:314 | an empty side gives the other, a rooted second part replaces the first, and otherwise the result is the first part, one separator and the second part, the separator being added exactly when the first part does not already end in one |
| Staging.SafeTempDirIsFullyQualified | AnalogReader/FormMain.cs:313-314 | combining `C:` with `temp_ai` gives `C:\temp_ai`, a fully qualified path |
| Staging.Deleted | AnalogReader/FormMain.cs:389-401 | deleting removes exactly the given file unless deleting it throws; a missing file is no error; directories and the other files' sizes are unchanged |
| Staging.TempBase | AnalogReader/FormMain.cs:317-329 | the preferred directory is used, and exists afterwards, when it exists or can be created; otherwise the system temp directory is used and nothing changes |
| Staging.Disk.constructor | AnalogReader/FormMain.cs:293-401 | the file system starts with the given files, directories and faulty paths |
| Staging.Disk.CreateDirectory | AnalogReader/FormMain.cs:319-322 | succeeds exactly when the path is writable, and then adds the directory |
| Staging.Disk.WriteAllBytes | AnalogReader/FormMain.cs:337-341 | succeeds exactly when the path is writable, and then stores the file with its size |
| Staging.Disk.Delete | AnalogReader/FormMain.cs:394 | throws only for an existing file whose deletion fails; the new file system is the deletion of the old one |
| Staging.ShownAndDeleted | AnalogReader/FormMain.cs:380-384 | showing the annotated image removes at most that file, and does remove it when its path is not blank and deleting it does not throw; directories and the sizes of the remaining files are unchanged |
| Staging.CleanUp | AnalogReader/FormMain.cs:380-401 | clean-up only removes files, never changes a size or a directory, removes the staged file unless deleting it throws, and keeps every file whose deletion throws |
| Staging.ShowPictureThenDelete | AnalogReader/FormMain.cs:421-450 | a blank or missing path changes nothing; otherwise the file is deleted whether or not it could be shown |
| Staging.Process | AnalogReader/FormMain.cs:293-417 | the run ends in the load error exactly when the image cannot be opened, and then nothing changes; otherwise at most the preferred directory is added; files whose deletion throws survive |
| Staging.ProcessImage | AnalogReader/FormMain.cs:293-417 | the new file system and the outcome are those of the whole run: open, choose the directory, write, check the size, analyse, delete the annotated and the staged file |
| Staging.StagedFileRemoved | AnalogReader/FormMain.cs:389-401 | after a run that reached the analysis, the staged file is gone exactly when deleting it does not throw |
| Staging.EmptyStagedFileLeft | AnalogReader/FormMain.cs:343-349 | an empty encoding throws before the delete step, so the zero-byte staged file stays on disk |
| Staging.OtherFilesUntouched | AnalogReader/FormMain.cs:293-417 | apart from the staged and annotated files, every file keeps its size, and at most the preferred directory is added |
| Staging.CleanUpKeeps | AnalogReader/FormMain.cs:389-401 | clean-up removes at most the staged file and the annotated image and leaves the directories alone |
| Staging.MeasuredIff | AnalogReader/FormMain.cs:353-356 | the run is a measurement exactly when the image opens, a non-empty staged copy is written and the analysis on it reports positive confidence |
| Controller.InitialConsistent | AnalogReader/FormMain.cs:15-27 | the constructed form is consistent, with `_initFlg` set and all buttons enabled |
| Controller.ParsedOrZero | AnalogReader/FormMain.cs:111-113 | `int.TryParse` leaves the parsed number, or 0 on failure |
| Controller.TimerIntervalAsWritten | AnalogReader/FormMain.cs:144-156 | the interval is one the timer accepts (at least 1) exactly when the setting is a positive number, and then it is that number |
| Controller.TimerInterval | AnalogReader/FormMain.cs:144-148 | the intended interval is at least 1, and is either the setting or the default of 67 |
| Controller.TimerIntervalsAgree | AnalogReader/FormMain.cs:144-148 | the written and intended intervals agree exactly when the setting is a positive number |
| Controller.StoppedTimer | AnalogReader/FormMain.cs:242 | `_timer?.Stop()` leaves no running timer and keeps the interval |
| Controller.StartedTimer | AnalogReader/FormMain.cs:265 | `_timer?.Start()` runs an existing timer with its interval |
| Controller.Connect | AnalogReader/FormMain.cs:94-158 | a blank address aborts; a numeric address needs positive width, height and fps; then the device must open; an open device with a missing or non-positive interval setting is refused by the timer; a connection runs at the setting |
| Controller.UrlIgnoresCameraSettings | AnalogReader/FormMain.cs:104-121 | for a stream URL the numeric camera settings do not matter |
| Controller.Initialized | AnalogReader/FormMain.cs:87-168 | a connection attempt leaves `_initFlg`, `RTSPShow` and the buttons as they were |
| Controller.InitializedEffects | AnalogReader/FormMain.cs:87-168 | a connection attempt (`Initialized`): the old capture is disposed; the new capture is open exactly when the address is not blank and the device opens; a timer runs only on a connection; a refused interval leaves the old timer stopped; a camera index stores the parsed settings; the mode flags and buttons are unchanged; consistency is kept |
| Controller.RefusedIntervalNeverStarts | AnalogReader/FormMain.cs:87-168 | with a missing or non-positive interval setting, the start button before the first frame opens the capture but leaves no running timer and `_initFlg` set, so the same click repeats the same result |
| Controller.Created | AnalogReader/FormMain.cs:104-121 | the capture opens or not with the device; only a camera index stores the parsed settings |
| Controller.FrameShown | AnalogReader/FormMain.cs:186-202 | a good frame shows the picture and leaves the capture and timer alone; the first one switches to the live view and enables all buttons; later ones change nothing else |
| Controller.Ticked | AnalogReader/FormMain.cs:175-233 | the tick does nothing when busy or without an open capture; a disposed capture throws out of the handler; the first good frame clears `_initFlg` and nothing sets it again; a read that closes the capture stops the timer and schedules exactly one reconnection; the busy flag ends as it began |
| Controller.Reconnected | AnalogReader/FormMain.cs:216-222 | running a scheduled reconnection consumes it; on a connection the capture is open and the timer runs; a refused interval leaves the capture open and the timer stopped; otherwise the timer is unchanged |
| Controller.Paused | AnalogReader/FormMain.cs:239-255 | the timer stops, the capture is kept, `RTSPShow` is cleared and `RTSPBeforeShow` set |
| Controller.Resumed | AnalogReader/FormMain.cs:260-284 | on an open capture the timer restarts, `RTSPShow` is set and `RTSPBeforeShow` cleared; otherwise nothing changes |
| Controller.PauseThenResume | AnalogReader/FormMain.cs:239-284 | pausing then resuming an open, running camera restores its timer and the live view |
| Controller.RtspClicked | AnalogReader/FormMain.cs:566-596 | pause when live, connect before the first frame, resume after it; all three buttons end enabled |
| Controller.RtspClickedTwice | AnalogReader/FormMain.cs:566-596 | two clicks on a live camera bring it back live with the same timer |
| Controller.Analysed | AnalogReader/FormMain.cs:301-384 | the outcome becomes the last analysis, the picture shows once an image opened, and nothing else changes |
| Controller.SelectClicked | AnalogReader/FormMain.cs:455-497 | only Select and RTSP are enabled afterwards; a chosen file is analysed with the live view off, and a camera that was live is paused first (a timer running before the first frame keeps running); a cancel leaves the files and the last analysis alone; consistency is kept |
| Controller.SelectCancelled | AnalogReader/FormMain.cs:478-491 | a cancelled dialog changes only the buttons when neither `RTSPShow` nor `RTSPBeforeShow` is set; otherwise, while `_initFlg` is set, it connects again from the paused, locked form, and after the first frame an open capture resumes the live view with the same timer and any other capture stays as the pause left it |
| Controller.ShotThenCancelConnects | AnalogReader/FormMain.cs:455-563 | before the first frame, a shoot click sets `RTSPBeforeShow`, so a following cancelled file dialog connects the camera and starts its timer |
| Controller.LiveSelectCancelLive | AnalogReader/FormMain.cs:455-491 | a cancelled dialog on a live, running camera brings it back live with the same timer |
| Controller.CancelAfterPauseResumes | AnalogReader/FormMain.cs:478-487 | after the first frame, cancelling the dialog after any earlier pause, manual or not, resumes the live view on an open capture |
| Controller.ShotTaken | AnalogReader/FormMain.cs:507-547 | the analysis runs exactly when the snapshot directory, the snapshot and the scratch file can be written; the scratch file is then gone exactly when deleting it does not throw |
| Controller.ShotClicked | AnalogReader/FormMain.cs:499-563 | only Select and RTSP are enabled afterwards, and the camera is paused; without a picture the files are untouched; consistency is kept |
| Controller.ShotKeepsSnapshot | AnalogReader/FormMain.cs:507-547 | a shot whose files can be written keeps the PNG snapshot, records an analysis, and removes the scratch file exactly when deleting it does not throw |
| Controller.FailedReconnectStalls | AnalogReader/FormMain.cs:208-222 | after the first frame, a reconnection that cannot open the device leaves the camera off with nothing scheduled |
| Controller.StalledIsFinal | AnalogReader/FormMain.cs:455-596 | no button brings a stalled camera back |
| Controller.StalledLiveTwoClicks | AnalogReader/FormMain.cs:566-596 | a stalled camera still marked live is paused by the first start click, and the second click resumes nothing: the capture stays closed and no timer runs |
| Controller.CaptureController.constructor | AnalogReader/FormMain.cs:15-27 | the fields start as declared: no capture or timer, 1280×1024 at 30 fps, `_initFlg` set, buttons enabled |
| Controller.CaptureController.InputLock | AnalogReader/FormMain.cs:776-781 | all three buttons are disabled and nothing else changes |
| Controller.CaptureController.InputUnLock | AnalogReader/FormMain.cs:787-792 | all three buttons are enabled and nothing else changes |
| Controller.CaptureController.InitializeRTSPCamera | AnalogReader/FormMain.cs:87-168 | the new fields are `Initialized` of the old ones, the interval being the one as written |
| Controller.CaptureController.CreateCapture | AnalogReader/FormMain.cs:104-131 | the new fields are `Created` of the old ones, and the settings check passes exactly for a stream URL or positive width, height and fps |
| Controller.CaptureController.UpdateFrame | AnalogReader/FormMain.cs:175-233 | the new fields and whether the handler throws are `Ticked` of the old ones |
| Controller.CaptureController.ShowFrame | AnalogReader/FormMain.cs:186-202 | the new fields are `FrameShown` of the old ones |
| Controller.CaptureController.ReconnectDue | AnalogReader/FormMain.cs:216-222 | the new fields are `Reconnected` of the old ones |
| Controller.CaptureController.PauseRTSPCamera | AnalogReader/FormMain.cs:239-255 | the new fields are `Paused` of the old ones |
| Controller.CaptureController.ResumeRTSPCamera | AnalogReader/FormMain.cs:260-284 | the new fields are `Resumed` of the old ones |
| Controller.CaptureController.Report | AnalogReader/FormMain.cs:301-384 | the outcome is recorded, and the picture shows once an image opened |
| Controller.CaptureController.btnRTSP_Click | AnalogReader/FormMain.cs:566-596 | the new fields are `RtspClicked` of the old ones |
| Controller.CaptureController.btnSelectImage_Click | AnalogReader/FormMain.cs:455-497 | the new fields and files are `SelectClicked` of the old ones |
| Controller.CaptureController.btnShot_Click | AnalogReader/FormMain.cs:499-563 | the new fields and files are `ShotClicked` of the old ones |

## Left out

- The Python script `PythonScript/main.py` is not part of this model. Its
  output reaches the model only as standard output, standard error and an
  exit code.
- Starting the process, reading its streams and waiting for it (lines
  633-664) are left out, because they are I/O. The run is a parameter:
  either it exited with its outputs or it failed to start with a message.
  `WaitForExit` has no timeout, so no timeout is modelled.
- JSON decoding (line 676) is a function parameter, because it is a library
  call. A decoder exception and a `null` result are both `None`.
- `Path.IsPathRooted`, `Path.Combine` and `Path.GetFullPath` are function
  values in the analysis client and for the staged file's path. This is a
  generalisation: what is proved there holds for any such functions, the
  real ones included, and `GetFullPath`'s rules (current directory,
  normalisation) are not spelled out. `Staging.PathCombine` is the Windows
  rule of `Path.Combine` under .NET 5 and later, the runtime the code needs
  since it uses `ProcessStartInfo.ArgumentList`; the model computes the
  preferred scratch directory with it.
- Doubles are opaque (finite, infinite or NaN). They are only copied and
  tested with `> 0`, which is false for NaN, as in .NET.
- Image handling is reduced to flags and sizes, because it is library I/O:
  - opening and showing images
  - SkiaSharp JPEG encoding (a size, or `None` when encoding throws)
  - the bitmap conversion of frames
  - the PNG snapshot's pixels
- Status texts, colours, message boxes, button captions and `Debug` output
  are left out, because they are UI output. The status is recorded only as
  the last analysis outcome.
- The delays (`Thread.Sleep`, `Task.Delay`) and the thread hop of the
  reconnection are left out, because they are timing and concurrency.
  - A scheduled reconnection is a counter.
  - `Controller.CaptureController.ReconnectDue` is its later run on the
    form's thread.
  - Ticks arrive only while the timer runs, which is why `UpdateFrame`
    requires a running timer.
- The clock is left out, because it is an input. The timestamp in the
  staged file name is a parameter, so two analyses within one second
  writing the same file is not modelled.
- `int.TryParse` is left out, because its rules are the platform's. Each
  setting enters already parsed as an `Option<int>`, and the address as its
  parse as a camera index.
- Reading `App.config` is left out, because it is an input. The settings are
  a constant of the controller.
- `VideoCapture.Set` for width, height and fps has no effect on the model.
  Exceptions from the `VideoCapture` constructor are not modelled.
- A capture is `Opened` or `Closed` as the device allows, and `Disposed`
  once replaced.
- `Staging.ProcessImage`: the existence check at lines 344-345 cannot fail
  in the model. A write that does not throw always leaves the file, and no
  other process removes it.
- The form-closing handler is not modelled. It is not attached to any event
  in the designer file and has no effect on the modelled state.
- TimerIntervalAsWritten: the warning the guard at lines 145-148 sets is
  not modelled, because it is a status text that line 160 or the catch at
  line 165 always overwrites.
- InitializeRTSPCamera: the old timer, once stopped and disposed, is kept as
  a stopped timer, because the field still refers to it; a later
  `_timer?.Start()` starts it again, as the WinForms timer does not check
  for disposal. The handler `UpdateFrame` stays attached to it.
- SelectClicked: each handler is one atomic step. `ShowDialog` (line 467)
  and the message boxes run a nested message loop, so timer ticks can run
  while they are open; those ticks are not modelled. Before the first frame
  the camera is not paused, so a first frame arriving while the dialog is
  open would enable all three buttons, and the shoot button would then end
  enabled, which the contract's `Buttons(false, true, true)` does not allow
  for. The same holds for `Controller.CaptureController.btnSelectImage_Click`.
- ShownAndDeleted: the annotated image the script writes is not added to
  the file system, because the script is outside the model. Only a file
  that already exists at the reported path is deleted, so the model does
  not show that the annotated image is removed after each run.
- `Controller.Resumed`: its preservation of consistency is stated only for a
  form past its first frame, which is the only state its callers invoke it
  in.

## Findings

The controller runs the interval as written, because that is what the code
does. `Controller.TimerInterval` is the intended interval; it is always one
the timer accepts, and `Controller.TimerIntervalsAgree` shows the two differ
exactly on a missing or non-positive setting.

| source | as written | input that shows it | evidently intended | confidence | as-written member | corrected member |
|---|---|---|---|---|---|---|
| AnalogReader/FormMain.cs:144-156 | `int.TryParse` overwrites the default 67 with 0 on failure, and the guard tests `cameraFrameWidth` instead of the interval | `timerInterval` missing or `0`: the interval is 0, setting `Timer.Interval` to it throws, and the catch swallows it, so the capture opens but no frame is ever shown | fall back to 67 ms when the setting is missing or not positive | not executed; follows the `int.TryParse` and `Timer.Interval` contracts | Controller.RefusedIntervalNeverStarts | Controller.TimerInterval |
