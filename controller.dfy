/** The capture controller of `FormMain`: the camera connection, the polling
    timer, the live/paused flags, the three buttons and the two analysis
    flows. Each event handler is a method of `CaptureController` that updates
    its fields; what it does is stated by a transition function on `Form`, a
    snapshot of those fields, and the properties are lemmas and contracts on
    the transition functions. Dialogs, camera reads and the configuration
    file enter as parameters. */
module Controller {
  import opened Wrappers
  import opened Text
  import opened Detection
  import opened Staging

  datatype Capture = NoCapture | Opened | Closed | Disposed

  datatype TimerState = NoTimer | Stopped(interval: int) | Running(interval: int)

  datatype Buttons = Buttons(shot: bool, select: bool, rtsp: bool)

  const AllEnabled := Buttons(true, true, true)
  const AllDisabled := Buttons(false, false, false)

  /** The configuration as `int.TryParse` sees it: `addressIndex` is the
      address parsed as a camera index, and each number is `None` when it is
      missing or does not parse. */
  datatype Settings = Settings(
    address: Option<Text>,
    addressIndex: Option<int>,
    frameWidth: Option<int>,
    frameHeight: Option<int>,
    fps: Option<int>,
    timerInterval: Option<int>)

  /** The fields the handlers read and write. `pendingReconnects` counts the
      delayed reconnections scheduled and not yet run; `lastAnalysis` is the
      outcome the status line shows after an analysis. */
  datatype Form = Form(
    capture: Capture,
    timer: TimerState,
    frameWidth: int,
    frameHeight: int,
    fps: int,
    initFlg: bool,
    rtspShow: bool,
    rtspBeforeShow: bool,
    isProcessingFrame: bool,
    buttons: Buttons,
    pendingReconnects: nat,
    pictureShown: bool,
    lastAnalysis: Option<Outcome>)

  /** The form as constructed. */
  const Initial := Form(NoCapture, NoTimer, 1280, 1024, 30, true, false, false, false, AllEnabled, 0, false, None)

  /** What holds between events: no frame is being processed, the live view
      only shows after the first frame, and from then on a timer exists. */
  predicate Consistent(f: Form) {
    && !f.isProcessingFrame
    && (f.rtspShow ==> !f.initFlg)
    && (!f.initFlg ==> f.timer != NoTimer)
  }

  /** The camera is off for good: the first frame has been shown, the capture
      is not open, the timer does not run and no reconnection is due. */
  predicate Stalled(f: Form) {
    !f.initFlg && f.capture != Opened && !f.timer.Running? && f.pendingReconnects == 0
  }

  lemma InitialConsistent()
    ensures Consistent(Initial) && Initial.initFlg && Initial.buttons == AllEnabled
  {
  }

  // ---------------------------------------------------------------- timer

  const DefaultTimerInterval: int := 67

  /** The smallest interval a WinForms timer accepts; a smaller one throws. */
  const MinTimerInterval: int := 1

  predicate Positive(o: Option<int>) {
    o.Some? && o.value > 0
  }

  /** The value `int.TryParse` leaves in its out-parameter: 0 on failure. */
  function ParsedOrZero(o: Option<int>): (r: int)
    ensures o.Some? ==> r == o.value
    ensures o.None? ==> r == 0
  {
    o.GetOr(0)
  }

  /** The poll interval as written: the default of 67 ms is overwritten by
      the parse result even when the parse fails, so a missing setting gives
      0. The interval is one the timer accepts exactly when the setting is a
      positive number, and then it is that number. */
  function TimerIntervalAsWritten(parsed: Option<int>): (r: int)
    ensures r >= MinTimerInterval <==> Positive(parsed)
    ensures Positive(parsed) ==> r == parsed.value
  {
    ParsedOrZero(parsed)
  }

  /** The poll interval as intended: the setting when it is a positive
      number, the default of 67 ms otherwise. */
  function TimerInterval(parsed: Option<int>): (r: int)
    ensures r >= MinTimerInterval
    ensures r == DefaultTimerInterval || parsed == Some(r)
  {
    if Positive(parsed) then parsed.value else DefaultTimerInterval
  }

  /** The two agree exactly when the setting is a positive number. */
  lemma TimerIntervalsAgree(parsed: Option<int>)
    ensures TimerIntervalAsWritten(parsed) == TimerInterval(parsed) <==> Positive(parsed)
  {
  }

  function StoppedTimer(t: TimerState): (r: TimerState)
    ensures !r.Running? && (t == NoTimer <==> r == NoTimer)
    ensures t != NoTimer ==> r == Stopped(t.interval)
  {
    match t
    case NoTimer => NoTimer
    case Stopped(i) => Stopped(i)
    case Running(i) => Stopped(i)
  }

  function StartedTimer(t: TimerState): (r: TimerState)
    ensures t == NoTimer <==> r == NoTimer
    ensures t != NoTimer ==> r == Running(t.interval)
  {
    match t
    case NoTimer => NoTimer
    case Stopped(i) => Running(i)
    case Running(i) => Running(i)
  }

  // ----------------------------------------------------------- connecting

  /** How a connection attempt ends. `IntervalRejected` is an open device
      whose poll interval the new timer refuses: the exception is caught and
      no timer runs. */
  datatype Connection =
    | AddressMissing
    | SettingsInvalid
    | DeviceUnavailable
    | IntervalRejected
    | Connected(interval: int)

  /** Width, height and fps all parse to positive numbers. */
  predicate SettingsValid(s: Settings) {
    Positive(s.frameWidth) && Positive(s.frameHeight) && Positive(s.fps)
  }

  /** How a connection attempt ends: a blank address aborts; a numeric
      address is a camera index and needs valid settings; any other address
      is a stream URL; then the device must open, and the timer must accept
      the interval as written. */
  function Connect(s: Settings, deviceOpens: bool): (r: Connection)
    ensures r == AddressMissing <==> IsNullOrWhiteSpace(s.address)
    ensures r == SettingsInvalid <==> !IsNullOrWhiteSpace(s.address) && s.addressIndex.Some? && !SettingsValid(s)
    ensures r == DeviceUnavailable <==>
              !IsNullOrWhiteSpace(s.address) && (s.addressIndex.Some? ==> SettingsValid(s)) && !deviceOpens
    ensures r == IntervalRejected <==>
              !IsNullOrWhiteSpace(s.address) && (s.addressIndex.Some? ==> SettingsValid(s)) && deviceOpens &&
              !Positive(s.timerInterval)
    ensures r.Connected? ==> deviceOpens && Positive(s.timerInterval) && r.interval == s.timerInterval.value
  {
    if IsNullOrWhiteSpace(s.address) then AddressMissing
    else if s.addressIndex.Some? && !SettingsValid(s) then SettingsInvalid
    else if !deviceOpens then DeviceUnavailable
    else
      var interval := TimerIntervalAsWritten(s.timerInterval);
      if interval < MinTimerInterval then IntervalRejected else Connected(interval)
  }

  /** A stream URL ignores the numeric camera settings. */
  lemma UrlIgnoresCameraSettings(s: Settings, deviceOpens: bool, w: Option<int>, h: Option<int>, fps: Option<int>)
    requires s.addressIndex.None?
    ensures Connect(s, deviceOpens) == Connect(s.(frameWidth := w, frameHeight := h, fps := fps), deviceOpens)
  {
  }

  /** `InitializeRTSPCamera`: the previous capture is disposed; a capture
      for the camera index or the URL is created (the index path first stores
      the parsed settings); once it is open the old timer is stopped and
      disposed, and a new one runs unless it refuses the interval. A disposed
      timer is kept as a stopped one: the field still refers to it. */
  function Initialized(f: Form, s: Settings, deviceOpens: bool): (r: Form)
    ensures r.initFlg == f.initFlg && r.rtspShow == f.rtspShow && r.buttons == f.buttons
  {
    var released := f.(capture := if f.capture == NoCapture then NoCapture else Disposed);
    var c := Connect(s, deviceOpens);
    if c == AddressMissing then released
    else
      var g := Created(released, s, deviceOpens);
      match c
      case Connected(interval) => g.(timer := Running(interval))
      case IntervalRejected => g.(timer := StoppedTimer(g.timer))
      case _ => g
  }

  /** The capture created for a non-blank address; a camera index first
      stores the parsed settings, zero for those that do not parse. */
  function Created(f: Form, s: Settings, deviceOpens: bool): (r: Form)
    ensures r.capture == (if deviceOpens then Opened else Closed) && r.timer == f.timer
    ensures s.addressIndex.Some? ==>
              r == f.(capture := r.capture, frameWidth := ParsedOrZero(s.frameWidth),
                      frameHeight := ParsedOrZero(s.frameHeight), fps := ParsedOrZero(s.fps))
    ensures s.addressIndex.None? ==> r == f.(capture := r.capture)
  {
    var created := if deviceOpens then Opened else Closed;
    if s.addressIndex.Some?
    then f.(capture := created, frameWidth := ParsedOrZero(s.frameWidth),
            frameHeight := ParsedOrZero(s.frameHeight), fps := ParsedOrZero(s.fps))
    else f.(capture := created)
  }

  /** What a connection attempt changes: the old capture is disposed, the new
      one is open exactly when the address is not blank and the device opens,
      a timer runs only after a connection, a refused interval leaves the old
      timer stopped, and the mode flags and buttons stay as they were. */
  lemma InitializedEffects(f: Form, s: Settings, deviceOpens: bool)
    ensures var r := Initialized(f, s, deviceOpens);
            var c := Connect(s, deviceOpens);
            && (c.Connected? ==> r.capture == Opened && r.timer == Running(c.interval))
            && (c == IntervalRejected ==> r.capture == Opened && r.timer == StoppedTimer(f.timer))
            && (!c.Connected? && c != IntervalRejected ==> r.timer == f.timer)
            && (c == AddressMissing ==> r.capture == (if f.capture == NoCapture then NoCapture else Disposed))
            && (c != AddressMissing ==> (r.capture == Opened <==> deviceOpens))
    ensures var r := Initialized(f, s, deviceOpens);
            !IsNullOrWhiteSpace(s.address) && s.addressIndex.Some? ==>
              r.frameWidth == ParsedOrZero(s.frameWidth) && r.frameHeight == ParsedOrZero(s.frameHeight) &&
              r.fps == ParsedOrZero(s.fps)
    ensures var r := Initialized(f, s, deviceOpens);
            && r.initFlg == f.initFlg && r.rtspShow == f.rtspShow && r.rtspBeforeShow == f.rtspBeforeShow
            && r.buttons == f.buttons && r.pendingReconnects == f.pendingReconnects
            && r.isProcessingFrame == f.isProcessingFrame
    ensures Consistent(f) ==> Consistent(Initialized(f, s, deviceOpens))
  {
  }

  /** With the interval missing or not positive the camera never starts:
      the device opens, but the timer refuses the interval, so no frame
      arrives and every click on the start button connects again with the
      same result. */
  lemma RefusedIntervalNeverStarts(f: Form, s: Settings)
    requires !IsNullOrWhiteSpace(s.address) && (s.addressIndex.Some? ==> SettingsValid(s))
    requires !Positive(s.timerInterval)
    requires f.initFlg && !f.rtspShow && !f.timer.Running?
    ensures var r := RtspClicked(f, s, true);
            r.capture == Opened && !r.timer.Running? && r.initFlg && !r.rtspShow
  {
  }

  // -------------------------------------------------------------- polling

  /** What one read of the capture gives: a frame, or a failure after which
      the capture still is or no longer is open. */
  datatype ReadOutcome = FrameRead | ReadFailed(stillOpen: bool)

  /** One good frame: the picture shows it, and the first one ever switches
      to the live view and unlocks the buttons. */
  function FrameShown(f: Form): (r: Form)
    ensures r.pictureShown && !r.initFlg && r.capture == f.capture && r.timer == f.timer
    ensures f.initFlg ==> r.rtspShow && r.rtspBeforeShow && r.buttons == AllEnabled
    ensures !f.initFlg ==> r == f.(pictureShown := true)
  {
    var g := f.(pictureShown := true);
    if f.initFlg then g.(buttons := AllEnabled, rtspShow := true, rtspBeforeShow := true, initFlg := false) else g
  }

  /** `UpdateFrame`, one timer tick; the flag is whether an exception leaves
      the handler (asking a disposed capture whether it is open throws, and
      that call is outside the handler's try). */
  function Ticked(f: Form, read: ReadOutcome): (r: (Form, bool))
    requires f.timer.Running?
    ensures r.0.isProcessingFrame == f.isProcessingFrame
    ensures f.isProcessingFrame || f.capture != Opened ==> r.0 == f
    ensures r.1 <==> !f.isProcessingFrame && f.capture == Disposed
    ensures f.initFlg && !r.0.initFlg <==> !f.isProcessingFrame && f.capture == Opened && read == FrameRead && f.initFlg
    ensures !f.initFlg ==>
              !r.0.initFlg && r.0.rtspShow == f.rtspShow && r.0.rtspBeforeShow == f.rtspBeforeShow &&
              r.0.buttons == f.buttons
    ensures var drop := !f.isProcessingFrame && f.capture == Opened && read == ReadFailed(false);
            && r.0.pendingReconnects == f.pendingReconnects + (if drop then 1 else 0)
            && (drop ==> r.0.timer == Stopped(f.timer.interval) && r.0.capture == Closed)
            && (!drop ==> r.0.timer == f.timer)
    ensures Consistent(f) ==> Consistent(r.0)
  {
    if f.isProcessingFrame then (f, false)
    else
      match f.capture
      case NoCapture => (f, false)
      case Disposed => (f, true)
      case Closed => (f, false)
      case Opened =>
        match read
        case FrameRead => (FrameShown(f), false)
        case ReadFailed(stillOpen) =>
          if stillOpen then (f, false)
          else (f.(capture := Closed, timer := StoppedTimer(f.timer), pendingReconnects := f.pendingReconnects + 1), false)
  }

  /** The delayed reconnection: one scheduled attempt runs the connection
      again. */
  function Reconnected(f: Form, s: Settings, deviceOpens: bool): (r: Form)
    requires f.pendingReconnects > 0
    ensures r.pendingReconnects == f.pendingReconnects - 1
    ensures r.initFlg == f.initFlg && r.rtspShow == f.rtspShow && r.buttons == f.buttons
    ensures Connect(s, deviceOpens).Connected? ==> r.capture == Opened && r.timer.Running?
    ensures Connect(s, deviceOpens) == IntervalRejected ==> r.capture == Opened && r.timer == StoppedTimer(f.timer)
    ensures !Connect(s, deviceOpens).Connected? && Connect(s, deviceOpens) != IntervalRejected ==>
              r.timer == f.timer
    ensures Consistent(f) ==> Consistent(r)
  {
    InitializedEffects(f.(pendingReconnects := f.pendingReconnects - 1), s, deviceOpens);
    Initialized(f.(pendingReconnects := f.pendingReconnects - 1), s, deviceOpens)
  }

  // ------------------------------------------------------ pause and resume

  /** `PauseRTSPCamera`: the timer stops, the capture stays as it is. */
  function Paused(f: Form): (r: Form)
    ensures !r.timer.Running? && r.capture == f.capture && !r.rtspShow && r.rtspBeforeShow
    ensures r.initFlg == f.initFlg && r.buttons == f.buttons && r.pendingReconnects == f.pendingReconnects
    ensures Consistent(f) ==> Consistent(r)
  {
    f.(timer := StoppedTimer(f.timer), rtspShow := false, rtspBeforeShow := true)
  }

  /** `ResumeRTSPCamera`: restarts the timer only on an open capture;
      otherwise nothing changes (a disposed capture throws and the exception
      is swallowed). */
  function Resumed(f: Form): (r: Form)
    ensures f.capture == Opened ==> r.timer == StartedTimer(f.timer) && r.rtspShow && !r.rtspBeforeShow
    ensures f.capture != Opened ==> r == f
    ensures r.capture == f.capture && r.initFlg == f.initFlg && r.buttons == f.buttons
    ensures Consistent(f) && !f.initFlg ==> Consistent(r)
  {
    if f.capture == Opened then f.(timer := StartedTimer(f.timer), rtspShow := true, rtspBeforeShow := false) else f
  }

  /** Pausing and then resuming an open, running camera restores the timer
      and the live view. */
  lemma PauseThenResume(f: Form)
    requires f.capture == Opened && f.timer.Running?
    ensures var r := Resumed(Paused(f));
            r.timer == f.timer && r.rtspShow && !r.rtspBeforeShow && r.capture == f.capture
  {
  }

  // --------------------------------------------------------------- buttons

  function Locked(f: Form): Form {
    f.(buttons := AllDisabled)
  }

  function Unlocked(f: Form): Form {
    f.(buttons := AllEnabled)
  }

  /** `btnRTSP_Click`: pause when live; otherwise connect before the first
      frame and resume after it; the buttons are unlocked in any case. */
  function RtspClicked(f: Form, s: Settings, deviceOpens: bool): (r: Form)
    ensures r.buttons == AllEnabled
    ensures f.rtspShow ==> r == Unlocked(Paused(f))
    ensures !f.rtspShow && f.initFlg ==> r == Unlocked(Initialized(f, s, deviceOpens))
    ensures !f.rtspShow && !f.initFlg ==> r == Unlocked(Resumed(f))
    ensures Consistent(f) ==> Consistent(r)
  {
    var g := Locked(f);
    InitializedEffects(g, s, deviceOpens);
    var h := if g.rtspShow then Paused(g) else if g.initFlg then Initialized(g, s, deviceOpens) else Resumed(g);
    Unlocked(h)
  }

  /** Clicking the button twice on a live, running camera brings it back live
      with the same timer. */
  lemma RtspClickedTwice(f: Form, s: Settings, deviceOpens: bool)
    requires f.rtspShow && !f.initFlg && f.capture == Opened && f.timer.Running?
    ensures var r := RtspClicked(RtspClicked(f, s, deviceOpens), s, deviceOpens);
            r.rtspShow && r.timer == f.timer && r.buttons == AllEnabled
  {
  }

  /** The status after an analysis; the picture shows the image once it
      could be opened. */
  function Analysed(f: Form, o: Outcome): (r: Form)
    ensures r.lastAnalysis == Some(o) && (r.pictureShown <==> f.pictureShown || o != LoadError)
    ensures r.(pictureShown := f.pictureShown, lastAnalysis := f.lastAnalysis) == f
  {
    f.(pictureShown := f.pictureShown || o != LoadError, lastAnalysis := Some(o))
  }

  /** The file dialog's answer. */
  datatype Choice = Cancelled | Chosen(path: Text)

  /** `btnSelectImage_Click`: locks the buttons, pauses a live camera, and
      either analyses the chosen file or, on cancel, returns to the camera
      when `RTSPShow` or `RTSPBeforeShow` was set (connecting again while
      `_initFlg` is set, resuming otherwise). Only Select and RTSP are
      unlocked again. */
  function SelectClicked(f: Form, d: DiskState, faults: Faults, s: Settings, choice: Choice,
                         env: StageEnv, a: Analyzer, deviceOpens: bool): (r: (Form, DiskState))
    ensures r.0.buttons == Buttons(false, true, true)
    ensures choice.Chosen? ==>
              var (d', o) := Process(d, faults, choice.path, env, a);
              && r.1 == d' && r.0.lastAnalysis == Some(o)
              && r.0.timer == (if f.rtspShow then StoppedTimer(f.timer) else f.timer)
              && !r.0.rtspShow && r.0.initFlg == f.initFlg && r.0.capture == f.capture
    ensures choice.Cancelled? ==> r.1 == d && r.0.lastAnalysis == f.lastAnalysis
    ensures f.rtspShow ==> !r.0.timer.Running? || choice.Cancelled?
    ensures !f.initFlg ==> !r.0.initFlg
    ensures Consistent(f) ==> Consistent(r.0)
  {
    var g := Locked(f);
    var g1 := if g.rtspShow then Paused(g) else g;
    InitializedEffects(g1, s, deviceOpens);
    var (g2, d2) :=
      match choice
      case Chosen(p) =>
        var (d1, o) := Process(d, faults, p, env, a);
        (Analysed(g1, o), d1)
      case Cancelled =>
        var back := if !g1.rtspBeforeShow then g1
                    else if g1.initFlg then Initialized(g1, s, deviceOpens)
                    else Resumed(g1);
        (back, d);
    (g2.(buttons := g2.buttons.(select := true, rtsp := true)), d2)
  }

  /** After the first frame, a cancelled dialog returns to the camera
      whenever it had been paused before, even by the user: after a manual
      pause, cancelling resumes the live view. */
  lemma CancelAfterPauseResumes(f: Form, d: DiskState, faults: Faults, s: Settings, env: StageEnv,
                                a: Analyzer, deviceOpens: bool)
    requires !f.rtspShow && f.rtspBeforeShow && !f.initFlg && f.capture == Opened && f.timer != NoTimer
    ensures var r := SelectClicked(f, d, faults, s, Cancelled, env, a, deviceOpens).0;
            r.rtspShow && r.timer == Running(f.timer.interval)
  {
  }

  /** The three branches of a cancelled dialog, decided by the flags: when
      neither `RTSPShow` nor `RTSPBeforeShow` is set, nothing but the buttons
      changes; otherwise, while `_initFlg` is set, it connects again from the
      paused, locked form; after the first frame, an open capture resumes
      the live view with the same timer, and any other capture stays as the
      pause left it. */
  lemma SelectCancelled(f: Form, d: DiskState, faults: Faults, s: Settings, env: StageEnv,
                        a: Analyzer, deviceOpens: bool)
    ensures var r := SelectClicked(f, d, faults, s, Cancelled, env, a, deviceOpens).0;
            !f.rtspShow && !f.rtspBeforeShow ==> r == f.(buttons := Buttons(false, true, true))
    ensures var r := SelectClicked(f, d, faults, s, Cancelled, env, a, deviceOpens).0;
            (f.rtspShow || f.rtspBeforeShow) && f.initFlg ==>
              r == Initialized(Locked(if f.rtspShow then Paused(f) else f), s, deviceOpens).(buttons := Buttons(false, true, true))
    ensures var r := SelectClicked(f, d, faults, s, Cancelled, env, a, deviceOpens).0;
            (f.rtspShow || f.rtspBeforeShow) && !f.initFlg ==>
              && r.capture == f.capture
              && (f.capture == Opened ==> r.rtspShow && r.timer == StartedTimer(f.timer))
              && (f.capture != Opened ==>
                    !r.rtspShow && r.timer == (if f.rtspShow then StoppedTimer(f.timer) else f.timer))
  {
  }

  /** Before the first frame only the shoot button sets `RTSPBeforeShow`
      (through its pause), so shooting while the camera is still off and
      then cancelling the file dialog connects the camera. */
  lemma ShotThenCancelConnects(f: Form, d: DiskState, faults: Faults, shot: Shot, s: Settings,
                               env: StageEnv, a: Analyzer)
    requires f.initFlg && !f.rtspShow && !f.rtspBeforeShow && !f.pictureShown
    requires Connect(s, true).Connected?
    ensures var (g, d1) := ShotClicked(f, d, faults, shot, env, a);
            var r := SelectClicked(g, d1, faults, s, Cancelled, env, a, true).0;
            g.rtspBeforeShow && r.capture == Opened && r.timer == Running(Connect(s, true).interval) && r.initFlg
  {
    var (g, d1) := ShotClicked(f, d, faults, shot, env, a);
    InitializedEffects(Locked(g), s, true);
  }

  /** Picking no file on a live camera brings it back live with the same
      timer. */
  lemma LiveSelectCancelLive(f: Form, d: DiskState, faults: Faults, s: Settings, env: StageEnv,
                             a: Analyzer, deviceOpens: bool)
    requires Consistent(f) && f.rtspShow && f.capture == Opened && f.timer.Running?
    ensures var r := SelectClicked(f, d, faults, s, Cancelled, env, a, deviceOpens).0;
            r.rtspShow && r.timer == f.timer && r.capture == Opened && Consistent(r)
  {
  }

  /** The frame the shoot button saves: the snapshot directory and file, the
      scratch file handed to the analysis, and the bytes of each. */
  datatype Shot = Shot(saveDir: Text, snapshotPath: Text, snapshotSize: nat, framePath: Text, frameSize: nat)

  /** The shoot flow on the file system once the picture shows a frame: the
      snapshot directory is created if needed, the PNG snapshot and the scratch
      JPEG are written (any failure ends the flow), the scratch file is
      analysed and then deleted, a failed delete being ignored. */
  function ShotTaken(d: DiskState, faults: Faults, shot: Shot, env: StageEnv, a: Analyzer)
    : (r: (DiskState, Option<Outcome>))
    ensures r.1.Some? <==>
              (shot.saveDir in d.dirs || shot.saveDir !in faults.unwritable) &&
              shot.snapshotPath !in faults.unwritable && shot.framePath !in faults.unwritable
    ensures r.1.Some? ==> (shot.framePath !in r.0.files <==> shot.framePath !in faults.undeletable)
  {
    if shot.saveDir !in d.dirs && shot.saveDir in faults.unwritable then (d, None)
    else if shot.snapshotPath in faults.unwritable then (SnapshotDir(d, shot), None)
    else if shot.framePath in faults.unwritable then
      var d1 := SnapshotDir(d, shot);
      (d1.(files := d1.files[shot.snapshotPath := shot.snapshotSize]), None)
    else
      var (d4, o) := Process(ShotWritten(d, shot), faults, shot.framePath, env, a);
      (Deleted(d4, faults, shot.framePath), Some(o))
  }

  /** The snapshot directory, created when missing. */
  function SnapshotDir(d: DiskState, shot: Shot): DiskState {
    if shot.saveDir in d.dirs then d else d.(dirs := d.dirs + {shot.saveDir})
  }

  /** The file system once the snapshot and the scratch file are written. */
  function ShotWritten(d: DiskState, shot: Shot): DiskState {
    var d1 := SnapshotDir(d, shot);
    d1.(files := d1.files[shot.snapshotPath := shot.snapshotSize][shot.framePath := shot.frameSize])
  }

  /** `btnShot_Click`: locks the buttons and pauses the camera; when the
      picture shows a frame it is saved and analysed. Only Select and RTSP
      are unlocked again. */
  function ShotClicked(f: Form, d: DiskState, faults: Faults, shot: Shot, env: StageEnv, a: Analyzer)
    : (r: (Form, DiskState))
    ensures r.0.buttons == Buttons(false, true, true)
    ensures !r.0.timer.Running? && !r.0.rtspShow && r.0.rtspBeforeShow && r.0.capture == f.capture
    ensures r.0.initFlg == f.initFlg && r.0.pendingReconnects == f.pendingReconnects
    ensures !f.pictureShown ==> r.1 == d && r.0.lastAnalysis == f.lastAnalysis
    ensures Consistent(f) ==> Consistent(r.0)
  {
    var g := Paused(Locked(f));
    var (d1, o) := if g.pictureShown then ShotTaken(d, faults, shot, env, a) else (d, None);
    var g1 := if o.Some? then Analysed(g, o.value) else g;
    (g1.(buttons := g1.buttons.(select := true, rtsp := true)), d1)
  }

  /** A shot whose files could be written leaves the PNG snapshot, as long
      as the analysis did not delete it as its own staged or annotated file,
      and no scratch file unless deleting that throws. */
  lemma ShotKeepsSnapshot(f: Form, d: DiskState, faults: Faults, shot: Shot, env: StageEnv, a: Analyzer)
    requires f.pictureShown && shot.snapshotPath != shot.framePath
    requires (shot.saveDir in d.dirs || shot.saveDir !in faults.unwritable)
    requires shot.snapshotPath !in faults.unwritable && shot.framePath !in faults.unwritable
    requires var staged := StagedPath(ShotWritten(d, shot), faults, env, a.paths);
             shot.snapshotPath != staged &&
             Some(shot.snapshotPath) != DetectNeedleWithPython(staged, true, a).annotatedImagePath
    ensures var (r, d') := ShotClicked(f, d, faults, shot, env, a);
            && shot.snapshotPath in d'.files && r.lastAnalysis.Some?
            && (shot.framePath !in d'.files <==> shot.framePath !in faults.undeletable)
  {
    var d3 := ShotWritten(d, shot);
    OtherFilesUntouched(d3, faults, shot.framePath, env, a, shot.snapshotPath);
    var (d4, o) := Process(d3, faults, shot.framePath, env, a);
    assert ShotTaken(d, faults, shot, env, a) == (Deleted(d4, faults, shot.framePath), Some(o));
  }

  // ------------------------------------------------- a camera that stays off

  /** A reconnection that cannot open the device leaves the camera off for
      good once the first frame has been shown. */
  lemma FailedReconnectStalls(f: Form, s: Settings)
    requires f.pendingReconnects == 1 && !f.initFlg && !f.timer.Running?
    ensures Stalled(Reconnected(f, s, false))
  {
  }

  /** No event brings a stalled camera back: the start button pauses a
      camera still marked live (`RTSPShow` survives the drop) and otherwise
      tries to resume a capture that is not open; nothing connects again. */
  lemma StalledIsFinal(f: Form, d: DiskState, faults: Faults, s: Settings, choice: Choice, shot: Shot,
                       env: StageEnv, a: Analyzer, deviceOpens: bool)
    requires Stalled(f)
    ensures Stalled(RtspClicked(f, s, deviceOpens))
    ensures Stalled(SelectClicked(f, d, faults, s, choice, env, a, deviceOpens).0)
    ensures Stalled(ShotClicked(f, d, faults, shot, env, a).0)
  {
  }

  /** The usual stall keeps `RTSPShow`: the first start click on it pauses,
      and the second finds no open capture to resume, so the camera stays off
      and neither click connects. */
  lemma StalledLiveTwoClicks(f: Form, s: Settings, deviceOpens: bool)
    requires Stalled(f) && f.rtspShow
    ensures var g := RtspClicked(f, s, deviceOpens);
            g == Unlocked(Paused(f)) && !g.rtspShow && g.rtspBeforeShow &&
            var h := RtspClicked(g, s, deviceOpens);
            h.capture == f.capture && !h.timer.Running? && !h.rtspShow
  {
  }

  // ------------------------------------------------------------ the class

  /** The form's fields and handlers. */
  class CaptureController {
    const settings: Settings
    const disk: Disk
    var capture: Capture
    var timer: TimerState
    var frameWidth: int
    var frameHeight: int
    var fps: int
    var initFlg: bool
    var rtspShow: bool
    var rtspBeforeShow: bool
    var isProcessingFrame: bool
    var shotEnabled: bool
    var selectEnabled: bool
    var rtspEnabled: bool
    var pendingReconnects: nat
    var pictureShown: bool
    var lastAnalysis: Option<Outcome>

    function State(): Form
      reads this
    {
      Form(capture, timer, frameWidth, frameHeight, fps, initFlg, rtspShow, rtspBeforeShow, isProcessingFrame,
           Buttons(shotEnabled, selectEnabled, rtspEnabled), pendingReconnects, pictureShown, lastAnalysis)
    }

    constructor (settings: Settings, disk: Disk)
      ensures State() == Initial && this.settings == settings && this.disk == disk
    {
      this.settings := settings;
      this.disk := disk;
      capture := NoCapture;
      timer := NoTimer;
      frameWidth, frameHeight, fps := 1280, 1024, 30;
      initFlg := true;
      rtspShow, rtspBeforeShow, isProcessingFrame := false, false, false;
      shotEnabled, selectEnabled, rtspEnabled := true, true, true;
      pendingReconnects := 0;
      pictureShown := false;
      lastAnalysis := None;
    }

    method InputLock()
      modifies this
      ensures State() == Locked(old(State()))
    {
      shotEnabled, selectEnabled, rtspEnabled := false, false, false;
    }

    method InputUnLock()
      modifies this
      ensures State() == Unlocked(old(State()))
    {
      shotEnabled, selectEnabled, rtspEnabled := true, true, true;
    }

    method InitializeRTSPCamera(deviceOpens: bool)
      modifies this
      ensures State() == Initialized(old(State()), settings, deviceOpens)
    {
      if capture != NoCapture {
        capture := Disposed;
      }
      if IsNullOrWhiteSpace(settings.address) {
        return;
      }
      var ok := CreateCapture(deviceOpens);
      if !ok || capture != Opened {
        return;
      }
      var interval := TimerIntervalAsWritten(settings.timerInterval);
      timer := StoppedTimer(timer);
      if interval < MinTimerInterval {
        // setting `Timer.Interval` throws; the handler's catch only reports it
        return;
      }
      timer := Running(interval);
    }

    /** The capture for a non-blank address; a camera index first stores the
        parsed settings, and `ok` says whether all three are positive. */
    method CreateCapture(deviceOpens: bool) returns (ok: bool)
      modifies this
      ensures State() == Created(old(State()), settings, deviceOpens)
      ensures ok <==> settings.addressIndex.None? || SettingsValid(settings)
    {
      ok := true;
      if settings.addressIndex.Some? {
        frameWidth := ParsedOrZero(settings.frameWidth);
        if settings.frameWidth.None? || frameWidth <= 0 { ok := false; }
        frameHeight := ParsedOrZero(settings.frameHeight);
        if settings.frameHeight.None? || frameHeight <= 0 { ok := false; }
        fps := ParsedOrZero(settings.fps);
        if settings.fps.None? || fps <= 0 { ok := false; }
      }
      capture := if deviceOpens then Opened else Closed;
    }

    method UpdateFrame(read: ReadOutcome) returns (threw: bool)
      requires timer.Running?
      modifies this
      ensures (State(), threw) == Ticked(old(State()), read)
    {
      if isProcessingFrame || capture != Opened {
        return !isProcessingFrame && capture == Disposed;
      }
      isProcessingFrame := true;
      match read {
        case FrameRead =>
          ShowFrame();
        case ReadFailed(stillOpen) =>
          if !stillOpen {
            capture := Closed;
            timer := StoppedTimer(timer);
            pendingReconnects := pendingReconnects + 1;
          }
      }
      isProcessingFrame := false;
      threw := false;
    }

    /** A good frame is shown; the first one switches to the live view. */
    method ShowFrame()
      modifies this
      ensures State() == FrameShown(old(State()))
    {
      pictureShown := true;
      if initFlg {
        InputUnLock();
        rtspShow := true;
        rtspBeforeShow := true;
        initFlg := false;
      }
    }

    /** The scheduled reconnection running on the form's thread. */
    method ReconnectDue(deviceOpens: bool)
      requires pendingReconnects > 0
      modifies this
      ensures State() == Reconnected(old(State()), settings, deviceOpens)
    {
      pendingReconnects := pendingReconnects - 1;
      InitializeRTSPCamera(deviceOpens);
    }

    method PauseRTSPCamera()
      modifies this
      ensures State() == Paused(old(State()))
    {
      timer := StoppedTimer(timer);
      rtspShow := false;
      rtspBeforeShow := true;
    }

    method ResumeRTSPCamera()
      modifies this
      ensures State() == Resumed(old(State()))
    {
      if capture == Opened {
        timer := StartedTimer(timer);
        rtspShow := true;
        rtspBeforeShow := false;
      }
    }

    /** Shows an analysis outcome. */
    method Report(outcome: Outcome)
      modifies this
      ensures State() == Analysed(old(State()), outcome)
    {
      pictureShown := pictureShown || outcome != LoadError;
      lastAnalysis := Some(outcome);
    }

    method btnRTSP_Click(deviceOpens: bool)
      modifies this
      ensures State() == RtspClicked(old(State()), settings, deviceOpens)
    {
      InputLock();
      if rtspShow {
        PauseRTSPCamera();
      } else if initFlg {
        InitializeRTSPCamera(deviceOpens);
      } else {
        ResumeRTSPCamera();
      }
      InputUnLock();
    }

    method btnSelectImage_Click(choice: Choice, env: StageEnv, a: Analyzer, deviceOpens: bool)
      modifies this, disk
      ensures (State(), disk.State()) ==
              SelectClicked(old(State()), old(disk.State()), disk.faults, settings, choice, env, a, deviceOpens)
    {
      InputLock();
      if rtspShow {
        PauseRTSPCamera();
      }
      match choice {
        case Chosen(path) =>
          var outcome := ProcessImage(disk, path, env, a);
          Report(outcome);
        case Cancelled =>
          if rtspBeforeShow {
            if initFlg {
              InitializeRTSPCamera(deviceOpens);
            } else {
              ResumeRTSPCamera();
            }
          }
      }
      selectEnabled := true;
      rtspEnabled := true;
    }

    method btnShot_Click(shot: Shot, env: StageEnv, a: Analyzer)
      modifies this, disk
      ensures (State(), disk.State()) == ShotClicked(old(State()), old(disk.State()), disk.faults, shot, env, a)
    {
      ghost var d0 := disk.State();
      InputLock();
      PauseRTSPCamera();
      if pictureShown {
        var ok := true;
        if shot.saveDir !in disk.dirs {
          ok := disk.CreateDirectory(shot.saveDir);
        }
        if ok {
          ok := disk.WriteAllBytes(shot.snapshotPath, shot.snapshotSize);
        }
        if ok {
          ok := disk.WriteAllBytes(shot.framePath, shot.frameSize);
        }
        if ok {
          assert disk.State() == ShotWritten(d0, shot);
          var outcome := ProcessImage(disk, shot.framePath, env, a);
          Report(outcome);
          var _ := disk.Delete(shot.framePath);
          assert (disk.State(), Some(outcome)) == ShotTaken(d0, disk.faults, shot, env, a);
        } else {
          assert ShotTaken(d0, disk.faults, shot, env, a) == (disk.State(), None);
        }
      }
      selectEnabled := true;
      rtspEnabled := true;
    }
  }
}
