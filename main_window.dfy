/** The booth's main window (pibox5/ui/main_window.py) as one sequential machine: each Qt
    signal is a handler method, the stacked widget is the current `Screen`, and the
    preview thread is one loop step at a time. The camera's answers, the clock and the
    file system are parameters. */
module MainWindow {
  import opened Common
  import opened Timestamps
  import opened Config
  import opened CameraBase
  import opened HttpUpload
  import CS = CountdownScreen
  import RS = ReviewScreen

  /** The pages of the stacked widget, at indices 0, 1, 2 and 3. */
  datatype Screen = Idle | Countdown | Review | SettingsOpen

  /** The signals the window reacts to. */
  datatype Event =
    | PhotoButton
    | SettingsButton
    | SpaceKey
    | CountdownFinished(capture: CaptureResult)
    | ReviewFinished
    | SettingsClosed
    | SettingsSaved

  /** A capture worth reviewing: successful and with non-empty image bytes. */
  predicate UsableCapture(r: CaptureResult)
  {
    r.success && r.imageData.Some? && |r.imageData.value| > 0
  }

  /** The screen after one event. The photo button does not look at the current screen;
      the Space key acts only on the idle screen; without a camera a finished countdown
      changes nothing. */
  function NextScreen(s: Screen, e: Event, hasCamera: bool): Screen
  {
    match e
    case PhotoButton => Countdown
    case SettingsButton => SettingsOpen
    case SpaceKey => if s == Idle then Countdown else s
    case CountdownFinished(r) => if !hasCamera then s else if UsableCapture(r) then Review else Idle
    case ReviewFinished => Idle
    case SettingsClosed => Idle
    case SettingsSaved => Idle
  }

  /** The screen after a sequence of events. */
  function Run(s: Screen, events: seq<Event>, hasCamera: bool): Screen
    decreases |events|
  {
    if events == [] then s else Run(NextScreen(s, events[0], hasCamera), events[1..], hasCamera)
  }

  predicate GoodCaptureAt(events: seq<Event>, i: int)
  {
    0 <= i < |events| && events[i].CountdownFinished? && UsableCapture(events[i].capture)
  }

  predicate StartAt(events: seq<Event>, i: int)
  {
    0 <= i < |events| && (events[i] == PhotoButton || events[i] == SpaceKey)
  }

  /** The review screen is only ever entered through a usable capture with a camera present. */
  lemma {:induction false} ReviewNeedsUsableCapture(s: Screen, events: seq<Event>, hasCamera: bool)
    requires s != Review && Run(s, events, hasCamera) == Review
    ensures hasCamera && exists i :: GoodCaptureAt(events, i)
    decreases |events|
  {
    var next := NextScreen(s, events[0], hasCamera);
    if next == Review {
      assert GoodCaptureAt(events, 0);
    } else {
      ReviewNeedsUsableCapture(next, events[1..], hasCamera);
      var i :| GoodCaptureAt(events[1..], i);
      assert GoodCaptureAt(events, i + 1);
    }
  }

  /** The countdown screen is only ever entered through the photo button or the Space key. */
  lemma {:induction false} CountdownNeedsStart(s: Screen, events: seq<Event>, hasCamera: bool)
    requires s != Countdown && Run(s, events, hasCamera) == Countdown
    ensures exists i :: StartAt(events, i)
    decreases |events|
  {
    var next := NextScreen(s, events[0], hasCamera);
    if next == Countdown {
      assert StartAt(events, 0);
    } else {
      CountdownNeedsStart(next, events[1..], hasCamera);
      var i :| StartAt(events[1..], i);
      assert StartAt(events, i + 1);
    }
  }

  /** Space presses away from the idle screen change nothing, however many there are. */
  lemma {:induction false} SpaceIgnoredOutsideIdle(s: Screen, n: nat, hasCamera: bool)
    requires s != Idle
    ensures Run(s, seq(n, _ => SpaceKey), hasCamera) == s
  {
    if n > 0 {
      assert seq(n, _ => SpaceKey)[1..] == seq(n - 1, _ => SpaceKey);
      SpaceIgnoredOutsideIdle(s, n - 1, hasCamera);
    }
  }

  /** Whatever happened before, ending a review, closing or saving the settings lands on the
      idle screen, and the photo button always leads to the countdown. */
  lemma {:induction false} LastEventDecides(s: Screen, events: seq<Event>, e: Event, hasCamera: bool)
    requires e == ReviewFinished || e == SettingsClosed || e == SettingsSaved || e == PhotoButton
    ensures Run(s, events + [e], hasCamera) == if e == PhotoButton then Countdown else Idle
    decreases |events|
  {
    if events == [] {
      assert [e][1..] == [];
    } else {
      assert (events + [e])[1..] == events[1..] + [e];
      LastEventDecides(NextScreen(s, events[0], hasCamera), events[1..], e, hasCamera);
    }
  }

  /** Where a preview frame goes. */
  datatype PreviewRoute = ToIdleScreen(blur: bool) | ToCountdownScreen(blur: bool) | Dropped

  function RouteFrame(s: Screen): (r: PreviewRoute)
    ensures r.ToIdleScreen? <==> s == Idle
    ensures r.ToCountdownScreen? <==> s == Countdown
    ensures r.Dropped? <==> s == Review || s == SettingsOpen
    ensures r.ToIdleScreen? ==> r.blur
    ensures r.ToCountdownScreen? ==> !r.blur
  {
    match s
    case Idle => ToIdleScreen(true)
    case Countdown => ToCountdownScreen(false)
    case _ => Dropped
  }

  const TimestampToken: string := "{timestamp}"

  /** The local file name: the pattern with every `{timestamp}` replaced by the stamp. */
  function LocalFilename(pattern: string, now: DateTime): string
  {
    Replace(pattern, TimestampToken, FileStamp(now))
  }

  /** The name the upload carries. */
  function UploadFilename(now: DateTime): (name: string)
    ensures IsPrefix("photo_", name) && name[|name| - 4..] == ".jpg"
  {
    "photo_" + FileStamp(now) + ".jpg"
  }

  /** With the default pattern and the same clock reading, both names agree. */
  lemma DefaultPatternMatchesUpload(now: DateTime)
    ensures LocalFilename("photo_{timestamp}.jpg", now) == UploadFilename(now)
  {
    var stamp := FileStamp(now);
    assert "photo_{timestamp}.jpg" == "photo_" + (TimestampToken + ".jpg");
    ReplaceKeepsPrefix("photo_", TimestampToken + ".jpg", TimestampToken, stamp);
    assert (TimestampToken + ".jpg")[..|TimestampToken|] == TimestampToken;
    assert (TimestampToken + ".jpg")[|TimestampToken|..] == ".jpg";
  }

  /** With the default pattern, the local name and the upload name agree exactly when their
      two well-formed clock readings fall in the same second. */
  lemma DefaultPatternNamesAgree(saveNow: DateTime, uploadNow: DateTime)
    requires WellFormed(saveNow) && WellFormed(uploadNow)
    ensures LocalFilename("photo_{timestamp}.jpg", saveNow) == UploadFilename(uploadNow) <==>
            SameSecond(saveNow, uploadNow)
  {
    DefaultPatternMatchesUpload(saveNow);
    FileStampShape(saveNow);
    FileStampShape(uploadNow);
    FileStampSameSecond(saveNow, uploadNow);
    var local, upload := UploadFilename(saveNow), UploadFilename(uploadNow);
    assert local[6..21] == FileStamp(saveNow);
    assert upload[6..21] == FileStamp(uploadNow);
  }

  /** A pattern without the token names every photo alike. */
  lemma PatternWithoutToken(pattern: string, now: DateTime)
    requires !Contains(pattern, TimestampToken)
    ensures LocalFilename(pattern, now) == pattern
  {
    ReplaceAbsent(pattern, TimestampToken, FileStamp(now));
  }

  /** Every `{timestamp}` in the pattern is replaced: none is left in the local name. */
  lemma LocalFilenameHasNoToken(pattern: string, now: DateTime)
    ensures !Contains(LocalFilename(pattern, now), TimestampToken)
  {
    var stamp := FileStamp(now);
    FileStampChars(now);
    forall i | 0 <= i < |stamp|
      ensures stamp[i] !in TimestampToken
    {
      assert stamp[i] == '_' || '0' <= stamp[i] <= '9';
    }
    ReplaceRemovesAll(pattern, TimestampToken, stamp);
  }

  /** An uploader is wanted exactly when uploading is enabled and a URL is set. */
  predicate UploaderWanted(u: UploadSettings)
  {
    u.enabled && u.url != ""
  }

  /** `HttpUploader(url=…, api_key=…, timeout=…, retry_count=…)`: the four upload settings,
      the default two-second delay, no callbacks, an empty queue and zeroed counters. */
  ghost predicate BuiltFrom(u: HttpUploader, s: UploadSettings)
    reads u
  {
    u.url == s.url && u.apiKey == s.apiKey && u.timeout == s.timeoutSeconds &&
    u.retryCount == s.retryCount && u.retryDelayMs == 2000 && !u.hasOnSuccess && !u.hasOnError &&
    u.queue == [] && u.totalUploads == 0 && u.successfulUploads == 0 && u.failedUploads == 0
  }

  /** The write `_save_photo_locally` attempts; whether it works does not matter to the window. */
  datatype SaveRequest = SaveRequest(directory: string, filename: string, data: Bytes)

  /** The preview loop. `interval` is computed once when the loop starts. */
  class CameraThread {
    var fps: int
    var running: bool
    var interval: Option<int>
    /** `run` ended with an exception: a zero `fps` before the loop, or one that escaped
        the camera inside it. */
    var crashed: bool

    constructor (fps: int)
      ensures this.fps == fps && !running && interval == None && !crashed
    {
      this.fps := fps;
      running := false;
      interval := None;
      crashed := false;
    }

    /** Start of `run`: the loop's interval is `1000 // fps`, or the division fails. */
    method Run()
      modifies this
      ensures running && fps == old(fps)
      ensures old(fps) == 0 ==> crashed && interval == None
      ensures old(fps) != 0 ==> !crashed && interval == Some(FloorDiv(1000, old(fps)))
    {
      running := true;
      if fps == 0 {
        crashed := true;
        interval := None;
      } else {
        crashed := false;
        interval := Some(FloorDiv(1000, fps));
      }
    }

    predicate Looping()
      reads this
    {
      running && !crashed && interval.Some?
    }

    /** One pass of the loop: the camera's frame is emitted unless it is `None`, then the
        thread sleeps for the interval fixed at start, whatever `fps` says now. An exception
        out of the camera ends `run` before anything is emitted. */
    method Step(fetch: PreviewFetch) returns (emitted: Option<PreviewFrame>, sleptMs: int)
      modifies this`crashed
      ensures !old(Looping()) ==> emitted == None && sleptMs == 0 && crashed == old(crashed)
      ensures old(Looping()) && fetch.Fetched? ==>
                emitted == fetch.frame && sleptMs == interval.value && !crashed
      ensures old(Looping()) && fetch.Escaped? ==> emitted == None && sleptMs == 0 && crashed && !Looping()
    {
      if !running || crashed || interval.None? {
        return None, 0;
      }
      match fetch
      case Fetched(frame) =>
        emitted := frame;
        sleptMs := interval.value;
      case Escaped(_) =>
        crashed := true;
        emitted := None;
        sleptMs := 0;
    }

    method Stop()
      modifies this`running
      ensures !running
    {
      running := false;
    }
  }

  class MainWindow {
    var screen: Screen
    var settings: Settings
    /** Whether `self.camera` is set. */
    const hasCamera: bool
    var lastPhotoData: Option<Bytes>
    var uploader: HttpUploader?
    const countdown: CS.CountdownScreen
    const review: RS.ReviewScreen
    const cameraThread: CameraThread?

    /** The screens share the window's settings and a present uploader keeps its counters. */
    ghost predicate Valid()
      reads this, uploader, countdown, review
    {
      countdown.settings == settings && review.settings == settings &&
      (uploader != null ==> uploader.Valid())
    }

    /** `hasCamera` and `threadFps` stand for what the camera set-up produced: whether a
        camera object exists, and the rate of the preview thread it started, if any. */
    constructor (settings: Settings, hasCamera: bool, threadFps: Option<int>)
      ensures Valid() && screen == Idle && this.settings == settings && this.hasCamera == hasCamera
      ensures lastPhotoData == None
      ensures (cameraThread != null) <==> threadFps.Some?
      ensures cameraThread != null ==>
                fresh(cameraThread) && cameraThread.fps == threadFps.value && cameraThread.running &&
                (threadFps.value == 0 ==> cameraThread.crashed && cameraThread.interval == None) &&
                (threadFps.value != 0 ==> !cameraThread.crashed &&
                                          cameraThread.interval == Some(FloorDiv(1000, threadFps.value)))
      ensures fresh(countdown) && fresh(review)
      ensures (uploader != null) <==> UploaderWanted(settings.upload)
      ensures uploader != null ==> fresh(uploader) && BuiltFrom(uploader, settings.upload)
    {
      screen := Idle;
      this.settings := settings;
      this.hasCamera := hasCamera;
      lastPhotoData := None;
      countdown := new CS.CountdownScreen(settings);
      review := new RS.ReviewScreen(settings);
      var thread: CameraThread? := null;
      if threadFps.Some? {
        thread := new CameraThread(threadFps.value);
        thread.Run();
      }
      cameraThread := thread;
      uploader := null;
      new;
      SetupUploader();
    }

    /** A fresh uploader from the upload settings when it is wanted, none otherwise. */
    method SetupUploader()
      modifies this`uploader
      ensures (uploader != null) <==> UploaderWanted(settings.upload)
      ensures uploader != null ==> fresh(uploader) && uploader.Valid() && BuiltFrom(uploader, settings.upload)
    {
      if UploaderWanted(settings.upload) {
        uploader := new HttpUploader(settings.upload.url, settings.upload.apiKey,
                                     settings.upload.timeoutSeconds, settings.upload.retryCount,
                                     2000, false, false);
      } else {
        uploader := null;
      }
    }

    /** Where a preview frame goes; only the countdown screen is modelled as a receiver. */
    method OnPreviewFrame(frame: PreviewFrame) returns (route: PreviewRoute)
      modifies countdown
      ensures route == RouteFrame(screen)
      ensures screen == Countdown ==> countdown.previewFrame == Some(frame) && !countdown.previewBlur
      ensures screen != Countdown ==> countdown.previewFrame == old(countdown.previewFrame) &&
                                      countdown.previewBlur == old(countdown.previewBlur)
      ensures countdown.State() == old(countdown.State()) && countdown.settings == old(countdown.settings)
      ensures countdown.displayVisible == old(countdown.displayVisible) &&
              countdown.hintVisible == old(countdown.hintVisible) &&
              countdown.finishedSignals == old(countdown.finishedSignals)
    {
      route := RouteFrame(screen);
      if screen == Countdown {
        countdown.UpdatePreview(frame, false);
      }
    }

    /** Shows the countdown and starts it, from whatever screen. */
    method OnPhotoButton()
      requires Valid()
      modifies this`screen, countdown
      ensures Valid()
      ensures screen == NextScreen(old(screen), PhotoButton, hasCamera)
      ensures countdown.State() == CS.StartStep(old(countdown.State()), settings.timing.countdownSeconds)
      ensures countdown.displayVisible && countdown.hintVisible
      ensures countdown.finishedSignals == old(countdown.finishedSignals) &&
              countdown.previewBlur == old(countdown.previewBlur) &&
              countdown.previewFrame == old(countdown.previewFrame)
    {
      screen := Countdown;
      countdown.StartCountdown();
    }

    method OnSettingsButton()
      modifies this`screen
      ensures screen == NextScreen(old(screen), SettingsButton, hasCamera)
    {
      screen := SettingsOpen;
    }

    /** The Space key triggers a photo only on the idle screen. */
    method OnSpaceKey()
      requires Valid()
      modifies this`screen, countdown
      ensures Valid()
      ensures screen == NextScreen(old(screen), SpaceKey, hasCamera)
      ensures old(screen) == Idle ==>
                countdown.State() == CS.StartStep(old(countdown.State()), settings.timing.countdownSeconds)
      ensures old(screen) == Idle ==> countdown.displayVisible && countdown.hintVisible
      ensures old(screen) != Idle ==> countdown.State() == old(countdown.State()) && unchanged(countdown)
      ensures countdown.finishedSignals == old(countdown.finishedSignals) &&
              countdown.previewBlur == old(countdown.previewBlur) &&
              countdown.previewFrame == old(countdown.previewFrame)
    {
      if screen == Idle {
        OnPhotoButton();
      }
    }

    /** The countdown ended: with a usable capture the photo is kept, saved if the settings
        say so, reviewed, and queued for upload if an uploader exists and uploads on capture
        are on; any other capture goes back to idle. The three clock readings are those of
        the save, the upload name and the queued task. */
    method OnCountdownFinished(capture: CaptureResult, saveNow: DateTime, uploadNow: DateTime,
                               queuedAt: DateTime)
      returns (saved: Option<SaveRequest>)
      requires Valid()
      modifies this`lastPhotoData, this`screen, review, uploader
      ensures Valid() && uploader == old(uploader)
      ensures screen == NextScreen(old(screen), CountdownFinished(capture), hasCamera)
      ensures hasCamera && UsableCapture(capture) ==>
                lastPhotoData == capture.imageData &&
                review.reviewTimer == RS.Running(settings.timing.reviewSeconds * 1000, true) &&
                review.progressTimer == RS.Running(100, false) &&
                review.ProgressState() == RS.StartProgress(settings.timing.reviewSeconds) &&
                review.timerText == RS.TimerText(settings.timing.reviewSeconds) && review.messageVisible
      ensures review.finishedSignals == old(review.finishedSignals)
      ensures !(hasCamera && UsableCapture(capture)) ==>
                lastPhotoData == old(lastPhotoData) && unchanged(review)
      ensures saved.Some? <==> hasCamera && UsableCapture(capture) && settings.storage.saveLocally
      ensures saved.Some? ==>
                saved.value == SaveRequest(settings.storage.photosDir,
                                           LocalFilename(settings.storage.filenamePattern, saveNow),
                                           capture.imageData.value)
      ensures uploader != null && hasCamera && UsableCapture(capture) && settings.upload.uploadOnCapture ==>
                uploader.queue == old(uploader.queue) +
                                  [NewTask(capture.imageData.value, UploadFilename(uploadNow), queuedAt)] &&
                uploader.totalUploads == old(uploader.totalUploads) + 1
      ensures uploader != null && !(hasCamera && UsableCapture(capture) && settings.upload.uploadOnCapture) ==>
                uploader.queue == old(uploader.queue) && uploader.totalUploads == old(uploader.totalUploads) &&
                unchanged(uploader)
      ensures uploader != null ==>
                uploader.successfulUploads == old(uploader.successfulUploads) &&
                uploader.failedUploads == old(uploader.failedUploads)
    {
      saved := None;
      if !hasCamera {
        return;
      }
      if UsableCapture(capture) {
        var data := capture.imageData.value;
        lastPhotoData := capture.imageData;
        if settings.storage.saveLocally {
          saved := Some(SaveRequest(settings.storage.photosDir,
                                    LocalFilename(settings.storage.filenamePattern, saveNow), data));
        }
        screen := Review;
        review.StartReviewTimer();
        if settings.upload.uploadOnCapture && uploader != null {
          uploader.UploadAsync(data, UploadFilename(uploadNow), queuedAt);
        }
      } else {
        screen := Idle;
      }
    }

    method OnReviewFinished()
      modifies this`screen
      ensures screen == NextScreen(old(screen), ReviewFinished, hasCamera)
    {
      screen := Idle;
    }

    method OnSettingsClosed()
      modifies this`screen
      ensures screen == NextScreen(old(screen), SettingsClosed, hasCamera)
    {
      screen := Idle;
    }

    /** `closeEvent`: the preview loop is told to stop; disconnecting the camera belongs to
        the camera object, which the window model does not hold. */
    method OnClose()
      modifies cameraThread
      ensures cameraThread != null ==> !cameraThread.running
    {
      if cameraThread != null {
        cameraThread.Stop();
      }
    }

    /** New settings: stored and written out, handed to the screens, the preview rate
        assigned (the running loop keeps its interval), the uploader rebuilt, back to idle.
        `write` is how the settings write went; its result is not acted on. */
    method OnSettingsSaved(newSettings: Settings, write: WriteOutcome) returns (report: SaveReport)
      requires Valid()
      modifies this`settings, this`screen, this`uploader, countdown, review`settings, cameraThread
      ensures Valid()
      ensures settings == newSettings && report == SaveSettings(newSettings, write)
      ensures screen == NextScreen(old(screen), SettingsSaved, hasCamera)
      ensures countdown.State() == old(countdown.State())
      ensures countdown.displayVisible == old(countdown.displayVisible) &&
              countdown.hintVisible == old(countdown.hintVisible) &&
              countdown.finishedSignals == old(countdown.finishedSignals) &&
              countdown.previewBlur == old(countdown.previewBlur) &&
              countdown.previewFrame == old(countdown.previewFrame)
      ensures review.ProgressState() == old(review.ProgressState()) &&
              review.totalSeconds == old(review.totalSeconds) &&
              review.progressMax == old(review.progressMax) && review.timerText == old(review.timerText) &&
              review.messageVisible == old(review.messageVisible) &&
              review.reviewTimer == old(review.reviewTimer) &&
              review.progressTimer == old(review.progressTimer) &&
              review.finishedSignals == old(review.finishedSignals)
      ensures cameraThread != null ==>
                cameraThread.fps == newSettings.camera.previewFps &&
                cameraThread.interval == old(cameraThread.interval) &&
                cameraThread.running == old(cameraThread.running) &&
                cameraThread.crashed == old(cameraThread.crashed)
      ensures (uploader != null) <==> UploaderWanted(newSettings.upload)
      ensures uploader != null ==> fresh(uploader) && BuiltFrom(uploader, newSettings.upload)
    {
      settings := newSettings;
      report := PersistSettings(write);
      RefreshScreens();
      SetPreviewRate();
      SetupUploader();
      screen := Idle;
    }

    /** `save_settings(self.settings)`, whose result the window ignores. */
    method PersistSettings(write: WriteOutcome) returns (report: SaveReport)
      ensures report == SaveSettings(settings, write)
    {
      report := SaveSettings(settings, write);
    }

    /** Hands the window's settings to the countdown and review screens. */
    method RefreshScreens()
      modifies countdown, review`settings
      ensures countdown.settings == settings && review.settings == settings
      ensures countdown.State() == old(countdown.State())
      ensures countdown.displayVisible == old(countdown.displayVisible) &&
              countdown.hintVisible == old(countdown.hintVisible) &&
              countdown.finishedSignals == old(countdown.finishedSignals) &&
              countdown.previewBlur == old(countdown.previewBlur) &&
              countdown.previewFrame == old(countdown.previewFrame)
    {
      countdown.RefreshSettings(settings);
      review.RefreshSettings(settings);
    }

    /** Assigns the preview rate; a loop already running keeps its interval. */
    method SetPreviewRate()
      modifies cameraThread
      ensures cameraThread != null ==>
                cameraThread.fps == settings.camera.previewFps &&
                cameraThread.interval == old(cameraThread.interval) &&
                cameraThread.running == old(cameraThread.running) &&
                cameraThread.crashed == old(cameraThread.crashed)
    {
      if cameraThread != null {
        cameraThread.fps := settings.camera.previewFps;
      }
    }
  }

  /** A preview loop started at 10 fps keeps sleeping 100 ms after the rate is changed. */
  method RateChangeKeepsInterval(s: Settings, s2: Settings)
    requires s2.camera.previewFps == 5
  {
    var window := new MainWindow(s, true, Some(10));
    assert window.cameraThread.interval == Some(100);
    var _ := window.OnSettingsSaved(s2, Written);
    var emitted, slept := window.cameraThread.Step(Fetched(Some(PreviewFrame(800, 480, 1))));
    assert window.cameraThread.fps == 5 && slept == 100;
    assert emitted == Some(PreviewFrame(800, 480, 1));
  }

  /** A frame the camera cannot decode ends the preview loop; later passes do nothing. */
  method UndecodableFrameEndsLoop(s: Settings)
  {
    var window := new MainWindow(s, true, Some(10));
    var emitted, slept := window.cameraThread.Step(Escaped("cannot identify image file"));
    assert emitted == None && window.cameraThread.crashed;
    emitted, slept := window.cameraThread.Step(Fetched(Some(PreviewFrame(800, 480, 2))));
    assert emitted == None && slept == 0;
  }
}
