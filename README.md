# PiBox5 photo booth core in Dafny

PiBox5 is a touch-screen photo booth for a Raspberry Pi. It shows a live camera
preview, counts down, takes a photo with a tethered camera (or a synthetic one),
shows the photo for review, saves it locally and uploads it to a REST endpoint in
the background. This project models the core of that program and proves properties
of the model:

- **camera abstraction** (`camera_base.dfy`): the option and capture records and the
  connected/preview flags shared by every backend;
- **synthetic camera** (`dummy_camera.dfy`): a keyed option table updated in place,
  a frame counter, and connect/disconnect that never fail;
- **tethered camera** (`gphoto2_camera.dfy`): the mapping of option names to paths in
  the device's configuration tree, widget look-up, the recursive listing of
  configurable widgets, and the conversion of every device error into
  `false`/`None`/a failed capture. Each device-library call is an oracle parameter
  (`Backend<T>`) that either returns a value or raises;
- **upload** (`http_upload.dfy`): the multipart request, how each outcome of the POST
  becomes an `UploadResult`, the bounded retry loop (proved against a reference
  function `RetrySpec`), and the uploader's FIFO queue with its counters. The network
  is an oracle `respond` from the attempt number to what the POST did;
- **settings** (`settings.dfy`): five sections with their defaults, the conversion
  to and from a plain dictionary (round trip proved), and the fallbacks of loading
  and saving. The YAML file is the value it parses to, or the reason it could not
  be read;
- **countdown and review screens** (`countdown_screen.dfy`, `review_screen.dfy`):
  the counters, labels and Qt timers as class fields, each timer callback a method
  proved against a step function (`TickStep`, `ProgressStep`) whose iteration is
  characterised by lemmas;
- **main window** (`main_window.dfy`): the screen state machine (`NextScreen`, with
  reachability lemmas over event sequences), each Qt signal handler as a method tied
  to that machine, preview-frame routing, photo file names, the uploader set-up, and
  the preview thread's loop.

`common.dfy` holds the shared helpers: `Option`/`Result`, Python's `str` of an
integer, floor division, `str.split("/")[-1]` and `str.replace`. `timestamps.dfy`
holds the two datetime renderings the program uses: `strftime("%Y%m%d_%H%M%S")` and
`isoformat()`.

Behaviour followed as the code has it:

- A POST counts as a success when the response is `ok`, that is, when its status is
  outside 400..599 (http_upload.py:210), so a 1xx or 3xx status that reaches the client
  also counts as success.
- The photo button starts the countdown from whatever screen is showing; only the
  Space key checks for the idle screen (main_window.py:197-201, 335-337).
- The preview thread computes its sleep interval once, when its loop starts
  (main_window.py:45). Assigning a new rate after saved settings
  (main_window.py:288-289) changes the thread's `fps` field but not the interval of a
  loop already running (`MainWindow.SetPreviewRate`, scenario
  `MainWindow.RateChangeKeepsInterval`). With a rate of 0, computing the interval raises a
  division error before the first frame; the model stops there (`MainWindow.CameraThread.Run`).
- Settings values are not range-checked by the settings code: a countdown of zero or
  fewer seconds finishes on the first tick (`CountdownScreen.NonPositiveFinishesAtOnce`),
  and a negative retry count makes no attempt at all (`HttpUpload.AttemptBudget`).
- A photo's local name and its upload name come from separate clock readings
  (main_window.py:241 and 259). With the default pattern they agree exactly when both
  readings fall in the same second (`MainWindow.DefaultPatternNamesAgree`).

## Model

| member | source | states |
|---|---|---|
| Common.FloorDiv | pibox5/ui/main_window.py:45 | Python's `//`: for a positive divisor the quotient is the largest q with q*b <= a, and for a negative divisor the bounds are reversed (rounding toward negative infinity, unlike Dafny's `/`) |
| Common.NatToString | pibox5/ui/screens/countdown_screen.py:165 | `str` of a natural number: at least one character, decimal digits only, a leading `0` exactly for zero |
| Common.NatToStringValue | pibox5/ui/screens/countdown_screen.py:165 | reading the printed digits back gives the number, so `str` of a natural number loses nothing |
| Common.IntToString | pibox5/ui/screens/countdown_screen.py:135 | `str` of an integer: non-empty, starting with `-` exactly for a negative value |
| Common.IntToStringValue | pibox5/upload/http_upload.py:242 | reading the printed integer back gives it: the digits for a non-negative value, the digits after the sign for a negative one |
| Common.LastSegment | pibox5/camera/gphoto2_camera.py:276 | `split("/")[-1]`: a suffix of the path without `/`, preceded by a `/` when shorter than the path, and the whole path when it has no `/` |
| Common.Replace | pibox5/ui/main_window.py:242-244 | `str.replace`: occurrences found left to right, each replaced and skipped over, without overlap; the lemmas below state its properties |
| Common.ReplaceKeepsPrefix | pibox5/ui/main_window.py:242-244 | `str.replace` leaves unchanged a prefix that cannot start an occurrence of the pattern |
| Common.ReplaceAbsent | pibox5/ui/main_window.py:242-244 | `str.replace` of a pattern that does not occur returns the string unchanged |
| Common.ReplaceSelf | pibox5/ui/main_window.py:242-244 | replacing the pattern by itself changes nothing |
| Common.ReplaceRemovesAll | pibox5/ui/main_window.py:242-244 | when the replacement is not empty and shares no character with the pattern, no occurrence of the pattern is left in the result |
| Timestamps.FileStampShape | pibox5/ui/main_window.py:241 | `strftime("%Y%m%d_%H%M%S")` of a valid time is 15 characters: 8 digits, `_`, 6 digits |
| Timestamps.FileStampChars | pibox5/ui/main_window.py:241 | for any time the stamp is non-empty and holds only digits and `_` |
| Timestamps.FileStamp | pibox5/ui/main_window.py:241 | `strftime("%Y%m%d_%H%M%S")`: year, month, day, `_`, hour, minute, second, each zero-padded to its width; its shape and inverse are stated by the lemmas around it |
| Timestamps.PadValue | pibox5/ui/main_window.py:241 | zero-padding keeps the number: reading a padded field back gives its value |
| Timestamps.FileStampFields | pibox5/ui/main_window.py:241 | the digit groups of a valid time's stamp read back as its year, month, day, hour, minute and second |
| Timestamps.FileStampSameSecond | pibox5/ui/main_window.py:241 | two valid times have the same stamp exactly when they agree in everything but the microseconds |
| Timestamps.IsoFormat | pibox5/upload/http_upload.py:193 | `isoformat()`: `YYYY-MM-DDTHH:MM:SS`, followed by `.` and six digits only when the microseconds are non-zero |
| Timestamps.IsoFormatShape | pibox5/upload/http_upload.py:193 | `isoformat()` of a valid time without microseconds is `YYYY-MM-DDTHH:MM:SS`: 19 characters with the separators at 4, 7, 10, 13 and 16 |
| CameraBase.MakeConfig | pibox5/camera/base.py:15-20 | a camera option holds the given name, label, value and choices and is not read-only by default |
| CameraBase.CaptureFailed | pibox5/camera/base.py:26-31 | a failed capture carries its message and neither image data nor a file path |
| CameraBase.Captured | pibox5/camera/base.py:26-31 | a successful capture carries its image data and no error message |
| CameraBase.CameraBase.constructor | pibox5/camera/base.py:43-45 | a new camera is neither connected nor previewing |
| CameraBase.CameraBase.IsConnected | pibox5/camera/base.py:47-50 | reports exactly the connected flag |
| CameraBase.CameraBase.IsPreviewActive | pibox5/camera/base.py:52-55 | reports exactly the preview flag |
| CameraBase.CameraBase.StartPreview | pibox5/camera/base.py:129-137 | always succeeds and sets the preview flag, leaving the connection as it was |
| CameraBase.CameraBase.StopPreview | pibox5/camera/base.py:139-141 | clears the preview flag, leaving the connection as it was |
| CameraBase.CameraBase.GetCameraInfo | pibox5/camera/base.py:143-153 | the info holds the two flags and none of the backend-specific keys |
| DummyCamera.InitialSettingsOk | pibox5/camera/dummy_camera.py:35-60 | the initial option table has exactly the keys iso, aperture, shutterspeed and imageformat, each entry named by its key and holding one of its own choices |
| DummyCamera.DummyCamera.constructor | pibox5/camera/dummy_camera.py:27-60 | a new synthetic camera is disconnected, has counted no frame, keeps the given size and starts from the initial table, which satisfies the table invariant |
| DummyCamera.DummyCamera.Connect | pibox5/camera/dummy_camera.py:62-69 | connecting always succeeds and leaves the camera connected, also when called twice |
| DummyCamera.DummyCamera.Disconnect | pibox5/camera/dummy_camera.py:71-75 | disconnecting clears both flags from any state |
| DummyCamera.DummyCamera.GetPreviewFrame | pibox5/camera/dummy_camera.py:77-87 | no frame and no counting while disconnected; otherwise the counter goes up by one and the frame has the camera's size and that counter |
| DummyCamera.DummyCamera.CapturePhoto | pibox5/camera/dummy_camera.py:133-221 | a disconnected camera fails with "Camera not connected"; a connected one succeeds with the encoder's bytes, no file path and no error message |
| DummyCamera.DummyCamera.GetConfig | pibox5/camera/dummy_camera.py:223-225 | an option is found exactly when its name is one of the four keys, and then it is the stored entry for that name, carrying that name and a value among its choices |
| DummyCamera.DummyCamera.SetConfig | pibox5/camera/dummy_camera.py:227-244 | succeeds if and only if the option exists and the value is one of its choices; on success exactly that entry's value changes, on failure the table is unchanged; the table invariant is kept |
| DummyCamera.DummyCamera.ListConfigs | pibox5/camera/dummy_camera.py:246-248 | the four option names in insertion order, which are exactly the table's keys |
| DummyCamera.DummyCamera.GetCameraInfo | pibox5/camera/dummy_camera.py:250-259 | the base flags plus the fixed model and serial, the resolution `WxH` and the frame counter |
| DummyCamera.DummyCamera.Enter | pibox5/camera/base.py:155-158 | `with` entry connects and returns the same camera |
| DummyCamera.DummyCamera.Exit | pibox5/camera/base.py:160-163 | `with` exit disconnects and does not suppress an exception |
| GPhoto2Camera.ConfigPath | pibox5/camera/gphoto2_camera.py:270-272 | a mapped option resolves to its device path, any other name to itself |
| GPhoto2Camera.WidgetKey | pibox5/camera/gphoto2_camera.py:270-276 | the widget looked up has no `/` in its name; for a mapped option it is the option's own name, for an unmapped name without `/` the name itself |
| GPhoto2Camera.ImageSettingsEntries | pibox5/camera/gphoto2_camera.py:34-42 | iso, imageformat, imageformatsd and whitebalance are mapped to their own names under `/main/imgsettings` |
| GPhoto2Camera.CaptureSettingsEntries | pibox5/camera/gphoto2_camera.py:34-42 | aperture, shutterspeed and focusmode are mapped to their own names under `/main/capturesettings` |
| GPhoto2Camera.MappedKeysAreOwnNames | pibox5/camera/gphoto2_camera.py:34-42 | every path in the option mapping ends in the very name it is mapped from |
| GPhoto2Camera.ChildPath | pibox5/camera/gphoto2_camera.py:353 | a widget's path is its bare name at the root and `parent/name` below it |
| GPhoto2Camera.ChoicesOf | pibox5/camera/gphoto2_camera.py:282-286 | choices are reported for radio and menu widgets only; every other kind reports none |
| GPhoto2Camera.ReadChoices | pibox5/camera/gphoto2_camera.py:282-286 | the loop that collects the choices one by one yields exactly `ChoicesOf`: all of a radio or menu widget's choices in order, none for other kinds |
| GPhoto2Camera.FindChild | pibox5/camera/gphoto2_camera.py:276 | `get_child_by_name` finds a widget exactly when some widget of the tree has that name, and what it finds has that name |
| GPhoto2Camera.ConfigPathsExact | pibox5/camera/gphoto2_camera.py:348-371 | the listing holds a path if and only if it is the path of a text, radio, menu, toggle or range widget reached through sections and windows only |
| GPhoto2Camera.SerialNumber | pibox5/camera/gphoto2_camera.py:77-83 | the serial is "N/A" when reading the configuration fails or no widget is called `serialnumber`; when such a widget is found, the serial is its value, or "N/A" when it has none |
| GPhoto2Camera.ListConfigRecursive | pibox5/camera/gphoto2_camera.py:348-371 | appends to the list exactly the pre-order listing of the widget's subtree |
| GPhoto2Camera.ListChildren | pibox5/camera/gphoto2_camera.py:368-371 | the loop over a container's children appends the children's listings in order |
| GPhoto2Camera.GPhoto2Camera.constructor | pibox5/camera/gphoto2_camera.py:44-56 | a new adapter holds no device handle or context, is disconnected, and reports model and serial "Unknown" |
| GPhoto2Camera.GPhoto2Camera.Connect | pibox5/camera/gphoto2_camera.py:58-92 | connects if and only if the device initialises; then the model is the device's and the serial comes from the configuration (or "N/A"); on failure model and serial are unchanged |
| GPhoto2Camera.GPhoto2Camera.Disconnect | pibox5/camera/gphoto2_camera.py:94-106 | always ends without handle or context, disconnected and not previewing, whatever the device's exit did |
| GPhoto2Camera.GPhoto2Camera.GetPreviewFrame | pibox5/camera/gphoto2_camera.py:108-139 | `None` unless connected with a handle, and `None` when the device raises; otherwise the decoded frame, and a decode failure escapes the method, since only the device's error is caught |
| GPhoto2Camera.GPhoto2Camera.CapturePhoto | pibox5/camera/gphoto2_camera.py:200-257 | "Camera not connected" when not usable; otherwise success if and only if the device capture worked, with its bytes, and a "Capture failed: " message carrying the device's error otherwise |
| GPhoto2Camera.GPhoto2Camera.GetConfig | pibox5/camera/gphoto2_camera.py:259-298 | an option is returned if and only if the camera is usable, the configuration is read and the named widget exists and holds a value; it then carries the widget's label, printed value, choices and read-only flag |
| GPhoto2Camera.GPhoto2Camera.SetConfig | pibox5/camera/gphoto2_camera.py:300-333 | a value is sent to the device if and only if the camera is usable, the configuration is read and the widget exists and is writable; success if and only if it was sent and the device accepted it |
| GPhoto2Camera.GPhoto2Camera.ListConfigs | pibox5/camera/gphoto2_camera.py:335-346 | the empty list when not usable or on a device error, otherwise the full listing of the configuration tree |
| GPhoto2Camera.GPhoto2Camera.GetCameraInfo | pibox5/camera/gphoto2_camera.py:373-382 | the base flags plus model, serial, the backend name and library availability |
| GPhoto2Camera.GPhoto2Camera.Enter | pibox5/camera/base.py:155-158 | `with` entry connects (connected if and only if the device initialised) and returns the same camera |
| GPhoto2Camera.GPhoto2Camera.Exit | pibox5/camera/base.py:160-163 | `with` exit disconnects and does not suppress an exception |
| HttpUpload.NewTask | pibox5/upload/http_upload.py:18-24 | a queued task holds the photo, its name and the enqueue time, with retry count 0 |
| HttpUpload.Failed | pibox5/upload/http_upload.py:28-36 | a failed result carries the file name and message, no status, no response data and time 0 |
| HttpUpload.BuildRequest | pibox5/upload/http_upload.py:181-195 | the `X-API-Key` header is present if and only if an API key is set, and is the only header; the only file field is `photo` with the name, bytes and `image/jpeg`; the form fields are exactly the ISO timestamp and source `pibox5` |
| HttpUpload.ResponseOk | pibox5/upload/http_upload.py:210 | `response.ok`: every status outside 400..599 |
| HttpUpload.DoUpload | pibox5/upload/http_upload.py:169-255 | success if and only if a response came back with an `ok` status; an error response reports `HTTP <status>: ` and the first 200 characters of the body; timeouts, connection errors and other errors each get their own message; only an exception outside the request escapes |
| HttpUpload.FailureClassesDistinct | pibox5/upload/http_upload.py:226-255 | failures of different causes (HTTP status, timeout, connection, other) never produce the same message |
| HttpUpload.AttemptBudget | pibox5/upload/http_upload.py:147 | `retry_count + 1` attempts for a non-negative retry count, none for a negative one |
| HttpUpload.FirstSuccess | pibox5/upload/http_upload.py:147-151 | the first attempt below the budget that succeeds, with all earlier attempts failing; none only when every attempt fails |
| HttpUpload.RetrySpec | pibox5/upload/http_upload.py:145-167 | the reference run: stop at the first successful attempt within the budget with that attempt's result, otherwise a failure carrying the last error after the whole budget, one delay between attempts; its properties are the lemmas around it |
| HttpUpload.RetryStopsAtFirstSuccess | pibox5/upload/http_upload.py:147-160 | the run returns the first successful attempt's result after k+1 attempts and exactly k delays |
| HttpUpload.RetryAllFail | pibox5/upload/http_upload.py:145-167 | when every attempt fails: `retry_count + 1` attempts, `retry_count` delays, and a failure reporting the number of attempts and the last attempt's error |
| HttpUpload.RetryBounds | pibox5/upload/http_upload.py:147-167 | never more attempts than the budget; success if and only if some attempt succeeded; one delay fewer than attempts on success; the whole budget used on failure |
| HttpUpload.UploadWithRetry | pibox5/upload/http_upload.py:135-167 | the retry loop's result, attempt count and delay count are those of the reference run `RetrySpec` |
| HttpUpload.FirstSuccessExtends | pibox5/upload/http_upload.py:147-151 | allowing more attempts does not change a first success already found |
| HttpUpload.HttpUploader.constructor | pibox5/upload/http_upload.py:51-92 | a new uploader keeps its configuration, has an empty queue and zero counters |
| HttpUpload.HttpUploader.UploadAsync | pibox5/upload/http_upload.py:257-274 | the new task joins the back of the queue and is counted; nothing is sent and the outcome counters are unchanged |
| HttpUpload.HttpUploader.UploadSync | pibox5/upload/http_upload.py:276-302 | the result is that of the retry run; it is counted once, as a success or as a failure, and the queue is untouched |
| HttpUpload.HttpUploader.WorkerStep | pibox5/upload/http_upload.py:108-133 | an empty queue changes nothing; otherwise the oldest task leaves the queue, its retry run's result is counted as success or failure and handed to the matching callback if one is set; counted = succeeded + failed + queued is kept |
| HttpUpload.HttpUploader.GetStats | pibox5/upload/http_upload.py:304-311 | the counters, and a pending count equal to the queue depth and to total minus finished |
| HttpUpload.HttpUploader.GetQueueSize | pibox5/upload/http_upload.py:313-315 | the queue depth, never more than the number of uploads counted |
| HttpUpload.AlwaysFailingEndpoint | pibox5/upload/http_upload.py:145-167 | an endpoint that always refuses leads to n+1 attempts and a failure that names them |
| HttpUpload.SecondAttemptSucceeds | pibox5/upload/http_upload.py:147-160 | an endpoint that fails once and then accepts leads to exactly two attempts, one delay, and success |
| Config.DefaultSettings | pibox5/config/settings.py:18-81 | the defaults: a 3-second countdown, a 5-second review, 10 fps preview, upload off with 3 retries and a 30-second timeout, local saving on with pattern `photo_{timestamp}.jpg` |
| Config.ToDictSections | pibox5/config/settings.py:83-85 | `to_dict` holds each section's own dictionary under the section's name |
| Config.ToDict | pibox5/config/settings.py:83-85 | `asdict`: a mapping from the five section names to their dictionaries |
| Config.UIToDict | pibox5/config/settings.py:83-85 | the UI section's dictionary has exactly the UI field names as keys |
| Config.TimingToDict | pibox5/config/settings.py:83-85 | the timing section's dictionary has exactly the timing field names as keys |
| Config.CameraToDict | pibox5/config/settings.py:83-85 | the camera section's dictionary has exactly the camera field names as keys |
| Config.UploadToDict | pibox5/config/settings.py:83-85 | the upload section's dictionary has exactly the upload field names as keys |
| Config.StorageToDict | pibox5/config/settings.py:83-85 | the storage section's dictionary has exactly the storage field names as keys |
| Config.Section | pibox5/config/settings.py:90-95 | `data.get(name, {})` gives the empty mapping when the section is absent and fails when it is not a mapping |
| Config.UIFromDict | pibox5/config/settings.py:18-27 | `UISettings(**d)` succeeds exactly when every key is a field name and every present field has its declared type; each field is then the given value, or its default when absent |
| Config.TimingFromDict | pibox5/config/settings.py:30-36 | `TimingSettings(**d)` succeeds exactly when every key is a field name and every present field is an integer; each field is then the given value, or its default when absent |
| Config.CameraFromDict | pibox5/config/settings.py:39-49 | `CameraSettings(**d)` succeeds exactly when every key is a field name and every present field has its declared type; each field is then the given value, or its default when absent |
| Config.UploadFromDict | pibox5/config/settings.py:52-61 | `UploadSettings(**d)` succeeds exactly when every key is a field name and every present field has its declared type; each field is then the given value, or its default when absent |
| Config.StorageFromDict | pibox5/config/settings.py:64-70 | `StorageSettings(**d)` succeeds exactly when every key is a field name and every present field has its declared type; each field is then the given value, or its default (under the home directory for the photos directory) when absent |
| Config.FromDict | pibox5/config/settings.py:87-96 | a non-mapping fails; every section absent from the data takes its defaults |
| Config.FromDictSections | pibox5/config/settings.py:87-96 | `from_dict` succeeds exactly when every present section is a mapping and every section's reader accepts that section's entries (none when absent); each section of the result is then what its reader built |
| Config.FromDictRoundTrip | pibox5/config/settings.py:83-96 | `from_dict(to_dict(s)) == s` for all settings |
| Config.FromDictEmpty | pibox5/config/settings.py:87-96 | the empty dictionary gives the default settings |
| Config.FromDictPartialSection | pibox5/config/settings.py:87-96 | overriding one field changes that field only; everything else keeps its default |
| Config.FromDictUnknownField | pibox5/config/settings.py:90-95 | an unknown field inside a section makes the conversion fail |
| Config.FromDictIgnoresOtherKeys | pibox5/config/settings.py:90-95 | top-level keys other than the five section names do not change the result |
| Config.SettingsPath | pibox5/config/settings.py:109 | the given path, or `~/.config/pibox5/settings.yaml` |
| Config.LoadSettings | pibox5/config/settings.py:99-120 | a missing or unreadable file, an empty document or data `from_dict` rejects give the defaults; otherwise the settings `from_dict` builds |
| Config.SaveSettings | pibox5/config/settings.py:123-151 | returns True if and only if the write went through, and then the file holds the given settings' dictionary |
| Config.ToDictNotFalsy | pibox5/config/settings.py:111-114 | a saved dictionary is a non-empty mapping, so loading never replaces it by `{}` |
| Config.LoadAfterSave | pibox5/config/settings.py:99-151 | settings saved successfully load back unchanged |
| Config.LoadUnknownFieldGivesDefaults | pibox5/config/settings.py:111-120 | a file with an unknown field inside a section loads as the defaults |
| CountdownScreen.StartStep | pibox5/ui/screens/countdown_screen.py:132-143 | starting sets the counter and display to the configured seconds and runs a 1000 ms timer, leaving the hint and scheduled finishes alone |
| CountdownScreen.TicksBeforeFinish | pibox5/ui/screens/countdown_screen.py:151-170 | during an n-second countdown the display shows n, n-1, ..., 1 with the timer running and no finish scheduled |
| CountdownScreen.CountdownFinishes | pibox5/ui/screens/countdown_screen.py:155-162 | the n-th tick stops the timer, shows the camera icon and schedules the finish exactly once |
| CountdownScreen.HintTurnsOnLastSecond | pibox5/ui/screens/countdown_screen.py:169-170 | the hint reads "Lächeln!" exactly from the tick that shows 1 on |
| CountdownScreen.NonPositiveFinishesAtOnce | pibox5/ui/screens/countdown_screen.py:153-162 | a countdown of zero or fewer seconds finishes on the first tick |
| CountdownScreen.CountdownScreen.constructor | pibox5/ui/screens/countdown_screen.py:34-43 | a new countdown screen holds the settings, a zero counter, the ready hint and no timer |
| CountdownScreen.CountdownScreen.StartCountdown | pibox5/ui/screens/countdown_screen.py:132-143 | the new state is `StartStep` from the old with the configured seconds, and both labels are shown |
| CountdownScreen.CountdownScreen.StopCountdown | pibox5/ui/screens/countdown_screen.py:145-149 | stops the timer and hides the labels; the counter and a finish already scheduled are kept |
| CountdownScreen.CountdownScreen.Tick | pibox5/ui/screens/countdown_screen.py:151-170 | the new state is `TickStep` of the old, so the lemmas above describe any run of ticks |
| CountdownScreen.CountdownScreen.FinishCountdown | pibox5/ui/screens/countdown_screen.py:203-207 | hides the labels and emits `countdown_finished` once, consuming one scheduled finish |
| CountdownScreen.CountdownScreen.UpdatePreview | pibox5/ui/screens/countdown_screen.py:121-130 | the frame is shown unblurred whatever the caller asks, and the countdown is untouched |
| CountdownScreen.CountdownScreen.RefreshSettings | pibox5/ui/screens/countdown_screen.py:209-212 | the next start uses the new settings; a running countdown is untouched |
| ReviewScreen.StartProgress | pibox5/ui/screens/review_screen.py:187-193 | the bar starts at ten steps per second of review and the label at the whole review |
| ReviewScreen.TimerText | pibox5/ui/screens/review_screen.py:218-222 | the label always starts "Weiter in " |
| ReviewScreen.ProgressCountsDown | pibox5/ui/screens/review_screen.py:208-216 | after k updates the value is `total*10 - k` and never below zero, and the seconds shown are those of the value before the last step, between 0 and the total |
| ReviewScreen.ProgressNonIncreasing | pibox5/ui/screens/review_screen.py:208-216 | an update never raises the value nor takes it below zero, and changes nothing once it is zero |
| ReviewScreen.ProgressReachesZeroWithTimer | pibox5/ui/screens/review_screen.py:196-197 | the 100 ms updates that fit in the review bring the bar exactly to zero, and not earlier |
| ReviewScreen.ReviewScreen.constructor | pibox5/ui/screens/review_screen.py:40-51 | a new review screen holds the settings, zero seconds and no running timers |
| ReviewScreen.ReviewScreen.StartReviewTimer | pibox5/ui/screens/review_screen.py:185-201 | starts a full bar and its label, a single-shot timer of the whole review and a 100 ms progress timer, establishing the counting invariant |
| ReviewScreen.ReviewScreen.StopReviewTimer | pibox5/ui/screens/review_screen.py:203-206 | stops both timers and nothing else |
| ReviewScreen.ReviewScreen.UpdateProgress | pibox5/ui/screens/review_screen.py:208-216 | the new progress is `ProgressStep` of the old; the counting invariant is kept and the value never grows |
| ReviewScreen.ReviewScreen.OnReviewTimeout | pibox5/ui/screens/review_screen.py:224-228 | both timers are stopped, the bar is empty and `review_finished` is emitted once |
| ReviewScreen.ReviewScreen.OnMessageTimeout | pibox5/ui/screens/review_screen.py:201 | the "photo taken" message is hidden |
| ReviewScreen.ReviewScreen.RefreshSettings | pibox5/ui/screens/review_screen.py:230-232 | the next review uses the new settings |
| MainWindow.ReviewNeedsUsableCapture | pibox5/ui/main_window.py:208-233 | the review screen is only ever reached through a finished countdown with a camera and a successful capture with non-empty bytes |
| MainWindow.CountdownNeedsStart | pibox5/ui/main_window.py:197-201 | the countdown screen is only ever reached through the photo button or the Space key |
| MainWindow.SpaceIgnoredOutsideIdle | pibox5/ui/main_window.py:335-337 | any number of Space presses away from the idle screen change nothing |
| MainWindow.LastEventDecides | pibox5/ui/main_window.py:265-302 | whatever came before, ending a review or closing or saving the settings lands on the idle screen, and the photo button on the countdown |
| MainWindow.RouteFrame | pibox5/ui/main_window.py:188-195 | a preview frame goes blurred to the idle screen and unblurred to the countdown screen, and is dropped on the review and settings screens |
| MainWindow.UploadFilename | pibox5/ui/main_window.py:259-260 | the upload name starts `photo_` and ends `.jpg` |
| MainWindow.DefaultPatternMatchesUpload | pibox5/ui/main_window.py:241-260 | with the default pattern the local name equals the upload name for the same clock reading |
| MainWindow.DefaultPatternNamesAgree | pibox5/ui/main_window.py:241-260 | with the default pattern, the local name and the upload name of two valid clock readings agree exactly when the readings fall in the same second |
| MainWindow.NextScreen | pibox5/ui/main_window.py:197-302 | the screen after each event: the photo button always to the countdown, Space only from idle, a finished countdown with a camera to review or idle by the capture, no change without a camera, review end, settings close and save to idle; the reachability lemmas state its consequences |
| MainWindow.UsableCapture | pibox5/ui/main_window.py:215 | `result.success and result.image_data`: a success with non-empty image data |
| MainWindow.UploaderWanted | pibox5/ui/main_window.py:177 | uploading enabled and a non-empty URL |
| MainWindow.BuiltFrom | pibox5/ui/main_window.py:178-183 | an uploader built from the four upload settings: URL, key, timeout and retry count, with the two-second default delay, no callbacks, an empty queue and zeroed counters |
| MainWindow.LocalFilename | pibox5/ui/main_window.py:241-244 | the pattern with every `{timestamp}` replaced by the file stamp; `MainWindow.LocalFilenameHasNoToken` and `MainWindow.PatternWithoutToken` state its properties |
| MainWindow.PatternWithoutToken | pibox5/ui/main_window.py:242-244 | a pattern without `{timestamp}` names every photo alike |
| MainWindow.LocalFilenameHasNoToken | pibox5/ui/main_window.py:242-244 | no `{timestamp}` is left in a local file name, whatever the pattern |
| MainWindow.CameraThread.constructor | pibox5/ui/main_window.py:36-40 | a new preview thread keeps its rate and is not running |
| MainWindow.CameraThread.Run | pibox5/ui/main_window.py:42-45 | starting fixes the loop's interval at `1000 // fps`, or, for rate 0, stops at the division error before the first frame (`crashed`) |
| MainWindow.CameraThread.Step | pibox5/ui/main_window.py:47-51 | a running loop emits the camera's frame unless there is none and sleeps for the interval fixed at start; an exception out of the camera ends the loop with nothing emitted, and a loop that has ended does nothing |
| MainWindow.CameraThread.Stop | pibox5/ui/main_window.py:53-56 | the loop is told to stop |
| MainWindow.MainWindow.constructor | pibox5/ui/main_window.py:72-83 | the window starts idle with no photo, the screens share its settings, a preview thread exists if and only if the camera set-up started one, and an uploader if and only if uploading is enabled with a URL |
| MainWindow.MainWindow.SetupUploader | pibox5/ui/main_window.py:175-186 | a fresh uploader built from the upload settings (`BuiltFrom`) if and only if uploading is enabled with a URL |
| MainWindow.MainWindow.OnPreviewFrame | pibox5/ui/main_window.py:188-195 | the frame goes where `RouteFrame` says; on the countdown screen that screen shows it unblurred; the countdown's state, labels and emitted finishes stay as they were |
| MainWindow.MainWindow.OnPhotoButton | pibox5/ui/main_window.py:197-201 | from any screen: the countdown screen, started with the configured seconds and both labels shown; its emitted finishes and preview stay as they were |
| MainWindow.MainWindow.OnSettingsButton | pibox5/ui/main_window.py:203-206 | the settings screen, as `NextScreen` says |
| MainWindow.MainWindow.OnSpaceKey | pibox5/ui/main_window.py:335-337 | on the idle screen the photo button's effect, labels shown; on any other screen the countdown screen is left entirely unchanged; no finish is emitted either way |
| MainWindow.MainWindow.OnCountdownFinished | pibox5/ui/main_window.py:208-233 | without a camera nothing changes; a usable capture is kept, saved under the pattern's name when local saving is on, reviewed with the configured timer, a full progress bar, its label and message shown and the 100 ms progress timer, and queued for upload exactly when an uploader exists and uploading on capture is on; any other capture goes back to idle with nothing saved or queued and the review screen and the uploader unchanged; the uploader's success and failure counts and the review's emitted finishes never change here |
| MainWindow.MainWindow.OnReviewFinished | pibox5/ui/main_window.py:265-268 | back to the idle screen |
| MainWindow.MainWindow.OnSettingsClosed | pibox5/ui/main_window.py:270-273 | back to the idle screen |
| MainWindow.MainWindow.OnClose | pibox5/ui/main_window.py:304-316 | the preview loop, if any, is stopped |
| MainWindow.MainWindow.OnSettingsSaved | pibox5/ui/main_window.py:275-302 | the new settings are adopted, written out and handed to the screens; the preview rate is assigned while the running loop keeps its interval; the uploader is rebuilt from the new upload settings (`BuiltFrom`, zeroed counters) exactly when they ask for one; the countdown's state, labels, finishes and preview and the review's progress, label, timers, message and finishes stay as they were; back to idle |
| MainWindow.MainWindow.PersistSettings | pibox5/ui/main_window.py:279 | `save_settings(self.settings)`: the report is what saving the window's settings gives for the write's outcome, and the window does not act on it |
| MainWindow.MainWindow.RefreshScreens | pibox5/ui/main_window.py:282-285 | both screens take the window's settings; the review screen changes nothing else, and the countdown keeps its state, labels, emitted finishes and preview |
| MainWindow.MainWindow.SetPreviewRate | pibox5/ui/main_window.py:288-289 | the thread's rate field takes the new value, but a running loop's interval, running flag and error state stay as they were |

## Left out

- Pixel synthesis of the synthetic camera's preview frames and photos, and JPEG encoding and decoding: frames carry their size and number only, and the encoder's bytes are a parameter.
- GPhoto2Camera.GPhoto2Camera.CapturePhoto: the autofocus sequence (`_trigger_autofocus`, gphoto2_camera.py:141-198) with its sleeps and the optional deletion of the file on the camera are not modelled; the autofocus result is a parameter the capture never consults, as in the code.
- GPhoto2Camera.GPhoto2Camera.constructor: the check that the device library is installed (an `ImportError`) is not modelled; the adapter is only built when the library is there.
- GPhoto2Camera.GPhoto2Camera.GetPreviewFrame: decoding the live-view bytes is a parameter, and the exception that escapes on a failed decode carries only the fixed start of the image library's message; the array conversion and the RGB-to-BGR channel swap are not modelled.
- The device library itself: every call is an oracle that returns a value or raises; the USB transport, the widget tree's real contents and `str()` of widget values are outside the model.
- Real HTTP, JSON decoding and elapsed-time measurement: what the POST did, whether its body parsed as JSON and the elapsed milliseconds are part of the `respond` oracle's answer.
- HttpUpload.HttpUploader.WorkerStep: the worker thread is one sequential step; thread start, the 1-second `queue.get` timeout, `task_done`, `shutdown`, `__enter__`/`__exit__` and the handling of an exception raised by a callback are not modelled, and neither is the concurrency between the worker and the counters.
- The delays between attempts are counted (`sleeps`), not slept.
- Python's dynamic typing in `from_dict`: a dataclass accepts a field of the wrong type, while the model rejects it, so `load_settings` then falls back to the defaults.
- YAML parsing and dumping, file existence, directory creation (`ensure_photos_dir`) and the write of a saved photo: the file's content is a parameter (`SettingsFile`, `WriteOutcome`), and a local save is modelled as the request it makes (`SaveRequest`).
- The user's home directory is a parameter of the default paths.
- Config.ToDict: its own contract states only that the result is a mapping; the contents of each section are stated by `Config.ToDictSections` and the round trip by `Config.FromDictRoundTrip`.
- Qt rendering: widgets, styles, fonts, animations, scaling, the photo display, the progress bar's own range checks, the idle and settings screens, the preview widget and the photo button.
- The choice of camera in `_setup_camera` (dummy, tethered, fallback to dummy on error, connect) is not modelled: the window takes whether a camera exists and the preview thread's rate as parameters.
- MainWindow.MainWindow.OnPreviewFrame: the idle screen's preview is not modelled as a receiver; only the route (blurred, to the idle screen) is stated.
- MainWindow.MainWindow.OnClose: disconnecting the camera is not modelled, since the window model does not hold the camera object; the `wait()` for the thread to end is not modelled either.
- MainWindow.MainWindow.OnSettingsSaved: the theme reload and the settings screen's own refresh are not modelled. The replaced uploader's worker thread holds its own reference to it and is never shut down, so it keeps running and uploading what it still had queued; the model stops tracking that uploader once `self.uploader` is rebound.
- The Escape and F11 keys (leaving or toggling full screen, closing the window) are not modelled; only the Space key is.
- The application start-up (`app.py`, `main.py`) is not part of this model.
- The clock: each `datetime.now()` reading is a parameter.
- MainWindow.CameraThread.Step: sleeping a negative interval (a negative rate makes `1000 // fps` negative, and `msleep` takes an unsigned argument) is not modelled; the model reports the negative interval as the sleep and keeps looping.
- MainWindow.CameraThread.Run: for a rate of 0 the model stops at the division error (`crashed`); what happens after an exception escapes the thread's `run` (under Qt 6 the process may abort) is not modelled.
