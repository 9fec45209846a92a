/** The settings records (pibox5/config/settings.py): five sections with their defaults,
    the conversion to and from a plain dictionary, and the fallbacks of loading and saving.
    The YAML file is abstracted as the value it parses to, or the reason it could not be read;
    the user's home directory is a parameter. */
module Config {
  import opened Common

  datatype UISettings = UISettings(theme: string, fullscreen: bool, showSettingsButton: bool,
                                   buttonSize: int, countdownFontSize: int, blurRadius: int)

  datatype TimingSettings = TimingSettings(countdownSeconds: int, reviewSeconds: int,
                                           idleTimeoutMinutes: int)

  datatype CameraSettings = CameraSettings(useDummy: bool, iso: string, aperture: string,
                                           shutterSpeed: string, imageQuality: string,
                                           captureTarget: string, previewFps: int)

  datatype UploadSettings = UploadSettings(enabled: bool, url: string, apiKey: string,
                                           uploadOnCapture: bool, retryCount: int, timeoutSeconds: int)

  datatype StorageSettings = StorageSettings(saveLocally: bool, photosDir: string, filenamePattern: string)

  datatype Settings = Settings(ui: UISettings, timing: TimingSettings, camera: CameraSettings,
                               upload: UploadSettings, storage: StorageSettings)

  function DefaultUI(): UISettings
  {
    UISettings("default", true, true, 120, 140, 15)
  }

  function DefaultTiming(): TimingSettings
  {
    TimingSettings(3, 5, 0)
  }

  function DefaultCamera(): CameraSettings
  {
    CameraSettings(false, "auto", "auto", "auto", "large_fine", "memory", 10)
  }

  function DefaultUpload(): UploadSettings
  {
    UploadSettings(false, "", "", true, 3, 30)
  }

  function DefaultStorage(home: string): StorageSettings
  {
    StorageSettings(true, home + "/Pictures/PiBox5", "photo_{timestamp}.jpg")
  }

  /** `Settings()`: every section at its defaults. */
  function DefaultSettings(home: string): (s: Settings)
    ensures s.timing.countdownSeconds == 3 && s.timing.reviewSeconds == 5
    ensures s.camera.previewFps == 10
    ensures !s.upload.enabled && s.upload.url == "" && s.upload.retryCount == 3 && s.upload.timeoutSeconds == 30
    ensures s.storage.saveLocally && s.storage.filenamePattern == "photo_{timestamp}.jpg"
  {
    Settings(DefaultUI(), DefaultTiming(), DefaultCamera(), DefaultUpload(), DefaultStorage(home))
  }

  /** A value as the YAML loader produces it. */
  datatype Value =
    | Null
    | Bool(b: bool)
    | Int(i: int)
    | Str(s: string)
    | List(items: seq<Value>)
    | Dict(entries: map<string, Value>)

  /** Python truthiness, as `yaml.safe_load(f) or {}` applies it. */
  predicate Falsy(v: Value)
  {
    match v
    case Null => true
    case Bool(b) => !b
    case Int(i) => i == 0
    case Str(s) => s == ""
    case List(items) => items == []
    case Dict(entries) => entries == map[]
  }

  const UIKeys: set<string> :=
    {"theme", "fullscreen", "show_settings_button", "button_size", "countdown_font_size", "blur_radius"}
  const TimingKeys: set<string> := {"countdown_seconds", "review_seconds", "idle_timeout_minutes"}
  const CameraKeys: set<string> :=
    {"use_dummy", "iso", "aperture", "shutter_speed", "image_quality", "capture_target", "preview_fps"}
  const UploadKeys: set<string> :=
    {"enabled", "url", "api_key", "upload_on_capture", "retry_count", "timeout_seconds"}
  const StorageKeys: set<string> := {"save_locally", "photos_dir", "filename_pattern"}
  const SectionKeys: set<string> := {"ui", "timing", "camera", "upload", "storage"}

  /** The field names of the section called `section`. */
  function FieldsOf(section: string): set<string>
  {
    match section
    case "ui" => UIKeys
    case "timing" => TimingKeys
    case "camera" => CameraKeys
    case "upload" => UploadKeys
    case _ => StorageKeys
  }

  function UIToDict(u: UISettings): (d: map<string, Value>)
    ensures d.Keys == UIKeys
  {
    map["theme" := Str(u.theme), "fullscreen" := Bool(u.fullscreen),
        "show_settings_button" := Bool(u.showSettingsButton), "button_size" := Int(u.buttonSize),
        "countdown_font_size" := Int(u.countdownFontSize), "blur_radius" := Int(u.blurRadius)]
  }

  function TimingToDict(t: TimingSettings): (d: map<string, Value>)
    ensures d.Keys == TimingKeys
  {
    map["countdown_seconds" := Int(t.countdownSeconds), "review_seconds" := Int(t.reviewSeconds),
        "idle_timeout_minutes" := Int(t.idleTimeoutMinutes)]
  }

  function CameraToDict(c: CameraSettings): (d: map<string, Value>)
    ensures d.Keys == CameraKeys
  {
    map["use_dummy" := Bool(c.useDummy), "iso" := Str(c.iso), "aperture" := Str(c.aperture),
        "shutter_speed" := Str(c.shutterSpeed), "image_quality" := Str(c.imageQuality),
        "capture_target" := Str(c.captureTarget), "preview_fps" := Int(c.previewFps)]
  }

  function UploadToDict(u: UploadSettings): (d: map<string, Value>)
    ensures d.Keys == UploadKeys
  {
    map["enabled" := Bool(u.enabled), "url" := Str(u.url), "api_key" := Str(u.apiKey),
        "upload_on_capture" := Bool(u.uploadOnCapture), "retry_count" := Int(u.retryCount),
        "timeout_seconds" := Int(u.timeoutSeconds)]
  }

  function StorageToDict(s: StorageSettings): (d: map<string, Value>)
    ensures d.Keys == StorageKeys
  {
    map["save_locally" := Bool(s.saveLocally), "photos_dir" := Str(s.photosDir),
        "filename_pattern" := Str(s.filenamePattern)]
  }

  /** `asdict`: one nested dictionary per section, keyed by the field names. */
  function ToDict(s: Settings): (v: Value)
    ensures v.Dict?
  {
    Dict(map["ui" := Dict(UIToDict(s.ui)), "timing" := Dict(TimingToDict(s.timing)),
             "camera" := Dict(CameraToDict(s.camera)), "upload" := Dict(UploadToDict(s.upload)),
             "storage" := Dict(StorageToDict(s.storage))])
  }

  /** A keyword argument: the given value when present, else the field's default. */
  function StrField(d: map<string, Value>, key: string, dflt: string): (r: Result<string>)
    ensures key !in d ==> r == Ok(dflt)
    ensures key in d ==> (r.Ok? <==> d[key].Str?) && (r.Ok? ==> r.value == d[key].s)
  {
    if key !in d then Ok(dflt)
    else if d[key].Str? then Ok(d[key].s)
    else Err("mistyped field " + key)
  }

  function BoolField(d: map<string, Value>, key: string, dflt: bool): (r: Result<bool>)
    ensures key !in d ==> r == Ok(dflt)
    ensures key in d ==> (r.Ok? <==> d[key].Bool?) && (r.Ok? ==> r.value == d[key].b)
  {
    if key !in d then Ok(dflt)
    else if d[key].Bool? then Ok(d[key].b)
    else Err("mistyped field " + key)
  }

  function IntField(d: map<string, Value>, key: string, dflt: int): (r: Result<int>)
    ensures key !in d ==> r == Ok(dflt)
    ensures key in d ==> (r.Ok? <==> d[key].Int?) && (r.Ok? ==> r.value == d[key].i)
  {
    if key !in d then Ok(dflt)
    else if d[key].Int? then Ok(d[key].i)
    else Err("mistyped field " + key)
  }

  const UnexpectedKeyword: string := "unexpected keyword argument"

  /** A keyword argument that is absent, or present with a value of the field's type. */
  predicate StrOk(d: map<string, Value>, key: string) { key in d ==> d[key].Str? }
  predicate BoolOk(d: map<string, Value>, key: string) { key in d ==> d[key].Bool? }
  predicate IntOk(d: map<string, Value>, key: string) { key in d ==> d[key].Int? }

  /** `UISettings(**d)`: an unknown keyword is refused, a missing one takes its default. */
  function UIFromDict(d: map<string, Value>): (r: Result<UISettings>)
    ensures r.Ok? <==>
              d.Keys <= UIKeys && StrOk(d, "theme") && BoolOk(d, "fullscreen") &&
              BoolOk(d, "show_settings_button") && IntOk(d, "button_size") &&
              IntOk(d, "countdown_font_size") && IntOk(d, "blur_radius")
    ensures r.Ok? ==> r.value.theme == (if "theme" in d then d["theme"].s else DefaultUI().theme)
    ensures r.Ok? ==>
              r.value.fullscreen == (if "fullscreen" in d then d["fullscreen"].b else DefaultUI().fullscreen)
    ensures r.Ok? ==>
              r.value.showSettingsButton == (if "show_settings_button" in d then d["show_settings_button"].b else DefaultUI().showSettingsButton)
    ensures r.Ok? ==>
              r.value.buttonSize == (if "button_size" in d then d["button_size"].i else DefaultUI().buttonSize)
    ensures r.Ok? ==>
              r.value.countdownFontSize == (if "countdown_font_size" in d then d["countdown_font_size"].i else DefaultUI().countdownFontSize)
    ensures r.Ok? ==>
              r.value.blurRadius == (if "blur_radius" in d then d["blur_radius"].i else DefaultUI().blurRadius)
  {
    if !(d.Keys <= UIKeys) then Err(UnexpectedKeyword)
    else
      var theme :- StrField(d, "theme", DefaultUI().theme);
      var fullscreen :- BoolField(d, "fullscreen", DefaultUI().fullscreen);
      var showButton :- BoolField(d, "show_settings_button", DefaultUI().showSettingsButton);
      var buttonSize :- IntField(d, "button_size", DefaultUI().buttonSize);
      var fontSize :- IntField(d, "countdown_font_size", DefaultUI().countdownFontSize);
      var blur :- IntField(d, "blur_radius", DefaultUI().blurRadius);
      Ok(UISettings(theme, fullscreen, showButton, buttonSize, fontSize, blur))
  }

  function TimingFromDict(d: map<string, Value>): (r: Result<TimingSettings>)
    ensures r.Ok? <==>
              d.Keys <= TimingKeys && IntOk(d, "countdown_seconds") && IntOk(d, "review_seconds") &&
              IntOk(d, "idle_timeout_minutes")
    ensures r.Ok? ==>
              r.value.countdownSeconds == (if "countdown_seconds" in d then d["countdown_seconds"].i else DefaultTiming().countdownSeconds)
    ensures r.Ok? ==>
              r.value.reviewSeconds == (if "review_seconds" in d then d["review_seconds"].i else DefaultTiming().reviewSeconds)
    ensures r.Ok? ==>
              r.value.idleTimeoutMinutes == (if "idle_timeout_minutes" in d then d["idle_timeout_minutes"].i else DefaultTiming().idleTimeoutMinutes)
  {
    if !(d.Keys <= TimingKeys) then Err(UnexpectedKeyword)
    else
      var countdown :- IntField(d, "countdown_seconds", DefaultTiming().countdownSeconds);
      var review :- IntField(d, "review_seconds", DefaultTiming().reviewSeconds);
      var idle :- IntField(d, "idle_timeout_minutes", DefaultTiming().idleTimeoutMinutes);
      Ok(TimingSettings(countdown, review, idle))
  }

  function CameraFromDict(d: map<string, Value>): (r: Result<CameraSettings>)
    ensures r.Ok? <==>
              d.Keys <= CameraKeys && BoolOk(d, "use_dummy") && StrOk(d, "iso") &&
              StrOk(d, "aperture") && StrOk(d, "shutter_speed") && StrOk(d, "image_quality") &&
              StrOk(d, "capture_target") && IntOk(d, "preview_fps")
    ensures r.Ok? ==>
              r.value.useDummy == (if "use_dummy" in d then d["use_dummy"].b else DefaultCamera().useDummy)
    ensures r.Ok? ==> r.value.iso == (if "iso" in d then d["iso"].s else DefaultCamera().iso)
    ensures r.Ok? ==>
              r.value.aperture == (if "aperture" in d then d["aperture"].s else DefaultCamera().aperture)
    ensures r.Ok? ==>
              r.value.shutterSpeed == (if "shutter_speed" in d then d["shutter_speed"].s else DefaultCamera().shutterSpeed)
    ensures r.Ok? ==>
              r.value.imageQuality == (if "image_quality" in d then d["image_quality"].s else DefaultCamera().imageQuality)
    ensures r.Ok? ==>
              r.value.captureTarget == (if "capture_target" in d then d["capture_target"].s else DefaultCamera().captureTarget)
    ensures r.Ok? ==>
              r.value.previewFps == (if "preview_fps" in d then d["preview_fps"].i else DefaultCamera().previewFps)
  {
    if !(d.Keys <= CameraKeys) then Err(UnexpectedKeyword)
    else
      var useDummy :- BoolField(d, "use_dummy", DefaultCamera().useDummy);
      var iso :- StrField(d, "iso", DefaultCamera().iso);
      var aperture :- StrField(d, "aperture", DefaultCamera().aperture);
      var shutter :- StrField(d, "shutter_speed", DefaultCamera().shutterSpeed);
      var quality :- StrField(d, "image_quality", DefaultCamera().imageQuality);
      var target :- StrField(d, "capture_target", DefaultCamera().captureTarget);
      var fps :- IntField(d, "preview_fps", DefaultCamera().previewFps);
      Ok(CameraSettings(useDummy, iso, aperture, shutter, quality, target, fps))
  }

  function UploadFromDict(d: map<string, Value>): (r: Result<UploadSettings>)
    ensures r.Ok? <==>
              d.Keys <= UploadKeys && BoolOk(d, "enabled") && StrOk(d, "url") && StrOk(d, "api_key") &&
              BoolOk(d, "upload_on_capture") && IntOk(d, "retry_count") &&
              IntOk(d, "timeout_seconds")
    ensures r.Ok? ==>
              r.value.enabled == (if "enabled" in d then d["enabled"].b else DefaultUpload().enabled)
    ensures r.Ok? ==> r.value.url == (if "url" in d then d["url"].s else DefaultUpload().url)
    ensures r.Ok? ==>
              r.value.apiKey == (if "api_key" in d then d["api_key"].s else DefaultUpload().apiKey)
    ensures r.Ok? ==>
              r.value.uploadOnCapture == (if "upload_on_capture" in d then d["upload_on_capture"].b else DefaultUpload().uploadOnCapture)
    ensures r.Ok? ==>
              r.value.retryCount == (if "retry_count" in d then d["retry_count"].i else DefaultUpload().retryCount)
    ensures r.Ok? ==>
              r.value.timeoutSeconds == (if "timeout_seconds" in d then d["timeout_seconds"].i else DefaultUpload().timeoutSeconds)
  {
    if !(d.Keys <= UploadKeys) then Err(UnexpectedKeyword)
    else
      var enabled :- BoolField(d, "enabled", DefaultUpload().enabled);
      var url :- StrField(d, "url", DefaultUpload().url);
      var apiKey :- StrField(d, "api_key", DefaultUpload().apiKey);
      var onCapture :- BoolField(d, "upload_on_capture", DefaultUpload().uploadOnCapture);
      var retries :- IntField(d, "retry_count", DefaultUpload().retryCount);
      var timeout :- IntField(d, "timeout_seconds", DefaultUpload().timeoutSeconds);
      Ok(UploadSettings(enabled, url, apiKey, onCapture, retries, timeout))
  }

  function StorageFromDict(d: map<string, Value>, home: string): (r: Result<StorageSettings>)
    ensures r.Ok? <==>
              d.Keys <= StorageKeys && BoolOk(d, "save_locally") && StrOk(d, "photos_dir") &&
              StrOk(d, "filename_pattern")
    ensures r.Ok? ==>
              r.value.saveLocally == (if "save_locally" in d then d["save_locally"].b else DefaultStorage(home).saveLocally)
    ensures r.Ok? ==>
              r.value.photosDir == (if "photos_dir" in d then d["photos_dir"].s else DefaultStorage(home).photosDir)
    ensures r.Ok? ==>
              r.value.filenamePattern == (if "filename_pattern" in d then d["filename_pattern"].s else DefaultStorage(home).filenamePattern)
  {
    if !(d.Keys <= StorageKeys) then Err(UnexpectedKeyword)
    else
      var saveLocally :- BoolField(d, "save_locally", DefaultStorage(home).saveLocally);
      var dir :- StrField(d, "photos_dir", DefaultStorage(home).photosDir);
      var pattern :- StrField(d, "filename_pattern", DefaultStorage(home).filenamePattern);
      Ok(StorageSettings(saveLocally, dir, pattern))
  }

  /** `data.get(name, {})`, which must then be a mapping for `**`. */
  function Section(data: map<string, Value>, name: string): (r: Result<map<string, Value>>)
    ensures name !in data ==> r == Ok(map[])
    ensures name in data ==> (r.Ok? <==> data[name].Dict?) && (r.Ok? ==> r.value == data[name].entries)
  {
    if name !in data then Ok(map[])
    else if data[name].Dict? then Ok(data[name].entries)
    else Err("argument after ** must be a mapping")
  }

  /** `Settings.from_dict`: each section from its own sub-dictionary, missing ones at their
      defaults; keys other than the five section names are ignored. */
  function FromDict(data: Value, home: string): (r: Result<Settings>)
    ensures !data.Dict? ==> r.Err?
    ensures r.Ok? && "ui" !in data.entries ==> r.value.ui == DefaultUI()
    ensures r.Ok? && "timing" !in data.entries ==> r.value.timing == DefaultTiming()
    ensures r.Ok? && "camera" !in data.entries ==> r.value.camera == DefaultCamera()
    ensures r.Ok? && "upload" !in data.entries ==> r.value.upload == DefaultUpload()
    ensures r.Ok? && "storage" !in data.entries ==> r.value.storage == DefaultStorage(home)
  {
    if !data.Dict? then Err("'" + "data" + "' has no attribute 'get'")
    else
      var d := data.entries;
      var uiEntries :- Section(d, "ui");
      var ui :- UIFromDict(uiEntries);
      var timingEntries :- Section(d, "timing");
      var timing :- TimingFromDict(timingEntries);
      var cameraEntries :- Section(d, "camera");
      var camera :- CameraFromDict(cameraEntries);
      var uploadEntries :- Section(d, "upload");
      var upload :- UploadFromDict(uploadEntries);
      var storageEntries :- Section(d, "storage");
      var storage :- StorageFromDict(storageEntries, home);
      assert "ui" !in d ==> ui == DefaultUI();
      assert "timing" !in d ==> timing == DefaultTiming();
      assert "camera" !in d ==> camera == DefaultCamera();
      assert "upload" !in d ==> upload == DefaultUpload();
      assert "storage" !in d ==> storage == DefaultStorage(home);
      Ok(Settings(ui, timing, camera, upload, storage))
  }

  /** A section that is absent, or present as a mapping. */
  predicate SectionOk(data: map<string, Value>, name: string)
  {
    name in data ==> data[name].Dict?
  }

  /** The keyword arguments a section is built from: its entries, or none when absent. */
  function SectionEntries(data: map<string, Value>, name: string): map<string, Value>
  {
    if name in data && data[name].Dict? then data[name].entries else map[]
  }

  /** `from_dict` succeeds exactly when every present section is a mapping and every section
      reader accepts its keyword arguments, and then each section is what its reader built. */
  lemma FromDictSections(data: map<string, Value>, home: string)
    ensures FromDict(Dict(data), home).Ok? <==>
              && SectionOk(data, "ui") && UIFromDict(SectionEntries(data, "ui")).Ok?
              && SectionOk(data, "timing") && TimingFromDict(SectionEntries(data, "timing")).Ok?
              && SectionOk(data, "camera") && CameraFromDict(SectionEntries(data, "camera")).Ok?
              && SectionOk(data, "upload") && UploadFromDict(SectionEntries(data, "upload")).Ok?
              && SectionOk(data, "storage") && StorageFromDict(SectionEntries(data, "storage"), home).Ok?
    ensures FromDict(Dict(data), home).Ok? ==>
              FromDict(Dict(data), home).value ==
              Settings(UIFromDict(SectionEntries(data, "ui")).value,
                       TimingFromDict(SectionEntries(data, "timing")).value,
                       CameraFromDict(SectionEntries(data, "camera")).value,
                       UploadFromDict(SectionEntries(data, "upload")).value,
                       StorageFromDict(SectionEntries(data, "storage"), home).value)
  {
    assert SectionOk(data, "ui") ==> Section(data, "ui") == Ok(SectionEntries(data, "ui"));
    assert SectionOk(data, "timing") ==> Section(data, "timing") == Ok(SectionEntries(data, "timing"));
    assert SectionOk(data, "camera") ==> Section(data, "camera") == Ok(SectionEntries(data, "camera"));
    assert SectionOk(data, "upload") ==> Section(data, "upload") == Ok(SectionEntries(data, "upload"));
    assert SectionOk(data, "storage") ==> Section(data, "storage") == Ok(SectionEntries(data, "storage"));
  }

  /** Each section of `to_dict` holds that section's own dictionary. */
  lemma ToDictSections(s: Settings)
    ensures var d := ToDict(s).entries;
            && d["ui"] == Dict(UIToDict(s.ui)) && d["timing"] == Dict(TimingToDict(s.timing))
            && d["camera"] == Dict(CameraToDict(s.camera)) && d["upload"] == Dict(UploadToDict(s.upload))
            && d["storage"] == Dict(StorageToDict(s.storage))
  {
  }

  lemma UIRoundTrip(u: UISettings)
    ensures UIFromDict(UIToDict(u)) == Ok(u)
  {
  }

  lemma TimingRoundTrip(t: TimingSettings)
    ensures TimingFromDict(TimingToDict(t)) == Ok(t)
  {
  }

  lemma CameraRoundTrip(c: CameraSettings)
    ensures CameraFromDict(CameraToDict(c)) == Ok(c)
  {
  }

  lemma UploadRoundTrip(u: UploadSettings)
    ensures UploadFromDict(UploadToDict(u)) == Ok(u)
  {
  }

  lemma StorageRoundTrip(st: StorageSettings, home: string)
    ensures StorageFromDict(StorageToDict(st), home) == Ok(st)
  {
  }

  /** `from_dict(to_dict(s)) == s`. */
  lemma FromDictRoundTrip(s: Settings, home: string)
    ensures FromDict(ToDict(s), home) == Ok(s)
  {
    ToDictSections(s);
    UIRoundTrip(s.ui);
    TimingRoundTrip(s.timing);
    CameraRoundTrip(s.camera);
    UploadRoundTrip(s.upload);
    StorageRoundTrip(s.storage, home);
    var d := ToDict(s).entries;
    assert Section(d, "ui") == Ok(UIToDict(s.ui));
    assert Section(d, "timing") == Ok(TimingToDict(s.timing));
    assert Section(d, "camera") == Ok(CameraToDict(s.camera));
    assert Section(d, "upload") == Ok(UploadToDict(s.upload));
    assert Section(d, "storage") == Ok(StorageToDict(s.storage));
  }

  /** An empty dictionary gives the defaults. */
  lemma FromDictEmpty(home: string)
    ensures FromDict(Dict(map[]), home) == Ok(DefaultSettings(home))
  {
    assert FromDict(Dict(map[]), home).Ok?;
  }

  /** A single overridden field changes that field only; everything else keeps its default. */
  lemma FromDictPartialSection(home: string, n: int)
    ensures FromDict(Dict(map["timing" := Dict(map["countdown_seconds" := Int(n)])]), home) ==
            Ok(DefaultSettings(home).(timing := DefaultTiming().(countdownSeconds := n)))
  {
    var d := map["timing" := Dict(map["countdown_seconds" := Int(n)])];
    assert Section(d, "ui") == Ok(map[]);
    assert Section(d, "timing") == Ok(map["countdown_seconds" := Int(n)]);
  }

  /** An unknown field inside a section makes the conversion fail. */
  lemma FromDictUnknownField(data: map<string, Value>, section: string, key: string, home: string)
    requires section in data && data[section].Dict? && key in data[section].entries
    requires section in SectionKeys && key !in FieldsOf(section)
    ensures FromDict(Dict(data), home).Err?
  {
    var entries := data[section].entries;
    assert Section(data, section) == Ok(entries);
    assert !(entries.Keys <= FieldsOf(section));
  }

  /** Top-level keys other than the five section names do not matter. */
  lemma FromDictIgnoresOtherKeys(data: map<string, Value>, key: string, v: Value, home: string)
    requires key !in SectionKeys
    ensures FromDict(Dict(data[key := v]), home) == FromDict(Dict(data), home)
  {
    var d' := data[key := v];
    assert Section(d', "ui") == Section(data, "ui");
    assert Section(d', "timing") == Section(data, "timing");
    assert Section(d', "camera") == Section(data, "camera");
    assert Section(d', "upload") == Section(data, "upload");
    assert Section(d', "storage") == Section(data, "storage");
  }

  /** What opening and parsing the settings file gave. */
  datatype SettingsFile = Missing | Unreadable(reason: string) | Parsed(content: Value)

  /** `path or SETTINGS_FILE`. */
  function SettingsPath(path: Option<string>, home: string): (p: string)
    ensures path.Some? ==> p == path.value
    ensures path.None? ==> p == home + "/.config/pibox5/settings.yaml"
  {
    if path.Some? then path.value else home + "/.config/pibox5/settings.yaml"
  }

  /** `load_settings`: the parsed settings, or the defaults on any failure on the way. */
  function LoadSettings(file: SettingsFile, home: string): (s: Settings)
    ensures file.Missing? || file.Unreadable? ==> s == DefaultSettings(home)
    ensures file.Parsed? && Falsy(file.content) ==> s == DefaultSettings(home)
    ensures file.Parsed? && !Falsy(file.content) ==>
              s == (if FromDict(file.content, home).Ok? then FromDict(file.content, home).value
                    else DefaultSettings(home))
  {
    match file
    case Missing => DefaultSettings(home)
    case Unreadable(_) => DefaultSettings(home)
    case Parsed(content) =>
      var data := if Falsy(content) then Dict(map[]) else content;
      match FromDict(data, home)
      case Ok(s) => s
      case Err(_) => FromDictEmpty(home); DefaultSettings(home)
  }

  /** Whether creating the directory, opening and dumping went through. */
  datatype WriteOutcome = Written | WriteFailed(reason: string)

  /** What `save_settings` did: `ok` is its return value; `written` holds the settings whose
      `to_dict` the file now contains. */
  datatype SaveReport = SaveReport(ok: bool, written: Option<Settings>)

  /** `save_settings`: True exactly when the write went through, and then the file holds `to_dict`. */
  function SaveSettings(s: Settings, outcome: WriteOutcome): (r: SaveReport)
    ensures r.ok <==> outcome.Written?
    ensures r.ok ==> r.written == Some(s)
    ensures !r.ok ==> r.written == None
  {
    match outcome
    case Written => SaveReport(true, Some(s))
    case WriteFailed(_) => SaveReport(false, None)
  }

  /** The dictionary of any settings is a non-empty mapping, so loading never replaces it by `{}`. */
  lemma ToDictNotFalsy(s: Settings)
    ensures ToDict(s).Dict? && !Falsy(ToDict(s))
  {
    ToDictSections(s);
    assert "ui" in ToDict(s).entries;
  }

  /** Settings saved successfully load back unchanged. */
  lemma LoadAfterSave(s: Settings, home: string)
    ensures var saved := SaveSettings(s, Written);
            LoadSettings(Parsed(ToDict(saved.written.value)), home) == s
  {
    ToDictNotFalsy(s);
    FromDictRoundTrip(s, home);
  }

  /** An unknown field in the file yields the defaults. */
  lemma LoadUnknownFieldGivesDefaults(data: map<string, Value>, section: string, key: string, home: string)
    requires section in data && data[section].Dict? && key in data[section].entries
    requires section in SectionKeys && key !in FieldsOf(section)
    ensures LoadSettings(Parsed(Dict(data)), home) == DefaultSettings(home)
  {
    FromDictUnknownField(data, section, key, home);
  }
}
