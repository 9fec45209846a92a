/** The hardware camera adapter (pibox5/camera/gphoto2_camera.py). Every call into the
    device-control library is an oracle parameter that either returns a value or raises;
    the adapter turns each raise into `false`, `None` or a failed `CaptureResult`.
    The device's configuration is a tree of widgets. */
module GPhoto2Camera {
  import opened Common
  import opened CameraBase

  /** What one library call did: returned a value, or raised an error with a message. */
  datatype Backend<T> = Done(value: T) | Raised(message: string)

  /** What the image library raises for bytes it cannot read as an image. */
  const UndecodableMessage: string := "cannot identify image file"

  datatype WidgetKind = Window | Section | Text | Range | Toggle | Radio | Menu | Button | Date

  /** One configuration widget. `value` is the printed value (`str(widget.get_value())`),
      `None` for widgets that hold no value, whose `get_value` raises. */
  datatype Widget = Widget(name: string, caption: string, kind: WidgetKind, value: Option<string>,
                           choices: seq<string>, readonly: bool, children: seq<Widget>)

  /** Common option names and their paths in the device's configuration tree. */
  const ConfigMapping: map<string, string> := map[
    "iso" := "/main/imgsettings/iso",
    "aperture" := "/main/capturesettings/aperture",
    "shutterspeed" := "/main/capturesettings/shutterspeed",
    "imageformat" := "/main/imgsettings/imageformat",
    "imageformatsd" := "/main/imgsettings/imageformatsd",
    "whitebalance" := "/main/imgsettings/whitebalance",
    "focusmode" := "/main/capturesettings/focusmode"
  ]

  /** The mapped path, or the name itself when it is not mapped (or maps to ""). */
  function ConfigPath(name: string): (path: string)
    ensures name !in ConfigMapping ==> path == name
    ensures name in ConfigMapping && ConfigMapping[name] != "" ==> path == ConfigMapping[name]
  {
    if name in ConfigMapping && ConfigMapping[name] != "" then ConfigMapping[name] else name
  }

  /** The widget name looked up for an option: the last `/`-segment of its path. */
  function WidgetKey(name: string): (key: string)
    ensures '/' !in key
    ensures name !in ConfigMapping && '/' !in name ==> key == name
    ensures name in ConfigMapping ==> key == name
  {
    MappedKeysAreOwnNames(name);
    LastSegment(ConfigPath(name))
  }

  /** The four options the table keeps under the image settings. */
  lemma ImageSettingsEntries(name: string)
    requires name == "iso" || name == "imageformat" || name == "imageformatsd" || name == "whitebalance"
    ensures name in ConfigMapping && ConfigMapping[name] == "/main/imgsettings" + "/" + name
    ensures '/' !in name
  {
  }

  /** The three options the table keeps under the capture settings. */
  lemma CaptureSettingsEntries(name: string)
    requires name == "aperture" || name == "shutterspeed" || name == "focusmode"
    ensures name in ConfigMapping && ConfigMapping[name] == "/main/capturesettings" + "/" + name
    ensures '/' !in name
  {
  }

  /** Every mapped path ends in the very name it is mapped from. */
  lemma MappedKeysAreOwnNames(name: string)
    ensures name in ConfigMapping ==> LastSegment(ConfigMapping[name]) == name
  {
    if name == "aperture" || name == "shutterspeed" || name == "focusmode" {
      CaptureSettingsEntries(name);
      LastSegmentOfJoin("/main/capturesettings", name);
    } else if name in ConfigMapping {
      ImageSettingsEntries(name);
      LastSegmentOfJoin("/main/imgsettings", name);
    }
  }

  /** The last segment of `dir/leaf` is `leaf` when the leaf has no slash. */
  lemma LastSegmentOfJoin(dir: string, leaf: string)
    requires '/' !in leaf
    ensures LastSegment(dir + "/" + leaf) == leaf
  {
    var s := dir + "/" + leaf;
    assert s[|dir| + 1..] == leaf;
    LastSegmentAfterSlash(s, |dir|);
  }

  /** When the character at `i` is the last slash, the last segment is what follows it. */
  lemma {:induction false} LastSegmentAfterSlash(s: string, i: nat)
    requires i < |s| && s[i] == '/' && '/' !in s[i + 1..]
    ensures LastSegment(s) == s[i + 1..]
    decreases |s|
  {
    if i < |s| - 1 {
      var t := s[..|s| - 1];
      assert t[i + 1..] == s[i + 1..|s| - 1];
      assert s[|s| - 1] in s[i + 1..];
      LastSegmentAfterSlash(t, i);
      assert s[i + 1..] == t[i + 1..] + [s[|s| - 1]];
    }
  }

  predicate IsListable(k: WidgetKind)
  {
    k == Text || k == Radio || k == Menu || k == Toggle || k == Range
  }

  predicate IsContainer(k: WidgetKind)
  {
    k == Section || k == Window
  }

  /** The path of a widget under `path`: the bare name at the root, else `path/name`. */
  function ChildPath(path: string, name: string): (p: string)
    ensures path == "" ==> p == name
    ensures path != "" ==> IsPrefix(path + "/", p) && p[|path| + 1..] == name
  {
    if path == "" then name else path + "/" + name
  }

  /** Choices are reported only for radio and menu widgets. */
  function ChoicesOf(w: Widget): (cs: seq<string>)
    ensures (w.kind == Radio || w.kind == Menu) ==> cs == w.choices
    ensures !(w.kind == Radio || w.kind == Menu) ==> cs == []
  {
    if w.kind == Radio || w.kind == Menu then w.choices else []
  }

  /** The loop of `get_config` that collects the choices one at a time. */
  method ReadChoices(w: Widget) returns (cs: seq<string>)
    ensures cs == ChoicesOf(w)
  {
    cs := [];
    if w.kind == Radio || w.kind == Menu {
      var i := 0;
      while i < |w.choices|
        invariant 0 <= i <= |w.choices|
        invariant cs == w.choices[..i]
      {
        cs := cs + [w.choices[i]];
        i := i + 1;
      }
      assert w.choices[..|w.choices|] == w.choices;
    }
  }

  /** Some widget of the tree, the root included, is called `key`. */
  ghost predicate HasNamed(w: Widget, key: string)
    decreases w
  {
    w.name == key || exists i :: 0 <= i < |w.children| && HasNamed(w.children[i], key)
  }

  /** `get_child_by_name`: the first widget called `key` in a depth-first, root-first walk;
      `None` where the library raises. */
  function FindChild(w: Widget, key: string): (r: Option<Widget>)
    ensures r.Some? <==> HasNamed(w, key)
    ensures r.Some? ==> r.value.name == key
    decreases w, 1
  {
    if w.name == key then Some(w) else FindInChildren(w.children, key)
  }

  function FindInChildren(ws: seq<Widget>, key: string): (r: Option<Widget>)
    ensures r.Some? <==> exists i :: 0 <= i < |ws| && HasNamed(ws[i], key)
    ensures r.Some? ==> r.value.name == key
    decreases ws, 0
  {
    if ws == [] then None
    else
      var first := FindChild(ws[0], key);
      if first.Some? then first
      else
        var rest := FindInChildren(ws[1..], key);
        assert forall i :: 1 <= i < |ws| ==> ws[i] == ws[1..][i - 1];
        rest
  }

  /** The paths `_list_config_recursive` collects below `path`, in pre-order. */
  function ConfigPaths(w: Widget, path: string): seq<string>
    decreases w, 1
  {
    var here := ChildPath(path, w.name);
    (if IsListable(w.kind) then [here] else []) +
    (if IsContainer(w.kind) then ChildrenPaths(w.children, here) else [])
  }

  function ChildrenPaths(ws: seq<Widget>, path: string): seq<string>
    decreases ws, 0
  {
    if ws == [] then [] else ConfigPaths(ws[0], path) + ChildrenPaths(ws[1..], path)
  }

  /** `p` is the path of a listable widget reached from `w` through containers only. */
  ghost predicate ListedAt(w: Widget, path: string, p: string)
    decreases w
  {
    var here := ChildPath(path, w.name);
    (IsListable(w.kind) && p == here) ||
    (IsContainer(w.kind) && exists i :: 0 <= i < |w.children| && ListedAt(w.children[i], here, p))
  }

  /** The listing holds exactly the paths of the listable widgets reachable through
      sections and windows. */
  lemma {:induction false} ConfigPathsExact(w: Widget, path: string, p: string)
    ensures p in ConfigPaths(w, path) <==> ListedAt(w, path, p)
    decreases w, 1
  {
    var here := ChildPath(path, w.name);
    if IsContainer(w.kind) {
      ChildrenPathsExact(w.children, here, p);
    }
  }

  lemma {:induction false} ChildrenPathsExact(ws: seq<Widget>, path: string, p: string)
    ensures p in ChildrenPaths(ws, path) <==> exists i :: 0 <= i < |ws| && ListedAt(ws[i], path, p)
    decreases ws, 0
  {
    if ws != [] {
      ConfigPathsExact(ws[0], path, p);
      ChildrenPathsExact(ws[1..], path, p);
      assert forall i :: 1 <= i < |ws| ==> ws[i] == ws[1..][i - 1];
      if exists i :: 0 <= i < |ws| && ListedAt(ws[i], path, p) {
        var i :| 0 <= i < |ws| && ListedAt(ws[i], path, p);
        if i > 0 {
          assert ListedAt(ws[1..][i - 1], path, p);
        }
      }
    }
  }

  /** Appending one more child's listing extends the children's listing. */
  lemma {:induction false} ChildrenPathsSnoc(ws: seq<Widget>, i: nat, path: string)
    requires i < |ws|
    ensures ChildrenPaths(ws[..i + 1], path) == ChildrenPaths(ws[..i], path) + ConfigPaths(ws[i], path)
    decreases i
  {
    if i == 0 {
      assert ws[..1][1..] == [];
    } else {
      assert ws[..i + 1][1..] == ws[1..][..i];
      assert ws[..i][1..] == ws[1..][..i - 1];
      ChildrenPathsSnoc(ws[1..], i - 1, path);
    }
  }

  class GPhoto2Camera {
    const base: CameraBase
    /** `self._camera is not None` */
    var hasHandle: bool
    /** `self._context is not None` */
    var hasContext: bool
    var model: string
    var serial: string

    constructor ()
      ensures fresh(base) && !base.connected && !base.previewActive
      ensures !hasHandle && !hasContext && model == "Unknown" && serial == "Unknown"
    {
      base := new CameraBase();
      hasHandle := false;
      hasContext := false;
      model := "Unknown";
      serial := "Unknown";
    }

    /** `init` is the device's `init()` and `get_abilities()` (its value: the model name);
        `config` is the `get_config()` read that supplies the serial number. */
    method Connect(init: Backend<string>, config: Backend<Widget>) returns (ok: bool)
      modifies this, base
      ensures hasContext && hasHandle
      ensures ok <==> init.Done?
      ensures base.connected == ok && base.previewActive == old(base.previewActive)
      ensures init.Raised? ==> model == old(model) && serial == old(serial)
      ensures init.Done? ==> model == init.value && serial == SerialNumber(config)
    {
      hasContext := true;
      hasHandle := true;
      if init.Raised? {
        base.connected := false;
        return false;
      }
      model := init.value;
      serial := SerialNumber(config);
      base.connected := true;
      ok := true;
    }

    /** Releases the handle (an error from the device's `exit()` is ignored) and always ends
        disconnected with the preview stopped. */
    method Disconnect()
      modifies this, base
      ensures !hasHandle && !hasContext
      ensures !base.connected && !base.previewActive
      ensures model == old(model) && serial == old(serial)
    {
      hasHandle := false;
      hasContext := false;
      base.connected := false;
      base.previewActive := false;
    }

    predicate Usable()
      reads this, base
    {
      base.connected && hasHandle
    }

    /** `device` is the live-view capture and the read of its bytes, whose errors are
        caught; `decode` is opening those bytes as an image, `None` where that raises. Only
        the device's errors are caught, so a failed decode escapes the method. */
    method GetPreviewFrame(device: Backend<Bytes>, decode: Bytes -> Option<PreviewFrame>)
      returns (r: PreviewFetch)
      ensures !Usable() ==> r == Fetched(None)
      ensures Usable() && device.Raised? ==> r == Fetched(None)
      ensures Usable() && device.Done? && decode(device.value).Some? ==> r == Fetched(decode(device.value))
      ensures r.Escaped? <==> Usable() && device.Done? && decode(device.value).None?
      ensures r.Escaped? ==> r.message == UndecodableMessage
    {
      if !base.connected || !hasHandle {
        return Fetched(None);
      }
      match device
      case Raised(_) =>
        r := Fetched(None);
      case Done(data) =>
        var image := decode(data);
        if image.Some? {
          r := Fetched(image);
        } else {
          r := Escaped(UndecodableMessage);
        }
    }

    /** `autofocusOk` is what the autofocus attempt reported; it is never consulted.
        `device` is the capture, the download, and reading the downloaded bytes. */
    method CapturePhoto(autofocusOk: bool, device: Backend<Bytes>) returns (r: CaptureResult)
      ensures !Usable() ==> r == CaptureFailed(NotConnectedMessage)
      ensures Usable() ==> (r.success <==> device.Done?)
      ensures Usable() && device.Done? ==> r == Captured(device.value)
      ensures Usable() && device.Raised? ==>
                r == CaptureFailed("Capture failed: " + device.message) &&
                IsPrefix("Capture failed: ", r.errorMessage.value)
    {
      if !base.connected || !hasHandle {
        return CaptureFailed(NotConnectedMessage);
      }
      match device
      case Done(data) => r := Captured(data);
      case Raised(e) => r := CaptureFailed("Capture failed: " + e);
    }

    /** Reads the widget called `WidgetKey(name)`; any library error gives `None`. */
    method GetConfig(name: string, config: Backend<Widget>) returns (c: Option<CameraConfig>)
      ensures !Usable() || config.Raised? ==> c == None
      ensures c.Some? ==>
                config.Done? && FindChild(config.value, WidgetKey(name)).Some? &&
                var w := FindChild(config.value, WidgetKey(name)).value;
                w.value.Some? && c.value == CameraConfig(name, w.caption, w.value.value, ChoicesOf(w), w.readonly)
      ensures Usable() && config.Done? ==>
                (c.Some? <==> (var f := FindChild(config.value, WidgetKey(name));
                               f.Some? && f.value.value.Some?))
    {
      if !base.connected || !hasHandle {
        return None;
      }
      if config.Raised? {
        return None;
      }
      var found := FindChild(config.value, WidgetKey(name));
      if found.None? || found.value.value.None? {
        return None;
      }
      var w := found.value;
      var choices := ReadChoices(w);
      c := Some(CameraConfig(name, w.caption, w.value.value, choices, w.readonly));
    }

    /** Writes `value` into the widget called `WidgetKey(name)` unless it is read-only.
        `sent` is the (widget, value) pair handed to the device; `write` is what the
        device's `set_value`/`set_config` did with it. */
    method SetConfig(name: string, value: string, config: Backend<Widget>, write: Backend<()>)
      returns (ok: bool, sent: Option<(string, string)>)
      ensures !Usable() || config.Raised? ==> !ok && sent == None
      ensures Usable() && config.Done? ==>
                var f := FindChild(config.value, WidgetKey(name));
                (sent.Some? <==> f.Some? && !f.value.readonly) &&
                (ok <==> sent.Some? && write.Done?)
      ensures sent.Some? ==> sent.value == (WidgetKey(name), value)
    {
      if !base.connected || !hasHandle {
        return false, None;
      }
      if config.Raised? {
        return false, None;
      }
      var found := FindChild(config.value, WidgetKey(name));
      if found.None? {
        return false, None;
      }
      if found.value.readonly {
        return false, None;
      }
      sent := Some((WidgetKey(name), value));
      ok := write.Done?;
    }

    /** All configurable widget paths; `[]` when disconnected or on a library error. */
    method ListConfigs(config: Backend<Widget>) returns (names: seq<string>)
      ensures !Usable() || config.Raised? ==> names == []
      ensures Usable() && config.Done? ==> names == ConfigPaths(config.value, "")
    {
      if !base.connected || !hasHandle {
        return [];
      }
      match config
      case Raised(_) => names := [];
      case Done(root) => names := ListConfigRecursive(root, [], "");
    }

    function GetCameraInfo(): (info: CameraInfo)
      reads this, base
      ensures info.connected == base.connected && info.previewActive == base.previewActive
      ensures info.model == Some(model) && info.serial == Some(serial)
      ensures info.backend == Some("gPhoto2") && info.gphoto2Available == Some(true)
    {
      base.GetCameraInfo().(model := Some(model), serial := Some(serial),
                            backend := Some("gPhoto2"), gphoto2Available := Some(true))
    }

    method Enter(init: Backend<string>, config: Backend<Widget>) returns (self: GPhoto2Camera)
      modifies this, base
      ensures self == this && base.connected == init.Done?
    {
      var _ := Connect(init, config);
      self := this;
    }

    method Exit() returns (suppress: bool)
      modifies this, base
      ensures !suppress && !base.connected && !base.previewActive
    {
      Disconnect();
      suppress := false;
    }
  }

  /** The serial number read during connect, "N/A" when reading it fails. */
  function SerialNumber(config: Backend<Widget>): (s: string)
    ensures config.Raised? ==> s == "N/A"
    ensures config.Done? && !HasNamed(config.value, "serialnumber") ==> s == "N/A"
    ensures config.Done? && FindChild(config.value, "serialnumber").Some? ==>
              var w := FindChild(config.value, "serialnumber").value;
              s == (if w.value.Some? then w.value.value else "N/A")
  {
    match config
    case Raised(_) => "N/A"
    case Done(root) =>
      match FindChild(root, "serialnumber")
      case None => "N/A"
      case Some(w) => if w.value.Some? then w.value.value else "N/A"
  }

  /** `_list_config_recursive`: appends the paths of `w`'s subtree to `configs`. */
  method ListConfigRecursive(w: Widget, configs: seq<string>, path: string) returns (out: seq<string>)
    ensures out == configs + ConfigPaths(w, path)
    decreases w, 1
  {
    var here := ChildPath(path, w.name);
    out := configs;
    if IsListable(w.kind) {
      out := out + [here];
    }
    if IsContainer(w.kind) {
      out := ListChildren(w, out, here);
    }
  }

  /** The loop of `_list_config_recursive` over the children of a section or window. */
  method ListChildren(w: Widget, configs: seq<string>, here: string) returns (out: seq<string>)
    ensures out == configs + ChildrenPaths(w.children, here)
    decreases w, 0
  {
    out := configs;
    var i := 0;
    while i < |w.children|
      invariant 0 <= i <= |w.children|
      invariant out == configs + ChildrenPaths(w.children[..i], here)
    {
      ChildrenPathsSnoc(w.children, i, here);
      out := ListConfigRecursive(w.children[i], out, here);
      i := i + 1;
    }
    assert w.children[..|w.children|] == w.children;
  }
}
