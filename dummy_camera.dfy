/** The synthetic camera (pibox5/camera/dummy_camera.py): a keyed option table updated
    in place, a frame counter, and connect/disconnect that never fail. Pixel synthesis
    and JPEG encoding are not modelled: the encoder's output is a parameter. */
module DummyCamera {
  import opened Common
  import opened CameraBase

  /** The option keys in the order the table was built. */
  const KeyOrder: seq<string> := ["iso", "aperture", "shutterspeed", "imageformat"]

  const IsoChoices: seq<string> := ["auto", "100", "200", "400", "800", "1600"]

  /** The simulated settings the camera starts with. */
  function InitialSettings(): (m: map<string, CameraConfig>)
  {
    map[
      "iso" := MakeConfig("iso", "ISO", "400", IsoChoices),
      "aperture" := MakeConfig("aperture", "Blende", "5.6", ["auto", "2.8", "4.0", "5.6", "8.0", "11", "16"]),
      "shutterspeed" := MakeConfig("shutterspeed", "Verschlusszeit", "1/125",
                                   ["auto", "1/30", "1/60", "1/125", "1/250", "1/500"]),
      "imageformat" := MakeConfig("imageformat", "Bildqualität", "Large Fine JPEG",
                                  ["Large Fine JPEG", "Large Normal JPEG", "RAW"])
    ]
  }

  /** The table invariant: exactly the four keys, each entry named by its key and
      holding one of its own choices. */
  ghost predicate TableOk(m: map<string, CameraConfig>)
  {
    (forall k :: k in m <==> k in KeyOrder) &&
    (forall k :: k in m ==> m[k].name == k && m[k].value in m[k].choices)
  }

  /** The initial table satisfies the invariant. */
  lemma InitialSettingsOk()
    ensures TableOk(InitialSettings())
  {
    var m := InitialSettings();
    assert m["iso"].value == "400" && IsoChoices[3] == "400";
    assert m["aperture"].choices[3] == "5.6";
    assert m["shutterspeed"].choices[3] == "1/125";
    assert m["imageformat"].choices[0] == "Large Fine JPEG";
  }

  class DummyCamera {
    const base: CameraBase
    const width: nat
    const height: nat
    var frameCount: nat
    var settings: map<string, CameraConfig>

    ghost predicate Valid()
      reads this
    {
      TableOk(settings)
    }

    constructor (width: nat, height: nat)
      ensures Valid() && fresh(base)
      ensures !base.connected && !base.previewActive
      ensures this.width == width && this.height == height
      ensures frameCount == 0 && settings == InitialSettings()
    {
      base := new CameraBase();
      this.width := width;
      this.height := height;
      frameCount := 0;
      settings := InitialSettings();
      new;
      InitialSettingsOk();
    }

    /** Always succeeds; a second call leaves the camera connected as well. */
    method Connect() returns (ok: bool)
      modifies base
      ensures ok && base.connected
      ensures base.previewActive == old(base.previewActive)
    {
      base.connected := true;
      ok := true;
    }

    /** Clears both flags, whatever they were. */
    method Disconnect()
      modifies base
      ensures !base.connected && !base.previewActive
    {
      base.connected := false;
      base.previewActive := false;
    }

    /** Refuses when disconnected; otherwise counts the frame and returns it. */
    method GetPreviewFrame() returns (frame: Option<PreviewFrame>)
      modifies this`frameCount
      ensures !base.connected ==> frame == None && frameCount == old(frameCount)
      ensures base.connected ==> frameCount == old(frameCount) + 1 &&
                                 frame == Some(PreviewFrame(width, height, frameCount))
    {
      if !base.connected {
        return None;
      }
      frameCount := frameCount + 1;
      frame := Some(PreviewFrame(width, height, frameCount));
    }

    /** `jpeg` stands for the encoder's output for the synthesized picture. */
    method CapturePhoto(jpeg: Bytes) returns (r: CaptureResult)
      ensures !base.connected ==> r == CaptureFailed(NotConnectedMessage)
      ensures base.connected ==> r.success && r.imageData == Some(jpeg) && r.errorMessage == None
      ensures base.connected ==> r == Captured(jpeg) && r.filePath == None
    {
      if !base.connected {
        return CaptureFailed(NotConnectedMessage);
      }
      r := Captured(jpeg);
    }

    /** Dictionary lookup; the synthetic camera answers even when disconnected. */
    function GetConfig(name: string): (c: Option<CameraConfig>)
      reads this
      requires Valid()
      ensures c.Some? <==> name in KeyOrder
      ensures c.Some? ==> c.value == settings[name]
      ensures c.Some? ==> c.value.name == name && c.value.value in c.value.choices
    {
      if name in settings then Some(settings[name]) else None
    }

    /** Replaces the entry's value when `name` is known and `value` is one of its choices;
        `readonly` is never consulted. Everything else in the table stays as it was. */
    method SetConfig(name: string, value: string) returns (ok: bool)
      requires Valid()
      modifies this`settings
      ensures Valid()
      ensures ok <==> name in old(settings) && value in old(settings)[name].choices
      ensures ok ==> settings == old(settings)[name := old(settings)[name].(value := value)]
      ensures !ok ==> settings == old(settings)
    {
      if name in settings {
        var config := settings[name];
        if value in config.choices {
          settings := settings[name := CameraConfig(config.name, config.caption, value,
                                                    config.choices, config.readonly)];
          return true;
        }
        return false;
      }
      return false;
    }

    /** The table's keys in insertion order, connected or not. */
    function ListConfigs(): (names: seq<string>)
      reads this
      requires Valid()
      ensures names == ["iso", "aperture", "shutterspeed", "imageformat"]
      ensures forall k :: k in names <==> k in settings
    {
      KeyOrder
    }

    function GetCameraInfo(): (info: CameraInfo)
      reads this, base
      ensures info.connected == base.connected && info.previewActive == base.previewActive
      ensures info.model == Some("PiBox5 Dummy Camera") && info.serial == Some("DUMMY-001")
      ensures info.resolution == Some(NatToString(width) + "x" + NatToString(height))
      ensures info.frameCount == Some(frameCount)
    {
      base.GetCameraInfo().(model := Some("PiBox5 Dummy Camera"), serial := Some("DUMMY-001"),
                            resolution := Some(NatToString(width) + "x" + NatToString(height)),
                            frameCount := Some(frameCount))
    }

    /** `with camera:` entry: connects and hands back the same camera. */
    method Enter() returns (self: DummyCamera)
      modifies base
      ensures self == this && base.connected
    {
      var _ := Connect();
      self := this;
    }

    /** `with camera:` exit: disconnects and does not suppress the exception. */
    method Exit() returns (suppress: bool)
      modifies base
      ensures !suppress && !base.connected && !base.previewActive
    {
      Disconnect();
      suppress := false;
    }
  }

  /** Setting `iso` to a value outside its choices is refused and changes nothing. */
  method IsoOutsideChoicesRefused()
  {
    var cam := new DummyCamera(800, 480);
    assert cam.settings["iso"].choices == IsoChoices;
    assert "999" !in IsoChoices;
    var before := cam.settings;
    var ok := cam.SetConfig("iso", "999");
    assert !ok && cam.settings == before;
  }

  /** Setting `iso` to one of its choices changes that entry only. */
  method IsoChoiceAccepted()
  {
    var cam := new DummyCamera(800, 480);
    assert cam.settings["iso"].choices == IsoChoices && IsoChoices[4] == "800";
    var before := cam.settings;
    var ok := cam.SetConfig("iso", "800");
    assert ok && cam.settings["iso"].value == "800" && cam.settings["aperture"] == before["aperture"];
  }
}
