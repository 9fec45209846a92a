/** The camera abstraction every backend shares (pibox5/camera/base.py): the option and
    capture records, and the connected/preview flags with the operations the base
    class implements itself. Backends embed a `CameraBase` object for these flags. */
module CameraBase {
  import opened Common

  /** One adjustable camera option. `readonly` defaults to false. */
  datatype CameraConfig = CameraConfig(name: string, caption: string, value: string,
                                       choices: seq<string>, readonly: bool)

  /** `CameraConfig(name, label, value, choices)` with the default `readonly`; the label
      is called `caption` here because `label` is a Dafny keyword. */
  function MakeConfig(name: string, caption: string, value: string, choices: seq<string>): (c: CameraConfig)
    ensures !c.readonly
    ensures c.name == name && c.caption == caption && c.value == value && c.choices == choices
  {
    CameraConfig(name, caption, value, choices, false)
  }

  /** Outcome of one capture. The optional fields default to `None`. */
  datatype CaptureResult = CaptureResult(success: bool, imageData: Option<Bytes>,
                                         filePath: Option<string>, errorMessage: Option<string>)

  /** `CaptureResult(success=False, error_message=msg)`. */
  function CaptureFailed(msg: string): (r: CaptureResult)
    ensures !r.success && r.errorMessage == Some(msg)
    ensures r.imageData == None && r.filePath == None
  {
    CaptureResult(false, None, None, Some(msg))
  }

  /** `CaptureResult(success=True, image_data=data)`. */
  function Captured(data: Bytes): (r: CaptureResult)
    ensures r.success && r.imageData == Some(data)
    ensures r.filePath == None && r.errorMessage == None
  {
    CaptureResult(true, Some(data), None, None)
  }

  const NotConnectedMessage: string := "Camera not connected"

  /** A preview frame: `height` rows of `width` three-byte pixels. The pixels themselves
      are not modelled; `frameNumber` is the counter a synthetic frame shows. */
  datatype PreviewFrame = PreviewFrame(width: nat, height: nat, frameNumber: nat)

  /** What a call to `get_preview_frame` gives the preview loop: a frame or `None`, or an
      exception that escapes the method. */
  datatype PreviewFetch = Fetched(frame: Option<PreviewFrame>) | Escaped(message: string)

  /** The dictionary `get_camera_info` returns; backends add the optional keys. */
  datatype CameraInfo = CameraInfo(connected: bool, previewActive: bool,
                                   model: Option<string>, serial: Option<string>,
                                   backend: Option<string>, resolution: Option<string>,
                                   frameCount: Option<nat>, gphoto2Available: Option<bool>)

  /** The flags held by every camera. */
  class CameraBase {
    var connected: bool
    var previewActive: bool

    constructor ()
      ensures !connected && !previewActive
    {
      connected := false;
      previewActive := false;
    }

    function IsConnected(): (b: bool)
      reads this
      ensures b <==> connected
    {
      connected
    }

    function IsPreviewActive(): (b: bool)
      reads this
      ensures b <==> previewActive
    {
      previewActive
    }

    method StartPreview() returns (ok: bool)
      modifies this
      ensures ok && previewActive
      ensures connected == old(connected)
    {
      previewActive := true;
      ok := true;
    }

    method StopPreview()
      modifies this
      ensures !previewActive
      ensures connected == old(connected)
    {
      previewActive := false;
    }

    /** The base part of the info dictionary: exactly the two flags, no backend keys. */
    function GetCameraInfo(): (info: CameraInfo)
      reads this
      ensures info.connected == connected && info.previewActive == previewActive
      ensures info.model == None && info.serial == None && info.backend == None
      ensures info.resolution == None && info.frameCount == None && info.gphoto2Available == None
    {
      CameraInfo(connected, previewActive, None, None, None, None, None, None)
    }
  }
}
