/** The `AmscopeCamera` object: its handle, sizes and buffers, the capture
    flag and the last still image, the capture index and the settings, with
    every SDK command it sends appended to `log` and every image it writes
    appended to `files`. */
module AmScope {
  import opened PyValues
  import opened Hardware
  import opened CameraSettings
  import opened Buffers
  import opened FrameQuality
  import opened Persistence

  /** One entry of the SDK's camera enumeration. */
  datatype CameraInfo = CameraInfo(displayName: string, id: string, device: Device)

  /** The events the SDK's pull-mode callback delivers. */
  datatype Event = EventStillImage | EventImage | EventExpoStart | EventOther

  /** The bit depth the camera pulls images at. */
  const PullBits: nat := 24

  /** The commands the apply step issues from put statement k on: none when
      there is no handle (the first put raises AttributeError), otherwise
      the planned ones up to the first rejected. */
  function ApplyFrom(camera: Option<Device>, s: Settings, k: nat): seq<HwCall> {
    match camera
    case None => []
    case Some(dev) => Issued(PutsFrom(s, k), dev.rejects)
  }

  function ApplyLog(camera: Option<Device>, s: Settings): seq<HwCall> {
    ApplyFrom(camera, s, 0)
  }

  /** The image `_processFrame` stores for a device: its still bytes in a
      zeroed buffer of the still resolution, reshaped to (height, width, 3). */
  function StillImageOf(dev: Device): (img: Frame)
    ensures img.width == dev.stillSize.0 && img.height == dev.stillSize.1
  {
    var w, h := dev.stillSize.0, dev.stillSize.1;
    Reshape(Fill(Zeros(StillBufferSize(w, h)), dev.still), h, w)
  }

  /** Every pixel of a stored still image is read from the buffer the SDK
      filled: the delivered byte at its offset, or 0 past the delivered ones. */
  lemma StillImagePixels(dev: Device, r: nat, c: nat, ch: nat)
    requires r < dev.stillSize.1 && c < dev.stillSize.0 && ch < 3
    ensures var off := Offset(dev.stillSize.0, r, c, ch);
      StillImageOf(dev).px[r][c][ch] == if off < |dev.still| then dev.still[off] else 0
  {
    var w, h := dev.stillSize.0, dev.stillSize.1;
    var buf := Fill(Zeros(StillBufferSize(w, h)), dev.still);
    OffsetInBounds(h, w, r, c, ch);
    assert StillImageOf(dev).px[r][c] == PixelAt(buf, h, w, r, c);
  }

  class AmscopeCamera {
    var camera: Option<Device>
    var frame: Option<seq<Byte>>
    var width: nat
    var height: nat
    var name: string
    var printerPosition: Position
    var isTakingImage: bool
    var buffer: seq<Byte>
    var lastImage: Option<Frame>
    var captureIndex: int
    const capturePath: string
    const captureName: string
    var settings: Settings
    var log: seq<HwCall>
    var files: seq<(string, Frame)>

    /** The preview buffer always holds one padded frame of the reported
      size, and an open handle reports the size the buffer was made for; so
      a frame `Stream` pulls has the padded length of the current size. */
    predicate Valid()
      reads this
    {
      && |buffer| == PreviewBufferLength(width, height)
      && (camera.Some? ==> (width, height) == camera.value.size)
    }

    /** The class-level defaults. */
    constructor ()
      ensures Valid()
      ensures camera == None && frame == None && width == 0 && height == 0 && name == ""
      ensures printerPosition == Position(0, 0, 0) && !isTakingImage && buffer == []
      ensures lastImage == None && captureIndex == 1
      ensures capturePath == "./output/" && captureName == "test"
      ensures settings == Defaults() && log == [] && files == []
    {
      camera := None;
      frame := None;
      width, height := 0, 0;
      name := "";
      printerPosition := Position(0, 0, 0);
      isTakingImage := false;
      buffer := [];
      lastImage := None;
      captureIndex := 1;
      capturePath := "./output/";
      captureName := "test";
      settings := Defaults();
      log := [];
      files := [];
    }

    /** Opens the first camera found, sizes the preview buffer and starts
      the stream; a rejected open leaves the handle as it was, and the
      stream is started either way. */
    method Initialize(available: seq<CameraInfo>, config: Option<map<string, Value>>) returns (o: Outcome)
      requires Valid()
      modifies this`name, this`log, this`camera, this`width, this`height, this`buffer, this`settings
      ensures Valid()
      ensures |available| == 0 ==> o == Fail(NoCameraFound) && unchanged(this)
      ensures |available| > 0 ==> name == available[0].displayName
      ensures |available| > 0 && !available[0].device.rejects(Open(available[0].id)) ==>
        camera == Some(available[0].device) && (width, height) == available[0].device.size
        && buffer == Zeros(PreviewBufferLength(width, height))
      ensures |available| > 0 && available[0].device.rejects(Open(available[0].id)) ==>
        camera == old(camera) && width == old(width) && height == old(height) && buffer == old(buffer)
      ensures |available| > 0 ==> settings == Load(old(settings), config)
      ensures |available| > 0 ==>
        log == old(log) + [Open(available[0].id)] + ApplyLog(camera, settings)
          + (if camera.Some? then [StartPullMode] else [])
      ensures |available| > 0 ==> o == (if camera.Some? then Pass else Fail(AttributeError))
    {
      if |available| == 0 {
        return Fail(NoCameraFound);
      }
      OpenCamera(available[0]);
      o := StartStream(config);
    }

    /** `amcam.Amcam.Open(id)`, then the size query and the preview buffer;
      a rejected open is caught and leaves the handle and its buffer as
      they were. */
    method OpenCamera(info: CameraInfo)
      requires Valid()
      modifies this`name, this`log, this`camera, this`width, this`height, this`buffer
      ensures Valid()
      ensures name == info.displayName && log == old(log) + [Open(info.id)]
      ensures !info.device.rejects(Open(info.id)) ==>
        camera == Some(info.device) && (width, height) == info.device.size
        && buffer == Zeros(PreviewBufferLength(width, height))
      ensures info.device.rejects(Open(info.id)) ==>
        camera == old(camera) && width == old(width) && height == old(height) && buffer == old(buffer)
    {
      name := info.displayName;
      log := log + [Open(info.id)];
      if !info.device.rejects(Open(info.id)) {
        camera := Some(info.device);
        width, height := info.device.size.0, info.device.size.1;
        buffer := Zeros(PreviewBufferLength(width, height));
      }
    }

    /** Reset, load and apply the settings, then start pull mode; only the
      SDK's own rejection is caught around the start. */
    method StartStream(config: Option<map<string, Value>>) returns (o: Outcome)
      modifies this`settings, this`log
      ensures settings == Load(old(settings), config)
      ensures camera.None? ==> o == Fail(AttributeError) && log == old(log)
      ensures camera.Some? ==> o == Pass && log == old(log) + ApplyLog(camera, settings) + [StartPullMode]
    {
      ResetCameraSettings();
      LoadCameraSettings(config);
      var noKeywords: map<string, Value> := map[];
      MergeIgnoresUnknownKeys(settings, noKeywords);
      var merged := SetCameraSettings(noKeywords);
      match camera
      case None =>
        o := Fail(AttributeError);
      case Some(dev) =>
        log := log + [StartPullMode];
        o := Pass;
    }

    /** As written, the reset assigns the defaults to local names only, so
      the camera's settings keep whatever values they had. */
    method ResetCameraSettings()
      ensures settings == old(settings)
    {
    }

    /** `self._field = settings[key]` for the fields `fs` in order; a
      missing key raises KeyError, which ends the run. */
    method LoadKeys(m: map<string, Value>, fs: seq<Field>)
      modifies this`settings
      ensures settings == LoadFrom(old(settings), m, fs)
    {
      var k := 0;
      assert fs[0..] == fs;
      while k < |fs|
        invariant 0 <= k <= |fs|
        invariant LoadFrom(old(settings), m, fs) == LoadFrom(settings, m, fs[k..])
      {
        var f := fs[k];
        assert fs[k..][0] == f && fs[k..][1..] == fs[k + 1..];
        if Key(f) !in m {
          return;
        }
        settings := Set(settings, f, m[Key(f)]);
        k := k + 1;
      }
    }

    /** Assigns the parsed configuration key by key; the first missing key
      raises KeyError, which ends the load with the earlier fields assigned.
      A missing or unreadable file assigns nothing. */
    method LoadCameraSettings(config: Option<map<string, Value>>)
      modifies this`settings
      ensures settings == Load(old(settings), config)
    {
      match config
      case None =>
      case Some(m) =>
        LoadKeys(m, Fields());
    }

    /** The `if key in kwargs: self._field = ...` statements for the fields
      `fs` in order; a value that cannot be coerced raises, which ends the
      run. */
    method MergeKeywords(kw: map<string, Value>, fs: seq<Field>) returns (o: Outcome)
      modifies this`settings
      ensures (settings, o) == MergeFrom(old(settings), kw, fs)
    {
      var k := 0;
      assert fs[..0] == [];
      while k < |fs|
        invariant 0 <= k <= |fs|
        invariant MergeFrom(old(settings), kw, fs[..k]) == (settings, Pass)
      {
        var f := fs[k];
        assert fs[..k + 1][..k] == fs[..k];
        if Key(f) in kw {
          var v := Coerce(f, kw[Key(f)]);
          if v.Err? {
            MergeFromFailedPrefix(old(settings), kw, fs, k + 1);
            return Fail(v.error);
          }
          settings := Set(settings, f, v.value);
        }
        k := k + 1;
      }
      assert fs[..k] == fs;
      o := Pass;
    }

    /** Merges the keyword update into the settings, then sends them to the
      camera; a value that cannot be coerced raises before anything is
      sent. */
    method SetCameraSettings(kw: map<string, Value>) returns (o: Outcome)
      modifies this`settings, this`log
      ensures (settings, o) == Merge(old(settings), kw)
      ensures o.Fail? ==> log == old(log)
      ensures o.Pass? ==> log == old(log) + ApplyLog(camera, settings)
    {
      o := MergeKeywords(kw, Fields());
      if o.Pass? {
        ApplySettings();
      }
    }

    /** Sends `calls` one after the other inside one `try`: a rejected
      command raises, which ends the run. */
    method IssueCalls(calls: seq<HwCall>, dev: Device)
      modifies this`log
      ensures log == old(log) + Issued(calls, dev.rejects)
    {
      var i := 0;
      while i < |calls|
        invariant 0 <= i <= |calls|
        invariant log == old(log) + calls[..i]
        invariant forall j :: 0 <= j < i ==> !dev.rejects(calls[j])
      {
        log := log + [calls[i]];
        assert calls[..i + 1] == calls[..i] + [calls[i]];
        if dev.rejects(calls[i]) {
          IssuedStopsAtRejection(calls, dev.rejects, i);
          return;
        }
        i := i + 1;
      }
      assert calls[..i] == calls;
      IssuedAllAccepted(calls, dev.rejects);
    }

    /** The apply step: the guarded put statements send the planned
      commands in order; the exception a rejection raises is caught. Without
      a handle the first put raises AttributeError, also caught, and nothing
      is sent. */
    method ApplySettings()
      modifies this`log
      ensures log == old(log) + ApplyLog(camera, settings)
    {
      match camera
      case None =>
      case Some(dev) =>
        IssueCalls(PlannedCalls(settings), dev);
    }

    /** The twelve-value projection of the settings. */
    method GetCameraSettings() returns (r: seq<Value>)
      ensures r == Snapshot(settings)
    {
      r := Snapshot(settings);
    }

    /** Pulls a preview frame into the buffer; only the SDK's rejection is
      caught. */
    method Stream() returns (o: Outcome)
      requires Valid()
      modifies this`buffer, this`frame, this`width, this`height, this`log
      ensures Valid()
      ensures camera.None? ==> o == Fail(AttributeError) && unchanged(this)
      ensures camera.Some? ==> o == Pass && log == old(log) + [PullImage(PullBits)]
      ensures camera.Some? && camera.value.rejects(PullImage(PullBits)) ==>
        buffer == old(buffer) && frame == old(frame) && width == old(width) && height == old(height)
      ensures camera.Some? && !camera.value.rejects(PullImage(PullBits)) ==>
        && buffer == Fill(old(buffer), camera.value.preview) && frame == Some(buffer)
        && (width, height) == camera.value.size
      ensures frame.Some? && frame != old(frame) ==> |frame.value| == PreviewBufferLength(width, height)
    {
      match camera
      case None =>
        return Fail(AttributeError);
      case Some(dev) =>
        log := log + [PullImage(PullBits)];
        if !dev.rejects(PullImage(PullBits)) {
          buffer := Fill(buffer, dev.preview);
          width, height := dev.size.0, dev.size.1;
          frame := Some(buffer);
        }
        o := Pass;
    }

    /** Records the printer position, marks a capture in progress and asks
      the camera for a still image. */
    method CaptureImage(position: seq<Position>) returns (o: Outcome)
      modifies this`printerPosition, this`isTakingImage, this`log
      ensures |position| == 0 ==> o == Fail(IndexError) && unchanged(this)
      ensures |position| > 0 ==> printerPosition == position[0] && isTakingImage
      ensures |position| > 0 && camera.None? ==> o == Fail(AttributeError) && log == old(log)
      ensures |position| > 0 && camera.Some? ==>
        log == old(log) + [Snap(0)]
        && o == (if camera.value.rejects(Snap(0)) then Fail(HResultError) else Pass)
    {
      if |position| == 0 {
        return Fail(IndexError);
      }
      printerPosition := position[0];
      isTakingImage := true;
      match camera
      case None =>
        o := Fail(AttributeError);
      case Some(dev) =>
        log := log + [Snap(0)];
        o := if dev.rejects(Snap(0)) then Fail(HResultError) else Pass;
    }

    /** The still-image handler: pulls the still into a fresh buffer and
      stores it reshaped as the last image. Nothing here catches a
      rejection, so a rejected pull leaves the capture flag set. */
    method ProcessFrame() returns (o: Outcome)
      modifies this`isTakingImage, this`lastImage, this`log
      ensures camera.None? ==>
        o == Fail(AttributeError) && isTakingImage && lastImage == old(lastImage) && log == old(log)
      ensures camera.Some? ==> log == old(log) + [PullStillImage(PullBits)]
      ensures camera.Some? && camera.value.rejects(PullStillImage(PullBits)) ==>
        o == Fail(HResultError) && isTakingImage && lastImage == old(lastImage)
      ensures camera.Some? && !camera.value.rejects(PullStillImage(PullBits)) ==>
        o == Pass && !isTakingImage && lastImage == Some(StillImageOf(camera.value))
    {
      isTakingImage := true;
      match camera
      case None =>
        return Fail(AttributeError);
      case Some(dev) =>
        var camWidth, camHeight := dev.stillSize.0, dev.stillSize.1;
        var bufferSize := StillBufferSize(camWidth, camHeight);
        var buf := Zeros(bufferSize);
        log := log + [PullStillImage(PullBits)];
        if dev.rejects(PullStillImage(PullBits)) {
          return Fail(HResultError);
        }
        buf := Fill(buf, dev.still);
        lastImage := Some(Reshape(buf, camHeight, camWidth));
        isTakingImage := false;
        o := Pass;
    }

    /** Dispatches an SDK event: a still image is processed, a preview image
      streamed, and every other event changes nothing. */
    method CameraCallback(event: Event) returns (o: Outcome)
      requires Valid()
      modifies this`isTakingImage, this`lastImage, this`buffer, this`frame, this`width, this`height, this`log
      ensures Valid()
      ensures event == EventExpoStart || event == EventOther ==> o == Pass && unchanged(this)
      ensures event != EventStillImage ==> lastImage == old(lastImage) && isTakingImage == old(isTakingImage)
      ensures event != EventImage ==>
        buffer == old(buffer) && frame == old(frame) && width == old(width) && height == old(height)
      ensures event == EventStillImage && camera.None? ==>
        o == Fail(AttributeError) && isTakingImage && lastImage == old(lastImage) && log == old(log)
      ensures event == EventStillImage && camera.Some? ==> log == old(log) + [PullStillImage(PullBits)]
      ensures event == EventStillImage && camera.Some? && camera.value.rejects(PullStillImage(PullBits)) ==>
        o == Fail(HResultError) && isTakingImage && lastImage == old(lastImage)
      ensures event == EventStillImage && camera.Some? && !camera.value.rejects(PullStillImage(PullBits)) ==>
        o == Pass && !isTakingImage && lastImage == Some(StillImageOf(camera.value))
      ensures event == EventImage && camera.None? ==> o == Fail(AttributeError) && unchanged(this)
      ensures event == EventImage && camera.Some? ==> o == Pass && log == old(log) + [PullImage(PullBits)]
      ensures event == EventImage && camera.Some? && camera.value.rejects(PullImage(PullBits)) ==>
        buffer == old(buffer) && frame == old(frame) && width == old(width) && height == old(height)
      ensures event == EventImage && camera.Some? && !camera.value.rejects(PullImage(PullBits)) ==>
        && buffer == Fill(old(buffer), camera.value.preview) && frame == Some(buffer)
        && (width, height) == camera.value.size
    {
      match event
      case EventStillImage =>
        o := ProcessFrame();
      case EventImage =>
        o := Stream();
      case EventExpoStart =>
        o := Pass;
      case EventOther =>
        o := Pass;
    }

    /** The last image's file name under `folder`. */
    function ImageName(folder: string): Result<string>
      reads this
    {
      FileName(capturePath, folder, captureName, captureIndex, printerPosition, settings.imageFileFormat)
    }

    /** Writes the last image under the next name and then advances the
      capture index; a failure at any step raises, writes nothing and
      leaves the index alone. */
    method SaveImage(folder: string, fsys: FileSystem) returns (o: Outcome)
      requires !isTakingImage
      modifies this`captureIndex, this`files
      ensures var dir := Directory(capturePath, folder);
        var name := old(ImageName(folder));
        && (!fsys.canCreate(dir) ==> o == Fail(OsError))
        && (fsys.canCreate(dir) && name.Err? ==> o == Fail(TypeError))
        && (fsys.canCreate(dir) && name.Ok? && lastImage.None? ==> o == Fail(AttributeError))
        && (fsys.canCreate(dir) && name.Ok? && lastImage.Some? && !fsys.canWrite(name.value) ==>
              o == Fail(WriteError))
        && (fsys.canCreate(dir) && name.Ok? && lastImage.Some? && fsys.canWrite(name.value) ==>
              o == Pass && files == old(files) + [(name.value, lastImage.value)]
              && captureIndex == old(captureIndex) + 1)
      ensures o.Fail? ==> files == old(files) && captureIndex == old(captureIndex)
    {
      var dir := Directory(capturePath, folder);
      if !fsys.canCreate(dir) {
        return Fail(OsError);
      }
      var name := FileName(capturePath, folder, captureName, captureIndex, printerPosition,
                           settings.imageFileFormat);
      if name.Err? {
        return Fail(name.error);
      }
      if lastImage.None? {
        return Fail(AttributeError);
      }
      if !fsys.canWrite(name.value) {
        return Fail(WriteError);
      }
      files := files + [(name.value, lastImage.value)];
      captureIndex := captureIndex + 1;
      o := Pass;
    }

    /** Capture, then wait for the still image and save it. The SDK's
      still-image event is taken to arrive once after the snap; when its
      handler raises, the capture flag stays set and the wait never ends. */
    method CaptureAndSaveImage(position: seq<Position>, fsys: FileSystem) returns (o: Outcome)
      modifies this`printerPosition, this`isTakingImage, this`lastImage, this`log
      modifies this`captureIndex, this`files
      ensures |position| == 0 ==> o == Fail(IndexError) && unchanged(this)
      ensures |position| > 0 ==> printerPosition == position[0]
      ensures o.Fail? ==> captureIndex == old(captureIndex) && files == old(files)
      ensures |position| > 0 && camera.None? ==>
        o == Fail(AttributeError) && isTakingImage && lastImage == old(lastImage) && log == old(log)
      ensures |position| > 0 && camera.Some? && camera.value.rejects(Snap(0)) ==>
        o == Fail(HResultError) && isTakingImage && lastImage == old(lastImage) && log == old(log) + [Snap(0)]
      ensures (|position| > 0 && camera.Some? && !camera.value.rejects(Snap(0))
               && camera.value.rejects(PullStillImage(PullBits))) ==>
        o == Fail(Stalled) && isTakingImage && lastImage == old(lastImage)
        && log == old(log) + [Snap(0), PullStillImage(PullBits)]
      ensures (|position| > 0 && camera.Some? && !camera.value.rejects(Snap(0))
               && !camera.value.rejects(PullStillImage(PullBits))) ==>
        var dir := Directory(capturePath, "");
        var name := FileName(capturePath, "", captureName, old(captureIndex), position[0], settings.imageFileFormat);
        var img := StillImageOf(camera.value);
        && !isTakingImage && lastImage == Some(img)
        && log == old(log) + [Snap(0), PullStillImage(PullBits)]
        && (!fsys.canCreate(dir) ==> o == Fail(OsError))
        && (fsys.canCreate(dir) && name.Err? ==> o == Fail(TypeError))
        && (fsys.canCreate(dir) && name.Ok? && !fsys.canWrite(name.value) ==> o == Fail(WriteError))
        && (fsys.canCreate(dir) && name.Ok? && fsys.canWrite(name.value) ==>
              o == Pass && files == old(files) + [(name.value, img)]
              && captureIndex == old(captureIndex) + 1)
    {
      o := CaptureImage(position);
      if o.Fail? {
        return;
      }
      o := ProcessFrame();
      if o.Fail? {
        return Fail(Stalled);
      }
      o := SaveImage("", fsys);
    }

    /** Whether the last image is black: the standard deviation of some
      colour channel is below 5. */
    method IsBlack() returns (r: Result<bool>)
      requires !isTakingImage
      ensures lastImage.None? ==> r == Err(TypeError)
      ensures lastImage.Some? ==> r == Ok(BlackFrame(lastImage.value))
    {
      if lastImage.None? {
        return Err(TypeError);
      }
      var img := lastImage.value;
      var n := img.height * img.width;
      var spread: seq<int> := [];
      var i := 0;
      while i < 3
        invariant 0 <= i <= 3 && |spread| == i
        invariant forall j :: 0 <= j < i ==> spread[j] == ScaledVariance(ChannelValues(img, j))
      {
        var channel := ChannelValues(img, i);
        spread := spread + [ScaledVariance(channel)];
        i := i + 1;
      }
      ChannelValuesLength(img, 0);
      ChannelValuesLength(img, 1);
      ChannelValuesLength(img, 2);
      r := Ok(spread[0] < 25 * n * n || spread[1] < 25 * n * n || spread[2] < 25 * n * n);
    }

    /** The focus score of the last image. */
    method IsInFocus(score: Frame -> real) returns (r: Result<real>)
      requires !isTakingImage
      ensures lastImage.None? ==> r == Err(AttributeError)
      ensures lastImage.Some? ==>
        var img := lastImage.value;
        && (r.Ok? <==> img.height >= 2 && img.width >= 2)
        && (r.Err? ==> r.error == CvError)
        && (r.Ok? ==> exists i :: 0 <= i < 4 && r.value == QuadrantScore(img, score, i))
        && (r.Ok? ==> forall i :: 0 <= i < 4 ==> QuadrantScore(img, score, i) <= r.value)
    {
      if lastImage.None? {
        return Err(AttributeError);
      }
      r := CalculateQuadrantFocus(lastImage.value, score);
    }

    /** Closes the handle and forgets it; a rejected close raises and keeps
      the handle. */
    method Close() returns (o: Outcome)
      requires Valid()
      modifies this`camera, this`log
      ensures Valid()
      ensures old(camera).None? ==> o == Fail(AttributeError) && unchanged(this)
      ensures old(camera).Some? ==> log == old(log) + [CloseCamera]
      ensures old(camera).Some? && old(camera).value.rejects(CloseCamera) ==>
        o == Fail(HResultError) && camera == old(camera)
      ensures old(camera).Some? && !old(camera).value.rejects(CloseCamera) ==> o == Pass && camera == None
    {
      match camera
      case None =>
        return Fail(AttributeError);
      case Some(dev) =>
        log := log + [CloseCamera];
        if dev.rejects(CloseCamera) {
          return Fail(HResultError);
        }
        camera := None;
        o := Pass;
    }
  }
}
