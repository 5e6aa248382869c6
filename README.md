# AmscopeCamera core in Dafny

This project models the `AmscopeCamera` class of tree-core (`Camera/AmScopeCamera.py`). That class drives a microscope camera over the amcam SDK. It holds:

- sixteen image settings;
- a padded 24-bit preview buffer;
- a capture flag and the last still image;
- a running capture index for saved files.

The model has seven modules:

- `PyValues` (`values.dfy`): the Python values that flow through the settings (None, bool, int, str, list, tuple). It also holds the exceptions the class raises and the built-ins it applies: `int(...)`, `str(int)` and indexing.
- `Hardware` (`hardware.dfy`): the SDK commands the class issues, and a `Device` value that says which commands the camera rejects, what sizes it reports and what bytes it delivers. `Issued` describes a run of commands inside one `try`: everything up to and including the first rejected command reaches the device.
- `CameraSettings` (`settings.dfy`):
  - the settings record and its class defaults;
  - the keyword merge of `setCameraSettings`, with its coercions;
  - the key-by-key `loadCameraSettings`;
  - the twelve-value `getCameraSettings`;
  - the ordered put commands of the apply step.
- `Buffers` (`buffers.dfy`): the preview stride and buffer length, and the still buffer of `w*h*3` bytes reshaped to `(h, w, 3)`.
- `FrameQuality` (`quality.dfy`):
  - the black-frame test, stated exactly in integers and proved equal to "population variance below 25";
  - the four-quadrant split and the best-quadrant maximum of the focus measure.
- `Persistence` (`persistence.dfy`): the file name `saveImage` builds, and its uniqueness.
- `AmScope` (`camera.dfy`): the class `AmscopeCamera` with its mutable fields. Every SDK command is appended to `log`, and every written image to `files`. Each public Python method of the class that the model covers has a counterpart, and `OpenCamera`, `LoadKeys`, `MergeKeywords`, `IssueCalls` and `ApplySettings` model blocks inside them. Each method is proved against the functions of the other modules.

The hardware is not simulated. Its answers are parameters:

- the enumeration result;
- the parsed configuration;
- a `Device` (the rejected commands, sizes and delivered bytes), fixed for as long as the handle is held;
- a `FileSystem` (which directories can be created and which names written);
- the per-quadrant focus score, an uninterpreted function `Frame -> real`.

Three behaviours of the code are easy to misread, and the model follows the code as written:

- The comment at `Camera/AmScopeCamera.py:109` says the reset restores the defaults. Its assignments at lines 111-126 go to local names, so `ResetCameraSettings` is a no-op.
- Every put statement of the apply step sits inside one `try` (lines 231-253), so the first rejected command ends the run and later commands are not sent. See `ApplySettings` and `Hardware.IssuedStopsAtRejection`.
- `captureImage` (lines 296-300) does not check the capture flag. A capture while another is in progress simply overwrites the position and sets the flag again, and `CaptureImage` does the same.

## Model

| member | source | states |
|---|---|---|
| AmScope.AmscopeCamera.constructor | Camera/AmScopeCamera.py:15-46 | every class attribute starts at its class-level default: no handle, index 1, path "./output/", name "test", the sixteen default settings |
| AmScope.AmscopeCamera.Initialize | Camera/AmScopeCamera.py:48-68 | no camera found raises and changes nothing; otherwise the first camera's name is taken, an accepted open sets handle, size and a zeroed buffer of the padded length, a rejected open keeps them, and the stream is started either way (settings loaded, apply commands then StartPullMode logged, AttributeError without a handle) |
| AmScope.AmscopeCamera.OpenCamera | Camera/AmScopeCamera.py:55-61 | the open is logged; on acceptance the handle, the reported size and a preview buffer of `PreviewBufferLength(w, h)` zero bytes are set; a rejection is caught and leaves them as they were |
| AmScope.AmscopeCamera.StartStream | Camera/AmScopeCamera.py:70-77 | settings become the loaded ones; the apply commands and then StartPullMode are logged; without a handle nothing is logged and AttributeError escapes |
| AmScope.AmscopeCamera.ResetCameraSettings | Camera/AmScopeCamera.py:111-126 | as written, the settings are unchanged |
| AmScope.AmscopeCamera.LoadKeys | Camera/AmScopeCamera.py:133-148 | the loop assigns exactly what `LoadFrom` specifies: fields in order up to the first missing key |
| AmScope.AmscopeCamera.LoadCameraSettings | Camera/AmScopeCamera.py:128-154 | settings become `Load(old, config)`; a missing or unreadable file assigns nothing |
| AmScope.AmscopeCamera.MergeKeywords | Camera/AmScopeCamera.py:183-228 | the statement-by-statement merge yields exactly `MergeFrom`'s settings and outcome, including the stop at the first value that cannot be coerced |
| AmScope.AmscopeCamera.SetCameraSettings | Camera/AmScopeCamera.py:183-253 | settings and outcome are those of `Merge`; a coercion error sends nothing; otherwise exactly the apply commands for the new settings are logged |
| AmScope.AmscopeCamera.IssueCalls | Camera/AmScopeCamera.py:231-253 | the log grows by exactly the commands issued before and including the first rejected one |
| AmScope.AmscopeCamera.ApplySettings | Camera/AmScopeCamera.py:231-253 | the log grows by `ApplyLog`: the planned commands up to the first rejection, nothing without a handle |
| AmScope.AmscopeCamera.GetCameraSettings | Camera/AmScopeCamera.py:255-269 | returns the twelve-value snapshot of the settings |
| AmScope.AmscopeCamera.Stream | Camera/AmScopeCamera.py:275-281 | without a handle AttributeError and no change; the pull is logged; an accepted pull fills the buffer with the delivered bytes, keeps its length, records the frame (of the padded length `PreviewBufferLength(w, h)` of the new size) and the reported size; a rejected pull is caught and changes nothing else |
| AmScope.AmscopeCamera.CaptureImage | Camera/AmScopeCamera.py:296-300 | an empty position list raises IndexError with no change; otherwise position[0] is recorded, the flag set, Snap(0) logged and a rejection raised |
| AmScope.AmscopeCamera.ProcessFrame | Camera/AmScopeCamera.py:302-312 | the still pull is logged; on acceptance the last image becomes the delivered bytes reshaped to the still resolution and the flag is cleared; a rejection raises with the flag still set and the old image kept |
| AmScope.AmscopeCamera.CameraCallback | Camera/AmScopeCamera.py:80-87 | a still event has exactly `ProcessFrame`'s outcomes (AttributeError without a handle, the logged still pull, a raise with the flag left set on rejection, the stored still and cleared flag on acceptance); an image event has exactly `Stream`'s (AttributeError and no change without a handle, the logged pull, nothing else on rejection, the filled buffer, frame and size on acceptance); any other event changes nothing; each branch leaves the other branch's state alone |
| AmScope.AmscopeCamera.SaveImage | Camera/AmScopeCamera.py:314-330 | each failure (directory, non-string format, no image, write) raises its own error, writes nothing and keeps the index; a success writes the last image under `FileName(...)` and advances the index by exactly one |
| AmScope.AmscopeCamera.CaptureAndSaveImage | Camera/AmScopeCamera.py:289-294 | position[0] is recorded after the IndexError check; every failure writes nothing and keeps the index; no handle or a rejected Snap raises with the flag set and the image kept; a failing still handler leaves the flag set so the wait never ends; otherwise the still becomes the last image, Snap then the still pull are logged, and the save fails with OsError, TypeError or WriteError exactly as `SaveImage` does, or writes the still under `FileName(capturePath, "", captureName, index, position[0], format)` and advances the index by one |
| AmScope.AmscopeCamera.IsBlack | Camera/AmScopeCamera.py:332-346 | the loop over three channels returns `BlackFrame` of the last image; no image raises TypeError |
| AmScope.AmscopeCamera.IsInFocus | Camera/AmScopeCamera.py:402-408 | no image raises; otherwise the result of the quadrant focus measure on the last image |
| AmScope.AmscopeCamera.Close | Camera/AmScopeCamera.py:410-412 | without a handle AttributeError and no change; the close is logged; an accepted close forgets the handle, a rejected one raises and keeps it |
| AmScope.StillImageOf | Camera/AmScopeCamera.py:304-311 | the stored image has the still resolution's width and height |
| AmScope.StillImagePixels | Camera/AmScopeCamera.py:304-311 | every channel of every pixel of the stored still is the delivered byte at offset (r·w + c)·3 + ch, or 0 past the delivered bytes |
| Buffers.PreviewStrideBounds | Camera/AmScopeCamera.py:61 | the stride `((w*24+31)//32)*4` is a multiple of 4 and between 3·w (inclusive) and 3·w + 4 (exclusive) |
| Buffers.PreviewStrideUnpadded | Camera/AmScopeCamera.py:61 | a row has no padding exactly when the width is a multiple of 4 |
| Buffers.PreviewBufferHoldsFrame | Camera/AmScopeCamera.py:61 | the preview buffer is a whole number of words, holds the 3·w·h frame bytes and at most 3 padding bytes per row |
| Buffers.Zeros | Camera/AmScopeCamera.py:61 | `bytes(n)` has n bytes, all zero |
| Buffers.Fill | Camera/AmScopeCamera.py:277 | the SDK's write keeps the buffer's length, puts the delivered bytes at its front and leaves the rest as it was |
| Buffers.OffsetInBounds | Camera/AmScopeCamera.py:304-310 | every pixel channel's offset lies inside the w·h·3 still buffer |
| Buffers.OffsetInjective | Camera/AmScopeCamera.py:304-310 | distinct pixels or channels use distinct bytes |
| Buffers.OffsetOnto | Camera/AmScopeCamera.py:304-310 | every byte of the still buffer is some pixel's channel |
| Buffers.PixelAt | Camera/AmScopeCamera.py:309-310 | a reshaped pixel has three channels, read from offsets (r·w + c)·3 + ch |
| Buffers.RowAt | Camera/AmScopeCamera.py:309-310 | a reshaped row holds w pixels, each the one at its offset |
| Buffers.Reshape | Camera/AmScopeCamera.py:309-310 | the reshaped image has height h and width w, and pixel (r, c) is read from its offset |
| Buffers.ReshapeKeepsEveryByte | Camera/AmScopeCamera.py:309-310 | reshaping loses no byte: byte i is pixel (i/3/w, i/3 mod w), channel i mod 3 |
| Hardware.IssuedIsPrefix | Camera/AmScopeCamera.py:231-253 | the commands that reach the device are a prefix of those planned, all accepted but the last, and the run stops short only at a rejection |
| Hardware.IssuedAllAccepted | Camera/AmScopeCamera.py:231-253 | when the device accepts all commands, all are issued |
| Hardware.IssuedStopsAtRejection | Camera/AmScopeCamera.py:231-253 | the first rejected command is the last one issued |
| Hardware.IssuedAppendAccepted | Camera/AmScopeCamera.py:231-253 | after an accepted block of commands, the run goes on into the next block |
| Hardware.IssuedAppendRejected | Camera/AmScopeCamera.py:231-253 | a rejection in one block keeps every later block from being sent |
| Hardware.IssuedCons | Camera/AmScopeCamera.py:231-253 | one command then more: a rejection ends the run right there |
| PyValues.TupleOfIndexes | Camera/AmScopeCamera.py:192-197 | building the n-tuple succeeds exactly when every index below n succeeds, and then holds the n indexed items in order |
| PyValues.ParseIntRoundTrip | Camera/AmScopeCamera.py:184 | `int(str(n)) == n` for every integer |
| PyValues.DigitsRoundTrip | Camera/AmScopeCamera.py:325 | the decimal digits of n read back as n |
| PyValues.NatToStringInjective | Camera/AmScopeCamera.py:325 | distinct non-negative integers have distinct decimal forms |
| CameraSettings.SetGet | Camera/AmScopeCamera.py:133-148 | assigning a field changes that field and no other |
| CameraSettings.SettingsExtensional | Camera/AmScopeCamera.py:31-46 | two settings records that agree on all sixteen fields are equal |
| CameraSettings.FieldsDistinct | Camera/AmScopeCamera.py:133-148 | the sixteen fields are visited once each |
| CameraSettings.FieldsComplete | Camera/AmScopeCamera.py:133-148 | every field is visited |
| CameraSettings.MergeFromFailedPrefix | Camera/AmScopeCamera.py:183-228 | once a statement raised, later statements do not run |
| CameraSettings.MergeFromKeeps | Camera/AmScopeCamera.py:183-228 | a field not listed, or whose key is absent, keeps its value whatever happens |
| CameraSettings.MergeFromPasses | Camera/AmScopeCamera.py:183-228 | the statements raise nothing exactly when every present value can be coerced |
| CameraSettings.MergeFromSets | Camera/AmScopeCamera.py:183-228 | after a merge that raised nothing, a present key's field holds its coerced value |
| CameraSettings.MergeFromUpdated | Camera/AmScopeCamera.py:183-228 | after a merge that raised nothing, each listed field holds its updated value |
| CameraSettings.MergeKeepsAbsent | Camera/AmScopeCamera.py:183-228 | a field whose key is absent keeps its value |
| CameraSettings.MergePasses | Camera/AmScopeCamera.py:183-228 | the merge raises exactly when some present value cannot be coerced |
| CameraSettings.MergeSetsPresent | Camera/AmScopeCamera.py:183-228 | after a merge that raised nothing, every field holds the coerced keyword value if its key is present and its old value otherwise |
| CameraSettings.MergePartialUpdate | Camera/AmScopeCamera.py:183-228 | the merge changes exactly the fields whose key is present, raises exactly when some value cannot be coerced, and otherwise stores the coerced values |
| CameraSettings.MergeFromFails | Camera/AmScopeCamera.py:183-228 | a merge that raises stopped at the first statement whose value failed to coerce, with that error: every statement before it raised nothing and its field is updated, it and the later ones are untouched |
| CameraSettings.StoppedAtUnique | Camera/AmScopeCamera.py:183-228 | the statement a merge stopped at, and its error, are unique |
| CameraSettings.MergeIgnoresUnknownKeys | Camera/AmScopeCamera.py:183-228 | keys that name no field are ignored: the merge passes and changes nothing |
| CameraSettings.SharpnessNotRecognised | Camera/AmScopeCamera.py:176 | the docstring's `sharpness` key is ignored; only `sharpening` is read |
| CameraSettings.Snapshot | Camera/AmScopeCamera.py:255-269 | the snapshot has twelve values, the i-th the value of the i-th snapshot field |
| CameraSettings.SnapshotAfterMerge | Camera/AmScopeCamera.py:183-228 | after a merge that raised nothing, `getCameraSettings` returns the coerced keyword value in its key's position |
| CameraSettings.CoerceSnapshotField | Camera/AmScopeCamera.py:184-224 | for `auto_expo`, `sharpening` and `linear` the stored value is `int(v)`, and the coercion fails exactly when `int(v)` does; the other snapshot keys store v itself |
| CameraSettings.SnapshotOmits | Camera/AmScopeCamera.py:255-269 | the level ranges, gamma and white-balance gain do not affect the snapshot |
| CameraSettings.FirstMissing | Camera/AmScopeCamera.py:133-148 | the position of the first missing key: every key before it is present |
| CameraSettings.LoadFromPrefix | Camera/AmScopeCamera.py:133-148 | loading distinct fields assigns the loaded value to those before the first missing key and keeps the rest |
| CameraSettings.LoadKeepsUnlisted | Camera/AmScopeCamera.py:133-148 | fields that are not loaded keep their value |
| CameraSettings.LoadStopsAtMissingKey | Camera/AmScopeCamera.py:133-154 | the load assigns in key order up to the first missing key: earlier fields keep the loaded value, later ones their previous value |
| CameraSettings.LoadAllKeys | Camera/AmScopeCamera.py:133-148 | with all sixteen keys present every field takes the loaded value |
| CameraSettings.PutSlot | Camera/AmScopeCamera.py:232-248 | a command of put statement k has slot k and is built only when none of the fields it sends is None |
| CameraSettings.PutIssued | Camera/AmScopeCamera.py:232-244 | every put statement but the curve's issues its command once none of its fields is None |
| CameraSettings.PutsFromOrdered | Camera/AmScopeCamera.py:232-248 | the commands from statement k on come from statements k and later, in strictly increasing order |
| CameraSettings.PutsFromContains | Camera/AmScopeCamera.py:232-248 | a command is planned from statement k on exactly when its own statement, at or after k, builds it |
| CameraSettings.PlannedCallsOrdered | Camera/AmScopeCamera.py:232-248 | the apply commands follow the fixed order AutoExpoEnable … Curve, at most one per statement, each built by its statement only when the fields it sends are not None |
| CameraSettings.PlannedCallsComplete | Camera/AmScopeCamera.py:232-244 | a statement whose fields are all set issues its command |
| CameraSettings.PlannedCurveCall | Camera/AmScopeCamera.py:245-248 | a curve command with code c is planned exactly for Off with 0, Polynomial with 1 or Logarithmic with 2; any other curve value sends no curve command |
| CameraSettings.PutsFromSentFieldsOnly | Camera/AmScopeCamera.py:232-249 | the commands depend only on the fields the put statements send |
| CameraSettings.WbGainNeverSent | Camera/AmScopeCamera.py:249 | changing the white-balance gain or the file format does not change the commands sent |
| Persistence.FolderPart | Camera/AmScopeCamera.py:316-317 | an empty folder stays empty; a non-empty one gets exactly one trailing "/" |
| Persistence.FileName | Camera/AmScopeCamera.py:325 | building the name raises TypeError exactly when the format is not a string |
| Persistence.SuffixUnique | Camera/AmScopeCamera.py:325 | "PX<x>Y<y>Z<z>.<format>" determines the three coordinates and the format |
| Persistence.IndexUnique | Camera/AmScopeCamera.py:325 | the capture index followed by the position suffix determines both |
| Persistence.FileNameInjective | Camera/AmScopeCamera.py:325 | with a fixed path, folder and capture name, distinct indices, positions or formats give distinct file names, so saves with different indices never overwrite each other |
| Persistence.SuffixEndsWithFormat | Camera/AmScopeCamera.py:325 | the position suffix ends in "." and the format |
| Persistence.FileNameShape | Camera/AmScopeCamera.py:324-325 | every name starts with the directory that is created, continues with the capture name and ends in "." and the format |
| FrameQuality.RowChannel | Camera/AmScopeCamera.py:339 | one row's channel holds that channel of every pixel of the row |
| FrameQuality.ChannelValuesLength | Camera/AmScopeCamera.py:339 | a channel holds one value per pixel |
| FrameQuality.RowsChannelConstant | Camera/AmScopeCamera.py:339 | a channel that is k at every pixel yields only k |
| FrameQuality.SquaredDeviationsExpand | Camera/AmScopeCamera.py:340 | the sum of squared deviations from m is Σx² − 2mΣx + n·m² |
| FrameQuality.ScaledVarianceIsVariance | Camera/AmScopeCamera.py:340 | n·Σx² − (Σx)² is exactly n² times numpy's population variance |
| FrameQuality.LowDeviationIsVarianceBelow25 | Camera/AmScopeCamera.py:340-342 | the integer test n·Σx² − (Σx)² < 25·n² holds exactly when the population variance is below 25 |
| FrameQuality.StdDevBelow5 | Camera/AmScopeCamera.py:340-342 | a standard deviation is below 5 exactly when its variance is below 25 |
| FrameQuality.EmptyChannelNotLow | Camera/AmScopeCamera.py:340-342 | an empty channel (NaN deviation) is never low |
| FrameQuality.ConstantSums | Camera/AmScopeCamera.py:340 | a constant sequence has sum n·k and square sum n·k² |
| FrameQuality.ConstantChannelLow | Camera/AmScopeCamera.py:340-342 | a non-empty constant channel has zero spread and counts as low |
| FrameQuality.ConstantChannelIsBlack | Camera/AmScopeCamera.py:336-346 | a non-empty frame with any constant channel is black |
| FrameQuality.EmptyFrameNotBlack | Camera/AmScopeCamera.py:336-346 | a frame without pixels is never black |
| FrameQuality.Quadrants | Camera/AmScopeCamera.py:360-369 | four windows, each inside the frame |
| FrameQuality.QuadrantsCover | Camera/AmScopeCamera.py:360-369 | every pixel lies in some quadrant |
| FrameQuality.QuadrantsDisjoint | Camera/AmScopeCamera.py:360-369 | no pixel lies in two quadrants |
| FrameQuality.QuadrantAreas | Camera/AmScopeCamera.py:360-369 | the four areas add up to h·w |
| FrameQuality.QuadrantsNonEmpty | Camera/AmScopeCamera.py:360-369 | every quadrant has a pixel exactly when the frame is at least 2 by 2 |
| FrameQuality.Crop | Camera/AmScopeCamera.py:365-368 | the window has the quadrant's height and width |
| FrameQuality.CropPixels | Camera/AmScopeCamera.py:365-368 | pixel (r, c) of the window is pixel (top + r, left + c) of the frame |
| FrameQuality.BestIndex | Camera/AmScopeCamera.py:398 | `max(..., key=...)` picks a position whose score is at least every other score, and the first such position |
| FrameQuality.CalculateQuadrantFocus | Camera/AmScopeCamera.py:348-400 | the measure succeeds exactly when the frame is at least 2 by 2 (an empty quadrant raises); the result equals one quadrant's score and is at least every quadrant's score |

## Left out

- YAML parsing and the configuration file: the parsed file is a parameter, `None` when it is missing, malformed or not a mapping.
- The amcam SDK: the enumeration result is a parameter; open, start of pull mode, pull, snap, put and close calls are log entries. Which commands the device rejects is a parameter.
- Hardware.Device: the rejected commands, the sizes and the delivered preview and still bytes are fixed for as long as the handle is held. So every preview pull delivers the same bytes, every still is identical, and a rejected command is rejected again on every later call. Two different streamed frames and transient SDK failures are not modelled.
- Hardware.Device: the three SDK queries `get_Size()` (lines 60 and 280), `StillResolutionNumber()` (line 62) and `get_StillResolution(0)` (lines 304-305) are assumed never to raise, and they are not log entries. Their answers are the fixed `size` and `stillSize` of the `Device`. None of the three is guarded in the source. A raise at line 60 or 62 would escape the `else:` of the open, skip `startStream()` at line 68 and, at line 60, leave the buffer unset. A raise at line 280 would escape `stream` after the pull. A raise at lines 304-305 would escape `_processFrame` with `isTakingImage` still True, so the busy-waits would never end. None of these outcomes is modelled.
- The count that `StillResolutionNumber()` returns, the Windows byte-order option (lines 63-67, inside its own `try` that catches the SDK error) and every `print` are not modelled. When the queries answer, their results change no state that the model keeps.
- pygame (`frombuffer`, `resize`, `getFrame`, `update`): the frame is the filled preview buffer. The scale factor is floating point and is not modelled. `pygame.image.frombuffer` (line 281) raises ValueError when the buffer is not exactly 3·w·h bytes, which by `Buffers.PreviewStrideUnpadded` is every width that is not a multiple of 4. That error is not modelled: `Stream` stores the padded buffer as the frame regardless.
- PIL encoding, file writing and `mkdir` are not modelled. `FileSystem` says which directories can be created and which names can be written, and `files` records what was written.
- The cv2 and numpy focus kernels (grayscale, blur, Laplacian, histogram, variance, percentile) are not modelled: the per-quadrant score is an uninterpreted `Frame -> real`. The `kernel_size` and `threshold` parameters are not modelled; `threshold` is unused in the source.
- The busy-wait loops are preconditions (`!isTakingImage`). The callback thread is not modelled: `CaptureAndSaveImage` takes the still event to arrive once, synchronously, after the snap.
- `np.std` is not computed in floating point: the black-frame test is the exact integer condition, proved equivalent to the variance in real arithmetic. Rounding at the threshold is not modelled.
- `int(s)` accepts an optional sign and ASCII digits only. Python also allows surrounding whitespace, underscores and other Unicode digits.
- Floats and dictionaries as setting values are not modelled. A float passed to `int(...)` is not modelled either.
- Type errors the SDK would raise on badly typed setting values are not modelled. The commands carry the values as stored.
- CameraInfo: the enumeration entry is reduced to its display name, its id and the device it opens.
- AmScope.AmscopeCamera.IsInFocus does not model the focus score as a floating-point value that could be NaN. The score is a `real`, so the maximum is always well-defined.
- AmScope.AmscopeCamera.CaptureAndSaveImage returns `Stalled` where the source would wait forever: the contract says the wait never ends, not that the method does not return.
- Persistence.Position: printer coordinates are integers, formatted by `str(int)`. The source formats `position[0]` with `str(...)` whatever its type. Floats are not modelled (`str(3.0)` is "3.0", whose "." would break the uniqueness of the name), and neither is a `position[0]` that cannot be indexed three times, which raises an uncaught TypeError or IndexError in `saveImage`. `SuffixUnique`, `IndexUnique` and `FileNameInjective` hold for integer coordinates only.
