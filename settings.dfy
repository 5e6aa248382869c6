/** The sixteen image settings of the camera: their defaults, the keyword
    merge of `setCameraSettings`, the key-by-key load of
    `loadCameraSettings`, the twelve-value projection of `getCameraSettings`,
    and the ordered SDK commands the apply step derives from them. */
module CameraSettings {
  import opened PyValues
  import opened Hardware

  datatype Field =
    | AutoExposure | Exposure | Temp | Tint | LevelRangeLow | LevelRangeHigh
    | Contrast | Hue | Saturation | Brightness | Gamma | WbGain
    | Sharpening | Linear | Curve | ImageFileFormat

  /** The order in which both the load and the merge visit the fields. */
  function Fields(): seq<Field> {
    [
    AutoExposure, Exposure, Temp, Tint, LevelRangeLow, LevelRangeHigh,
    Contrast, Hue, Saturation, Brightness, Gamma, WbGain,
    Sharpening, Linear, Curve, ImageFileFormat]
  }

  /** The key of a field, in the configuration file and as a keyword. */
  function Key(f: Field): string {
    match f
    case AutoExposure => "auto_expo"
    case Exposure => "exposure"
    case Temp => "temp"
    case Tint => "tint"
    case LevelRangeLow => "levelrange_low"
    case LevelRangeHigh => "levelrange_high"
    case Contrast => "contrast"
    case Hue => "hue"
    case Saturation => "saturation"
    case Brightness => "brightness"
    case Gamma => "gamma"
    case WbGain => "wbgain"
    case Sharpening => "sharpening"
    case Linear => "linear"
    case Curve => "curve"
    case ImageFileFormat => "fformat"
  }

  /** The `_*` attributes of the camera object. */
  datatype Settings = Settings(
    autoExposure: Value, exposure: Value, temp: Value, tint: Value,
    levelRangeLow: Value, levelRangeHigh: Value, contrast: Value, hue: Value,
    saturation: Value, brightness: Value, gamma: Value, wbGain: Value,
    sharpening: Value, linear: Value, curve: Value, imageFileFormat: Value)

  /** The class-level defaults. */
  function Defaults(): Settings {
    Settings(
      VBool(false), VInt(120), VInt(11616), VInt(925),
      VTuple([VInt(0), VInt(0), VInt(0), VInt(0)]),
      VTuple([VInt(255), VInt(255), VInt(255), VInt(255)]),
      VInt(0), VInt(0), VInt(126), VInt(-64), VInt(100),
      VTuple([VInt(0), VInt(0), VInt(0)]),
      VInt(500), VInt(0), VStr("Polynomial"), VStr("png"))
  }

  function Get(s: Settings, f: Field): Value {
    match f
    case AutoExposure => s.autoExposure
    case Exposure => s.exposure
    case Temp => s.temp
    case Tint => s.tint
    case LevelRangeLow => s.levelRangeLow
    case LevelRangeHigh => s.levelRangeHigh
    case Contrast => s.contrast
    case Hue => s.hue
    case Saturation => s.saturation
    case Brightness => s.brightness
    case Gamma => s.gamma
    case WbGain => s.wbGain
    case Sharpening => s.sharpening
    case Linear => s.linear
    case Curve => s.curve
    case ImageFileFormat => s.imageFileFormat
  }

  /** Assignment to one attribute. */
  function Set(s: Settings, f: Field, v: Value): Settings {
    match f
    case AutoExposure => s.(autoExposure := v)
    case Exposure => s.(exposure := v)
    case Temp => s.(temp := v)
    case Tint => s.(tint := v)
    case LevelRangeLow => s.(levelRangeLow := v)
    case LevelRangeHigh => s.(levelRangeHigh := v)
    case Contrast => s.(contrast := v)
    case Hue => s.(hue := v)
    case Saturation => s.(saturation := v)
    case Brightness => s.(brightness := v)
    case Gamma => s.(gamma := v)
    case WbGain => s.(wbGain := v)
    case Sharpening => s.(sharpening := v)
    case Linear => s.(linear := v)
    case Curve => s.(curve := v)
    case ImageFileFormat => s.(imageFileFormat := v)
  }

  /** Setting a field changes that field and no other. */
  lemma SetGet(s: Settings, f: Field, v: Value)
    ensures Get(Set(s, f, v), f) == v
    ensures forall g :: g != f ==> Get(Set(s, f, v), g) == Get(s, g)
  {
  }

  /** Settings are determined by their sixteen attributes. */
  function Rebuild(s: Settings): Settings {
    Settings(
      Get(s, AutoExposure), Get(s, Exposure), Get(s, Temp), Get(s, Tint),
      Get(s, LevelRangeLow), Get(s, LevelRangeHigh), Get(s, Contrast), Get(s, Hue),
      Get(s, Saturation), Get(s, Brightness), Get(s, Gamma), Get(s, WbGain),
      Get(s, Sharpening), Get(s, Linear), Get(s, Curve), Get(s, ImageFileFormat))
  }

  lemma RebuildIdentity(s: Settings)
    ensures Rebuild(s) == s
  {
  }

  lemma SettingsExtensional(s: Settings, t: Settings)
    requires forall f :: Get(s, f) == Get(t, f)
    ensures s == t
  {
    RebuildIdentity(s);
    RebuildIdentity(t);
    assert Rebuild(s) == Rebuild(t);
  }

  predicate Distinct(fs: seq<Field>) {
    forall i, j :: 0 <= i < j < |fs| ==> fs[i] != fs[j]
  }

  /** The position of a field in `Fields()`. */
  function FieldIndex(f: Field): (i: nat)
    ensures i < |Fields()| && Fields()[i] == f
  {
    match f
    case AutoExposure => 0
    case Exposure => 1
    case Temp => 2
    case Tint => 3
    case LevelRangeLow => 4
    case LevelRangeHigh => 5
    case Contrast => 6
    case Hue => 7
    case Saturation => 8
    case Brightness => 9
    case Gamma => 10
    case WbGain => 11
    case Sharpening => 12
    case Linear => 13
    case Curve => 14
    case ImageFileFormat => 15
  }

  lemma FieldsDistinct()
    ensures Distinct(Fields())
  {
    forall i, j | 0 <= i < j < |Fields()| ensures Fields()[i] != Fields()[j] {
      assert FieldIndex(Fields()[i]) == i && FieldIndex(Fields()[j]) == j;
    }
  }

  // ---------------------------------------------------------------------
  // setCameraSettings: the keyword merge

  /** What `setCameraSettings` stores for a keyword value: `int(v)` for the
      three integer flags, the first four (three) elements of a level range
      (white-balance gain), and the value itself otherwise. */
  function Coerce(f: Field, v: Value): Result<Value> {
    match f
    case AutoExposure | Sharpening | Linear =>
      (match ToInt(v) case Ok(i) => Ok(VInt(i)) case Err(e) => Err(e))
    case LevelRangeLow | LevelRangeHigh => TupleOf(v, 4)
    case WbGain => TupleOf(v, 3)
    case _ => Ok(v)
  }

  /** One `if key in kwargs: self._field = ...` statement. */
  function Step(s: Settings, kw: map<string, Value>, f: Field): Result<Settings> {
    if Key(f) in kw then
      match Coerce(f, kw[Key(f)])
      case Ok(v) => Ok(Set(s, f, v))
      case Err(e) => Err(e)
    else Ok(s)
  }

  /** The statements for `fs`, in order: those before the last one run
      first, and the last one runs only when none of them raised. What was
      assigned before a raise stays assigned. */
  function MergeFrom(s: Settings, kw: map<string, Value>, fs: seq<Field>): (Settings, Outcome)
    decreases |fs|
  {
    if fs == [] then (s, Pass)
    else
      var (t, o) := MergeFrom(s, kw, fs[..|fs| - 1]);
      if o.Fail? then (t, o)
      else
        match Step(t, kw, fs[|fs| - 1])
        case Err(e) => (t, Fail(e))
        case Ok(t') => (t', Pass)
  }

  /** Once a prefix of the statements raised, the later ones never run. */
  lemma {:induction false} MergeFromFailedPrefix(s: Settings, kw: map<string, Value>, fs: seq<Field>, k: nat)
    requires k <= |fs| && MergeFrom(s, kw, fs[..k]).1.Fail?
    ensures MergeFrom(s, kw, fs) == MergeFrom(s, kw, fs[..k])
    decreases |fs|
  {
    if k < |fs| {
      var p := fs[..|fs| - 1];
      assert p[..k] == fs[..k];
      MergeFromFailedPrefix(s, kw, p, k);
    } else {
      assert fs[..k] == fs;
    }
  }

  function Merge(s: Settings, kw: map<string, Value>): (Settings, Outcome) {
    MergeFrom(s, kw, Fields())
  }

  /** The value a field holds after a merge that raises nothing. */
  function Updated(s: Settings, kw: map<string, Value>, f: Field): Value {
    if Key(f) in kw && Coerce(f, kw[Key(f)]).Ok? then Coerce(f, kw[Key(f)]).value
    else Get(s, f)
  }

  lemma {:induction false} MergeFromKeeps(s: Settings, kw: map<string, Value>, fs: seq<Field>, f: Field)
    requires f !in fs || Key(f) !in kw
    ensures Get(MergeFrom(s, kw, fs).0, f) == Get(s, f)
    decreases |fs|
  {
    if fs != [] {
      var p, last := fs[..|fs| - 1], fs[|fs| - 1];
      assert fs == p + [last];
      MergeFromKeeps(s, kw, p, f);
      var t := MergeFrom(s, kw, p).0;
      if MergeFrom(s, kw, p).1.Pass? && Step(t, kw, last).Ok? && Key(last) in kw {
        SetGet(t, last, Coerce(last, kw[Key(last)]).value);
      }
    }
  }

  /** The statement for f raises nothing. */
  predicate Coercible(kw: map<string, Value>, f: Field) {
    Key(f) in kw ==> Coerce(f, kw[Key(f)]).Ok?
  }

  lemma {:induction false} MergeFromPasses(s: Settings, kw: map<string, Value>, fs: seq<Field>)
    ensures MergeFrom(s, kw, fs).1 == Pass <==> forall f :: f in fs ==> Coercible(kw, f)
    decreases |fs|
  {
    if fs != [] {
      var p, last := fs[..|fs| - 1], fs[|fs| - 1];
      assert fs == p + [last];
      MergeFromPasses(s, kw, p);
      assert forall f :: f in fs <==> f in p || f == last;
      var t := MergeFrom(s, kw, p).0;
      assert Step(t, kw, last).Ok? <==> Coercible(kw, last);
    }
  }

  lemma {:induction false} MergeFromSets(s: Settings, kw: map<string, Value>, fs: seq<Field>, f: Field)
    requires Distinct(fs) && f in fs && Key(f) in kw
    requires MergeFrom(s, kw, fs).1 == Pass
    ensures Coerce(f, kw[Key(f)]).Ok?
    ensures Get(MergeFrom(s, kw, fs).0, f) == Coerce(f, kw[Key(f)]).value
    decreases |fs|
  {
    var p, last := fs[..|fs| - 1], fs[|fs| - 1];
    assert fs == p + [last];
    var t := MergeFrom(s, kw, p).0;
    if last == f {
      SetGet(t, f, Coerce(f, kw[Key(f)]).value);
    } else {
      assert f in p && Distinct(p);
      MergeFromSets(s, kw, p, f);
      if Key(last) in kw {
        SetGet(t, last, Coerce(last, kw[Key(last)]).value);
      }
    }
  }

  /** After a merge of distinct fields that raised nothing, each of them
      holds its updated value. */
  lemma MergeFromUpdated(s: Settings, kw: map<string, Value>, fs: seq<Field>, f: Field)
    requires Distinct(fs) && f in fs
    requires MergeFrom(s, kw, fs).1 == Pass
    ensures Get(MergeFrom(s, kw, fs).0, f) == Updated(s, kw, f)
  {
    if Key(f) in kw {
      MergeFromSets(s, kw, fs, f);
    } else {
      MergeFromKeeps(s, kw, fs, f);
    }
  }

  lemma FieldsComplete(f: Field)
    ensures f in Fields()
  {
    assert Fields()[FieldIndex(f)] == f;
  }

  /** A field whose key is absent keeps its value, whatever happens. */
  lemma MergeKeepsAbsent(s: Settings, kw: map<string, Value>, f: Field)
    requires Key(f) !in kw
    ensures Get(Merge(s, kw).0, f) == Get(s, f)
  {
    MergeFromKeeps(s, kw, Fields(), f);
  }

  /** The merge raises exactly when some present value cannot be coerced. */
  lemma MergePasses(s: Settings, kw: map<string, Value>)
    ensures Merge(s, kw).1 == Pass <==> forall f :: Coercible(kw, f)
  {
    MergeFromPasses(s, kw, Fields());
    forall f ensures f in Fields() {
      FieldsComplete(f);
    }
  }

  /** When the merge raises nothing, every field holds its updated value:
      the coerced keyword value when its key is present, its old value
      otherwise. */
  lemma MergeSetsPresent(s: Settings, kw: map<string, Value>, f: Field)
    requires Merge(s, kw).1 == Pass
    ensures Get(Merge(s, kw).0, f) == Updated(s, kw, f)
  {
    FieldsDistinct();
    FieldsComplete(f);
    MergeFromUpdated(s, kw, Fields(), f);
  }

  /** `setCameraSettings` changes exactly the fields whose key is present:
      every other field keeps its value whatever happens; when nothing
      raises, every present key's field holds its (coerced) value; and the
      merge raises exactly when some present value cannot be coerced. */
  lemma MergePartialUpdate(s: Settings, kw: map<string, Value>)
    ensures forall f :: Key(f) !in kw ==> Get(Merge(s, kw).0, f) == Get(s, f)
    ensures Merge(s, kw).1 == Pass <==> forall f :: Coercible(kw, f)
    ensures Merge(s, kw).1 == Pass ==> forall f :: Get(Merge(s, kw).0, f) == Updated(s, kw, f)
  {
    forall f | Key(f) !in kw ensures Get(Merge(s, kw).0, f) == Get(s, f) {
      MergeKeepsAbsent(s, kw, f);
    }
    MergePasses(s, kw);
    if Merge(s, kw).1 == Pass {
      forall f ensures Get(Merge(s, kw).0, f) == Updated(s, kw, f) {
        MergeSetsPresent(s, kw, f);
      }
    }
  }

  /** The merge of fs stopped at position j: the statements before it
      raised nothing, the one there raised e, the fields before it are
      updated and it and the later ones are not. */
  predicate StoppedAt(s: Settings, kw: map<string, Value>, fs: seq<Field>, r: Settings, e: PyError, j: nat) {
    && j < |fs| && Key(fs[j]) in kw && Coerce(fs[j], kw[Key(fs[j])]) == Err(e)
    && (forall i :: 0 <= i < j ==> Coercible(kw, fs[i]))
    && (forall i :: 0 <= i < j ==> Get(r, fs[i]) == Updated(s, kw, fs[i]))
    && (forall i :: j <= i < |fs| ==> Get(r, fs[i]) == Get(s, fs[i]))
  }

  lemma {:induction false} MergeFromFails(s: Settings, kw: map<string, Value>, fs: seq<Field>)
    requires Distinct(fs)
    requires MergeFrom(s, kw, fs).1.Fail?
    ensures exists j :: StoppedAt(s, kw, fs, MergeFrom(s, kw, fs).0, MergeFrom(s, kw, fs).1.error, j)
    decreases |fs|
  {
    var r := MergeFrom(s, kw, fs);
    var n := |fs| - 1;
    var p, last := fs[..n], fs[n];
    assert fs == p + [last] && Distinct(p) && last !in p;
    MergeFromKeeps(s, kw, p, last);
    var q := MergeFrom(s, kw, p);
    if q.1.Fail? {
      MergeFromFails(s, kw, p);
      var j :| StoppedAt(s, kw, p, q.0, q.1.error, j);
      assert StoppedAt(s, kw, fs, r.0, r.1.error, j);
    } else {
      MergeFromPasses(s, kw, p);
      forall i | 0 <= i < n ensures Get(r.0, fs[i]) == Updated(s, kw, fs[i]) && Coercible(kw, fs[i]) {
        assert fs[i] == p[i] && p[i] in p;
        MergeFromUpdated(s, kw, p, p[i]);
      }
      assert StoppedAt(s, kw, fs, r.0, r.1.error, n);
    }
  }

  /** The statement a merge stopped at is the first one that raised, so it
      is unique. */
  lemma StoppedAtUnique(s: Settings, kw: map<string, Value>, fs: seq<Field>, r: Settings,
                        e: PyError, j: nat, e': PyError, j': nat)
    requires StoppedAt(s, kw, fs, r, e, j) && StoppedAt(s, kw, fs, r, e', j')
    ensures j == j' && e == e'
  {
  }

  /** Keys that name no field are ignored; in particular the `sharpness`
      key of the docstring is not recognised (only `sharpening` is). */
  lemma MergeIgnoresUnknownKeys(s: Settings, kw: map<string, Value>)
    requires forall f :: Key(f) !in kw
    ensures Merge(s, kw) == (s, Pass)
  {
    MergePartialUpdate(s, kw);
    SettingsExtensional(Merge(s, kw).0, s);
  }

  lemma SharpnessNotRecognised(s: Settings, v: Value)
    ensures Merge(s, map["sharpness" := v]) == (s, Pass)
  {
    forall f ensures Key(f) !in map["sharpness" := v] {
      assert Key(f) != "sharpness" by { assert |Key(f)| != 9 || Key(f) == "sharpness" || Key(f)[0] != 's' || Key(f) == "saturation"; }
    }
    MergeIgnoresUnknownKeys(s, map["sharpness" := v]);
  }

  // ---------------------------------------------------------------------
  // getCameraSettings

  /** The fields `getCameraSettings` returns, in tuple order (the level
      ranges, gamma and white-balance gain are not part of it). */
  const SnapshotFields: seq<Field> := [
    AutoExposure, Exposure, Temp, Tint, Contrast, Hue,
    Saturation, Brightness, Sharpening, Linear, Curve, ImageFileFormat]

  function Snapshot(s: Settings): (r: seq<Value>)
    ensures |r| == |SnapshotFields| == 12
    ensures forall i :: 0 <= i < 12 ==> r[i] == Get(s, SnapshotFields[i])
  {
    [s.autoExposure, s.exposure, s.temp, s.tint, s.contrast, s.hue,
     s.saturation, s.brightness, s.sharpening, s.linear, s.curve, s.imageFileFormat]
  }

  /** After `setCameraSettings(k=v)` raised nothing, `getCameraSettings`
      returns the value stored for k in k's position. */
  lemma SnapshotAfterMerge(s: Settings, kw: map<string, Value>, i: nat)
    requires i < 12 && Key(SnapshotFields[i]) in kw
    requires Merge(s, kw).1 == Pass
    ensures Coerce(SnapshotFields[i], kw[Key(SnapshotFields[i])]).Ok? &&
      Snapshot(Merge(s, kw).0)[i] == Coerce(SnapshotFields[i], kw[Key(SnapshotFields[i])]).value
  {
    var f := SnapshotFields[i];
    MergePasses(s, kw);
    assert Coercible(kw, f);
    MergeSetsPresent(s, kw, f);
  }

  /** The value stored for a snapshot key: int(v) for `auto_expo`,
      `sharpening` and `linear`, v itself for the other nine. */
  lemma CoerceSnapshotField(f: Field, v: Value)
    requires f in SnapshotFields
    ensures f == AutoExposure || f == Sharpening || f == Linear ==>
      (Coerce(f, v).Ok? <==> ToInt(v).Ok?) && (Coerce(f, v).Ok? ==> Coerce(f, v).value == VInt(ToInt(v).value))
    ensures f != AutoExposure && f != Sharpening && f != Linear ==> Coerce(f, v) == Ok(v)
  {
  }

  /** The level ranges, gamma and white-balance gain are not observable
      through `getCameraSettings`. */
  lemma SnapshotOmits(s: Settings, f: Field, v: Value)
    requires f == LevelRangeLow || f == LevelRangeHigh || f == Gamma || f == WbGain
    ensures Snapshot(Set(s, f, v)) == Snapshot(s)
  {
    var a, b := Snapshot(Set(s, f, v)), Snapshot(s);
    forall i | 0 <= i < 12 ensures a[i] == b[i] {
      assert SnapshotFields[i] != f;
    }
  }

  // ---------------------------------------------------------------------
  // loadCameraSettings

  /** `self._field = settings[key]` for each field in order; a missing key
      raises KeyError, which ends the load. */
  function LoadFrom(s: Settings, m: map<string, Value>, fs: seq<Field>): Settings
    decreases |fs|
  {
    if fs == [] then s
    else if Key(fs[0]) in m then LoadFrom(Set(s, fs[0], m[Key(fs[0])]), m, fs[1..])
    else s
  }

  /** The parsed configuration, or None when the file is missing, does not
      parse or is not a mapping (the load then assigns nothing). */
  function Load(s: Settings, config: Option<map<string, Value>>): Settings {
    match config
    case None => s
    case Some(m) => LoadFrom(s, m, Fields())
  }

  /** The position of the first field whose key is missing (|fs| if none). */
  function FirstMissing(m: map<string, Value>, fs: seq<Field>): (j: nat)
    ensures j <= |fs|
    ensures forall i :: 0 <= i < j ==> Key(fs[i]) in m
    ensures j < |fs| ==> Key(fs[j]) !in m
  {
    if fs == [] || Key(fs[0]) !in m then 0 else 1 + FirstMissing(m, fs[1..])
  }

  lemma {:induction false} LoadFromPrefix(s: Settings, m: map<string, Value>, fs: seq<Field>)
    requires Distinct(fs)
    ensures forall i :: 0 <= i < |fs| ==>
      Get(LoadFrom(s, m, fs), fs[i]) == if i < FirstMissing(m, fs) then m[Key(fs[i])] else Get(s, fs[i])
    decreases |fs|
  {
    if fs != [] && Key(fs[0]) in m {
      var s' := Set(s, fs[0], m[Key(fs[0])]);
      var tail := fs[1..];
      assert Distinct(tail);
      assert fs[0] !in tail by {
        forall j | 0 <= j < |tail| ensures tail[j] != fs[0] {
          assert tail[j] == fs[j + 1];
        }
      }
      LoadFromPrefix(s', m, tail);
      LoadKeepsUnlisted(s', m, tail, fs[0]);
      SetGet(s, fs[0], m[Key(fs[0])]);
      assert FirstMissing(m, fs) == FirstMissing(m, tail) + 1;
      forall i | 0 < i < |fs| ensures
        Get(LoadFrom(s, m, fs), fs[i]) == if i < FirstMissing(m, fs) then m[Key(fs[i])] else Get(s, fs[i])
      {
        assert fs[i] == tail[i - 1] && fs[i] != fs[0];
      }
    }
  }

  lemma {:induction false} LoadKeepsUnlisted(s: Settings, m: map<string, Value>, fs: seq<Field>, f: Field)
    requires f !in fs
    ensures Get(LoadFrom(s, m, fs), f) == Get(s, f)
    decreases |fs|
  {
    if fs != [] && Key(fs[0]) in m {
      LoadKeepsUnlisted(Set(s, fs[0], m[Key(fs[0])]), m, fs[1..], f);
    }
  }

  /** The load assigns the fields in key order up to the first missing key:
      those before it take the loaded value, the rest keep their value. */
  lemma LoadStopsAtMissingKey(s: Settings, m: map<string, Value>)
    ensures forall i :: 0 <= i < |Fields()| ==>
      Get(Load(s, Some(m)), Fields()[i]) ==
        if i < FirstMissing(m, Fields()) then m[Key(Fields()[i])] else Get(s, Fields()[i])
  {
    FieldsDistinct();
    LoadFromPrefix(s, m, Fields());
  }

  lemma {:induction false} FirstMissingAllPresent(m: map<string, Value>, fs: seq<Field>)
    requires forall f :: Key(f) in m
    ensures FirstMissing(m, fs) == |fs|
    decreases |fs|
  {
    if fs != [] {
      FirstMissingAllPresent(m, fs[1..]);
    }
  }

  /** With all sixteen keys present every field takes the loaded value. */
  lemma LoadAllKeys(s: Settings, m: map<string, Value>)
    requires forall f :: Key(f) in m
    ensures forall f :: Get(Load(s, Some(m)), f) == m[Key(f)]
  {
    LoadStopsAtMissingKey(s, m);
    FirstMissingAllPresent(m, Fields());
    forall f ensures Get(Load(s, Some(m)), f) == m[Key(f)] {
      assert Fields()[FieldIndex(f)] == f;
    }
  }

  // ---------------------------------------------------------------------
  // The apply step of setCameraSettings

  /** The value `put_Option(AMCAM_OPTION_CURVE, ...)` receives for a curve
      name; other values send nothing. */
  function CurveCode(v: Value): Option<nat> {
    if v == VStr("Off") then Some(0)
    else if v == VStr("Polynomial") then Some(1)
    else if v == VStr("Logarithmic") then Some(2)
    else None
  }

  /** The number of guarded put statements. */
  const PutCount: nat := 12

  /** The command the k-th guarded put statement issues for settings s, or
      None when its guard fails. */
  function Put(s: Settings, k: nat): Option<HwCall> {
    if k == 0 then (if s.autoExposure != VNone then Some(PutAutoExpoEnable(s.autoExposure)) else None)
    else if k == 1 then (if s.exposure != VNone then Some(PutAutoExpoTarget(s.exposure)) else None)
    else if k == 2 then (if s.temp != VNone && s.tint != VNone then Some(PutTempTint(s.temp, s.tint)) else None)
    else if k == 3 then
      (if s.levelRangeHigh != VNone && s.levelRangeLow != VNone
       then Some(PutLevelRange(s.levelRangeLow, s.levelRangeHigh)) else None)
    else if k == 4 then (if s.contrast != VNone then Some(PutContrast(s.contrast)) else None)
    else if k == 5 then (if s.hue != VNone then Some(PutHue(s.hue)) else None)
    else if k == 6 then (if s.saturation != VNone then Some(PutSaturation(s.saturation)) else None)
    else if k == 7 then (if s.brightness != VNone then Some(PutBrightness(s.brightness)) else None)
    else if k == 8 then (if s.gamma != VNone then Some(PutGamma(s.gamma)) else None)
    else if k == 9 then (if s.sharpening != VNone then Some(PutOption(OptionSharpening, s.sharpening)) else None)
    else if k == 10 then (if s.linear != VNone then Some(PutOption(OptionLinear, s.linear)) else None)
    else if k == 11 then
      (if s.curve != VNone && CurveCode(s.curve).Some?
       then Some(PutOption(OptionCurve, VInt(CurveCode(s.curve).value))) else None)
    else None
  }

  function OptionToSeq(o: Option<HwCall>): seq<HwCall> {
    if o.Some? then [o.value] else []
  }

  /** The commands the put statements from the k-th on issue, in order,
      when the device accepts them all. */
  function PutsFrom(s: Settings, k: nat): seq<HwCall>
    decreases PutCount - k
  {
    if k >= PutCount then [] else OptionToSeq(Put(s, k)) + PutsFrom(s, k + 1)
  }

  function PlannedCalls(s: Settings): seq<HwCall> {
    PutsFrom(s, 0)
  }

  /** The position of a settings command in the fixed order
      AutoExpoEnable, AutoExpoTarget, TempTint, LevelRange, Contrast, Hue,
      Saturation, Brightness, Gamma, Sharpening, Linear, Curve. */
  function Slot(c: HwCall): int {
    match c
    case PutAutoExpoEnable(_) => 0
    case PutAutoExpoTarget(_) => 1
    case PutTempTint(_, _) => 2
    case PutLevelRange(_, _) => 3
    case PutContrast(_) => 4
    case PutHue(_) => 5
    case PutSaturation(_) => 6
    case PutBrightness(_) => 7
    case PutGamma(_) => 8
    case PutOption(OptionSharpening, _) => 9
    case PutOption(OptionLinear, _) => 10
    case PutOption(OptionCurve, _) => 11
    case _ => -1
  }

  /** The fields whose values the k-th put statement sends. */
  function SlotFields(k: nat): set<Field> {
    if k == 0 then {AutoExposure}
    else if k == 1 then {Exposure}
    else if k == 2 then {Temp, Tint}
    else if k == 3 then {LevelRangeLow, LevelRangeHigh}
    else if k == 4 then {Contrast}
    else if k == 5 then {Hue}
    else if k == 6 then {Saturation}
    else if k == 7 then {Brightness}
    else if k == 8 then {Gamma}
    else if k == 9 then {Sharpening}
    else if k == 10 then {Linear}
    else if k == 11 then {Curve}
    else {}
  }

  /** A command put statement k issues has slot k, and it is issued only
      when none of the fields it sends is None. */
  lemma PutSlot(s: Settings, k: nat)
    ensures Put(s, k).Some? ==> Slot(Put(s, k).value) == k
    ensures Put(s, k).Some? ==> forall f :: f in SlotFields(k) ==> Get(s, f) != VNone
  {
  }

  /** Every put statement but the curve's issues its command once none of
      its fields is None. */
  lemma PutIssued(s: Settings, k: nat)
    requires k < PutCount - 1 && forall f :: f in SlotFields(k) ==> Get(s, f) != VNone
    ensures Put(s, k).Some?
  {
    if k == 2 {
      assert Temp in SlotFields(k) && Tint in SlotFields(k);
    } else if k == 3 {
      assert LevelRangeLow in SlotFields(k) && LevelRangeHigh in SlotFields(k);
    } else {
      var f :| SlotFields(k) == {f};
      assert f in SlotFields(k);
    }
  }

  /** Every command in cs comes from a put statement in [lo, PutCount). */
  predicate SlotsWithin(cs: seq<HwCall>, lo: int) {
    forall i :: 0 <= i < |cs| ==> lo <= Slot(cs[i]) < PutCount
  }

  /** The commands in cs come from strictly later put statements. */
  predicate SlotsIncreasing(cs: seq<HwCall>) {
    forall i, j :: 0 <= i < j < |cs| ==> Slot(cs[i]) < Slot(cs[j])
  }

  /** Putting statement k's command in front of the later ones keeps the
      order. */
  lemma SlotsCons(head: seq<HwCall>, tail: seq<HwCall>, k: int)
    requires 0 <= k < PutCount && |head| <= 1 && (forall c :: c in head ==> Slot(c) == k)
    requires SlotsWithin(tail, k + 1) && SlotsIncreasing(tail)
    ensures SlotsWithin(head + tail, k) && SlotsIncreasing(head + tail)
  {
    var all := head + tail;
    forall i | 0 <= i < |all| ensures k <= Slot(all[i]) < PutCount {
      if i < |head| {
        assert all[i] in head;
      } else {
        assert all[i] == tail[i - |head|];
      }
    }
    forall i, j | 0 <= i < j < |all| ensures Slot(all[i]) < Slot(all[j]) {
      assert all[j] == tail[j - |head|];
      if i < |head| {
        assert all[i] in head;
      } else {
        assert all[i] == tail[i - |head|];
      }
    }
  }

  lemma {:induction false} PutsFromOrdered(s: Settings, k: nat)
    ensures SlotsWithin(PutsFrom(s, k), k) && SlotsIncreasing(PutsFrom(s, k))
    decreases PutCount - k
  {
    if k < PutCount {
      PutsFromOrdered(s, k + 1);
      PutSlot(s, k);
      SlotsCons(OptionToSeq(Put(s, k)), PutsFrom(s, k + 1), k);
    }
  }

  /** A command is planned from statement k on exactly when its own
      statement, at or after k, builds it. */
  lemma {:induction false} PutsFromContains(s: Settings, k: nat, c: HwCall)
    ensures c in PutsFrom(s, k) <==> k <= Slot(c) < PutCount && Put(s, Slot(c)) == Some(c)
    decreases PutCount - k
  {
    if k < PutCount {
      PutsFromContains(s, k + 1, c);
      PutSlot(s, k);
      assert PutsFrom(s, k) == OptionToSeq(Put(s, k)) + PutsFrom(s, k + 1);
      assert c in OptionToSeq(Put(s, k)) <==> Put(s, k) == Some(c);
    }
  }

  /** The commands are issued in the fixed order, at most one per put
      statement, each only when the fields it sends are not None, and each
      exactly as its statement builds it. */
  lemma PlannedCallsOrdered(s: Settings)
    ensures forall i, j :: 0 <= i < j < |PlannedCalls(s)| ==> Slot(PlannedCalls(s)[i]) < Slot(PlannedCalls(s)[j])
    ensures forall i :: 0 <= i < |PlannedCalls(s)| ==> 0 <= Slot(PlannedCalls(s)[i]) < PutCount
    ensures forall i :: 0 <= i < |PlannedCalls(s)| ==>
      Put(s, Slot(PlannedCalls(s)[i])) == Some(PlannedCalls(s)[i])
    ensures forall i :: 0 <= i < |PlannedCalls(s)| ==>
      forall f :: f in SlotFields(Slot(PlannedCalls(s)[i])) ==> Get(s, f) != VNone
  {
    PutsFromOrdered(s, 0);
    forall i | 0 <= i < |PlannedCalls(s)|
      ensures Put(s, Slot(PlannedCalls(s)[i])) == Some(PlannedCalls(s)[i])
      ensures forall f :: f in SlotFields(Slot(PlannedCalls(s)[i])) ==> Get(s, f) != VNone
    {
      var c := PlannedCalls(s)[i];
      PutsFromContains(s, 0, c);
      PutSlot(s, Slot(c));
    }
  }

  /** A put statement other than the curve's whose fields are all set
      issues its command (the curve's is `PlannedCurveCall`). */
  lemma PlannedCallsComplete(s: Settings, k: nat)
    requires k < PutCount - 1 && forall f :: f in SlotFields(k) ==> Get(s, f) != VNone
    ensures exists c :: c in PlannedCalls(s) && Slot(c) == k
  {
    PutIssued(s, k);
    PutSlot(s, k);
    var c := Put(s, k).value;
    PutsFromContains(s, 0, c);
    assert c in PlannedCalls(s) && Slot(c) == k;
  }

  /** Exactly the curve names Off, Polynomial and Logarithmic issue a curve
      command, with codes 0, 1 and 2. */
  lemma PlannedCurveCall(s: Settings, code: nat)
    ensures PutOption(OptionCurve, VInt(code)) in PlannedCalls(s) <==>
      (s.curve == VStr("Off") && code == 0) ||
      (s.curve == VStr("Polynomial") && code == 1) ||
      (s.curve == VStr("Logarithmic") && code == 2)
  {
    var c := PutOption(OptionCurve, VInt(code));
    PutsFromContains(s, 0, c);
    assert Slot(c) == 11;
  }

  /** s and t agree on every field some put statement sends: all but the
      white-balance gain and the file format. */
  predicate SameSentFields(s: Settings, t: Settings) {
    && s.autoExposure == t.autoExposure && s.exposure == t.exposure
    && s.temp == t.temp && s.tint == t.tint
    && s.levelRangeLow == t.levelRangeLow && s.levelRangeHigh == t.levelRangeHigh
    && s.contrast == t.contrast && s.hue == t.hue && s.saturation == t.saturation
    && s.brightness == t.brightness && s.gamma == t.gamma && s.sharpening == t.sharpening
    && s.linear == t.linear && s.curve == t.curve
  }

  /** Put statements that agree on every field they send issue the same
      commands. */
  lemma {:induction false} PutsFromSentFieldsOnly(s: Settings, t: Settings, k: nat)
    requires SameSentFields(s, t)
    ensures PutsFrom(s, k) == PutsFrom(t, k)
    decreases PutCount - k
  {
    if k < PutCount {
      PutsFromSentFieldsOnly(s, t, k + 1);
      PutSentFieldsOnly(s, t, k);
      assert PutsFrom(s, k) == OptionToSeq(Put(s, k)) + PutsFrom(s, k + 1);
      assert PutsFrom(t, k) == OptionToSeq(Put(t, k)) + PutsFrom(t, k + 1);
    }
  }

  lemma SetUnsentField(s: Settings, f: Field, v: Value)
    requires f == WbGain || f == ImageFileFormat
    ensures SameSentFields(Set(s, f, v), s)
  {
  }

  lemma PutSentFieldsOnly(s: Settings, t: Settings, k: nat)
    requires SameSentFields(s, t)
    ensures Put(s, k) == Put(t, k)
  {
  }

  /** The white-balance gain (and the file format) is never sent. */
  lemma WbGainNeverSent(s: Settings, v: Value)
    ensures PlannedCalls(Set(s, WbGain, v)) == PlannedCalls(s)
    ensures PlannedCalls(Set(s, ImageFileFormat, v)) == PlannedCalls(s)
  {
    SetUnsentField(s, WbGain, v);
    PutsFromSentFieldsOnly(Set(s, WbGain, v), s, 0);
    SetUnsentField(s, ImageFileFormat, v);
    PutsFromSentFieldsOnly(Set(s, ImageFileFormat, v), s, 0);
  }
}
