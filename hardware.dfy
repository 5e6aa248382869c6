/** The camera SDK as the model sees it: the commands the camera class issues
    on its handle, and how a run of commands ends when one of them is
    rejected. The SDK itself is not modelled; whether it rejects a command is
    a parameter (`rejects`). */
module Hardware {
  import opened PyValues

  /** The options set through `put_Option`. */
  datatype CamOption = OptionSharpening | OptionLinear | OptionCurve

  /** One command issued on the open camera handle. */
  datatype HwCall =
    | Open(id: string)
    | PutAutoExpoEnable(enable: Value)
    | PutAutoExpoTarget(target: Value)
    | PutTempTint(temp: Value, tint: Value)
    | PutLevelRange(low: Value, high: Value)
    | PutContrast(contrast: Value)
    | PutHue(hue: Value)
    | PutSaturation(saturation: Value)
    | PutBrightness(brightness: Value)
    | PutGamma(gamma: Value)
    | PutOption(option: CamOption, setting: Value)
    | StartPullMode
    | PullImage(bits: nat)
    | PullStillImage(bits: nat)
    | Snap(resolution: nat)
    | CloseCamera

  /** How the device answers: which commands it rejects with an
      HRESULTException, the sizes it reports and the bytes it delivers. */
  datatype Device = Device(
    rejects: HwCall -> bool,
    size: (nat, nat),         // get_Size(): (width, height)
    stillSize: (nat, nat),    // get_StillResolution(0): (width, height)
    preview: seq<Byte>,       // bytes PullImageV2 writes into the preview buffer
    still: seq<Byte>)         // bytes PullStillImageV2 writes into the still buffer

  /** The commands of `calls` that reach the device when they run inside one
      `try`: every command up to and including the first one rejected. */
  function Issued(calls: seq<HwCall>, rejects: HwCall -> bool): seq<HwCall> {
    if calls == [] then []
    else if rejects(calls[0]) then [calls[0]]
    else [calls[0]] + Issued(calls[1..], rejects)
  }

  /** What reaches the device is a prefix of the commands; every command
      but the last one issued was accepted, and the run stops short only at
      a rejected command. */
  lemma {:induction false} IssuedIsPrefix(calls: seq<HwCall>, rejects: HwCall -> bool)
    ensures var r := Issued(calls, rejects);
      && |r| <= |calls| && r == calls[..|r|]
      && (forall i :: 0 <= i < |r| - 1 ==> !rejects(r[i]))
      && (|r| < |calls| ==> |r| > 0 && rejects(r[|r| - 1]))
  {
    if calls != [] && !rejects(calls[0]) {
      IssuedIsPrefix(calls[1..], rejects);
      var t := Issued(calls[1..], rejects);
      assert Issued(calls, rejects) == [calls[0]] + t;
      assert calls == [calls[0]] + calls[1..];
      assert forall i :: 1 <= i < |t| + 1 ==> ([calls[0]] + t)[i] == t[i - 1];
    }
  }

  /** Every command is issued when the device accepts all of them. */
  lemma {:induction false} IssuedAllAccepted(calls: seq<HwCall>, rejects: HwCall -> bool)
    requires forall i :: 0 <= i < |calls| ==> !rejects(calls[i])
    ensures Issued(calls, rejects) == calls
  {
    if calls != [] {
      IssuedAllAccepted(calls[1..], rejects);
    }
  }

  /** A rejected command is the last one issued: nothing after it is sent. */
  lemma {:induction false} IssuedStopsAtRejection(calls: seq<HwCall>, rejects: HwCall -> bool, k: nat)
    requires k < |calls| && rejects(calls[k])
    requires forall i :: 0 <= i < k ==> !rejects(calls[i])
    ensures Issued(calls, rejects) == calls[..k + 1]
  {
    if k > 0 {
      IssuedStopsAtRejection(calls[1..], rejects, k - 1);
      assert calls[..k + 1] == [calls[0]] + calls[1..][..k];
    }
  }

  /** Running `a` then `b` inside the same `try`: when the device accepts
      all of `a`, the run goes on into `b`. */
  lemma {:induction false} IssuedAppendAccepted(a: seq<HwCall>, b: seq<HwCall>, rejects: HwCall -> bool)
    requires forall i :: 0 <= i < |a| ==> !rejects(a[i])
    ensures Issued(a + b, rejects) == a + Issued(b, rejects)
  {
    if a != [] {
      assert (a + b)[0] == a[0] && (a + b)[1..] == a[1..] + b;
      IssuedAppendAccepted(a[1..], b, rejects);
      assert a == [a[0]] + a[1..];
    } else {
      assert a + b == b;
    }
  }

  /** A rejection anywhere in `a` ends the run before `b` is reached. */
  lemma {:induction false} IssuedAppendRejected(a: seq<HwCall>, b: seq<HwCall>, rejects: HwCall -> bool, k: nat)
    requires k < |a| && rejects(a[k])
    ensures Issued(a + b, rejects) == Issued(a, rejects)
  {
    assert (a + b)[0] == a[0] && (a + b)[1..] == a[1..] + b;
    if !rejects(a[0]) {
      IssuedAppendRejected(a[1..], b, rejects, k - 1);
    }
  }

  /** One command followed by more: a rejection ends the run right there. */
  lemma IssuedCons(c: HwCall, rest: seq<HwCall>, rejects: HwCall -> bool)
    ensures Issued([c] + rest, rejects) == if rejects(c) then [c] else [c] + Issued(rest, rejects)
  {
    assert ([c] + rest)[0] == c && ([c] + rest)[1..] == rest;
  }
}
