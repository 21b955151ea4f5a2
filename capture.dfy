/**
 * src/pipeline/capture.rs: the capture objects that own the camera.
 *
 * The camera behind OpenCV's `VideoCapture` is a `Driver`: given the calls
 * made so far and the next one, it says whether that call fails and, for a
 * read, what frame it yields.  A capture object records every call it makes
 * in `calls`, so the device traffic of a `get_frame` can be stated exactly.
 */
module Capture {
  import opened Outcomes
  import opened Wire
  import opened Config
  import opened Seqs

  /**
   * `config_changed`: two configurations differ for capture purposes when
   * either is missing while the other is not, or when one of the six
   * acquisition fields differs.
   */
  function ConfigChanged(a: Option<Config>, b: Option<Config>): bool
  {
    if a.Some? then
      if b.Some? then
        a.value.videoPath != b.value.videoPath
        || a.value.width != b.value.width
        || a.value.height != b.value.height
        || a.value.exposure != b.value.exposure
        || a.value.autoExposure != b.value.autoExposure
        || a.value.gain != b.value.gain
      else true
    else b.Some?
  }

  /** The six fields `config_changed` compares are equal. */
  predicate SameAcquisition(a: Config, b: Config)
  {
    && a.videoPath == b.videoPath && a.width == b.width && a.height == b.height
    && a.exposure == b.exposure && a.autoExposure == b.autoExposure && a.gain == b.gain
  }

  // ---------------------------------------------------------------------
  // The camera, as the capture objects see it.

  /** Where a device is opened from: `VideoCapture::new(0, CAP_V4L)` or `from_file(pipeline, CAP_GSTREAMER)`. */
  datatype Source = V4l(index: nat) | GStreamer(pipeline: Pipeline)

  /**
   * The values `GStreamerCapture` formats into its pipeline string; the
   * string itself is `PipelineText`.
   */
  datatype Pipeline = Pipeline(device: string, autoExposure: nat, exposure: nat, gain: nat, width: nat, height: nat)

  /** The `CAP_PROP_*` properties `DefaultCapture` sets. */
  datatype Property = FrameWidth | FrameHeight | AutoExposure | Exposure | Gain

  /** What a capture object does to the outside world, in order. */
  datatype Event =
    | Open(source: Source)
    | Set(property: Property, value: u32)
    | Read
    | Release
    | Sleep(ms: nat)

  /** An open `VideoCapture`. */
  datatype Device = Device(source: Source)

  /** An OpenCV `Mat`, as its bytes. */
  datatype Image = Image(pixels: seq<byte>)

  /** `Mat::default()`. */
  const EmptyImage := Image([])

  /** The answer to one call: an OpenCV error, or success with `read`'s flag and frame. */
  datatype Reply = Failed | Succeeded(ok: bool, image: Image)

  /** The camera: its reply to a call, given every call made before it. */
  type Driver = (seq<Event>, Event) -> Reply

  /** `get_frame`'s `(bool, Mat)`. */
  datatype Frame = Frame(ok: bool, image: Image)

  /** The fields of a capture object, and the calls it has made. */
  datatype CaptureState = CaptureState(video: Option<Device>, lastConfig: Option<Config>, calls: seq<Event>)

  /** `Default::default()`. */
  const Initial := CaptureState(None, None, [])

  /** A state and what `get_frame` did with it: returned a frame or panicked. */
  datatype Stepped = Stepped(state: CaptureState, result: Outcome<Frame>)

  /** Part of `get_frame` either runs to its end or panics (some `unwrap`). */
  datatype Progress = Continue(state: CaptureState) | Halted(state: CaptureState)

  function Issue(s: CaptureState, e: Event): CaptureState
  {
    s.(calls := s.calls + [e])
  }

  // ---------------------------------------------------------------------
  // The steps both `get_frame`s share.

  /** Whether a device survives the change check: one exists and the configuration is unchanged. */
  predicate DeviceKept(s: CaptureState, config: Config)
  {
    s.video.Some? && !ConfigChanged(s.lastConfig, Some(config))
  }

  /** The calls the change check makes when nothing fails: release, then `pause`. */
  function ReleasePlan(s: CaptureState, config: Config, pause: seq<Event>): seq<Event>
  {
    if ConfigChanged(s.lastConfig, Some(config)) && s.video.Some? then [Release] + pause else []
  }

  /**
   * On a configuration change, `self.video.take()` and release the device,
   * then make the `pause` calls; a failed release panics.
   */
  function ReleaseOnChange(driver: Driver, s: CaptureState, config: Config, pause: seq<Event>): (p: Progress)
    ensures p.state.lastConfig == s.lastConfig
    ensures p.state.calls == s.calls + (if p.Halted? then [Release] else ReleasePlan(s, config, pause))
    ensures p.Halted? ==> ReleasePlan(s, config, pause) == [Release] + pause
    ensures p.Continue? ==> (p.state.video.Some? <==> DeviceKept(s, config))
    ensures p.Halted? <==> ConfigChanged(s.lastConfig, Some(config)) && s.video.Some? && driver(s.calls, Release).Failed?
  {
    if ConfigChanged(s.lastConfig, Some(config)) && s.video.Some? then
      var taken := s.(video := None);
      if driver(taken.calls, Release).Failed? then Halted(Issue(taken, Release))
      else Continue(taken.(calls := taken.calls + [Release] + pause))
    else Continue(s)
  }

  /**
   * Of the calls in `calls` from index `from` on, judged by the camera's
   * reply to each given those before it, only the last fails, and only when
   * the run `halted`.
   */
  predicate FailsOnlyLast(driver: Driver, calls: seq<Event>, from: nat, halted: bool)
  {
    forall j {:trigger driver(calls[..j], calls[j])} :: from <= j < |calls| ==> (driver(calls[..j], calls[j]).Failed? <==> halted && j == |calls| - 1)
  }

  /** Makes the calls `es` in order, stopping at the first that fails. */
  function IssueAll(driver: Driver, s: CaptureState, es: seq<Event>): (p: Progress)
    decreases |es|
    ensures p.state.video == s.video && p.state.lastConfig == s.lastConfig
    ensures |s.calls| <= |p.state.calls| <= |s.calls| + |es|
    ensures p.state.calls == s.calls + es[..|p.state.calls| - |s.calls|]
    ensures p.Continue? ==> p.state.calls == s.calls + es
    ensures p.Halted? ==> |s.calls| < |p.state.calls|
    ensures FailsOnlyLast(driver, p.state.calls, |s.calls|, p.Halted?)
  {
    if es == [] then Continue(s)
    else if driver(s.calls, es[0]).Failed? then
      var p := Halted(Issue(s, es[0]));
      assert es[..1] == [es[0]];
      p
    else
      var p := IssueAll(driver, Issue(s, es[0]), es[1..]);
      var k := |p.state.calls| - |s.calls|;
      assert es[..k] == [es[0]] + es[1..][..k - 1];
      p
  }

  /** One step of `IssueAll`: the first call, then the rest or the halt. */
  lemma IssueAllStep(driver: Driver, s: CaptureState, es: seq<Event>)
    requires es != []
    ensures IssueAll(driver, s, es)
      == if driver(s.calls, es[0]).Failed? then Halted(Issue(s, es[0])) else IssueAll(driver, Issue(s, es[0]), es[1..])
  {
  }

  // ---------------------------------------------------------------------
  // DefaultCapture (capture.rs:28-79).

  /** The properties set right after opening, in the order the code sets them. */
  function DefaultSettings(config: Config): seq<Event>
  {
    [Set(FrameWidth, config.width), Set(FrameHeight, config.height), Set(AutoExposure, config.autoExposure),
     Set(Exposure, config.exposure), Set(Gain, config.gain)]
  }

  const DefaultSource := V4l(0)

  /** The calls that open the default camera. */
  function DefaultOpening(config: Config): seq<Event>
  {
    [Open(DefaultSource)] + DefaultSettings(config)
  }

  /** `VideoCapture::new(0, CAP_V4L)` and the five `set` calls, each `unwrap`ped. */
  function OpenDefault(driver: Driver, s: CaptureState, config: Config): (p: Progress)
    ensures p.state.lastConfig == s.lastConfig
    ensures p.Continue? ==> p.state.calls == s.calls + DefaultOpening(config)
                            && p.state.video == Some(Device(DefaultSource))
    ensures |s.calls| <= |p.state.calls| <= |s.calls| + 6
    ensures p.state.calls == s.calls + DefaultOpening(config)[..|p.state.calls| - |s.calls|]
    ensures p.Halted? ==> p.state.video == s.video && |s.calls| < |p.state.calls|
    ensures FailsOnlyLast(driver, p.state.calls, |s.calls|, p.Halted?)
  {
    var q := IssueAll(driver, s, DefaultOpening(config));
    if q.Halted? then q else Continue(q.state.(video := Some(Device(DefaultSource))))
  }

  /** `DefaultCapture::get_frame`. */
  function DefaultGetFrame(driver: Driver, s: CaptureState, config: Config): Stepped
  {
    var p := ReleaseOnChange(driver, s, config, []);
    if p.Halted? then Stepped(p.state, Panicked)
    else
      var q := if p.state.video.None? then OpenDefault(driver, p.state, config) else p;
      if q.Halted? then Stepped(q.state, Panicked)
      else
        var t := q.state.(lastConfig := Some(config));
        var reply := driver(t.calls, Read);
        if reply.Failed? then Stepped(Issue(t, Read), Panicked)
        else Stepped(Issue(t, Read), Returned(Frame(reply.ok, reply.image)))
  }

  /** Every call `DefaultCapture::get_frame` makes when none fails. */
  function DefaultPlan(s: CaptureState, config: Config): seq<Event>
  {
    ReleasePlan(s, config, [])
    + (if DeviceKept(s, config) then [] else DefaultOpening(config))
    + [Read]
  }

  class DefaultCapture {
    var video: Option<Device>
    var lastConfig: Option<Config>
    /** The calls made to the camera so far. */
    var calls: seq<Event>

    function State(): CaptureState
      reads this
    {
      CaptureState(video, lastConfig, calls)
    }

    constructor ()
      ensures State() == Initial
    {
      video, lastConfig, calls := None, None, [];
    }

    /** One call into the camera, whose result is `unwrap`ped by the caller. */
    method Call(driver: Driver, e: Event) returns (failed: bool)
      modifies this
      ensures failed == driver(old(calls), e).Failed?
      ensures State() == Issue(old(State()), e)
    {
      failed := driver(calls, e).Failed?;
      calls := calls + [e];
    }

    /** The change check: on a changed configuration, take the device out of `video` and release it; a failed release panics. */
    method ReleaseIfChanged(driver: Driver, config: Config) returns (halted: bool)
      modifies this
      ensures (if halted then Halted(State()) else Continue(State())) == ReleaseOnChange(driver, old(State()), config, [])
    {
      halted := false;
      if ConfigChanged(lastConfig, Some(config)) {
        if video.Some? {
          video := None;
          halted := Call(driver, Release);
        }
      }
    }

    /** The opening block: `VideoCapture::new` and the five `set` calls, each `unwrap`ped. */
    method OpenCamera(driver: Driver, config: Config) returns (halted: bool)
      requires video.None?
      modifies this
      ensures (if halted then Halted(State()) else Continue(State())) == OpenDefault(driver, old(State()), config)
    {
      IssueAllStep(driver, State(), DefaultOpening(config));
      assert DefaultOpening(config)[1..] == DefaultSettings(config);
      halted := Call(driver, Open(DefaultSource));
      if halted {
        return;
      }
      halted := ApplySettings(driver, config);
      if halted {
        return;
      }
      video := Some(Device(DefaultSource));
    }

    /** The five `set(..).unwrap()` calls on the freshly opened camera. */
    method ApplySettings(driver: Driver, config: Config) returns (halted: bool)
      modifies this
      ensures (if halted then Halted(State()) else Continue(State())) == IssueAll(driver, old(State()), DefaultSettings(config))
    {
      ghost var plan := DefaultSettings(config);
      IssueAllStep(driver, State(), plan);
      halted := Call(driver, Set(FrameWidth, config.width));
      if halted {
        return;
      }
      IssueAllStep(driver, State(), plan[1..]);
      halted := Call(driver, Set(FrameHeight, config.height));
      if halted {
        return;
      }
      IssueAllStep(driver, State(), plan[2..]);
      halted := Call(driver, Set(AutoExposure, config.autoExposure));
      if halted {
        return;
      }
      IssueAllStep(driver, State(), plan[3..]);
      halted := Call(driver, Set(Exposure, config.exposure));
      if halted {
        return;
      }
      IssueAllStep(driver, State(), plan[4..]);
      halted := Call(driver, Set(Gain, config.gain));
      if halted {
        return;
      }
      assert plan[5..] == [];
    }

    method GetFrame(driver: Driver, config: Config) returns (r: Outcome<Frame>)
      modifies this
      ensures Stepped(State(), r) == DefaultGetFrame(driver, old(State()), config)
    {
      var halted := ReleaseIfChanged(driver, config);
      if halted {
        return Panicked;
      }
      if video.None? {
        halted := OpenCamera(driver, config);
        if halted {
          return Panicked;
        }
      }
      lastConfig := Some(config);
      var reply := driver(calls, Read);
      calls := calls + [Read];
      if reply.Failed? {
        return Panicked;
      }
      r := Returned(Frame(reply.ok, reply.image));
    }
  }

  /**
   * The calls `DefaultCapture::get_frame` makes are always the start of its
   * plan, and all of it when a frame is returned; a returned frame leaves a
   * device open and the configuration recorded.
   */
  lemma DefaultFollowsPlan(driver: Driver, s: CaptureState, config: Config)
    ensures var step := DefaultGetFrame(driver, s, config);
      && |s.calls| < |step.state.calls|
      && step.state.calls[..|s.calls|] == s.calls
      && Prefix(step.state.calls[|s.calls|..], DefaultPlan(s, config))
      && (step.result.Returned? ==> step.state.calls[|s.calls|..] == DefaultPlan(s, config))
    ensures var step := DefaultGetFrame(driver, s, config);
      step.result.Returned? ==> step.state.lastConfig == Some(config) && step.state.video.Some?
  {
    var step := DefaultGetFrame(driver, s, config);
    var plan, made := DefaultPlan(s, config), DefaultMade(driver, s, config);
    DefaultMadeIsPrefix(driver, s, config);
    assert step.state.calls == s.calls + made;
    SlicesOfAppend(s.calls, made);
  }

  /** The calls `DefaultGetFrame` makes, stage by stage. */
  function DefaultMade(driver: Driver, s: CaptureState, config: Config): (made: seq<Event>)
    ensures DefaultGetFrame(driver, s, config).state.calls == s.calls + made
  {
    var p := ReleaseOnChange(driver, s, config, []);
    if p.Halted? then [Release]
    else if p.state.video.Some? then ReleasePlan(s, config, []) + [Read]
    else
      var q := OpenDefault(driver, p.state, config);
      var issued := DefaultOpening(config)[..|q.state.calls| - |p.state.calls|];
      var tail := if q.Halted? then [] else [Read];
      assert DefaultGetFrame(driver, s, config).state.calls == q.state.calls + tail;
      AppendAssoc(s.calls, ReleasePlan(s, config, []), issued);
      AppendAssoc(s.calls + ReleasePlan(s, config, []), issued, tail);
      AppendAssoc(s.calls, ReleasePlan(s, config, []) + issued, tail);
      ReleasePlan(s, config, []) + issued + tail
  }

  lemma DefaultMadeIsPrefix(driver: Driver, s: CaptureState, config: Config)
    ensures Prefix(DefaultMade(driver, s, config), DefaultPlan(s, config))
    ensures DefaultGetFrame(driver, s, config).result.Returned? ==> DefaultMade(driver, s, config) == DefaultPlan(s, config)
  {
    var release := ReleasePlan(s, config, []);
    var opening := if DeviceKept(s, config) then [] else DefaultOpening(config);
    var p := ReleaseOnChange(driver, s, config, []);
    if p.Halted? {
      PrefixConcat3([Release], [], [], release, opening, [Read]);
    } else if p.state.video.Some? {
      PrefixConcat3(release, [], [Read], release, opening, [Read]);
    } else {
      var q := OpenDefault(driver, p.state, config);
      var issued := opening[..|q.state.calls| - |p.state.calls|];
      PrefixConcat3(release, issued, if q.Halted? then [] else [Read], release, opening, [Read]);
    }
  }

  /**
   * The order of a `DefaultCapture` call: on a change with a device open,
   * the release comes first; without a device the opening comes first; and
   * a device is opened only when none survives the change check.
   */
  lemma DefaultCallOrder(driver: Driver, s: CaptureState, config: Config)
    ensures var t := DefaultGetFrame(driver, s, config).state;
      && |t.calls| > |s.calls|
      && (ConfigChanged(s.lastConfig, Some(config)) && s.video.Some? ==> t.calls[|s.calls|] == Release)
      && (s.video.None? ==> t.calls[|s.calls|] == Open(DefaultSource))
      && (DeviceKept(s, config) ==> Open(DefaultSource) !in t.calls[|s.calls|..])
  {
    var t := DefaultGetFrame(driver, s, config).state;
    DefaultFollowsPlan(driver, s, config);
    var made, plan := t.calls[|s.calls|..], DefaultPlan(s, config);
    assert t.calls[|s.calls|] == made[0] == plan[0];
    if DeviceKept(s, config) {
      assert plan == [Read];
    }
  }

  /**
   * `DefaultCapture::get_frame` panics exactly when one of its calls fails,
   * and that call is the last it makes: every `unwrap` is on the call just
   * made.
   */
  lemma DefaultPanicsOnFailure(driver: Driver, s: CaptureState, config: Config)
    ensures var step := DefaultGetFrame(driver, s, config);
      FailsOnlyLast(driver, step.state.calls, |s.calls|, step.result.Panicked?)
  {
    var step := DefaultGetFrame(driver, s, config);
    var p := ReleaseOnChange(driver, s, config, []);
    if p.Halted? || p.state.video.Some? {
      assert step.state.calls[..|s.calls|] == s.calls;
    } else {
      if ConfigChanged(s.lastConfig, Some(config)) && s.video.Some? {
        assert p.state.calls[..|s.calls|] == s.calls;
      }
      assert FailsOnlyLast(driver, p.state.calls, |s.calls|, false);
      var q := OpenDefault(driver, p.state, config);
      assert q.state.calls[..|p.state.calls|] == p.state.calls;
      FailsOnlyLastJoin(driver, q.state.calls, |s.calls|, |p.state.calls|, q.Halted?);
      if !q.Halted? {
        assert step.state.calls[..|q.state.calls|] == q.state.calls;
        FailsOnlyLastJoin(driver, step.state.calls, |s.calls|, |q.state.calls|, step.result.Panicked?);
      }
    }
  }

  /** Two stretches of calls, the first of which had no failure, are one stretch. */
  lemma FailsOnlyLastJoin(driver: Driver, calls: seq<Event>, from: nat, mid: nat, halted: bool)
    requires from <= mid <= |calls| && (mid < |calls| || !halted)
    requires FailsOnlyLast(driver, calls[..mid], from, false)
    requires FailsOnlyLast(driver, calls, mid, halted)
    ensures FailsOnlyLast(driver, calls, from, halted)
  {
    forall j | from <= j < mid
      ensures !driver(calls[..j], calls[j]).Failed?
    {
      assert calls[..mid][..j] == calls[..j] && calls[..mid][j] == calls[j];
    }
  }

  /** A failed `read` on a kept device panics `DefaultCapture`, after recording the configuration. */
  lemma DefaultReadFailurePanics(driver: Driver, s: CaptureState, config: Config)
    requires DeviceKept(s, config) && driver(s.calls, Read).Failed?
    ensures DefaultGetFrame(driver, s, config)
      == Stepped(s.(lastConfig := Some(config), calls := s.calls + [Read]), Panicked)
  {
  }

  /** With a camera whose every call succeeds, `DefaultCapture` returns after its whole plan, leaving a device open. */
  lemma DefaultReliableCameraReturns(driver: Driver, s: CaptureState, config: Config)
    requires forall h, e :: driver(h, e).Succeeded?
    ensures var step := DefaultGetFrame(driver, s, config);
      && step.result.Returned?
      && step.state.calls == s.calls + DefaultPlan(s, config)
      && step.state.video.Some?
  {
    var step := DefaultGetFrame(driver, s, config);
    DefaultFollowsPlan(driver, s, config);
    DefaultPanicsOnFailure(driver, s, config);
    NoFailureNoHalt(driver, step.state.calls, |s.calls|, step.result.Panicked?);
    Joined(step.state.calls, |s.calls|);
  }

  /** A stretch of calls none of which failed did not halt. */
  lemma NoFailureNoHalt(driver: Driver, calls: seq<Event>, from: nat, halted: bool)
    requires from < |calls| && FailsOnlyLast(driver, calls, from, halted)
    requires forall h, e :: driver(h, e).Succeeded?
    ensures !halted
  {
    var j := |calls| - 1;
    assert !driver(calls[..j], calls[j]).Failed?;
  }

  // ---------------------------------------------------------------------
  // GStreamerCapture (capture.rs:81-119).

  /** The two-second pause after releasing the device. */
  const RestartPause := Sleep(2000)

  /** Rust's `{}` formatting of an unsigned integer: its decimal digits. */
  function Decimal(n: nat): (r: string)
    ensures |r| >= 1
    ensures forall i :: 0 <= i < |r| ==> '0' <= r[i] <= '9'
    ensures r[0] == '0' <==> n == 0
  {
    if n < 10 then [('0' as int + n) as char] else Decimal(n / 10) + [('0' as int + n % 10) as char]
  }

  predicate AllDigits(s: string)
  {
    forall i :: 0 <= i < |s| ==> '0' <= s[i] <= '9'
  }

  /** Reading decimal digits back, the inverse of `Decimal`. */
  function ParseDecimal(s: string): nat
    requires AllDigits(s)
  {
    if s == [] then 0 else ParseDecimal(s[..|s| - 1]) * 10 + (s[|s| - 1] as int - '0' as int)
  }

  lemma {:induction false} DecimalRoundTrip(n: nat)
    ensures ParseDecimal(Decimal(n)) == n
  {
    if n >= 10 {
      var r := Decimal(n);
      assert r[..|r| - 1] == Decimal(n / 10);
      DecimalRoundTrip(n / 10);
    }
  }

  /** The values the pipeline is formatted from. */
  function PipelineOf(config: Config): Pipeline
  {
    Pipeline(config.videoPath, config.autoExposure, config.exposure, config.gain, config.width, config.height)
  }

  /** The `format!` string handed to `VideoCapture::from_file`. */
  function PipelineText(p: Pipeline): string
  {
    "v4l2src device=" + p.device
    + " extra_controls=\"c,exposure_auto=" + Decimal(p.autoExposure)
    + ",exposure_absolute=" + Decimal(p.exposure)
    + ",gain=" + Decimal(p.gain)
    + ",sharpness=0,brightness=0\" ! image/jpeg,format=MJPG,width=" + Decimal(p.width)
    + ",height=" + Decimal(p.height)
    + " ! jpegdec ! video/x-raw ! appsink drop=1"
  }

  function GStreamerPipeline(config: Config): string
  {
    PipelineText(PipelineOf(config))
  }

  function GStreamerSource(config: Config): Source
  {
    GStreamer(PipelineOf(config))
  }

  /** The opening block: nothing for an empty `video_path`, otherwise `from_file(..).unwrap()`. */
  function OpenGStreamer(driver: Driver, s: CaptureState, config: Config): (p: Progress)
    ensures p.state.lastConfig == s.lastConfig
    ensures config.videoPath == "" ==> p == Continue(s)
    ensures config.videoPath != "" ==> p.state.calls == s.calls + [Open(GStreamerSource(config))]
    ensures p.Continue? && config.videoPath != "" ==> p.state.video == Some(Device(GStreamerSource(config)))
    ensures config.videoPath != "" ==> (p.Halted? <==> driver(s.calls, Open(GStreamerSource(config))).Failed?)
  {
    if config.videoPath == "" then Continue(s)
    else
      var source := GStreamerSource(config);
      if driver(s.calls, Open(source)).Failed? then Halted(Issue(s, Open(source)))
      else Continue(Issue(s, Open(source)).(video := Some(Device(source))))
  }

  /** The call `from_file` makes when no device is kept and `video_path` is set. */
  function OpeningPlan(s: CaptureState, config: Config): seq<Event>
  {
    if DeviceKept(s, config) || config.videoPath == "" then [] else [Open(GStreamerSource(config))]
  }

  /**
   * The first half of `GStreamerCapture::get_frame`: the release on a
   * changed configuration, then the opening block when no device is left.
   */
  function GStreamerOpening(driver: Driver, s: CaptureState, config: Config): (q: Progress)
    ensures q.state.lastConfig == s.lastConfig
    ensures q.state.calls == s.calls
      + (if ReleaseOnChange(driver, s, config, [RestartPause]).Halted? then [Release]
         else ReleasePlan(s, config, [RestartPause]) + OpeningPlan(s, config))
    ensures ReleaseOnChange(driver, s, config, [RestartPause]).Halted? ==> q.Halted?
    ensures q.Continue? ==> (q.state.video.Some? <==> DeviceKept(s, config) || config.videoPath != "")
    ensures q.Continue? && !DeviceKept(s, config) && config.videoPath != "" ==> q.state.video == Some(Device(GStreamerSource(config)))
  {
    var p := ReleaseOnChange(driver, s, config, [RestartPause]);
    if p.Halted? || p.state.video.Some? then p else OpenGStreamer(driver, p.state, config)
  }

  /**
   * The second half: `read` and `unwrap` when there is a device, releasing
   * it and panicking on a read that answers `false`; an empty frame when
   * there is none.
   */
  function GStreamerRead(driver: Driver, t: CaptureState): (step: Stepped)
    ensures step.state.lastConfig == t.lastConfig
    ensures t.video.None? ==> step == Stepped(t, Returned(Frame(false, EmptyImage)))
    ensures t.video.Some? ==>
      step.state.calls == t.calls + (if driver(t.calls, Read).Succeeded? && !driver(t.calls, Read).ok then [Read, Release] else [Read])
    ensures t.video.Some? ==> (step.result.Returned? <==> driver(t.calls, Read).Succeeded? && driver(t.calls, Read).ok)
    ensures t.video.Some? && step.result.Returned? ==> step.result.value == Frame(true, driver(t.calls, Read).image)
  {
    if t.video.Some? then
      var reply := driver(t.calls, Read);
      if reply.Failed? then Stepped(Issue(t, Read), Panicked)
      else if !reply.ok then Stepped(Issue(Issue(t, Read), Release), Panicked)
      else Stepped(Issue(t, Read), Returned(Frame(reply.ok, reply.image)))
    else Stepped(t, Returned(Frame(false, EmptyImage)))
  }

  /** `GStreamerCapture::get_frame`: the opening, `last_config = Some(config)`, then the read. */
  function GStreamerGetFrame(driver: Driver, s: CaptureState, config: Config): Stepped
  {
    var q := GStreamerOpening(driver, s, config);
    if q.Halted? then Stepped(q.state, Panicked)
    else GStreamerRead(driver, q.state.(lastConfig := Some(config)))
  }

  /** Every call `GStreamerCapture::get_frame` makes when it returns. */
  function GStreamerPlan(s: CaptureState, config: Config): seq<Event>
  {
    ReleasePlan(s, config, [RestartPause])
    + (if DeviceKept(s, config) then [Read]
       else if config.videoPath == "" then []
       else [Open(GStreamerSource(config)), Read])
  }

  /**
   * The calls `GStreamerCapture::get_frame` makes are the start of its plan
   * followed by one more release (made after a failed read); a returned
   * frame made exactly the plan and records the configuration.
   */
  lemma GStreamerFollowsPlan(driver: Driver, s: CaptureState, config: Config)
    ensures var step, plan := GStreamerGetFrame(driver, s, config), GStreamerPlan(s, config);
      && |s.calls| <= |step.state.calls|
      && step.state.calls[..|s.calls|] == s.calls
      && Prefix(step.state.calls[|s.calls|..], plan + [Release])
      && (step.result.Returned? ==> step.state.calls[|s.calls|..] == plan)
      && (step.result.Returned? ==> step.state.lastConfig == Some(config))
  {
    var step, made := GStreamerGetFrame(driver, s, config), GStreamerMade(driver, s, config);
    GStreamerMadeIsPrefix(driver, s, config);
    SlicesOfAppend(s.calls, made);
  }

  /** The calls `GStreamerGetFrame` makes, stage by stage. */
  function GStreamerMade(driver: Driver, s: CaptureState, config: Config): (made: seq<Event>)
    ensures GStreamerGetFrame(driver, s, config).state.calls == s.calls + made
  {
    var q := GStreamerOpening(driver, s, config);
    var staged := if ReleaseOnChange(driver, s, config, [RestartPause]).Halted? then [Release]
                  else ReleasePlan(s, config, [RestartPause]) + OpeningPlan(s, config);
    if q.Halted? || q.state.video.None? then staged
    else
      var reply := driver(q.state.calls, Read);
      staged + (if reply.Succeeded? && !reply.ok then [Read, Release] else [Read])
  }

  lemma GStreamerMadeIsPrefix(driver: Driver, s: CaptureState, config: Config)
    ensures Prefix(GStreamerMade(driver, s, config), GStreamerPlan(s, config) + [Release])
    ensures GStreamerGetFrame(driver, s, config).result.Returned? ==> GStreamerMade(driver, s, config) == GStreamerPlan(s, config)
  {
    var release, opening := ReleasePlan(s, config, [RestartPause]), OpeningPlan(s, config);
    var reading := if DeviceKept(s, config) || config.videoPath != "" then [Read] else [];
    assert GStreamerPlan(s, config) == release + opening + reading;
    AppendAssoc(release + opening, reading, [Release]);
    var q := GStreamerOpening(driver, s, config);
    if ReleaseOnChange(driver, s, config, [RestartPause]).Halted? {
      PrefixConcat([Release], [], release, opening + reading + [Release]);
      AppendAssoc(release, opening, reading + [Release]);
    } else if q.Halted? || q.state.video.None? {
      PrefixConcat(release + opening, [], release + opening, reading + [Release]);
    } else {
      var reply := driver(q.state.calls, Read);
      var tail := if reply.Succeeded? && !reply.ok then [Read, Release] else [Read];
      PrefixConcat(release + opening, tail, release + opening, reading + [Release]);
    }
  }

  /**
   * `GStreamerCapture` reports `false` only when it has no device: a read
   * that fails is never returned, it releases the device and panics.
   */
  lemma GStreamerFalseMeansNoDevice(driver: Driver, s: CaptureState, config: Config)
    ensures var step := GStreamerGetFrame(driver, s, config);
      step.result.Returned? && !step.result.value.ok ==>
        && step.result.value.image == EmptyImage
        && step.state.video.None?
        && !DeviceKept(s, config) && config.videoPath == ""
        && step.state.calls[|s.calls|..] == ReleasePlan(s, config, [RestartPause])
  {
    var step := GStreamerGetFrame(driver, s, config);
    if step.result.Returned? && !step.result.value.ok {
      SlicesOfAppend(s.calls, ReleasePlan(s, config, [RestartPause]) + OpeningPlan(s, config));
    }
  }

  /**
   * With no device kept and an empty `video_path` nothing is opened and
   * nothing is read: the frame is `(false, Mat::default())`, and only a
   * failed release panics. Without a device to begin with nothing can fail.
   */
  lemma GStreamerNoPathNoOpen(driver: Driver, s: CaptureState, config: Config)
    requires !DeviceKept(s, config) && config.videoPath == ""
    ensures var step := GStreamerGetFrame(driver, s, config);
      && |s.calls| <= |step.state.calls|
      && Prefix(step.state.calls[|s.calls|..], ReleasePlan(s, config, [RestartPause]))
      && (step.result.Panicked? <==> ReleaseOnChange(driver, s, config, [RestartPause]).Halted?)
      && (step.result.Returned? ==> step.result == Returned(Frame(false, EmptyImage)))
      && (s.video.None? ==> step == Stepped(s.(lastConfig := Some(config)), Returned(Frame(false, EmptyImage))))
    ensures Open(GStreamerSource(config)) !in ReleasePlan(s, config, [RestartPause])
    ensures Read !in ReleasePlan(s, config, [RestartPause])
  {
    var release := ReleasePlan(s, config, [RestartPause]);
    if ReleaseOnChange(driver, s, config, [RestartPause]).Halted? {
      SlicesOfAppend(s.calls, [Release]);
    } else {
      SlicesOfAppend(s.calls, release);
    }
  }

  /** A read that answers `false` makes `GStreamerCapture` release the device and panic. */
  lemma GStreamerReadFailurePanics(driver: Driver, s: CaptureState, config: Config)
    requires DeviceKept(s, config)
    requires driver(s.calls, Read).Succeeded? && !driver(s.calls, Read).ok
    ensures GStreamerGetFrame(driver, s, config)
      == Stepped(s.(lastConfig := Some(config), calls := s.calls + [Read, Release]), Panicked)
  {
  }

  /** With a camera whose every call succeeds and reads a frame, `GStreamerCapture` returns after its whole plan. */
  lemma GStreamerReliableCameraReturns(driver: Driver, s: CaptureState, config: Config)
    requires forall h, e :: driver(h, e).Succeeded? && driver(h, e).ok
    ensures var step := GStreamerGetFrame(driver, s, config);
      && step.result.Returned?
      && step.state.calls == s.calls + GStreamerPlan(s, config)
  {
    GStreamerMadeIsPrefix(driver, s, config);
  }

  class GStreamerCapture {
    var video: Option<Device>
    var lastConfig: Option<Config>
    /** The calls made to the camera, and the pauses, so far. */
    var calls: seq<Event>

    function State(): CaptureState
      reads this
    {
      CaptureState(video, lastConfig, calls)
    }

    constructor ()
      ensures State() == Initial
    {
      video, lastConfig, calls := None, None, [];
    }

    method Call(driver: Driver, e: Event) returns (failed: bool)
      modifies this
      ensures failed == driver(old(calls), e).Failed?
      ensures State() == Issue(old(State()), e)
    {
      failed := driver(calls, e).Failed?;
      calls := calls + [e];
    }

    /** The change check, with the two-second pause after a release. */
    method ReleaseIfChanged(driver: Driver, config: Config) returns (halted: bool)
      modifies this
      ensures (if halted then Halted(State()) else Continue(State())) == ReleaseOnChange(driver, old(State()), config, [RestartPause])
    {
      halted := false;
      if ConfigChanged(lastConfig, Some(config)) {
        if video.Some? {
          video := None;
          halted := Call(driver, Release);
          if !halted {
            calls := calls + [RestartPause];
          }
        }
      }
    }

    /** The release check and the opening block. */
    method Prepare(driver: Driver, config: Config) returns (halted: bool)
      modifies this
      ensures (if halted then Halted(State()) else Continue(State())) == GStreamerOpening(driver, old(State()), config)
    {
      halted := ReleaseIfChanged(driver, config);
      if !halted && video.None? {
        if config.videoPath == "" {
          // "No camera ID, waiting to start capture session."
        } else {
          var source := GStreamerSource(config);
          halted := Call(driver, Open(source));
          if !halted {
            video := Some(Device(source));
          }
        }
      }
    }

    /** The read once the configuration is recorded. */
    method ReadFrame(driver: Driver) returns (r: Outcome<Frame>)
      modifies this
      ensures Stepped(State(), r) == GStreamerRead(driver, old(State()))
    {
      if video.Some? {
        var reply := driver(calls, Read);
        calls := calls + [Read];
        if reply.Failed? {
          return Panicked;
        }
        var retval := reply.ok;
        if !retval {
          var _ := Call(driver, Release);
          return Panicked;
        }
        return Returned(Frame(retval, reply.image));
      } else {
        return Returned(Frame(false, EmptyImage));
      }
    }

    method GetFrame(driver: Driver, config: Config) returns (r: Outcome<Frame>)
      modifies this
      ensures Stepped(State(), r) == GStreamerGetFrame(driver, old(State()), config)
    {
      var halted := Prepare(driver, config);
      if halted {
        return Panicked;
      }
      lastConfig := Some(config);
      r := ReadFrame(driver);
    }
  }

  // ---------------------------------------------------------------------
  // TestCapture (capture.rs:121-138).

  class TestCapture {
    var testImage: Image

    /** `Default::default()`, given the decoded `test.png`. */
    constructor (decoded: Image)
      ensures testImage == decoded
    {
      testImage := decoded;
    }

    /** Always a successful read of the test image, whatever the configuration. */
    method GetFrame(config: Config) returns (frame: Frame)
      ensures frame.ok && frame.image == testImage
    {
      frame := Frame(true, testImage);
    }
  }

  // ---------------------------------------------------------------------
  // Properties of `config_changed`.

  lemma ConfigChangedCases(a: Config, b: Config)
    ensures !ConfigChanged(None, None)
    ensures ConfigChanged(Some(a), None) && ConfigChanged(None, Some(b))
    ensures ConfigChanged(Some(a), Some(b)) <==> !SameAcquisition(a, b)
  {
  }

  /** `config_changed` is symmetric and irreflexive. */
  lemma ConfigChangedSymmetric(a: Option<Config>, b: Option<Config>)
    ensures ConfigChanged(a, b) == ConfigChanged(b, a)
    ensures !ConfigChanged(a, a)
  {
  }

  /** An unchanged configuration asks for the same pipeline. */
  lemma SamePipeline(a: Config, b: Config)
    requires !ConfigChanged(Some(a), Some(b))
    ensures GStreamerSource(a) == GStreamerSource(b)
    ensures GStreamerPipeline(a) == GStreamerPipeline(b)
  {
  }
}
