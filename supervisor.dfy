/**
 * src/main.rs, the capture thread spawned by `rocket()`: the outer loop that
 * (re)starts a capture session and catches its panics, and the inner loop
 * that reads a frame, resolves and sends a pose sample, and sends an MJPEG
 * preview part.
 *
 * Both loops poll the stop flag at every boundary.  The flag readings, the
 * camera, the marker detector, the PnP solver and the JPEG encoder are all
 * inputs; a finite script of flag readings bounds the otherwise endless
 * loops, and running out of it ends the run without a verdict.
 */
module Supervisor {
  import opened Outcomes
  import opened Wire
  import opened Geometry3
  import opened Config
  import opened Types
  import opened Capture
  import opened PoseEstimator
  import opened Seqs

  // ---------------------------------------------------------------------
  // MJPEG part framing (main.rs:141-148).

  /** The bytes of an ASCII text. */
  function Ascii(s: string): (r: seq<byte>)
    requires forall i :: 0 <= i < |s| ==> s[i] as int < 0x80
    ensures |r| == |s|
  {
    seq(|s|, i requires 0 <= i < |s| => s[i] as int)
  }

  /** `*b"--FRAME\r\nContent-Type: image/jpeg\r\n\r\n"`. */
  const PartHeader: seq<byte> := Ascii("--FRAME\r\nContent-Type: image/jpeg\r\n\r\n")

  /** `*b"\r\n"`. */
  const PartTrailer: seq<byte> := [13, 10]

  /** One part of the `multipart/x-mixed-replace; boundary=FRAME` stream. */
  function FramePart(jpeg: seq<byte>): (r: seq<byte>)
    ensures |r| == |jpeg| + 39
  {
    PartHeader + jpeg + PartTrailer
  }

  /** Reading the JPEG back out of a part. */
  function Unframe(part: seq<byte>): Option<seq<byte>>
  {
    if |part| >= 39 && part[..37] == PartHeader && part[|part| - 2..] == PartTrailer
    then Some(part[37..|part| - 2])
    else None
  }

  lemma UnframeRoundTrip(jpeg: seq<byte>)
    ensures Unframe(FramePart(jpeg)) == Some(jpeg)
  {
    var part := FramePart(jpeg);
    assert part == PartHeader + (jpeg + PartTrailer);
    SlicesOfAppend(PartHeader, jpeg + PartTrailer);
    SlicesOfAppend(PartHeader + jpeg, PartTrailer);
    SliceInSecond(PartHeader, jpeg + PartTrailer, 37, |part| - 2);
    SlicesOfAppend(jpeg, PartTrailer);
  }

  /** Only a well-formed part unframes, and framing its content gives it back. */
  lemma UnframeOnlyParts(part: seq<byte>)
    requires Unframe(part).Some?
    ensures FramePart(Unframe(part).value) == part
  {
    var jpeg := Unframe(part).value;
    assert part == part[..37] + part[37..|part| - 2] + part[|part| - 2..];
  }

  // ---------------------------------------------------------------------
  // The outside world of the capture thread.

  /** A reading of the stop flag: clear, raised, or a poisoned lock. */
  datatype FlagRead = Clear | Raised | Poisoned

  /** What `detect_fiducial` gives back: the sightings and the frame with the markers drawn on it. */
  datatype Detection = Detection(tags: seq<FiducialImageObservation>, annotated: Image)

  datatype Environment = Environment(
    camera: Driver,                                // the V4L2 device behind GStreamer
    detect: Image -> Outcome<Detection>,           // `detect_fiducial`, whose `unwrap`s may panic
    encodeJpeg: Image -> Outcome<seq<byte>>,       // `imencode_def(".jpg", ..).unwrap()`
    kernels: Kernels,
    solver: PnpSolver)

  /** The two bounded channels: pose samples to the network task, preview parts to the HTTP stream. */
  datatype Channel = PoseData | PreviewStream

  /** What the capture thread does that can be seen from outside it. */
  datatype Effect =
    | Send(channel: Channel, bytes: seq<byte>, timeoutMs: nat)   // `send_timeout`, result discarded
    | Pause(ms: nat)                                              // `thread::sleep`
    | SessionFault                                                // a caught panic, "Error in camera stream"

  const PoseSendTimeoutMs := 4
  const PreviewSendTimeoutMs := 8
  const MissedFramePauseMs := 100

  // ---------------------------------------------------------------------
  // One iteration of the inner loop (main.rs:126-148).

  datatype Ticked = Ticked(capture: CaptureState, effects: seq<Effect>, panicked: bool)

  /** The pose send: nothing without a pose, otherwise the encoded sample (or the encoder's panic). */
  function PoseEffects(pose: Option<CameraPoseObservation>): Outcome<seq<Effect>>
  {
    match pose
    case None => Returned([])
    case Some(p) =>
      var encoded := Encode(0, p);
      if encoded.Faulted? then Panicked else Returned([Send(PoseData, encoded.bytes, PoseSendTimeoutMs)])
  }

  function Tick(env: Environment, config: Config, capture: CaptureState): Ticked
  {
    FrameTick(env, config, GStreamerGetFrame(env.camera, capture, config))
  }

  /** The rest of the iteration, once `get_frame` has returned or panicked. */
  function FrameTick(env: Environment, config: Config, step: Stepped): Ticked
  {
    if step.result.Panicked? then Ticked(step.state, [], true)
    else if !step.result.value.ok then Ticked(step.state, [Pause(MissedFramePauseMs)], false)
    else
      var detection := env.detect(step.result.value.image);
      if detection.Panicked? then Ticked(step.state, [], true)
      else
        var pose := Resolve(env.kernels, env.solver, config, detection.value.tags);
        if pose.Panicked? then Ticked(step.state, [], true)
        else
          var sent := PoseEffects(pose.value);
          if sent.Panicked? then Ticked(step.state, [], true)
          else
            var jpeg := env.encodeJpeg(detection.value.annotated);
            if jpeg.Panicked? then Ticked(step.state, sent.value, true)
            else Ticked(step.state, sent.value + [Send(PreviewStream, FramePart(jpeg.value), PreviewSendTimeoutMs)], false)
  }

  /**
   * A frame that was not read (no device, see GStreamerFalseMeansNoDevice)
   * costs a 100 ms pause and nothing else: no detection, no send.
   */
  lemma TickMissedFrame(env: Environment, config: Config, capture: CaptureState)
    requires GStreamerGetFrame(env.camera, capture, config).result.Returned?
    requires !GStreamerGetFrame(env.camera, capture, config).result.value.ok
    ensures var t := Tick(env, config, capture);
      && t.effects == [Pause(MissedFramePauseMs)] && !t.panicked
      && t.capture.video.None? && config.videoPath == ""
  {
    GStreamerFalseMeansNoDevice(env.camera, capture, config);
  }

  /** The pose resolved from fewer than 2^31 sightings is encoded without panicking, and decodes back. */
  lemma ResolvedPoseEncodes(kernels: Kernels, solver: PnpSolver, config: Config, obs: seq<FiducialImageObservation>,
                            p: CameraPoseObservation)
    requires Resolve(kernels, solver, config, obs) == Returned(Some(p))
    requires |obs| < 0x8000_0000
    ensures PoseEffects(Some(p)) == Returned([Send(PoseData, Encode(0, p).bytes, PoseSendTimeoutMs)])
    ensures Decode(Encode(0, p).bytes) == Some(Sample(0, NarrowIds(p.tagIds), Record(p.pose0, p.error0), SecondaryRecord(p)))
  {
    ResolvedShape(kernels, solver, config, obs);
    EncodeCompletes(0, p);
    EncodeDecodeRoundTrip(0, p);
  }

  /**
   * A resolved pose is always sent: its `write_be(..).unwrap()` cannot
   * panic, and the bytes on the pose channel decode back to the sample of
   * that pose at time 0.  The preview part follows unless the JPEG encoder
   * panics, and unframes back to the encoder's output.
   */
  lemma TickSendsResolvedPose(env: Environment, config: Config, step: Stepped, d: Detection, p: CameraPoseObservation)
    requires step.result.Returned? && step.result.value.ok
    requires env.detect(step.result.value.image) == Returned(d)
    requires Resolve(env.kernels, env.solver, config, d.tags) == Returned(Some(p))
    requires |d.tags| < 0x8000_0000
    ensures var t := FrameTick(env, config, step);
      && |t.effects| >= 1
      && t.effects[0] == Send(PoseData, Encode(0, p).bytes, PoseSendTimeoutMs)
      && Decode(t.effects[0].bytes) == Some(Sample(0, NarrowIds(p.tagIds), Record(p.pose0, p.error0), SecondaryRecord(p)))
      && (t.panicked <==> env.encodeJpeg(d.annotated).Panicked?)
      && (!t.panicked ==>
            && |t.effects| == 2
            && t.effects[1].Send? && t.effects[1].channel == PreviewStream
            && Unframe(t.effects[1].bytes) == Some(env.encodeJpeg(d.annotated).value))
  {
    ResolvedPoseEncodes(env.kernels, env.solver, config, d.tags, p);
    if env.encodeJpeg(d.annotated).Returned? {
      UnframeRoundTrip(env.encodeJpeg(d.annotated).value);
    }
  }

  /** Without a pose nothing goes to the pose channel: the tick sends the preview part alone. */
  lemma TickWithoutPose(env: Environment, config: Config, step: Stepped, d: Detection)
    requires step.result.Returned? && step.result.value.ok
    requires env.detect(step.result.value.image) == Returned(d)
    requires Resolve(env.kernels, env.solver, config, d.tags) == Returned(None)
    ensures var t := FrameTick(env, config, step);
      && (t.panicked <==> env.encodeJpeg(d.annotated).Panicked?)
      && (!t.panicked ==>
            && |t.effects| == 1
            && t.effects[0].Send? && t.effects[0].channel == PreviewStream
            && Unframe(t.effects[0].bytes) == Some(env.encodeJpeg(d.annotated).value))
      && (t.panicked ==> t.effects == [])
  {
    if env.encodeJpeg(d.annotated).Returned? {
      UnframeRoundTrip(env.encodeJpeg(d.annotated).value);
    }
  }

  // ---------------------------------------------------------------------
  // The two loops.

  /** How a session ended: the stop flag, a panic, or the end of the script. */
  datatype Ending = StopRequested | Fault | ScriptEnd

  /** A session's effects, how it ended, the flag readings left after it, and the camera's log at its end. */
  datatype SessionEnd = SessionEnd(effects: seq<Effect>, ending: Ending, rest: seq<FlagRead>, calls: seq<Event>)

  /** The iteration of one session's inner loop, on its environment and parsed configuration. */
  function TickOf(env: Environment, config: Config): CaptureState -> Ticked
  {
    c => Tick(env, config, c)
  }

  /**
   * The inner loop from capture state `capture`, given the flag readings
   * still to come; `tick` is the loop body (TickOf in the program).
   */
  function Session(tick: CaptureState -> Ticked, capture: CaptureState, flags: seq<FlagRead>): (r: SessionEnd)
    ensures |r.rest| < |flags| || (flags == [] && r.rest == [])
    ensures r.rest == flags[|flags| - |r.rest|..]
    ensures r.ending == ScriptEnd ==> r.rest == []
    decreases |flags|
  {
    if flags == [] then SessionEnd([], ScriptEnd, [], capture.calls)
    else if flags[0] != Clear then SessionEnd([], StopRequested, flags[1..], capture.calls)
    else
      var t := tick(capture);
      if t.panicked then SessionEnd(t.effects, Fault, flags[1..], t.capture.calls)
      else
        var more := Session(tick, t.capture, flags[1..]);
        assert flags[1..][|flags| - 1 - |more.rest|..] == flags[|flags| - |more.rest|..];
        SessionEnd(t.effects + more.effects, more.ending, more.rest, more.calls)
  }

  /** The capture thread's effects, whether it left its outer loop, and the camera's log at the end. */
  datatype Supervised = Supervised(effects: seq<Effect>, exited: bool, calls: seq<Event>)

  /**
   * A fresh `GStreamerCapture`, on a camera that has already seen the calls
   * `history` (those of earlier sessions).
   */
  function FreshCapture(history: seq<Event>): (c: CaptureState)
    ensures c.video.None? && c.lastConfig.None? && c.calls == history
  {
    Initial.(calls := history)
  }

  /**
   * The outer loop: each session parses the configuration (a parse failure
   * panics), starts from a fresh `GStreamerCapture` on the same camera,
   * and a panic in it is logged before the next session. `history` is the
   * camera's log so far.
   */
  function Supervise(env: Environment, config: Option<Config>, history: seq<Event>, flags: seq<FlagRead>): Supervised
    decreases |flags|
  {
    if flags == [] then Supervised([], false, history)
    else if flags[0] != Clear then Supervised([], true, history)
    else if config.None? then
      var more := Supervise(env, config, history, flags[1..]);
      Supervised([SessionFault] + more.effects, more.exited, more.calls)
    else
      var s := Session(TickOf(env, config.value), FreshCapture(history), flags[1..]);
      var more := Supervise(env, config, s.calls, s.rest);
      Supervised(s.effects + (if s.ending == Fault then [SessionFault] else []) + more.effects, more.exited, more.calls)
  }

  /**
   * A session stops by the first reading that is not `Ok(false)`: it does
   * not run to the end of the script, and it consumes no reading past it.
   */
  lemma {:induction false} SessionStopsBy(tick: CaptureState -> Ticked, capture: CaptureState, flags: seq<FlagRead>, k: nat)
    requires k < |flags| && flags[k] != Clear
    ensures var r := Session(tick, capture, flags);
      r.ending != ScriptEnd && |r.rest| >= |flags| - k - 1
    decreases |flags|
  {
    if flags[0] == Clear {
      var t := tick(capture);
      if !t.panicked {
        SessionStopsBy(tick, t.capture, flags[1..], k - 1);
      }
    }
  }

  /** A session that reports the stop flag stopped at the first reading that was not `Ok(false)`. */
  lemma {:induction false} SessionStopsAtFirstRaise(tick: CaptureState -> Ticked, capture: CaptureState, flags: seq<FlagRead>)
    ensures var r := Session(tick, capture, flags);
      r.ending == StopRequested ==>
        && |r.rest| < |flags|
        && flags[|flags| - |r.rest| - 1] != Clear
        && forall j :: 0 <= j < |flags| - |r.rest| - 1 ==> flags[j] == Clear
    decreases |flags|
  {
    if flags != [] && flags[0] == Clear {
      var t := tick(capture);
      if !t.panicked {
        var tail := flags[1..];
        SessionStopsAtFirstRaise(tick, t.capture, tail);
        var r := Session(tick, t.capture, tail);
        var whole := Session(tick, capture, flags);
        assert whole.ending == r.ending && whole.rest == r.rest;
        if r.ending == StopRequested {
          var stop := |flags| - |r.rest| - 1;
          assert flags[stop] == tail[stop - 1];
          forall j | 0 <= j < stop
            ensures flags[j] == Clear
          {
            if j > 0 {
              assert flags[j] == tail[j - 1];
            }
          }
        }
      }
    }
  }

  /**
   * Once the stop flag stays raised (or its lock poisoned) for the last two
   * readings or more, the capture thread leaves its outer loop: the inner
   * loop sees it and breaks, then the outer loop sees it again.
   */
  lemma {:induction false} SuperviseExitsOnStop(env: Environment, config: Option<Config>, history: seq<Event>, flags: seq<FlagRead>, n: nat)
    requires 2 <= n <= |flags|
    requires forall j :: |flags| - n <= j < |flags| ==> flags[j] != Clear
    ensures Supervise(env, config, history, flags).exited
    decreases |flags|
  {
    if flags[0] == Clear {
      var tail := flags[1..];
      assert forall j :: |tail| - n <= j < |tail| ==> tail[j] == flags[j + 1];
      if config.None? {
        SuperviseExitsOnStop(env, config, history, tail, n);
      } else {
        var k := |tail| - n;
        SessionStopsBy(TickOf(env, config.value), FreshCapture(history), tail, k);
        var s := Session(TickOf(env, config.value), FreshCapture(history), tail);
        assert forall j :: 0 <= j < |s.rest| ==> s.rest[j] == flags[|flags| - |s.rest| + j];
        if |s.rest| >= n {
          SuperviseExitsOnStop(env, config, s.calls, s.rest, n);
        } else {
          assert s.rest[0] == flags[|flags| - |s.rest|];
        }
      }
    }
  }

  /** While the stop flag reads `Ok(false)` the capture thread never leaves its outer loop. */
  lemma {:induction false} SuperviseStaysWhileClear(env: Environment, config: Option<Config>, history: seq<Event>, flags: seq<FlagRead>)
    requires forall j :: 0 <= j < |flags| ==> flags[j] == Clear
    ensures !Supervise(env, config, history, flags).exited
    decreases |flags|
  {
    if flags != [] {
      var tail := flags[1..];
      assert forall j :: 0 <= j < |tail| ==> tail[j] == flags[j + 1];
      if config.None? {
        SuperviseStaysWhileClear(env, config, history, tail);
      } else {
        var s := Session(TickOf(env, config.value), FreshCapture(history), tail);
        assert forall j :: 0 <= j < |s.rest| ==> s.rest[j] == tail[|tail| - |s.rest| + j];
        SuperviseStaysWhileClear(env, config, s.calls, s.rest);
      }
    }
  }

  /** An unreadable configuration makes every session panic at once: only faults are logged. */
  lemma {:induction false} SuperviseBadConfig(env: Environment, history: seq<Event>, flags: seq<FlagRead>)
    ensures var r := Supervise(env, None, history, flags);
      && |r.effects| < |flags| + 1 && (forall e :: e in r.effects ==> e == SessionFault)
      && r.calls == history
    decreases |flags|
  {
    if flags != [] && flags[0] == Clear {
      SuperviseBadConfig(env, history, flags[1..]);
    }
  }

  /** An iteration of the inner loop only adds to the camera's log. */
  lemma TickKeepsLog(env: Environment, config: Config, capture: CaptureState)
    ensures Prefix(capture.calls, Tick(env, config, capture).capture.calls)
  {
    GStreamerFollowsPlan(env.camera, capture, config);
  }

  /** A session whose iterations only add to the camera's log only adds to it too. */
  lemma {:induction false} SessionLogGrows(tick: CaptureState -> Ticked, capture: CaptureState, flags: seq<FlagRead>)
    requires forall c: CaptureState :: Prefix(c.calls, tick(c).capture.calls)
    ensures Prefix(capture.calls, Session(tick, capture, flags).calls)
    decreases |flags|
  {
    if flags != [] && flags[0] == Clear {
      var t := tick(capture);
      if !t.panicked {
        SessionLogGrows(tick, t.capture, flags[1..]);
        PrefixTrans(capture.calls, t.capture.calls, Session(tick, t.capture, flags[1..]).calls);
      }
    }
  }

  /**
   * The outer loop only adds to the camera's log: each session sees the
   * calls of those before it.
   */
  lemma {:induction false} SuperviseLogGrows(env: Environment, config: Option<Config>, history: seq<Event>, flags: seq<FlagRead>)
    ensures Prefix(history, Supervise(env, config, history, flags).calls)
    decreases |flags|
  {
    if flags != [] && flags[0] == Clear {
      if config.None? {
        SuperviseLogGrows(env, config, history, flags[1..]);
      } else {
        var tick := TickOf(env, config.value);
        forall c: CaptureState
          ensures Prefix(c.calls, tick(c).capture.calls)
        {
          TickKeepsLog(env, config.value, c);
        }
        var s := Session(tick, FreshCapture(history), flags[1..]);
        SessionLogGrows(tick, FreshCapture(history), flags[1..]);
        SuperviseLogGrows(env, config, s.calls, s.rest);
        PrefixTrans(history, s.calls, Supervise(env, config, s.calls, s.rest).calls);
      }
    }
  }

  // ---------------------------------------------------------------------
  // The imperative loops.

  /** `pose.write_be(&mut io).unwrap()` into a fresh cursor, and the send of its bytes. */
  method SendPose(pose: CameraPoseObservation) returns (r: Outcome<seq<Effect>>)
    ensures r == PoseEffects(Some(pose))
  {
    var io := new Cursor();
    var written := WriteBe(pose, io, 0);
    assert io.buffer == Encode(0, pose).bytes;
    if written.Panicked? {
      return Panicked;
    }
    return Returned([Send(PoseData, io.buffer, PoseSendTimeoutMs)]);
  }

  /** The body of the inner loop, on the session's `GStreamerCapture`. */
  method RunTick(env: Environment, config: Config, capture: GStreamerCapture) returns (effects: seq<Effect>, panicked: bool)
    modifies capture
    ensures Ticked(capture.State(), effects, panicked) == Tick(env, config, old(capture.State()))
  {
    var got := capture.GetFrame(env.camera, config);
    effects, panicked := AfterFrame(env, config, got);
    assert Ticked(capture.State(), effects, panicked) == FrameTick(env, config, Stepped(capture.State(), got));
  }

  /** The body of the inner loop after `get_frame`. */
  method AfterFrame(env: Environment, config: Config, got: Outcome<Frame>) returns (effects: seq<Effect>, panicked: bool)
    ensures forall c :: Ticked(c, effects, panicked) == FrameTick(env, config, Stepped(c, got))
  {
    effects, panicked := [], true;
    if got.Panicked? {
      return;
    }
    var frame := got.value;
    if !frame.ok {
      return [Pause(MissedFramePauseMs)], false;
    }
    var detection := env.detect(frame.image);
    if detection.Panicked? {
      return;
    }
    var tags, annotated := detection.value.tags, detection.value.annotated;
    var resolved := SolveCameraPose(env.kernels, env.solver, config, tags);
    if resolved.Panicked? {
      return;
    }
    if resolved.value.Some? {
      var sent := SendPose(resolved.value.value);
      if sent.Panicked? {
        return;
      }
      effects := sent.value;
    }
    var data := env.encodeJpeg(annotated);
    if data.Panicked? {
      return;
    }
    effects := effects + [Send(PreviewStream, FramePart(data.value), PreviewSendTimeoutMs)];
    panicked := false;
  }

  /**
   * The session closure passed to `catch_unwind`: a fresh capture on the
   * camera, whose log `history` carries over, and the inner loop.
   */
  method RunSession(env: Environment, config: Config, history: seq<Event>, flags: seq<FlagRead>) returns (r: SessionEnd)
    ensures r == Session(TickOf(env, config), FreshCapture(history), flags)
  {
    var capture := new GStreamerCapture();
    capture.calls := history;
    var effects: seq<Effect> := [];
    var i := 0;
    while true
      invariant 0 <= i <= |flags|
      invariant fresh(capture)
      invariant var later := Session(TickOf(env, config), capture.State(), flags[i..]);
        Session(TickOf(env, config), FreshCapture(history), flags)
          == SessionEnd(effects + later.effects, later.ending, later.rest, later.calls)
      decreases |flags| - i
    {
      if i == |flags| {
        return SessionEnd(effects, ScriptEnd, [], capture.calls);
      }
      if flags[i] != Clear {
        return SessionEnd(effects, StopRequested, flags[i + 1..], capture.calls);
      }
      var tickEffects, panicked := RunTick(env, config, capture);
      assert flags[i..][1..] == flags[i + 1..];
      if panicked {
        return SessionEnd(effects + tickEffects, Fault, flags[i + 1..], capture.calls);
      }
      AppendAssoc(effects, tickEffects, Session(TickOf(env, config), capture.State(), flags[i + 1..]).effects);
      effects := effects + tickEffects;
      i := i + 1;
    }
  }

  /** The thread spawned at main.rs:100: the outer loop around `catch_unwind`, on a camera that has seen `history`. */
  method RunSupervisor(env: Environment, config: Option<Config>, history: seq<Event>, flags: seq<FlagRead>) returns (r: Supervised)
    ensures r == Supervise(env, config, history, flags)
  {
    var effects: seq<Effect> := [];
    var log, rest := history, flags;
    while true
      invariant |rest| <= |flags|
      invariant var later := Supervise(env, config, log, rest);
        Supervise(env, config, history, flags) == Supervised(effects + later.effects, later.exited, later.calls)
      decreases |rest|
    {
      if rest == [] {
        return Supervised(effects, false, log);
      }
      if rest[0] != Clear {
        return Supervised(effects, true, log);
      }
      var later := rest[1..];
      if config.None? {
        AppendAssoc(effects, [SessionFault], Supervise(env, config, log, later).effects);
        effects := effects + [SessionFault];
        rest := later;
      } else {
        var s := RunSession(env, config.value, log, later);
        var logged := s.effects + (if s.ending == Fault then [SessionFault] else []);
        AppendAssoc(effects, logged, Supervise(env, config, s.calls, s.rest).effects);
        effects := effects + logged;
        log, rest := s.calls, s.rest;
      }
    }
  }
}
