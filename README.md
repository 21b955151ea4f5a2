# watson-vision in Dafny

This project models the core of watson-vision. It is a vision coprocessor for a robot. It reads camera frames, finds AprilTag markers, and solves for the camera's pose on the field. It publishes each pose sample to NetworkTables and serves an MJPEG preview of the frames.

These parts of the program are modelled:

- **The pose-sample wire format** (`src/types.rs`, modules `Wire`, `Geometry3`, `Types`). This is the big-endian layout `write_options` writes: the time, the tag count, the ids narrowed to 32 bits, the secondary flag, and one or two blocks of eight `f64` values. The model gives an encoder, a cursor-writing method proved equal to it, a decoder, and a round-trip proof. It also gives the OpenCV axis conversions with their exact round trip: negating an `f64` only flips its sign bit.
- **The pose resolver** (`src/pipeline/camera_pose_estimator.rs`, module `PoseEstimator`). Sightings are matched against the tag layout, using the first entry for each id. Each match adds four object points and four image points. The number of matched sightings picks the IPPE_SQUARE branch or the SQPNP branch. A method with the source's loop is proved equal to a function, and lemmas state each branch's result shape.
- **The capture objects** (`src/pipeline/capture.rs`, module `Capture`). `config_changed`, and the `get_frame` state machines of `DefaultCapture`, `GStreamerCapture` and `TestCapture`. `DefaultCapture` and `GStreamerCapture` are classes whose fields are `video` and `last_config`, plus a log of every call made to the camera; `TestCapture` is a class holding only the test image. The camera itself is a `Driver` parameter: it takes the calls so far and the next call, and returns that call's reply. The log belongs to the camera: it carries over from one capture object to the next, so a session after a panic sees every call made before it.
- **The capture thread and the NetworkTables task** (`src/main.rs`, modules `Supervisor`, `Network`). This covers:
  - the MJPEG part framing;
  - the inner loop (frame, detect, resolve, send) and the outer restart loop, with its caught panics;
  - `nt_thread`, and the task that restarts it;
  - the shutdown hook, which raises the stop flag and joins the capture thread.

Panics (`unwrap`, `expect`, `panic!`) are values: `Outcome.Panicked`. `catch_unwind` turns such a value into a `SessionFault` effect. The endless loops run over finite scripts: flag readings for the capture thread, and attempts and rounds for the network side. Running out of script ends a run without a verdict (`ScriptEnd`, `NtScriptEnd`).

Where descriptions of the program and its code differ, the model follows the code:

- The header is 9 + 4·N bytes: 4 for the time, 4 for the count, 4 per id and 1 for the flag. A whole sample is 9 + 4·N + 64 bytes, plus 64 with a secondary pose (`Types.EncodeLength`). A length of 13 + 4·N + 64 counts four bytes too many.
- `main.rs:137` calls `write_be` without arguments, so the time field is always 0 (`Supervisor.PoseEffects`).
- `nt_thread` publishes to one topic only, `/watson/<camera_name>`. There is no stream-announcement topic and no server-clock snapshot.
- The network task calls `nt_thread` again even after it returns `Ok` at a raised stop flag, so that task never ends (`Network.NetworkTaskNeverExits`).

## Model

| member | source | states |
|---|---|---|
| Wire.U32RoundTrip | src/types.rs:39 | reading back the four big-endian bytes of a `u32` gives the value |
| Wire.U64RoundTrip | src/types.rs:50-57 | reading back the eight big-endian bytes of an `f64` bit pattern gives the pattern |
| Wire.U32BeInjective | src/types.rs:39-43 | distinct 32-bit values have distinct encodings |
| Wire.Low32 | src/types.rs:40-43 | the `as i32` narrowing keeps the low 32 bits and leaves every value below 2^32 unchanged |
| Geometry3.Neg | src/types.rs:74-80 | `f64` negation flips the sign bit and keeps all other bits |
| Geometry3.NegInvolutive | src/types.rs:74-80 | negating twice gives back the same bit pattern |
| Geometry3.ToOpencvAxes | src/types.rs:78-80 | (x, y, z) maps to (-y, -z, x) |
| Geometry3.FromOpencvAxes | src/types.rs:74-76 | (t0, t1, t2) maps to (t2, -t0, -t1) |
| Geometry3.TranslationToOpencv | src/types.rs:78-80 | converting back with the `isometry_from_opencv` axes gives the original translation |
| Geometry3.IsometryFromOpencv | src/types.rs:74-76 | `translation_to_opencv` of the translation gives back `t`, and the rotation is built from the converted rotation vector |
| Geometry3.AxesRoundTrip | src/types.rs:74-80 | the two axis conversions are inverse to each other, in both orders |
| Types.PoseBytes | src/types.rs:50-56 | a pose is seven 8-byte blocks, 56 bytes |
| Types.RecordBytes | src/types.rs:50-57 | a pose block with its error is 64 bytes |
| Types.PoseBlockIsRecord | src/types.rs:50-57 | the block is tx, ty, tz, qw, qx, qy, qz, then the error |
| Types.IdsBytes | src/types.rs:41-43 | four bytes per tag id |
| Types.Header | src/types.rs:39-48 | the header is 9 + 4·N bytes |
| Types.IdsBytesAt | src/types.rs:41-43 | the k-th four bytes are the big-endian low 32 bits of the k-th id |
| Types.HeaderLayout | src/types.rs:39-48 | in order: the time, the count narrowed to 32 bits, the ids, the flag |
| Types.EncodeCompletes | src/types.rs:59-68 | encoding finishes exactly when `pose_1` is `None` or `error_1` is `Some`; otherwise the `unwrap` at line 67 panics |
| Types.EncodeLength | src/types.rs:39-68 | the length is 9 + 4·N + 64, plus 64 with a secondary pose |
| Types.EncodeParts | src/types.rs:39-68 | the bytes are the header, then the primary block, then the secondary bytes |
| Types.EncodeLayout | src/types.rs:39-68 | byte by byte: time, count, each id, a flag of 1 exactly when `pose_1` is `Some`, the primary block, and the secondary block or nothing |
| Types.ExampleFields | src/types.rs:50-57 | the big-endian patterns of 1.0, 2.0, 3.0, 0.0 and 0.01 |
| Types.ExampleRecord | src/types.rs:50-57 | the 64-byte block of translation (1, 2, 3), identity rotation and error 0.01 |
| Types.ExampleHeader | src/types.rs:39-48 | the header for time 1000 and the single id 5 |
| Types.EncodeExample | src/types.rs:39-57 | the complete 77-byte sample for that pose |
| Types.ReadIds | src/types.rs:41-43 | the decoder reads one id per four bytes |
| Types.NarrowIds | src/types.rs:41-43 | each id as the decoder sees it is its low 32 bits |
| Types.RecordRoundTrip | src/types.rs:50-57 | a 64-byte block decodes to its eight fields |
| Types.IdsRoundTrip | src/types.rs:40-43 | the id bytes decode to the narrowed ids |
| Types.HeaderRoundTrip | src/types.rs:39-48 | the header decodes to the time, the count, the narrowed ids and the flag |
| Types.BlocksRoundTrip | src/types.rs:50-68 | the blocks after the flag decode to the primary record and, when the flag is set, the secondary record |
| Types.DecodeFields | src/types.rs:39-48 | a decoded header hands the rest of the bytes to the block decoder |
| Types.DecodeOfParts | src/types.rs:39-68 | header plus blocks decode to the sample |
| Types.EncodeDecodeRoundTrip | src/types.rs:30-71 | every sample that can be encoded decodes back to its time, narrowed ids, primary record and secondary record |
| Types.Cursor.Write | src/types.rs:39 | each `write_be` appends its bytes to the cursor |
| Types.WritePose | src/types.rs:50-56 | the seven writes append exactly the pose block |
| Types.WriteHeader | src/types.rs:39-48 | the writes append exactly the header, with the id loop |
| Types.WriteSecondary | src/types.rs:59-67 | the secondary writes append the pose and then the error, or panic at the `unwrap` after the pose |
| Types.WriteBe | src/types.rs:30-71 | `write_options` appends exactly the encoding, and returns `Ok` exactly when the encoding finishes |
| PoseEstimator.Lookup | src/pipeline/camera_pose_estimator.rs:40-46 | `None` exactly when no layout entry has the id; otherwise the pose of the first entry with that id |
| PoseEstimator.Matched | src/pipeline/camera_pose_estimator.rs:39-46 | the kept sightings are known to the layout and come from the input |
| PoseEstimator.Ids | src/pipeline/camera_pose_estimator.rs:81 | one id per sighting |
| PoseEstimator.CornerList | src/pipeline/camera_pose_estimator.rs:74-79 | the four image corners |
| PoseEstimator.CornerOffsets | src/pipeline/camera_pose_estimator.rs:47-66 | four offsets at plus or minus half the marker size |
| PoseEstimator.CornerPoints | src/pipeline/camera_pose_estimator.rs:47-72 | the k-th object point is the tag pose composed with the k-th offset |
| PoseEstimator.MatchedIds | src/pipeline/camera_pose_estimator.rs:81 | `tag_ids` is the ids of the matched sightings, in input order |
| PoseEstimator.TagPoses | src/pipeline/camera_pose_estimator.rs:82 | `tag_poses[k]` is the layout pose of the k-th matched id |
| PoseEstimator.ImagePoints | src/pipeline/camera_pose_estimator.rs:74-79 | four image points per match |
| PoseEstimator.ObjectPoints | src/pipeline/camera_pose_estimator.rs:67-72 | four object points per match |
| PoseEstimator.SolveCameraPose | src/pipeline/camera_pose_estimator.rs:26-159 | the loop and the branches compute exactly `Resolve` |
| PoseEstimator.MatchedAppend | src/pipeline/camera_pose_estimator.rs:39-84 | matching distributes over concatenation, so each loop iteration extends the lists |
| PoseEstimator.MatchedIdsCount | src/pipeline/camera_pose_estimator.rs:39-82 | an id occurs in `tag_ids` as often as it was sighted if it is in the layout, and never otherwise |
| PoseEstimator.ImagePointsAt | src/pipeline/camera_pose_estimator.rs:74-79 | image points 4k to 4k+3 are the corners of the k-th match, in `corners[0..3]` order |
| PoseEstimator.ObjectPointsAt | src/pipeline/camera_pose_estimator.rs:47-72 | object points 4k to 4k+3 are the corners of the k-th match's tag pose |
| PoseEstimator.ResolveEmpty | src/pipeline/camera_pose_estimator.rs:31-33 | no sightings give `None` |
| PoseEstimator.NoneMatched | src/pipeline/camera_pose_estimator.rs:39-46 | sightings that are all unknown match nothing |
| PoseEstimator.ResolveNoneKnown | src/pipeline/camera_pose_estimator.rs:86-87 | no known sighting gives `None` |
| PoseEstimator.ResolvedShape | src/pipeline/camera_pose_estimator.rs:86-157 | a resolved pose carries the matched ids, at least one of them; it has a secondary pose and error exactly when there was one match; and it can be encoded |
| PoseEstimator.SingleTargetCases | src/pipeline/camera_pose_estimator.rs:88-126 | one match: a solver error gives `None`, and fewer than two tvecs or rvecs give `None`. Otherwise fewer than two errors panic, else both field-to-camera poses are returned |
| PoseEstimator.MultiTargetCases | src/pipeline/camera_pose_estimator.rs:127-157 | two or more matches: a solver error gives `None`. An empty tvecs, rvecs or errors panics at `get(0).unwrap()`, else the inverted first solution is returned with no secondary |
| PoseEstimator.DuplicateSightings | src/pipeline/camera_pose_estimator.rs:81-88 | two sightings of one id count as two matches and take the multi-target branch |
| Capture.ConfigChangedCases | src/pipeline/capture.rs:8-25 | `None`/`None` is unchanged and one `None` is changed; two configs differ exactly when one of the six acquisition fields differs |
| Capture.ConfigChangedSymmetric | src/pipeline/capture.rs:8-25 | the relation is symmetric and irreflexive |
| Capture.SamePipeline | src/pipeline/capture.rs:9-16 | unchanged configs open the same GStreamer pipeline |
| Capture.ReleaseOnChange | src/pipeline/capture.rs:36-40 | a changed config releases a kept device first. It panics exactly when there was a change, a device, and the camera failed the release, after that one call; otherwise the device is gone exactly when the config changed |
| Capture.IssueAll | src/pipeline/capture.rs:44-70 | the `set` calls are made in order. Judged by the camera's reply to each, given the calls before it, none failed when all were made, and on a halt only the last one made failed |
| Capture.OpenDefault | src/pipeline/capture.rs:41-72 | `new(0, CAP_V4L)` and the five settings, in order; the device is stored only when all succeed. It halts exactly when the camera fails one of those calls, which is then the last call made, and a halt leaves `video` as it was |
| Capture.DefaultCapture.constructor | src/pipeline/capture.rs:28-32 | a new capture has no device, no config and no calls |
| Capture.DefaultCapture.Call | src/pipeline/capture.rs:38-76 | one device call is appended to the log, and whether the camera failed it is returned as `failed` |
| Capture.DefaultCapture.ReleaseIfChanged | src/pipeline/capture.rs:36-40 | the release block updates the object as `ReleaseOnChange` says |
| Capture.DefaultCapture.OpenCamera | src/pipeline/capture.rs:41-72 | the opening block updates the object as `OpenDefault` says |
| Capture.DefaultCapture.ApplySettings | src/pipeline/capture.rs:44-70 | the five `set` calls, as `IssueAll` says |
| Capture.DefaultCapture.GetFrame | src/pipeline/capture.rs:35-78 | `get_frame` updates the object and returns as `DefaultGetFrame` says |
| Capture.DefaultFollowsPlan | src/pipeline/capture.rs:35-78 | the calls made are the start of the plan: release if changed, open and set only when no device is left, then read. A returned frame made the whole plan, recorded the config and keeps a device |
| Capture.DefaultMade | src/pipeline/capture.rs:35-78 | the calls of one `get_frame`, stage by stage |
| Capture.DefaultMadeIsPrefix | src/pipeline/capture.rs:35-78 | those calls are a prefix of the plan, and all of it when the call returns |
| Capture.DefaultCallOrder | src/pipeline/capture.rs:36-72 | a release comes before anything else; with no device the first call is the open; a kept device is never reopened |
| Capture.DefaultPanicsOnFailure | src/pipeline/capture.rs:36-76 | `get_frame` panics exactly when the camera fails one of its calls, and that failed call is the last one made |
| Capture.DefaultReadFailurePanics | src/pipeline/capture.rs:76 | a failed `read` on a kept device panics after recording the config and logging the read |
| Capture.DefaultReliableCameraReturns | src/pipeline/capture.rs:35-78 | a camera that fails no call always gets a frame back, after the whole plan, with a device left open |
| Capture.DecimalRoundTrip | src/pipeline/capture.rs:100 | the decimal digits formatted into the pipeline read back as the number |
| Capture.OpenGStreamer | src/pipeline/capture.rs:95-103 | an empty `video_path` opens nothing; otherwise one `from_file` call, which panics exactly when the camera fails it, and whose device is stored when it succeeds |
| Capture.GStreamerOpening | src/pipeline/capture.rs:89-103 | the release (with its 2 s pause) and then the open. After it, a device exists exactly when one was kept or `video_path` is set |
| Capture.GStreamerRead | src/pipeline/capture.rs:107-117 | with a device, one read: a `false` read releases the device and panics, and a returned frame is `true`. With no device, `false` and an empty image |
| Capture.GStreamerFollowsPlan | src/pipeline/capture.rs:88-118 | the calls made are the start of the plan followed by one release. A returned frame made exactly the plan and recorded the config |
| Capture.GStreamerMade | src/pipeline/capture.rs:88-118 | the calls of one `get_frame`, stage by stage |
| Capture.GStreamerMadeIsPrefix | src/pipeline/capture.rs:88-118 | those calls are a prefix of the plan plus a release, and exactly the plan when the call returns |
| Capture.GStreamerFalseMeansNoDevice | src/pipeline/capture.rs:108-117 | a returned `false` means no device and an empty `video_path`, an empty image, and no call beyond the release |
| Capture.GStreamerNoPathNoOpen | src/pipeline/capture.rs:95-117 | with no device kept and an empty `video_path`, nothing is opened and nothing is read. It panics exactly when the release of a changed device fails, and otherwise returns `false` with an empty image; with no device to begin with it always returns that, recording the config |
| Capture.GStreamerReliableCameraReturns | src/pipeline/capture.rs:88-118 | a camera that fails no call and reads every frame always gets a frame back, after exactly the plan |
| Capture.GStreamerReadFailurePanics | src/pipeline/capture.rs:108-113 | a `false` read on a kept device is followed by a release and a panic |
| Capture.GStreamerCapture.constructor | src/pipeline/capture.rs:81-85 | a new capture has no device, no config and no calls |
| Capture.GStreamerCapture.Call | src/pipeline/capture.rs:91-111 | one device call is appended to the log, and whether the camera failed it is returned as `failed` |
| Capture.GStreamerCapture.ReleaseIfChanged | src/pipeline/capture.rs:89-94 | the release block updates the object as `ReleaseOnChange` says |
| Capture.GStreamerCapture.Prepare | src/pipeline/capture.rs:89-103 | release and open update the object as `GStreamerOpening` says |
| Capture.GStreamerCapture.ReadFrame | src/pipeline/capture.rs:107-117 | the read block, as `GStreamerRead` says |
| Capture.GStreamerCapture.GetFrame | src/pipeline/capture.rs:88-118 | `get_frame` updates the object and returns as `GStreamerGetFrame` says |
| Capture.TestCapture.constructor | src/pipeline/capture.rs:126-131 | the capture holds the decoded test image |
| Capture.TestCapture.GetFrame | src/pipeline/capture.rs:135-137 | always `true`, with the test image |
| Supervisor.Ascii | src/main.rs:143 | a byte-string literal has one byte per character |
| Supervisor.FramePart | src/main.rs:143-147 | a preview part is \|jpeg\| + 39 bytes |
| Supervisor.UnframeRoundTrip | src/main.rs:143-147 | removing the part header and trailer gives back the JPEG |
| Supervisor.UnframeOnlyParts | src/main.rs:143-147 | whatever unframes is exactly a framed part |
| Supervisor.TickMissedFrame | src/main.rs:129-133 | a `false` frame pauses 100 ms and does nothing else; the session goes on |
| Supervisor.ResolvedPoseEncodes | src/main.rs:135-139 | a resolved pose is sent once, encoded with time 0 and a 4 ms timeout, and the bytes decode back to the pose |
| Supervisor.TickSendsResolvedPose | src/main.rs:134-148 | with a pose: the encoded sample goes first. The iteration panics exactly when the JPEG encoding panics; otherwise the framed preview follows |
| Supervisor.TickWithoutPose | src/main.rs:134-148 | without a pose: no sample, only the preview part, or nothing when the JPEG encoding panics |
| Supervisor.Session | src/main.rs:121-149 | the inner loop reads the flag before each iteration: what it leaves is a suffix of the readings and it reads at least one. The end of the script leaves none, and so may a stop or a fault on the last reading |
| Supervisor.TickKeepsLog | src/main.rs:129-148 | an iteration only appends to the camera's log |
| Supervisor.SessionLogGrows | src/main.rs:121-149 | so does a whole session |
| Supervisor.SuperviseLogGrows | src/main.rs:103-152 | and so does the outer loop: each session starts from the log the previous one left |
| Supervisor.SessionStopsBy | src/main.rs:121-125 | a raised or poisoned reading ends the session no later than that reading |
| Supervisor.SessionStopsAtFirstRaise | src/main.rs:121-125 | a session that stops on the flag stops at the first reading that is not clear |
| Supervisor.SuperviseExitsOnStop | src/main.rs:103-107 | once every reading is raised or poisoned, the thread leaves its outer loop |
| Supervisor.SuperviseStaysWhileClear | src/main.rs:103-152 | while every reading is clear, the thread never leaves, whatever panics |
| Supervisor.SuperviseBadConfig | src/main.rs:108-110 | a configuration that does not parse faults every session and does nothing else, not even a camera call |
| Supervisor.SendPose | src/main.rs:136-138 | the cursor write and the send, as `PoseEffects` says |
| Supervisor.RunTick | src/main.rs:126-148 | one iteration updates the capture object as `Tick` says |
| Supervisor.AfterFrame | src/main.rs:130-148 | the rest of the iteration once the frame is known, as `FrameTick` says |
| Supervisor.RunSession | src/main.rs:109-149 | the inner loop, on a fresh capture over the camera's log so far, computes exactly `Session` |
| Supervisor.RunSupervisor | src/main.rs:103-153 | the outer loop computes exactly `Supervise` |
| Network.TopicName | src/main.rs:68 | the topic is `/watson/` followed by the camera name |
| Network.Publishing | src/main.rs:77-93 | at most one publish per round |
| Network.PublishingStopsAt | src/main.rs:77-93 | the first round that does not pass decides the result: `Ok` at a raised or poisoned flag, an error for a closed channel, a failed publish or one slower than 1 s. Every earlier sample is published in order |
| Network.FirstStop | src/main.rs:77-93 | every script has such a first stopping round |
| Network.NtThreadOrder | src/main.rs:60-76 | the connect to port 5810 of the parsed address comes first, then the topic, then only publishes |
| Network.NtThreadNoBackoff | src/main.rs:60-94 | `nt_thread` itself never pauses |
| Network.RunNtThread | src/main.rs:60-94 | the loop computes exactly `NtThread` |
| Network.NetworkTask | src/main.rs:165-170 | no more `nt_thread` calls than attempts |
| Network.BackoffOnlyAfterErrors | src/main.rs:165-170 | there is one 500 ms pause per failed `nt_thread` and no other |
| Network.NetworkTaskNeverExits | src/main.rs:165-170 | the task calls `nt_thread` again after every return, `Ok` included |
| Network.RunNetworkTask | src/main.rs:163-171 | the loop computes exactly `NetworkTask` |
| Network.FlagOf | src/main.rs:104-107 | the flag reads clear exactly when it is not set and the lock is not poisoned, and poisoned exactly when the lock is |
| Network.ShutdownRaisesFlag | src/main.rs:174-181 | after shutdown the flag is not clear. A completed shutdown has set it and taken the handle, and a handle, when there was one and the lock is not poisoned, is joined exactly once |
| Network.ShutdownJoinsOnce | src/main.rs:176-179 | a second shutdown joins nothing and takes nothing |
| Network.ShutdownEndsCaptureThread | src/main.rs:174-181 | after shutdown, two flag readings suffice for the capture thread to leave its loop |
| Network.Lifecycle.constructor | src/main.rs:56-58 | the flag starts clear with no handle |
| Network.Lifecycle.Flag | src/main.rs:104-107 | reading the flag through the globals: clear exactly when it is not set and not poisoned, poisoned exactly when the lock is |
| Network.Lifecycle.Spawn | src/main.rs:100 | the spawned thread's handle is stored |
| Network.Lifecycle.Shutdown | src/main.rs:174-181 | the hook updates the globals as `ShutdownStep` says |

## Left out

- OpenCV calls are parameters: `VideoCapture::{new, from_file, set, read, release}`, `solve_pnp_generic`, `imencode_def` and the ArUco detector. The camera is a `Driver`, the solver a `PnpSolver`, and detection and JPEG encoding are functions in `Environment`. They are foreign library code.
- nalgebra float geometry is the `Kernels` parameter: isometry composition and inverse, `Isometry3::new` from a rotation vector, and `fid_size / 2.0`. Poses are opaque bit patterns; this is floating-point numerics.
- `src/pipeline/fiducial_detector.rs` is not part of this model; detection is the `detect` parameter.
- `src/config.rs` is not part of this model. A parse failure is `None` for the configuration, and `Ipv4Addr::from_str` is the `parseIp` parameter.
- `src/nt.rs` and the NetworkTables client are not part of this model. For each attempt, the outcomes of connecting, creating the topic and each publish are inputs.
- The rocket routes `index` and `mjpeg_stream`, and the HTTP server configuration, are HTTP I/O.
- Concurrency: the crossbeam channels, `send_timeout` timing, tokio `select!` and `sleep`, and the Mutex and Lazy globals. The capture thread and the network task are modelled separately, each as a sequence of abstract outcomes. Sends are effects whose results are discarded, and lock readings are `FlagRead` values. The hand-off of pose samples between the two sides is not modelled.
- `println!` and `eprintln!` output is console I/O.
- The `_fps` computation (`src/main.rs:126-128`) is an unused float.
- The endless loops are bounded by finite scripts. Running out of script ends a run with no verdict (`ScriptEnd`, `NtScriptEnd`), and nothing is claimed past it.
- Supervisor.Session: the capture thread is modelled with `GStreamerCapture`, the Linux build (`src/main.rs:113-114`). The `TestCapture` used on other targets is modelled on its own, not inside the loops.
- `write_options` returns the writer's errors with `?` (`src/types.rs:30-71`). The only writer in the program is the in-memory `Cursor<Vec<u8>>` of `src/main.rs:136`, which never fails, so the model's writer cannot fail.
- The panic of `ArucoFiducialDetector::new` (`src/pipeline/fiducial_detector.rs:23`, called at `src/main.rs:115-117`) is not modelled: that file is not part of this model, and the dictionary it unwraps is a fixed constant. A session starts its loop without it.
- When a session ends, by a stop or by a panic that unwinds, the `VideoCapture` it held is released by its `Drop`. That implicit release is not in the camera's log, which holds only the explicit calls of `get_frame`.
- Capture.TestCapture.constructor: takes the decoded test image as its argument. The `imdecode(..).unwrap()` panic at `src/pipeline/capture.rs:129` is not modelled.
- Capture.OpenDefault: when a `set` call panics, the freshly opened `VideoCapture` is dropped without being stored. The model records that nothing is stored, but not the drop itself, which the library performs.
- Capture.PipelineText: the camera log records the GStreamer pipeline by the six values it is formatted from (`Pipeline`), not by the string itself. `PipelineText` gives the string.
- Supervisor.SuperviseBadConfig: states that every effect is a session fault and bounds their number. It does not give the exact count, which is the number of clear readings before the first raised one.
- Network.Publishing: its own contract only bounds the number of publishes. The full statement is Network.PublishingStopsAt.
- Network.ShutdownEndsCaptureThread: relates the shutdown state to the capture thread's flag readings. That the thread then finishes so that `join` returns is not modelled.
