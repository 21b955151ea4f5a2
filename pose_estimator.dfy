/**
 * src/pipeline/camera_pose_estimator.rs: `MultiTargetCameraPoseEstimator`.
 * Marker sightings are matched against the field layout, turned into 3D
 * object points and 2D image points, and handed to a PnP solver; the
 * solver's hypotheses become one or two field-to-camera poses.
 *
 * The solver and the float geometry are parameters.  What is modelled
 * exactly is the matching, the point lists, and which branch produces
 * which shape of result.
 */
module PoseEstimator {
  import opened Outcomes
  import opened Wire
  import opened Geometry3
  import opened Config
  import opened Types
  import opened Seqs

  /** OpenCV's `SOLVEPNP_IPPE_SQUARE` and `SOLVEPNP_SQPNP`. */
  datatype PnpMethod = IppeSquare | SqPnp

  /** What `solve_pnp_generic` leaves behind: an error, or the filled `rvecs`, `tvecs` and `errors`. */
  datatype PnpResult =
    | PnpError
    | Solutions(rvecs: seq<Vec3>, tvecs: seq<Vec3>, errors: seq<F64>)

  /**
   * `solve_pnp_generic(object_points, image_points, camera_matrix,
   * distortion_coefficients, .., method, ..)`.
   */
  type PnpSolver = (seq<Vec3>, seq<Point2>, seq<F64>, seq<F64>, PnpMethod) -> PnpResult

  // ---------------------------------------------------------------------
  // Matching sightings against the layout.

  /** The pose of the first tag in the layout whose id is `id`, if any. */
  function Lookup(tags: seq<Tag>, id: u64): (r: Option<Isometry>)
    ensures r.None? <==> forall k :: 0 <= k < |tags| ==> tags[k].id != id
    ensures r.Some? ==> exists k :: 0 <= k < |tags| && tags[k] == Tag(id, r.value)
                                  && forall j :: 0 <= j < k ==> tags[j].id != id
  {
    if tags == [] then None
    else if tags[0].id == id then Some(tags[0].pose)
    else
      var r := Lookup(tags[1..], id);
      assert r.Some? ==> exists k :: 1 <= k < |tags| && tags[k] == Tag(id, r.value)
                                   && forall j :: 0 <= j < k ==> tags[j].id != id by {
        if r.Some? {
          var k :| 0 <= k < |tags[1..]| && tags[1..][k] == Tag(id, r.value)
                   && forall j :: 0 <= j < k ==> tags[1..][j].id != id;
          assert tags[k + 1] == Tag(id, r.value);
          assert forall j :: 1 <= j < k + 1 ==> tags[j].id == tags[1..][j - 1].id;
        }
      }
      r
  }

  /** Whether a sighting's id appears in the layout. */
  predicate Known(tags: seq<Tag>, o: FiducialImageObservation)
  {
    Lookup(tags, o.tagId).Some?
  }

  /** The sightings the loop keeps, in input order. */
  function Matched(tags: seq<Tag>, obs: seq<FiducialImageObservation>): (r: seq<FiducialImageObservation>)
    ensures |r| <= |obs|
    ensures forall k :: 0 <= k < |r| ==> Known(tags, r[k]) && r[k] in obs
  {
    if obs == [] then []
    else
      var n := |obs| - 1;
      Matched(tags, obs[..n]) + (if Known(tags, obs[n]) then [obs[n]] else [])
  }

  /** The ids of all sightings, in input order. */
  function Ids(obs: seq<FiducialImageObservation>): (r: seq<u64>)
    ensures |r| == |obs|
  {
    if obs == [] then [] else Ids(obs[..|obs| - 1]) + [obs[|obs| - 1].tagId]
  }

  /** The image corners of a sighting, `corners[0..3]` as `Vec2d`. */
  function CornerList(c: Corners): (r: seq<Point2>)
    ensures |r| == 4
  {
    [c.c0, c.c1, c.c2, c.c3]
  }

  /**
   * The four marker corners in the marker's own frame: `x = 0`, `y` and `z`
   * at `±fid_size / 2`.  The negative half is `-fid_size / 2.0`, that is
   * `(-fid_size) / 2.0`.
   */
  function CornerOffsets(kernels: Kernels, size: F64): (r: seq<Vec3>)
    ensures |r| == 4
  {
    var h, m := kernels.halve(size), kernels.halve(Neg(size));
    [Vec3(Zero, h, m), Vec3(Zero, m, m), Vec3(Zero, m, h), Vec3(Zero, h, h)]
  }

  /** A corner in the field frame, in OpenCV axes: the translation of the tag pose composed with the corner offset. */
  function FieldCorner(kernels: Kernels, tagPose: Isometry, offset: Vec3): Vec3
  {
    TranslationToOpencv(kernels.compose(tagPose, Isometry(offset, IdentityRotation)).translation)
  }

  /** The four object points one matched sighting contributes. */
  function CornerPoints(kernels: Kernels, size: F64, tagPose: Isometry): (r: seq<Vec3>)
    ensures |r| == 4
    ensures forall k :: 0 <= k < 4 ==> r[k] == FieldCorner(kernels, tagPose, CornerOffsets(kernels, size)[k])
  {
    var off := CornerOffsets(kernels, size);
    [FieldCorner(kernels, tagPose, off[0]), FieldCorner(kernels, tagPose, off[1]),
     FieldCorner(kernels, tagPose, off[2]), FieldCorner(kernels, tagPose, off[3])]
  }

  /** `tag_ids` after the loop over `obs`. */
  function MatchedIds(tags: seq<Tag>, obs: seq<FiducialImageObservation>): (r: seq<u64>)
    ensures |r| == |Matched(tags, obs)|
    ensures forall k :: 0 <= k < |r| ==> r[k] == Matched(tags, obs)[k].tagId
  {
    if obs == [] then []
    else
      var n := |obs| - 1;
      MatchedIds(tags, obs[..n]) + (if Known(tags, obs[n]) then [obs[n].tagId] else [])
  }

  /** `tag_poses` after the loop over `obs`. */
  function TagPoses(tags: seq<Tag>, obs: seq<FiducialImageObservation>): (r: seq<Isometry>)
    ensures |r| == |Matched(tags, obs)|
    ensures forall k :: 0 <= k < |r| ==> Lookup(tags, Matched(tags, obs)[k].tagId) == Some(r[k])
  {
    if obs == [] then []
    else
      var n := |obs| - 1;
      var p := Lookup(tags, obs[n].tagId);
      TagPoses(tags, obs[..n]) + (if p.Some? then [p.value] else [])
  }

  /** `image_points` after the loop over `obs`. */
  function ImagePoints(tags: seq<Tag>, obs: seq<FiducialImageObservation>): (r: seq<Point2>)
    ensures |r| == 4 * |Matched(tags, obs)|
  {
    if obs == [] then []
    else
      var n := |obs| - 1;
      ImagePoints(tags, obs[..n]) + (if Known(tags, obs[n]) then CornerList(obs[n].corners) else [])
  }

  /** `object_points` after the loop over `obs`. */
  function ObjectPoints(kernels: Kernels, tags: seq<Tag>, size: F64, obs: seq<FiducialImageObservation>): (r: seq<Vec3>)
    ensures |r| == 4 * |Matched(tags, obs)|
  {
    if obs == [] then []
    else
      var n := |obs| - 1;
      var p := Lookup(tags, obs[n].tagId);
      ObjectPoints(kernels, tags, size, obs[..n]) + (if p.Some? then CornerPoints(kernels, size, p.value) else [])
  }

  // ---------------------------------------------------------------------
  // The decision after the loop.

  /** The one-marker branch: IPPE_SQUARE hypotheses, both kept. */
  function SingleTarget(kernels: Kernels, fieldToTag: Isometry, ids: seq<u64>, res: PnpResult): Outcome<Option<CameraPoseObservation>>
  {
    match res
    case PnpError => Returned(None)
    case Solutions(rvecs, tvecs, errors) =>
      if |tvecs| < 2 || |rvecs| < 2 then Returned(None)
      else if |errors| < 2 then Panicked
      else
        var cameraToTag0 := IsometryFromOpencv(kernels, tvecs[0], rvecs[0]);
        var cameraToTag1 := IsometryFromOpencv(kernels, tvecs[1], rvecs[1]);
        Returned(Some(CameraPoseObservation(
          ids,
          kernels.compose(fieldToTag, kernels.inverse(cameraToTag0)), errors[0],
          Some(kernels.compose(fieldToTag, kernels.inverse(cameraToTag1))), Some(errors[1]))))
  }

  /** The several-marker branch: the first SQPNP solution only. */
  function MultiTarget(kernels: Kernels, ids: seq<u64>, res: PnpResult): Outcome<Option<CameraPoseObservation>>
  {
    match res
    case PnpError => Returned(None)
    case Solutions(rvecs, tvecs, errors) =>
      if |tvecs| == 0 || |rvecs| == 0 || |errors| == 0 then Panicked
      else
        var cameraToField := IsometryFromOpencv(kernels, tvecs[0], rvecs[0]);
        Returned(Some(CameraPoseObservation(ids, kernels.inverse(cameraToField), errors[0], None, None)))
  }

  /** The solver method for a given number of matched sightings. */
  function MethodFor(matches: nat): PnpMethod
  {
    if matches == 1 then IppeSquare else SqPnp
  }

  /** What `solve_camera_pose` returns (or that it panics), as a function of its inputs. */
  function Resolve(kernels: Kernels, solver: PnpSolver, config: Config, obs: seq<FiducialImageObservation>)
    : Outcome<Option<CameraPoseObservation>>
  {
    var tags, size := config.tagLayout.tags, config.fiducialSizeM;
    var ids := MatchedIds(tags, obs);
    if |obs| == 0 || |ids| == 0 then Returned(None)
    else
      var res := solver(ObjectPoints(kernels, tags, size, obs), ImagePoints(tags, obs),
                        config.cameraMatrix, config.distortionCoefficients, MethodFor(|ids|));
      if |ids| == 1 then SingleTarget(kernels, TagPoses(tags, obs)[0], ids, res)
      else MultiTarget(kernels, ids, res)
  }

  /** `solve_camera_pose`: the loop over the sightings, then the branch on the match count. */
  method SolveCameraPose(kernels: Kernels, solver: PnpSolver, config: Config, observations: seq<FiducialImageObservation>)
    returns (r: Outcome<Option<CameraPoseObservation>>)
    ensures r == Resolve(kernels, solver, config, observations)
  {
    if |observations| == 0 {
      return Returned(None);
    }
    var tags, fidSize := config.tagLayout.tags, config.fiducialSizeM;
    var objectPoints: seq<Vec3>, imagePoints: seq<Point2> := [], [];
    var tagIds: seq<u64>, tagPoses: seq<Isometry> := [], [];
    for i := 0 to |observations|
      invariant objectPoints == ObjectPoints(kernels, tags, fidSize, observations[..i])
      invariant imagePoints == ImagePoints(tags, observations[..i])
      invariant tagIds == MatchedIds(tags, observations[..i])
      invariant tagPoses == TagPoses(tags, observations[..i])
    {
      assert observations[..i + 1][..i] == observations[..i];
      var observation := observations[i];
      var found := Lookup(tags, observation.tagId);
      if found.Some? {
        var tagPose := found.value;
        var h, m := kernels.halve(fidSize), kernels.halve(Neg(fidSize));
        var corner0 := kernels.compose(tagPose, Isometry(Vec3(Zero, h, m), IdentityRotation));
        var corner1 := kernels.compose(tagPose, Isometry(Vec3(Zero, m, m), IdentityRotation));
        var corner2 := kernels.compose(tagPose, Isometry(Vec3(Zero, m, h), IdentityRotation));
        var corner3 := kernels.compose(tagPose, Isometry(Vec3(Zero, h, h), IdentityRotation));
        objectPoints := objectPoints + [
          TranslationToOpencv(corner0.translation), TranslationToOpencv(corner1.translation),
          TranslationToOpencv(corner2.translation), TranslationToOpencv(corner3.translation)];
        imagePoints := imagePoints + [
          observation.corners.c0, observation.corners.c1, observation.corners.c2, observation.corners.c3];
        tagIds := tagIds + [observation.tagId];
        tagPoses := tagPoses + [tagPose];
      }
    }
    assert observations[..|observations|] == observations;

    if |tagIds| == 0 {
      return Returned(None);
    } else if |tagIds| == 1 {
      var res := solver(objectPoints, imagePoints, config.cameraMatrix, config.distortionCoefficients, IppeSquare);
      if res.PnpError? {
        return Returned(None);
      }
      var fieldToTagPose := tagPoses[0];
      if |res.tvecs| < 2 || |res.rvecs| < 2 {
        return Returned(None);
      }
      var cameraToTagPose0 := IsometryFromOpencv(kernels, res.tvecs[0], res.rvecs[0]);
      var cameraToTagPose1 := IsometryFromOpencv(kernels, res.tvecs[1], res.rvecs[1]);
      var fieldToCamera0 := kernels.compose(fieldToTagPose, kernels.inverse(cameraToTagPose0));
      var fieldToCamera1 := kernels.compose(fieldToTagPose, kernels.inverse(cameraToTagPose1));
      if |res.errors| < 2 {
        return Panicked;
      }
      return Returned(Some(CameraPoseObservation(
        tagIds, fieldToCamera0, res.errors[0], Some(fieldToCamera1), Some(res.errors[1]))));
    } else {
      var res := solver(objectPoints, imagePoints, config.cameraMatrix, config.distortionCoefficients, SqPnp);
      if res.PnpError? {
        return Returned(None);
      }
      if |res.tvecs| == 0 || |res.rvecs| == 0 {
        return Panicked;
      }
      var cameraToFieldPose := IsometryFromOpencv(kernels, res.tvecs[0], res.rvecs[0]);
      var fieldToCamera := kernels.inverse(cameraToFieldPose);
      if |res.errors| == 0 {
        return Panicked;
      }
      return Returned(Some(CameraPoseObservation(tagIds, fieldToCamera, res.errors[0], None, None)));
    }
  }

  // ---------------------------------------------------------------------
  // Properties of the loop's collections.

  /** Matching distributes over concatenation: sightings keep their input order. */
  lemma {:induction false} MatchedAppend(tags: seq<Tag>, a: seq<FiducialImageObservation>, b: seq<FiducialImageObservation>)
    ensures Matched(tags, a + b) == Matched(tags, a) + Matched(tags, b)
    ensures MatchedIds(tags, a + b) == MatchedIds(tags, a) + MatchedIds(tags, b)
    decreases |b|
  {
    if b == [] {
      assert a + b == a;
    } else {
      var n := |b| - 1;
      assert (a + b)[..|a + b| - 1] == a + b[..n];
      assert (a + b)[|a + b| - 1] == b[n];
      MatchedAppend(tags, a, b[..n]);
    }
  }

  /**
   * `tag_ids` keeps every sighting of a known id, duplicates included, and
   * nothing else: each id occurs in it exactly as often as among the
   * sightings if the layout has it, and not at all otherwise.
   */
  lemma {:induction false} MatchedIdsCount(tags: seq<Tag>, obs: seq<FiducialImageObservation>, id: u64)
    ensures multiset(MatchedIds(tags, obs))[id]
      == if Lookup(tags, id).Some? then multiset(Ids(obs))[id] else 0
  {
    if obs != [] {
      var n := |obs| - 1;
      MatchedIdsCount(tags, obs[..n], id);
      assert Ids(obs) == Ids(obs[..n]) + [obs[n].tagId];
    }
  }

  /** The `k`-th matched sighting's corners are image points 4k .. 4k+4. */
  lemma {:induction false} ImagePointsAt(tags: seq<Tag>, obs: seq<FiducialImageObservation>, k: nat)
    requires k < |Matched(tags, obs)|
    ensures ImagePoints(tags, obs)[4 * k .. 4 * k + 4] == CornerList(Matched(tags, obs)[k].corners)
  {
    var n := |obs| - 1;
    var front, m := ImagePoints(tags, obs[..n]), Matched(tags, obs[..n]);
    if k < |m| {
      ImagePointsAt(tags, obs[..n], k);
      SliceInFirst(front, if Known(tags, obs[n]) then CornerList(obs[n].corners) else [], 4 * k, 4 * k + 4);
    } else {
      SlicesOfAppend(front, CornerList(obs[n].corners));
    }
  }

  /** The `k`-th matched sighting's field corners are object points 4k .. 4k+4. */
  lemma {:induction false} ObjectPointsAt(kernels: Kernels, tags: seq<Tag>, size: F64, obs: seq<FiducialImageObservation>, k: nat)
    requires k < |Matched(tags, obs)|
    ensures ObjectPoints(kernels, tags, size, obs)[4 * k .. 4 * k + 4]
      == CornerPoints(kernels, size, TagPoses(tags, obs)[k])
  {
    var n := |obs| - 1;
    var p := Lookup(tags, obs[n].tagId);
    var front, m := ObjectPoints(kernels, tags, size, obs[..n]), Matched(tags, obs[..n]);
    var poses := TagPoses(tags, obs[..n]);
    var last := if p.Some? then CornerPoints(kernels, size, p.value) else [];
    assert ObjectPoints(kernels, tags, size, obs) == front + last;
    assert TagPoses(tags, obs) == poses + (if p.Some? then [p.value] else []);
    if k < |m| {
      assert TagPoses(tags, obs)[k] == poses[k];
      ObjectPointsAt(kernels, tags, size, obs[..n], k);
      SliceInFirst(front, last, 4 * k, 4 * k + 4);
      assert (front + last)[4 * k .. 4 * k + 4] == CornerPoints(kernels, size, poses[k]);
    } else {
      assert p.Some? && TagPoses(tags, obs)[k] == p.value;
      assert |front| == 4 * k;
      SliceInSecond(front, last, 4 * k, 4 * k + 4);
      assert last[0..4] == last;
    }
  }

  // ---------------------------------------------------------------------
  // Properties of the decision.

  /** An empty list of sightings resolves to no pose, whatever the solver. */
  lemma ResolveEmpty(kernels: Kernels, solver: PnpSolver, config: Config)
    ensures Resolve(kernels, solver, config, []) == Returned(None)
  {
  }

  /** Sightings none of which is in the layout resolve to no pose. */
  lemma ResolveNoneKnown(kernels: Kernels, solver: PnpSolver, config: Config, obs: seq<FiducialImageObservation>)
    requires forall k :: 0 <= k < |obs| ==> !Known(config.tagLayout.tags, obs[k])
    ensures Resolve(kernels, solver, config, obs) == Returned(None)
  {
    NoneMatched(config.tagLayout.tags, obs);
  }

  lemma {:induction false} NoneMatched(tags: seq<Tag>, obs: seq<FiducialImageObservation>)
    requires forall k :: 0 <= k < |obs| ==> !Known(tags, obs[k])
    ensures Matched(tags, obs) == []
  {
    if obs != [] {
      NoneMatched(tags, obs[..|obs| - 1]);
    }
  }

  /**
   * Every resolved pose carries the matched ids, has a secondary pose and
   * error exactly when a single sighting matched, and so can be encoded.
   */
  lemma ResolvedShape(kernels: Kernels, solver: PnpSolver, config: Config, obs: seq<FiducialImageObservation>)
    ensures var r, ids := Resolve(kernels, solver, config, obs), MatchedIds(config.tagLayout.tags, obs);
      r.Returned? && r.value.Some? ==>
        && r.value.value.tagIds == ids
        && |ids| >= 1
        && (r.value.value.pose1.Some? <==> |ids| == 1)
        && (r.value.value.error1.Some? <==> |ids| == 1)
        && Encodable(r.value.value)
  {
  }

  /**
   * One matched sighting: IPPE_SQUARE is asked; a solver error or fewer
   * than two hypotheses give no pose; fewer than two errors panic; otherwise
   * both hypotheses are composed with the pose the layout lists first for
   * the marker.
   */
  lemma SingleTargetCases(kernels: Kernels, solver: PnpSolver, config: Config, obs: seq<FiducialImageObservation>)
    requires |MatchedIds(config.tagLayout.tags, obs)| == 1
    ensures var tags := config.tagLayout.tags;
      var ids, r := MatchedIds(tags, obs), Resolve(kernels, solver, config, obs);
      var res := solver(ObjectPoints(kernels, tags, config.fiducialSizeM, obs), ImagePoints(tags, obs),
                        config.cameraMatrix, config.distortionCoefficients, IppeSquare);
      && (res.PnpError? ==> r == Returned(None))
      && (res.Solutions? && (|res.tvecs| < 2 || |res.rvecs| < 2) ==> r == Returned(None))
      && (res.Solutions? && |res.tvecs| >= 2 && |res.rvecs| >= 2 ==>
            && (r.Panicked? <==> |res.errors| < 2)
            && (r.Returned? ==>
                  var fieldToTag := Lookup(tags, ids[0]).value;
                  r.value == Some(CameraPoseObservation(ids,
                    kernels.compose(fieldToTag, kernels.inverse(IsometryFromOpencv(kernels, res.tvecs[0], res.rvecs[0]))),
                    res.errors[0],
                    Some(kernels.compose(fieldToTag, kernels.inverse(IsometryFromOpencv(kernels, res.tvecs[1], res.rvecs[1])))),
                    Some(res.errors[1])))))
  {
    assert |obs| > 0;
  }

  /**
   * Two or more matched sightings: SQPNP is asked; a solver error gives no
   * pose; an empty solution panics; otherwise the inverse of the first
   * solution is the only pose.
   */
  lemma MultiTargetCases(kernels: Kernels, solver: PnpSolver, config: Config, obs: seq<FiducialImageObservation>)
    requires |MatchedIds(config.tagLayout.tags, obs)| >= 2
    ensures var tags := config.tagLayout.tags;
      var ids, r := MatchedIds(tags, obs), Resolve(kernels, solver, config, obs);
      var res := solver(ObjectPoints(kernels, tags, config.fiducialSizeM, obs), ImagePoints(tags, obs),
                        config.cameraMatrix, config.distortionCoefficients, SqPnp);
      && (res.PnpError? ==> r == Returned(None))
      && (res.Solutions? ==>
            && (r.Panicked? <==> (|res.tvecs| == 0 || |res.rvecs| == 0 || |res.errors| == 0))
            && (r.Returned? ==>
                  r.value == Some(CameraPoseObservation(ids,
                    kernels.inverse(IsometryFromOpencv(kernels, res.tvecs[0], res.rvecs[0])),
                    res.errors[0], None, None))))
  {
    assert |obs| > 0;
  }

  /**
   * The branch counts sightings, not distinct markers: the same known marker
   * seen twice is solved with SQPNP and yields no secondary pose.
   */
  lemma DuplicateSightings(kernels: Kernels, solver: PnpSolver, config: Config, o: FiducialImageObservation)
    requires Known(config.tagLayout.tags, o)
    ensures MatchedIds(config.tagLayout.tags, [o, o]) == [o.tagId, o.tagId]
    ensures var r := Resolve(kernels, solver, config, [o, o]);
      r.Returned? && r.value.Some? ==> r.value.value.pose1.None?
  {
    assert [o, o][..1] == [o];
    assert [o][..0] == [];
  }
}
