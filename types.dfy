/**
 * src/types.rs: the marker observation and camera pose records, and the
 * big-endian wire layout of a pose sample (`impl BinWrite for
 * CameraPoseObservation`).
 */
module Types {
  import opened Outcomes
  import opened Wire
  import opened Geometry3
  import opened Seqs

  /** The four detected corners of one marker, in the detector's winding order. */
  datatype Corners = Corners(c0: Point2, c1: Point2, c2: Point2, c3: Point2)

  datatype FiducialImageObservation = FiducialImageObservation(tagId: u64, corners: Corners)

  /** The resolver's output: contributing marker ids and one or two poses. */
  datatype CameraPoseObservation = CameraPoseObservation(
    tagIds: seq<u64>,
    pose0: Isometry,
    error0: F64,
    pose1: Option<Isometry>,
    error1: Option<F64>)

  /**
   * An observation the encoder can write to the end: the secondary error is
   * present whenever the secondary pose is (otherwise `unwrap` panics).
   */
  predicate Encodable(obs: CameraPoseObservation)
  {
    obs.pose1.Some? ==> obs.error1.Some?
  }

  /** The eight `f64` fields of one pose block, in wire order. */
  datatype PoseRecord = PoseRecord(tx: F64, ty: F64, tz: F64, qw: F64, qx: F64, qy: F64, qz: F64, error: F64)

  /** The pose block written for `pose` and its reprojection `error`. */
  function Record(pose: Isometry, error: F64): PoseRecord
  {
    PoseRecord(pose.translation.x, pose.translation.y, pose.translation.z,
               pose.rotation.w, pose.rotation.i, pose.rotation.j, pose.rotation.k, error)
  }

  /** The seven pose fields of a block, before its error. */
  function PoseBytes(pose: Isometry): (r: seq<byte>)
    ensures |r| == 56
  {
    U64Be(pose.translation.x) + U64Be(pose.translation.y) + U64Be(pose.translation.z)
    + U64Be(pose.rotation.w) + U64Be(pose.rotation.i) + U64Be(pose.rotation.j) + U64Be(pose.rotation.k)
  }

  /** The 64 bytes of a pose block: eight big-endian `f64` patterns. */
  function RecordBytes(r: PoseRecord): (b: seq<byte>)
    ensures |b| == 64
  {
    U64Be(r.tx) + U64Be(r.ty) + U64Be(r.tz) + U64Be(r.qw)
    + U64Be(r.qx) + U64Be(r.qy) + U64Be(r.qz) + U64Be(r.error)
  }

  /** A pose block is the seven pose fields followed by the error. */
  lemma PoseBlockIsRecord(pose: Isometry, error: F64)
    ensures RecordBytes(Record(pose, error)) == PoseBytes(pose) + U64Be(error)
  {
  }

  /** The marker ids, each narrowed to an `i32` and written in order. */
  function IdsBytes(ids: seq<u64>): (r: seq<byte>)
    ensures |r| == 4 * |ids|
  {
    if ids == [] then [] else IdsBytes(ids[..|ids| - 1]) + U32Be(Low32(ids[|ids| - 1]))
  }

  /** The `has_secondary` byte. */
  function SecondaryFlag(obs: CameraPoseObservation): byte
  {
    if obs.pose1.Some? then 1 else 0
  }

  /** `time`, the id count, the ids and the `has_secondary` byte. */
  function Header(time: u32, obs: CameraPoseObservation): (r: seq<byte>)
    ensures |r| == 9 + 4 * |obs.tagIds|
  {
    U32Be(time) + U32Be(Low32(|obs.tagIds|)) + IdsBytes(obs.tagIds) + U8Be(SecondaryFlag(obs))
  }

  /** The secondary block, as far as `write_options` gets with it. */
  function SecondaryBytes(obs: CameraPoseObservation): seq<byte>
  {
    match obs.pose1
    case None => []
    case Some(p) =>
      match obs.error1
      case Some(e) => RecordBytes(Record(p, e))
      case None => PoseBytes(p)
  }

  /**
   * What `write_options` leaves in the writer: all of it, or, when the
   * secondary error is missing, the bytes written before the panic.
   */
  datatype Encoding = Complete(bytes: seq<byte>) | Faulted(bytes: seq<byte>)

  /** The bytes `obs.write_options(writer, _, (time,))` appends. */
  function Encode(time: u32, obs: CameraPoseObservation): Encoding
  {
    var written := Header(time, obs) + RecordBytes(Record(obs.pose0, obs.error0)) + SecondaryBytes(obs);
    if Encodable(obs) then Complete(written) else Faulted(written)
  }

  /** The encoder finishes exactly when the observation is encodable. */
  lemma EncodeCompletes(time: u32, obs: CameraPoseObservation)
    ensures Encode(time, obs).Complete? <==> (obs.pose1.None? || obs.error1.Some?)
  {
  }

  /** The total length: 9 + 4N + 64, and 64 more with a secondary pose. */
  lemma EncodeLength(time: u32, obs: CameraPoseObservation)
    requires Encodable(obs)
    ensures |Encode(time, obs).bytes| == 9 + 4 * |obs.tagIds| + 64 + (if obs.pose1.Some? then 64 else 0)
  {
  }

  /** The `k`-th id occupies bytes 4k .. 4k+4 of the id block. */
  lemma {:induction false} IdsBytesAt(ids: seq<u64>, k: nat)
    requires k < |ids|
    ensures IdsBytes(ids)[4 * k .. 4 * k + 4] == U32Be(Low32(ids[k]))
  {
    var n := |ids| - 1;
    var front, last := IdsBytes(ids[..n]), U32Be(Low32(ids[n]));
    assert IdsBytes(ids) == front + last;
    if k < n {
      SliceInFirst(front, last, 4 * k, 4 * k + 4);
      IdsBytesAt(ids[..n], k);
      assert ids[..n][k] == ids[k];
    } else {
      SlicesOfAppend(front, last);
    }
  }

  /** The header: time, count, the id block and the `has_secondary` byte. */
  lemma HeaderLayout(time: u32, obs: CameraPoseObservation)
    ensures var h, n := Header(time, obs), |obs.tagIds|;
      && h[..4] == U32Be(time)
      && h[4..8] == U32Be(Low32(n))
      && h[8..8 + 4 * n] == IdsBytes(obs.tagIds)
      && h[8 + 4 * n] == SecondaryFlag(obs)
  {
    var a, c := U32Be(time), U32Be(Low32(|obs.tagIds|));
    var ids, flag := IdsBytes(obs.tagIds), U8Be(SecondaryFlag(obs));
    var h, n := Header(time, obs), |obs.tagIds|;
    assert h == a + c + ids + flag;
    SliceInFirst(a + c + ids, flag, 0, 4);
    SliceInFirst(a + c, ids, 0, 4);
    SliceInFirst(a, c, 0, 4);
    SliceInFirst(a + c + ids, flag, 4, 8);
    SliceInFirst(a + c, ids, 4, 8);
    SliceInSecond(a, c, 4, 8);
    SliceInFirst(a + c + ids, flag, 8, 8 + 4 * n);
    SliceInSecond(a + c, ids, 8, 8 + 4 * n);
  }

  /** Splitting an encoding at the header and the primary block. */
  lemma EncodeParts(time: u32, obs: CameraPoseObservation)
    ensures var b, h := Encode(time, obs).bytes, Header(time, obs);
      && |b| >= |h| + 64
      && b[..|h|] == h
      && b[|h|..|h| + 64] == RecordBytes(Record(obs.pose0, obs.error0))
      && b[|h| + 64..] == SecondaryBytes(obs)
  {
    var b, h := Encode(time, obs).bytes, Header(time, obs);
    var first, tail := RecordBytes(Record(obs.pose0, obs.error0)), SecondaryBytes(obs);
    assert b == h + first + tail;
    SlicesOfAppend(h + first, tail);
    SlicesOfAppend(h, first);
    SliceInFirst(h + first, tail, 0, |h|);
    SliceInFirst(h + first, tail, |h|, |h| + 64);
    SliceInSecond(h, first, |h|, |h| + 64);
  }

  /**
   * The field-by-field layout of a complete encoding: time, count, each id
   * in order, the `has_secondary` byte, the primary block, and the secondary
   * block exactly when there is a secondary pose.
   */
  lemma EncodeLayout(time: u32, obs: CameraPoseObservation)
    requires Encodable(obs)
    ensures var b, n := Encode(time, obs).bytes, |obs.tagIds|;
      && b[..4] == U32Be(time)
      && b[4..8] == U32Be(Low32(n))
      && (forall k :: 0 <= k < n ==> b[8 + 4 * k .. 12 + 4 * k] == U32Be(Low32(obs.tagIds[k])))
      && b[8 + 4 * n] == (if obs.pose1.Some? then 1 else 0)
      && b[9 + 4 * n .. 73 + 4 * n] == RecordBytes(Record(obs.pose0, obs.error0))
      && (obs.pose1.None? ==> |b| == 73 + 4 * n)
      && (obs.pose1.Some? ==> b[73 + 4 * n ..] == RecordBytes(Record(obs.pose1.value, obs.error1.value)))
  {
    var b, h, n := Encode(time, obs).bytes, Header(time, obs), |obs.tagIds|;
    EncodeParts(time, obs);
    HeaderLayout(time, obs);
    SliceOfPrefix(b, |h|, 0, 4);
    SliceOfPrefix(b, |h|, 4, 8);
    assert b[8 + 4 * n] == b[..|h|][8 + 4 * n];
    forall k | 0 <= k < n
      ensures b[8 + 4 * k .. 12 + 4 * k] == U32Be(Low32(obs.tagIds[k]))
    {
      IdsBytesAt(obs.tagIds, k);
      SliceOfPrefix(b, |h|, 8, 8 + 4 * n);
      SliceOfPrefix(b, |h|, 8 + 4 * k, 12 + 4 * k);
      SliceOfPrefix(h, 8 + 4 * n, 8 + 4 * k, 12 + 4 * k);
      assert h[8..8 + 4 * n] == h[..8 + 4 * n][8..];
      assert h[8 + 4 * k .. 12 + 4 * k] == h[8..8 + 4 * n][4 * k .. 4 * k + 4];
    }
  }

  // ---------------------------------------------------------------------
  // A reference decoder for the layout, used to state that the encoding
  // loses nothing but the high halves of the ids.

  /** The pose block of the worked example: 1.0, 2.0, 3.0, the identity quaternion (1, 0, 0, 0), and 0.01. */
  lemma ExampleRecord()
    ensures RecordBytes(PoseRecord(One, 0x4000_0000_0000_0000, 0x4008_0000_0000_0000, One, Zero, Zero, Zero, 0x3F84_7AE1_47AE_147B))
      == [0x3F, 0xF0, 0, 0, 0, 0, 0, 0] + [0x40, 0x00, 0, 0, 0, 0, 0, 0] + [0x40, 0x08, 0, 0, 0, 0, 0, 0]
         + [0x3F, 0xF0, 0, 0, 0, 0, 0, 0] + [0, 0, 0, 0, 0, 0, 0, 0] + [0, 0, 0, 0, 0, 0, 0, 0]
         + [0, 0, 0, 0, 0, 0, 0, 0] + [0x3F, 0x84, 0x7A, 0xE1, 0x47, 0xAE, 0x14, 0x7B]
  {
    ExampleFields();
  }

  /** The big-endian patterns of 1.0, 2.0, 3.0, 0.0 and 0.01. */
  lemma ExampleFields()
    ensures U64Be(One) == [0x3F, 0xF0, 0, 0, 0, 0, 0, 0]
    ensures U64Be(0x4000_0000_0000_0000) == [0x40, 0x00, 0, 0, 0, 0, 0, 0]
    ensures U64Be(0x4008_0000_0000_0000) == [0x40, 0x08, 0, 0, 0, 0, 0, 0]
    ensures U64Be(Zero) == [0, 0, 0, 0, 0, 0, 0, 0]
    ensures U64Be(0x3F84_7AE1_47AE_147B) == [0x3F, 0x84, 0x7A, 0xE1, 0x47, 0xAE, 0x14, 0x7B]
  {
    assert 0x3F84_7AE1_47AE_147B / 0x1_0000_0000 == 0x3F84_7AE1;
    assert 0x3F84_7AE1_47AE_147B % 0x1_0000_0000 == 0x47AE_147B;
    assert U32Be(0x3F84_7AE1) == [0x3F, 0x84, 0x7A, 0xE1];
  }

  /** The header of the worked example: time 1000, one marker, id 5, no secondary. */
  lemma ExampleHeader(obs: CameraPoseObservation)
    requires obs.tagIds == [5] && obs.pose1.None?
    ensures Header(1000, obs) == [0x00, 0x00, 0x03, 0xE8,  0x00, 0x00, 0x00, 0x01,  0x00, 0x00, 0x00, 0x05,  0x00]
  {
    assert [5][..0] == [];
  }

  /**
   * The worked example of the format: marker 5, translation (1, 2, 3), the
   * identity rotation, error 0.01, no secondary pose, at time 1000.
   */
  lemma EncodeExample()
    ensures var pose := Isometry(Vec3(One, 0x4000_0000_0000_0000, 0x4008_0000_0000_0000), IdentityRotation);
      Encode(1000, CameraPoseObservation([5], pose, 0x3F84_7AE1_47AE_147B, None, None))
      == Complete([0x00, 0x00, 0x03, 0xE8,  0x00, 0x00, 0x00, 0x01,  0x00, 0x00, 0x00, 0x05,  0x00]
                  + ([0x3F, 0xF0, 0, 0, 0, 0, 0, 0] + [0x40, 0x00, 0, 0, 0, 0, 0, 0] + [0x40, 0x08, 0, 0, 0, 0, 0, 0]
                     + [0x3F, 0xF0, 0, 0, 0, 0, 0, 0] + [0, 0, 0, 0, 0, 0, 0, 0] + [0, 0, 0, 0, 0, 0, 0, 0]
                     + [0, 0, 0, 0, 0, 0, 0, 0] + [0x3F, 0x84, 0x7A, 0xE1, 0x47, 0xAE, 0x14, 0x7B]))
  {
    var pose := Isometry(Vec3(One, 0x4000_0000_0000_0000, 0x4008_0000_0000_0000), IdentityRotation);
    var obs := CameraPoseObservation([5], pose, 0x3F84_7AE1_47AE_147B, None, None);
    ExampleHeader(obs);
    ExampleRecord();
    assert Record(pose, obs.error0)
      == PoseRecord(One, 0x4000_0000_0000_0000, 0x4008_0000_0000_0000, One, Zero, Zero, Zero, 0x3F84_7AE1_47AE_147B);
    assert Encode(1000, obs).bytes == Header(1000, obs) + RecordBytes(Record(pose, obs.error0)) + [];
  }

  /** A decoded pose sample. */
  datatype Sample = Sample(time: u32, tagIds: seq<u32>, primary: PoseRecord, secondary: Option<PoseRecord>)

  function ReadRecord(s: seq<byte>): PoseRecord
    requires |s| == 64
  {
    PoseRecord(ReadU64Be(s[0..8]), ReadU64Be(s[8..16]), ReadU64Be(s[16..24]), ReadU64Be(s[24..32]),
               ReadU64Be(s[32..40]), ReadU64Be(s[40..48]), ReadU64Be(s[48..56]), ReadU64Be(s[56..64]))
  }

  function ReadIds(s: seq<byte>): (ids: seq<u32>)
    requires |s| % 4 == 0
    ensures |ids| == |s| / 4
  {
    if s == [] then [] else ReadIds(s[..|s| - 4]) + [ReadU32Be(s[|s| - 4..])]
  }

  /** Parses one complete sample; `None` for anything the encoder cannot produce. */
  function Decode(s: seq<byte>): Option<Sample>
  {
    if |s| < 8 then None else DecodeCounted(s, ReadU32Be(s[4..8]))
  }

  /** The rest of `Decode`, once the id count has been read; a negative `i32` count is refused. */
  function DecodeCounted(s: seq<byte>, count: u32): Option<Sample>
    requires |s| >= 8
  {
    if count >= 0x8000_0000 || |s| < 9 + 4 * count then None
    else DecodeBlocks(ReadU32Be(s[..4]), ReadIds(s[8..8 + 4 * count]), s[8 + 4 * count], s[9 + 4 * count..])
  }

  /** The pose blocks after the `has_secondary` byte `flag`. */
  function DecodeBlocks(time: u32, ids: seq<u32>, flag: byte, rest: seq<byte>): Option<Sample>
  {
    if flag == 0 && |rest| == 64 then
      Some(Sample(time, ids, ReadRecord(rest), None))
    else if flag == 1 && |rest| == 128 then
      Some(Sample(time, ids, ReadRecord(rest[..64]), Some(ReadRecord(rest[64..]))))
    else None
  }

  /** Each id as it appears on the wire: its low 32 bits. */
  function NarrowIds(ids: seq<u64>): (r: seq<u32>)
    ensures |r| == |ids|
    ensures forall k :: 0 <= k < |ids| ==> r[k] == Low32(ids[k])
  {
    if ids == [] then [] else NarrowIds(ids[..|ids| - 1]) + [Low32(ids[|ids| - 1])]
  }

  /** The record a sample carries for the secondary pose. */
  function SecondaryRecord(obs: CameraPoseObservation): Option<PoseRecord>
    requires Encodable(obs)
  {
    if obs.pose1.Some? then Some(Record(obs.pose1.value, obs.error1.value)) else None
  }

  lemma RecordRoundTrip(r: PoseRecord)
    ensures ReadRecord(RecordBytes(r)) == r
  {
    var f0, f1, f2, f3 := U64Be(r.tx), U64Be(r.ty), U64Be(r.tz), U64Be(r.qw);
    var f4, f5, f6, f7 := U64Be(r.qx), U64Be(r.qy), U64Be(r.qz), U64Be(r.error);
    var b := RecordBytes(r);
    assert b == f0 + f1 + f2 + f3 + f4 + f5 + f6 + f7;
    assert b[0..8] == f0 && b[8..16] == f1 && b[16..24] == f2 && b[24..32] == f3;
    assert b[32..40] == f4 && b[40..48] == f5 && b[48..56] == f6 && b[56..64] == f7;
    U64RoundTrip(r.tx); U64RoundTrip(r.ty); U64RoundTrip(r.tz); U64RoundTrip(r.qw);
    U64RoundTrip(r.qx); U64RoundTrip(r.qy); U64RoundTrip(r.qz); U64RoundTrip(r.error);
  }

  lemma {:induction false} IdsRoundTrip(ids: seq<u64>)
    ensures ReadIds(IdsBytes(ids)) == NarrowIds(ids)
  {
    if ids != [] {
      var n := |ids| - 1;
      var front, last := IdsBytes(ids[..n]), U32Be(Low32(ids[n]));
      var b := IdsBytes(ids);
      assert b == front + last;
      SlicesOfAppend(front, last);
      assert ReadIds(b) == ReadIds(front) + [ReadU32Be(last)];
      IdsRoundTrip(ids[..n]);
      U32RoundTrip(Low32(ids[n]));
    }
  }

  /**
   * Decoding what the encoder wrote recovers the time, the narrowed ids and
   * both pose blocks, as long as the id count fits a non-negative `i32`.
   */
  lemma EncodeDecodeRoundTrip(time: u32, obs: CameraPoseObservation)
    requires Encodable(obs) && |obs.tagIds| < 0x8000_0000
    ensures Decode(Encode(time, obs).bytes)
      == Some(Sample(time, NarrowIds(obs.tagIds), Record(obs.pose0, obs.error0), SecondaryRecord(obs)))
  {
    var h, first, tail := Header(time, obs), RecordBytes(Record(obs.pose0, obs.error0)), SecondaryBytes(obs);
    assert Encode(time, obs).bytes == h + first + tail;
    AppendAssoc(h, first, tail);
    SlicesOfAppend(h, first + tail);
    DecodeOfParts(time, obs, Encode(time, obs).bytes);
  }

  /** `Decode` on a header followed by the pose blocks. */
  lemma DecodeOfParts(time: u32, obs: CameraPoseObservation, b: seq<byte>)
    requires Encodable(obs) && |obs.tagIds| < 0x8000_0000
    requires |b| >= |Header(time, obs)| && b[..|Header(time, obs)|] == Header(time, obs)
    requires b[|Header(time, obs)|..] == RecordBytes(Record(obs.pose0, obs.error0)) + SecondaryBytes(obs)
    ensures Decode(b)
      == Some(Sample(time, NarrowIds(obs.tagIds), Record(obs.pose0, obs.error0), SecondaryRecord(obs)))
  {
    var ids := NarrowIds(obs.tagIds);
    HeaderRoundTrip(time, obs, b);
    BlocksRoundTrip(time, ids, obs, b[9 + 4 * |ids|..]);
    DecodeFields(b, time, ids, SecondaryFlag(obs));
  }

  /** The decoder reads back every header field from a buffer that starts with the header. */
  lemma HeaderRoundTrip(time: u32, obs: CameraPoseObservation, b: seq<byte>)
    requires |obs.tagIds| < 0x8000_0000
    requires |b| >= |Header(time, obs)| && b[..|Header(time, obs)|] == Header(time, obs)
    ensures var n := |obs.tagIds|;
      && ReadU32Be(b[..4]) == time
      && ReadU32Be(b[4..8]) == n
      && ReadIds(b[8..8 + 4 * n]) == NarrowIds(obs.tagIds)
      && b[8 + 4 * n] == SecondaryFlag(obs)
  {
    var h, n := Header(time, obs), |obs.tagIds|;
    HeaderLayout(time, obs);
    SliceOfPrefix(b, |h|, 0, 4);
    SliceOfPrefix(b, |h|, 4, 8);
    SliceOfPrefix(b, |h|, 8, 8 + 4 * n);
    assert b[8 + 4 * n] == b[..|h|][8 + 4 * n];
    U32RoundTrip(time);
    U32RoundTrip(n);
    IdsRoundTrip(obs.tagIds);
  }

  /** The decoder reads back the pose blocks that follow the flag byte. */
  lemma BlocksRoundTrip(time: u32, ids: seq<u32>, obs: CameraPoseObservation, rest: seq<byte>)
    requires Encodable(obs)
    requires rest == RecordBytes(Record(obs.pose0, obs.error0)) + SecondaryBytes(obs)
    ensures DecodeBlocks(time, ids, SecondaryFlag(obs), rest)
      == Some(Sample(time, ids, Record(obs.pose0, obs.error0), SecondaryRecord(obs)))
  {
    var first := RecordBytes(Record(obs.pose0, obs.error0));
    RecordRoundTrip(Record(obs.pose0, obs.error0));
    if obs.pose1.Some? {
      var second := Record(obs.pose1.value, obs.error1.value);
      assert SecondaryBytes(obs) == RecordBytes(second);
      SlicesOfAppend(first, RecordBytes(second));
      RecordRoundTrip(second);
    } else {
      assert rest == first;
    }
  }

  /** `Decode` on a buffer whose fields have already been read apart. */
  lemma DecodeFields(b: seq<byte>, time: u32, ids: seq<u32>, flag: byte)
    requires |b| >= 9 + 4 * |ids| && |ids| < 0x8000_0000
    requires ReadU32Be(b[4..8]) == |ids| && ReadU32Be(b[..4]) == time
    requires ReadIds(b[8..8 + 4 * |ids|]) == ids && b[8 + 4 * |ids|] == flag
    ensures Decode(b) == DecodeBlocks(time, ids, flag, b[9 + 4 * |ids|..])
  {
  }

  // ---------------------------------------------------------------------
  // The imperative writer.

  /** `std::io::Cursor<Vec<u8>>` positioned at its end: writes append. */
  class Cursor {
    var buffer: seq<byte>

    constructor ()
      ensures buffer == []
    {
      buffer := [];
    }

    method Write(bytes: seq<byte>)
      modifies this
      ensures buffer == old(buffer) + bytes
    {
      buffer := buffer + bytes;
    }
  }

  /** The seven `write_be` calls for a pose's translation and rotation. */
  method WritePose(writer: Cursor, pose: Isometry)
    modifies writer
    ensures writer.buffer == old(writer.buffer) + PoseBytes(pose)
  {
    ghost var start := writer.buffer;
    writer.Write(U64Be(pose.translation.x));
    writer.Write(U64Be(pose.translation.y));
    writer.Write(U64Be(pose.translation.z));
    writer.Write(U64Be(pose.rotation.w));
    writer.Write(U64Be(pose.rotation.i));
    writer.Write(U64Be(pose.rotation.j));
    writer.Write(U64Be(pose.rotation.k));
    assert writer.buffer == start + U64Be(pose.translation.x) + U64Be(pose.translation.y) + U64Be(pose.translation.z)
      + U64Be(pose.rotation.w) + U64Be(pose.rotation.i) + U64Be(pose.rotation.j) + U64Be(pose.rotation.k);
  }

  /** The header: `time`, the id count, the loop over the ids and the flag byte. */
  method WriteHeader(obs: CameraPoseObservation, writer: Cursor, time: u32)
    modifies writer
    ensures writer.buffer == old(writer.buffer) + Header(time, obs)
  {
    ghost var start := writer.buffer;
    var a, c := U32Be(time), U32Be(Low32(|obs.tagIds|));
    writer.Write(a);
    writer.Write(c);
    for i := 0 to |obs.tagIds|
      invariant writer.buffer == start + a + c + IdsBytes(obs.tagIds[..i])
    {
      assert obs.tagIds[..i + 1][..i] == obs.tagIds[..i];
      writer.Write(U32Be(Low32(obs.tagIds[i])));
    }
    assert obs.tagIds[..|obs.tagIds|] == obs.tagIds;
    if obs.pose1.Some? {
      writer.Write(U8Be(1));
    } else {
      writer.Write(U8Be(0));
    }
    assert writer.buffer == start + a + c + IdsBytes(obs.tagIds) + U8Be(SecondaryFlag(obs));
    AppendAssoc(start + a + c, IdsBytes(obs.tagIds), U8Be(SecondaryFlag(obs)));
    AppendAssoc(start + a, c, IdsBytes(obs.tagIds) + U8Be(SecondaryFlag(obs)));
    AppendAssoc(start, a, c + (IdsBytes(obs.tagIds) + U8Be(SecondaryFlag(obs))));
    AppendAssoc(a, c, IdsBytes(obs.tagIds) + U8Be(SecondaryFlag(obs)));
    AppendAssoc(a + c, IdsBytes(obs.tagIds), U8Be(SecondaryFlag(obs)));
  }

  /** The secondary block: the pose fields, then the `unwrap` of the error. */
  method WriteSecondary(writer: Cursor, pose: Isometry, error: Option<F64>) returns (r: Outcome<()>)
    modifies writer
    ensures r.Returned? <==> error.Some?
    ensures writer.buffer == old(writer.buffer)
      + (if error.Some? then RecordBytes(Record(pose, error.value)) else PoseBytes(pose))
  {
    WritePose(writer, pose);
    if error.None? {
      return Panicked;
    }
    writer.Write(U64Be(error.value));
    PoseBlockIsRecord(pose, error.value);
    AppendAssoc(old(writer.buffer), PoseBytes(pose), U64Be(error.value));
    r := Returned(());
  }

  /**
   * `obs.write_options(writer, _, (time,))`: the header, the primary block,
   * and the secondary block when there is a secondary pose.
   */
  method WriteBe(obs: CameraPoseObservation, writer: Cursor, time: u32) returns (r: Outcome<()>)
    modifies writer
    ensures writer.buffer == old(writer.buffer) + Encode(time, obs).bytes
    ensures r.Returned? <==> Encode(time, obs).Complete?
  {
    WriteHeader(obs, writer, time);
    WritePose(writer, obs.pose0);
    writer.Write(U64Be(obs.error0));
    PoseBlockIsRecord(obs.pose0, obs.error0);
    ghost var primary := Header(time, obs) + RecordBytes(Record(obs.pose0, obs.error0));
    AppendAssoc(old(writer.buffer) + Header(time, obs), PoseBytes(obs.pose0), U64Be(obs.error0));
    AppendAssoc(old(writer.buffer), Header(time, obs), RecordBytes(Record(obs.pose0, obs.error0)));
    assert writer.buffer == old(writer.buffer) + primary;
    r := Returned(());
    if obs.pose1.Some? {
      r := WriteSecondary(writer, obs.pose1.value, obs.error1);
    }
    AppendAssoc(old(writer.buffer), primary, SecondaryBytes(obs));
  }
}
