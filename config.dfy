/**
 * The session configuration read from `config.json` (src/config.rs).  Only
 * its shape is modelled; deserialisation is glue around serde.
 */
module Config {
  import opened Wire
  import opened Geometry3

  /** One entry of the field layout: a marker id and its pose in the field. */
  datatype Tag = Tag(id: u64, pose: Isometry)

  /** The field layout, in the order the configuration lists it. */
  datatype TagLayout = TagLayout(tags: seq<Tag>)

  datatype Config = Config(
    videoPath: string,
    width: u32,
    height: u32,
    autoExposure: u32,
    exposure: u32,
    gain: u32,
    fiducialSizeM: F64,
    serverIp: string,
    cameraName: string,
    streamPort: u64,
    hasCalibration: bool,
    cameraMatrix: seq<F64>,            // the 3x3 intrinsics, row by row
    distortionCoefficients: seq<F64>,
    tagLayout: TagLayout)
}
