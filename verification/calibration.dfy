/**
 * The calibration result as the capture screen keeps it and as it is handed
 * to the results screen. Numbers are JavaScript numbers, modelled as `real`.
 */
module Calibration {
  import opened Wrappers

  /**
   * The five result fields: the RMS re-projection error, the 3x3 camera matrix
   * and the distortion coefficients (flattened `data64F` arrays), and one
   * rotation and one translation vector per sample. `None` is JavaScript's `null`.
   */
  datatype Fields = Fields(
    rms: real,
    cameraMatrix: Option<seq<real>>,
    distCoeffs: Option<seq<real>>,
    rvecs: Option<seq<seq<real>>>,
    tvecs: Option<seq<seq<real>>>)

  /** The fields before any solve and after a reset: an error of 0, everything else null. */
  const NoResult := Fields(0.0, None, None, None, None)

  /** What a successful solve produces: every field is present. */
  datatype Solution = Solution(
    rms: real,
    cameraMatrix: seq<real>,
    distCoeffs: seq<real>,
    rvecs: seq<seq<real>>,
    tvecs: seq<seq<real>>)
  {
    function AsFields(): Fields
    {
      Fields(rms, Some(cameraMatrix), Some(distCoeffs), Some(rvecs), Some(tvecs))
    }
  }

  /** The payload the capture screen hands to the results screen: the fields and the pictures taken. */
  datatype Results = Results(fields: Fields, pictures: seq<string>)
}
