/**
 * The status enumeration of the server lifecycle and the snapshot that a
 * status notification exposes to its subscribers
 * (Services/IFtpServerManager.cs).
 */
module ServerStatus {
  import opened Wrappers

  /** The five states of the FTP server. */
  datatype FtpServerStatus = Stopped | Starting | Running | Stopping | Error

  /** Every status, in declaration order. */
  const AllStatuses: seq<FtpServerStatus> := [Stopped, Starting, Running, Stopping, Error]

  /**
   * What a subscriber of OnStatusChanged can observe when it is invoked:
   * the status and the error message, both already written.
   */
  datatype Snapshot = Snapshot(status: FtpServerStatus, errorMessage: Option<string>)

  /** ErrorMessage is set exactly when the status is Error. */
  predicate MessageMatchesStatus(status: FtpServerStatus, errorMessage: Option<string>)
  {
    errorMessage.Some? <==> status == Error
  }

  /** There are exactly five statuses and each of them is listed once. */
  lemma StatusesAreFive(st: FtpServerStatus)
    ensures |AllStatuses| == 5
    ensures st in AllStatuses
    ensures forall i, j :: 0 <= i < j < |AllStatuses| ==> AllStatuses[i] != AllStatuses[j]
  {
  }
}
