/** How a finished download is classified into the account's connection status. */
module Connection {

  /** The notifier's status; OK is the enum's first value, so a new notifier starts there. */
  datatype Status = OK | AuthenticationFailed | Offline

  /** System.Net.WebExceptionStatus: why a WebClient download failed. */
  datatype WebExceptionStatus =
    | Success | NameResolutionFailure | ConnectFailure | ReceiveFailure | SendFailure
    | PipelineFailure | RequestCanceled | ProtocolError | ConnectionClosed | TrustFailure
    | SecureChannelFailure | ServerProtocolViolation | KeepAliveFailure | Pending | Timeout
    | ProxyNameResolutionFailure | UnknownError | MessageLengthLimitExceeded
    | CacheEntryNotFound | RequestProhibitedByCachePolicy | RequestProhibitedByProxy

  /**
   * What DownloadDataCompleted hands the notifier: the downloaded feed, already
   * decoded from UTF-8 into text, or the status of the WebException that ended it.
   */
  datatype Completion = Downloaded(xml: string) | Failed(error: WebExceptionStatus)

  /**
   * A failed download: an HTTP-level rejection (ProtocolError, which is what a 401
   * for bad credentials gives) means the login failed; anything else means offline.
   */
  function Classify(error: WebExceptionStatus): (s: Status)
    ensures s != OK
    ensures s == AuthenticationFailed <==> error == ProtocolError
    ensures s == Offline <==> error != ProtocolError
  {
    if error == ProtocolError then AuthenticationFailed else Offline
  }
}
