/** Values shared by every stage of the login-URL pipeline: option and result
    wrappers, the closed set of errors the pipeline can end with, AWS
    credentials, and Go's time.Duration as a count of nanoseconds. */
module Types {

  datatype Option<+T> = None | Some(value: T) {
    function GetOr(default: T): T {
      match this
      case Some(v) => v
      case None => default
    }
  }

  datatype Result<+R, +E> = Success(value: R) | Failure(error: E)

  /** Every fatal condition of the pipeline, one variant per source of failure. */
  datatype Error =
    | ReadError(message: string)           // io.ReadAll on standard input
    | ConfigError(message: string)         // shared-config loading or credential retrieval
    | CredentialsUnparsed                  // neither JSON shape held an access key and a secret
    | FederationError(message: string)     // STS GetFederationToken
    | UrlError(message: string)            // url.Parse
    | RequestError(message: string)        // building or performing the HTTP request
    | StatusError(status: string)          // the signin-token response was not 200 OK
    | TokenDecodeError(message: string)    // the signin-token response body is not JSON
    | LocationUnresolved(location: string) // the --location value could not be resolved
    | OutputError(message: string)         // the QR, browser or clipboard sink failed
  {
    /** The text of the errors whose wording the program fixes itself. */
    function Message(): (m: string)
      ensures CredentialsUnparsed? ==> m == "failed to parse credentials"
      ensures StatusError? ==> m == "request failed: " + status
      ensures LocationUnresolved? ==> "could not resolve location " <= m
    {
      match this
      case ReadError(msg) => msg
      case ConfigError(msg) => msg
      case CredentialsUnparsed => "failed to parse credentials"
      case FederationError(msg) => msg
      case UrlError(msg) => msg
      case RequestError(msg) => msg
      case StatusError(status) => "request failed: " + status
      case TokenDecodeError(msg) => msg
      case LocationUnresolved(location) => "could not resolve location \"" + location + "\""
      case OutputError(msg) => msg
    }
  }

  /** aws.Credentials, restricted to the three fields the program reads.
      An empty sessionToken marks long-lived IAM-user credentials. */
  datatype Credentials = Credentials(accessKeyId: string, secretAccessKey: string, sessionToken: string)

  /** time.Duration counts nanoseconds. */
  const Second: int := 1_000_000_000
  const Minute: int := 60 * Second

  /** int(d.Seconds()): the whole number of seconds in `d`, truncated toward
      zero as Go's float-to-int conversion does (Dafny's `/` floors instead). */
  function WholeSeconds(d: int): (s: int)
    ensures d >= 0 ==> 0 <= s && s * Second <= d < (s + 1) * Second
    ensures d < 0 ==> s <= 0 && (s - 1) * Second < d <= s * Second
  {
    if d >= 0 then d / Second else -((-d) / Second)
  }
}
