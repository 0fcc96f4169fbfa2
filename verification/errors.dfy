/** The errors of the Go code as values.  Every `fmt.Errorf("...: %w", err)` becomes a
    `Wrap` whose cause is the wrapped error, so that "the caller sees why" is a
    statement about the error chain. */
module Errors {
  import opened Wrappers

  /** One tag per error message the code constructs, plus the leaves produced by
      the libraries it calls. */
  datatype Reason =
    // library leaves
    | Syntax                          // strconv.ErrSyntax
    | Range                           // strconv.ErrRange
    | JsonSyntax                      // encoding/json could not decode the text
    | NetworkFailure                  // the socket layer reported an error
    | InvalidKeySize(size: nat)       // crypto/aes.KeySizeError
    // transport
    | DecodeToken                     // "failed to decode gateway token"
    | DecodeAddress(addr: string)     // "failed to decode gateway IP-address: %v"
    | DialGateway                     // "failed to dial gateway UDP"
    | DialMulticast                   // "failed to dial multicast UDP"
    | CallDevicesList                 // "failed to call gateway devices list"
    | AlreadyAwaiting(cmd: string)    // "command '%v' is already awaiting response"
    | SendCommand(cmd: string)        // "failed to send command '%v'"
    | TimedOut                        // "request timed out"
    | GetDevicesList                  // "failed to get devices list"
    | ParseDevicesList                // "failed to parse get devices list response"
    // typed sensors
    | ParseData                       // "failed to parse data"
    | ParseTemperature(text: string)  // "failed to parse temperature from '%v'"
    | ParseHumidity(text: string)     // "failed to parse humidity from '%v'"
    | ParsePressure(text: string)     // "failed to parse pressure from '%v'"
    | CreateSensor(sid: string)       // "failed to create sensor_ht with sid '%v', can't parse init data"
    // gateway facade
    | StartTransport                  // "failed to start transpot"
    | GetDevices                      // "failed to get devices"
    | ReadDeviceInfo(sid: string)     // "failed to read device '%v' info"
    | CreateSensorHT                  // "failed to create sensor_ht"
    | CreateWeatherV1                 // "failed to create weather.v1"
    // weather
    | ParseConditions                 // "failed to parse conditions"

  /** An error: its own message and, when it was built with `%w` around a
      non-nil error, the error it wraps. */
  datatype Error = Error(reason: Reason, cause: Option<Error>)

  function Leaf(r: Reason): Error {
    Error(r, None)
  }

  function Wrap(r: Reason, inner: Error): Error {
    Error(r, Some(inner))
  }

  /** The innermost error of the chain, as `errors.Unwrap` repeated would find it. */
  function Root(e: Error): Reason {
    match e.cause
    case None => e.reason
    case Some(inner) => Root(inner)
  }

  /** True iff `r` is the message of some error on the chain (`errors.Is` by message). */
  predicate Mentions(e: Error, r: Reason) {
    e.reason == r || (e.cause.Some? && Mentions(e.cause.value, r))
  }

  /** Wrapping never hides an error: the root cause is kept and so is every message. */
  lemma {:induction false} WrapKeepsCause(r: Reason, inner: Error, x: Reason)
    requires Mentions(inner, x)
    ensures Root(Wrap(r, inner)) == Root(inner)
    ensures Mentions(Wrap(r, inner), x)
    ensures Mentions(Wrap(r, inner), Root(inner))
  {
    RootIsMentioned(inner);
  }

  lemma {:induction false} RootIsMentioned(e: Error)
    ensures Mentions(e, Root(e))
    decreases e
  {
    match e.cause
    case None =>
    case Some(inner) => RootIsMentioned(inner);
  }
}
