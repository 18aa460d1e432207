/** The ways the core can fail: a rejected external call (tagged with the step
    that made it), and the values the source throws itself. */
module Errors {
  import opened Wrappers
  import opened JsValues

  datatype Stage = NonceStage | FeeDataStage | EstimateStage | HashStage | SignStage | SendStage

  datatype Failure =
    /** an awaited external call rejected with this reason */
    | Rejected(stage: Stage, reason: string)
    /** `hexlify` of a fee value that the provider reported as null */
    | InvalidHexlifyValue
    /** `throw new Error(result.error.message)` */
    | ErrorWithMessage(message: Js)
    /** `throw "..."`: a bare string */
    | ThrownText(text: string)
    /** reading `.id` of an undefined NFT balance entry */
    | TypeErrorReadingId
    /** ABI-encoding an undefined `uint256` argument */
    | InvalidBigNumberValue
    /** calling `find` on a value that is an object, not an array */
    | FindIsNotAFunction

  /** Attaches the failing step to a rejected external call. */
  function Tag<T>(stage: Stage, r: Result<T, string>): Result<T, Failure> {
    match r
    case Success(v) => Success(v)
    case Failure(e) => Failure(Rejected(stage, e))
  }
}
