/** The gateway's error type (crates/moaray-core/src/error.rs); HTTP rendering is not part of this model. */
module Errors {
  datatype Error =
    | InvalidApiKey
    | ModelNotFound(model: string)
    | BadRequest(reason: string)
    | UpstreamTimeout
    | UpstreamError
    | UpstreamClientError
    | UpstreamRateLimited
    | UpstreamUnavailable
    | RateLimited
    | CircuitOpen
    | Unsupported(what: string)
    | MoaQuorumFailed(succeeded: nat, required: nat)
    | Internal
  {
    /** Only a connection that failed before the request was sent may be retried. */
    predicate IsRetryable() { UpstreamUnavailable? }

    /** Only faults of the upstream itself may trip the breaker. */
    predicate CountsAgainstBreaker() { UpstreamError? || UpstreamTimeout? || UpstreamUnavailable? }
  }
}
