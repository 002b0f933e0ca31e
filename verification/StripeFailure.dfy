/** What an error of a Stripe call says about the effect of the call. */
module StripeFailure {
  import opened Prelude

  datatype Kind =
    | Network | Timeout | RateLimit | ApiError | Authentication | Permission | InvalidRequest | Idempotency | NotFound
    | Conflict | Unknown

  datatype Class = Retryable | Terminal | Ambiguous

  /** The fields of a thrown value that the worker looks at. */
  datatype StripeError = StripeError(kind: Option<string>, code: Option<string>, name: Option<string>, statusCode: Option<int>)

  const TIMEOUT_CODES: set<string> := {"ETIMEDOUT", "UND_ERR_CONNECT_TIMEOUT"}
  const NETWORK_CODES: set<string> := {"ECONNRESET", "ECONNREFUSED", "EPIPE", "ENETUNREACH"}

  function KindOf(e: StripeError): Kind {
    if e.kind == Some("StripeRateLimitError") || e.code == Some("rate_limit") then RateLimit
    else if e.kind == Some("StripeAuthenticationError") then Authentication
    else if e.kind == Some("StripePermissionError") then Permission
    else if e.kind == Some("StripeInvalidRequestError") then InvalidRequest
    else if e.kind == Some("StripeIdempotencyError") then Idempotency
    else if e.kind == Some("StripeAPIError") then ApiError
    else if e.kind == Some("StripeConnectionError") then Network
    else if e.name == Some("AbortError") || (e.code.Some? && e.code.value in TIMEOUT_CODES) then Timeout
    else if e.code.Some? && e.code.value in NETWORK_CODES then Network
    else if e.statusCode == Some(404) then NotFound
    else if e.statusCode == Some(409) then Conflict
    else Unknown
  }

  function ClassifyRefundFailure(kind: Kind, httpStatus: Option<int>, effectBoundaryCrossed: bool): Class {
    if effectBoundaryCrossed
       && (kind in {Network, Timeout, ApiError, Idempotency, Conflict, Unknown}
           || httpStatus == Some(409) || (httpStatus.Some? && httpStatus.value >= 500)) then Ambiguous
    else if kind in {Authentication, Permission, InvalidRequest, Idempotency, NotFound, Conflict}
            || (httpStatus.Some? && 400 <= httpStatus.value < 500 && httpStatus.value != 409 && httpStatus.value != 429) then Terminal
    else Retryable
  }

  function NormalizeStripeFailure(e: StripeError, effectBoundaryCrossed: bool): Class {
    ClassifyRefundFailure(KindOf(e), e.statusCode, effectBoundaryCrossed)
  }

  /** Stripe itself answered, with one of its definite refusals. */
  predicate DefiniteRefusal(e: StripeError) {
    || e.code == Some("rate_limit")
    || e.kind in {Some("StripeRateLimitError"), Some("StripeAuthenticationError"), Some("StripePermissionError"),
                  Some("StripeInvalidRequestError")}
    || (e.kind !in {Some("StripeIdempotencyError"), Some("StripeAPIError"), Some("StripeConnectionError")}
        && e.name != Some("AbortError")
        && (e.code.None? || e.code.value !in TIMEOUT_CODES + NETWORK_CODES)
        && e.statusCode == Some(404))
  }

  /** After the boundary, absence of an effect is claimed exactly for definite
      refusals whose status is neither 409 nor a server error; everything else,
      unknown errors and transport failures included, stays ambiguous. Before the
      boundary nothing is ambiguous. */
  lemma AbsenceIsClaimedExactlyForRefusals(e: StripeError)
    ensures NormalizeStripeFailure(e, true) != Ambiguous <==>
              DefiniteRefusal(e) && e.statusCode != Some(409) && (e.statusCode.None? || e.statusCode.value < 500)
    ensures NormalizeStripeFailure(e, false) != Ambiguous
  {
  }

  /** After the boundary only a rate limit is retried. */
  lemma OnlyRateLimitsRetryAfterBoundary(e: StripeError)
    ensures NormalizeStripeFailure(e, true) == Retryable ==> KindOf(e) == RateLimit
    ensures NormalizeStripeFailure(e, true) == Retryable ==> NormalizeStripeFailure(e, false) == Retryable
  {
  }

  /** Errors worth another try with the same key: before the boundary everything
      Stripe did not refuse for good, after it rate limits that carry no other
      client error. */
  lemma RetriesExactly(e: StripeError)
    ensures NormalizeStripeFailure(e, false) == Retryable <==>
              && KindOf(e) in {Network, Timeout, RateLimit, ApiError, Unknown}
              && (e.statusCode.None? || e.statusCode.value < 400 || e.statusCode.value >= 500 || e.statusCode.value in {409, 429})
    ensures NormalizeStripeFailure(e, true) == Retryable <==>
              KindOf(e) == RateLimit && (e.statusCode.None? || e.statusCode.value < 400 || e.statusCode.value == 429)
    ensures NormalizeStripeFailure(e, true) == Terminal ==> NormalizeStripeFailure(e, false) == Terminal
  {
  }
}
