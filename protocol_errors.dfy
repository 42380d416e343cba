/**
 * Protocol errors: an error code that is never null or white space, and an
 * optional human-readable description.  The error codes are those of
 * section 4.1.2.1 (authorization endpoint) and section 3.2.4 (token endpoint)
 * of the OAuth 2.1 draft.
 */
module ProtocolErrors {
  import opened Wrappers
  import opened Text

  datatype ProtocolError = ProtocolError(error: NonBlank, description: Option<string>)

  /**
   * The `ProtocolError` constructor.  Its guard clause rejects a null or
   * white-space error code; that is the precondition here.
   */
  function NewProtocolError(error: string, description: Option<string>): (r: ProtocolError)
    requires !IsNullOrWhiteSpace(error)
    ensures r.error == error && r.description == description
  {
    ProtocolError(error, description)
  }

  /** An error code whose first character is not white space is never blank. */
  function ErrorCode(code: string): NonBlank
    requires |code| > 0 && !IsWhiteSpace(code[0])
  {
    code
  }

  // Authorization endpoint error codes.
  const InvalidRequest: NonBlank := ErrorCode("invalid_request")
  const UnauthorizedClient: NonBlank := ErrorCode("unauthorized_client")
  const AccessDenied: NonBlank := ErrorCode("access_denied")
  const UnsupportedResponseType: NonBlank := ErrorCode("unsupported_response_type")
  const InvalidScope: NonBlank := ErrorCode("invalid_scope")
  const ServerError: NonBlank := ErrorCode("server_error")
  const TemporarilyUnavailable: NonBlank := ErrorCode("temporarily_unavailable")

  /** The authorization endpoint's error codes. */
  const AuthorizeErrorCodes: set<string> :=
    {InvalidRequest, UnauthorizedClient, AccessDenied, UnsupportedResponseType,
     InvalidScope, ServerError, TemporarilyUnavailable}

  // Token endpoint error codes (`invalid_request`, `unauthorized_client` and
  // `invalid_scope` are shared with the authorization endpoint).
  const InvalidClient: NonBlank := ErrorCode("invalid_client")
  const InvalidGrant: NonBlank := ErrorCode("invalid_grant")
  const UnsupportedGrantType: NonBlank := ErrorCode("unsupported_grant_type")

  /** The token endpoint's error codes. */
  const TokenErrorCodes: set<string> :=
    {InvalidRequest, InvalidClient, InvalidGrant, UnauthorizedClient, UnsupportedGrantType, InvalidScope}
}
