/**
 * The values the authorize-request validation produces: the required
 * parameters of an authentication request (section 3.1.2.1 of OpenID Connect
 * Core 1.0), the validation error, which may or may not carry the required
 * parameters an error redirect needs, and the validated request.
 */
module AuthorizeModels {
  import opened Wrappers
  import opened Text
  import opened ProtocolErrors
  import opened Clients

  /** `AuthorizeRequestRequiredParameters`: `state` is optional, mode and redirect URI are never blank. */
  datatype RequiredParameters = RequiredParameters(
    client: Client,
    responseType: set<string>,
    state: Option<string>,
    responseMode: NonBlank,
    redirectUri: NonBlank)

  /**
   * The constructor.  Client and response type cannot be null here; the
   * guard clauses on the response mode and the redirect URI are its
   * precondition.
   */
  function NewRequiredParameters(client: Client, responseType: set<string>, state: Option<string>,
                                 responseMode: string, redirectUri: string): (r: RequiredParameters)
    requires !IsNullOrWhiteSpace(responseMode) && !IsNullOrWhiteSpace(redirectUri)
    ensures r.client == client && r.responseType == responseType && r.state == state
    ensures r.responseMode == responseMode && r.redirectUri == redirectUri
  {
    RequiredParameters(client, responseType, state, responseMode, redirectUri)
  }

  /**
   * `AuthorizeRequestValidationError`: `requiredParameters` is present exactly
   * when the error may be sent back to the client's redirect URI.
   */
  datatype AuthorizeRequestValidationError = AuthorizeRequestValidationError(
    requiredParameters: Option<RequiredParameters>,
    error: ProtocolError)
  {
    /** The error can be delivered by redirecting to the client. */
    predicate MayRedirect() { requiredParameters.Some? }
  }

  /** The one-argument constructor: an error that must be shown to the user agent, not redirected. */
  function RedirectUnsafeError(error: ProtocolError): (r: AuthorizeRequestValidationError)
    ensures r.error == error && !r.MayRedirect()
  {
    AuthorizeRequestValidationError(None, error)
  }

  /** The two-argument constructor: an error that is redirected using the validated required parameters. */
  function RedirectSafeError(requiredParameters: RequiredParameters, error: ProtocolError): (r: AuthorizeRequestValidationError)
    ensures r.error == error && r.MayRedirect() && r.requiredParameters.value == requiredParameters
  {
    AuthorizeRequestValidationError(Some(requiredParameters), error)
  }

  /** Every validation error is built by exactly one of the two constructors, and `MayRedirect` says which. */
  lemma ErrorConstructors(e: AuthorizeRequestValidationError)
    ensures !e.MayRedirect() ==> e == RedirectUnsafeError(e.error)
    ensures e.MayRedirect() ==> e == RedirectSafeError(e.requiredParameters.value, e.error)
    ensures forall rp :: RedirectUnsafeError(e.error) != RedirectSafeError(rp, e.error)
  {
  }

  /** `ValidatedAuthorizeRequest`: the fully validated request; its constructor has no guard clauses. */
  datatype ValidatedAuthorizeRequest = ValidatedAuthorizeRequest(
    client: Client,
    responseType: set<string>,
    state: Option<string>,
    responseMode: string,
    redirectUri: string)
}
