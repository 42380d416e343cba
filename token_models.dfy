/**
 * The grant artifacts and collaborator answers the token endpoint's grant
 * validators work with: issued authorization codes and refresh tokens (their
 * bound client, granted scopes and the resource owner's essential claims),
 * granted consents, and resource-owner profiles.
 */
module TokenModels {
  import opened Wrappers
  import opened ProtocolErrors
  import opened Clients
  import opened Resources

  /** The resource owner's essential claims; the validators read only the subject identifier. */
  datatype EssentialClaims = EssentialClaims(subjectId: string)

  /** An issued authorization code (`AbstractAuthorizationCode`). */
  datatype IssuedAuthorizationCode = IssuedAuthorizationCode(
    clientId: string,
    grantedScopes: set<string>,
    essentialClaims: EssentialClaims)

  /** An issued refresh token (`AbstractRefreshToken`). */
  datatype IssuedRefreshToken = IssuedRefreshToken(
    clientId: string,
    grantedScopes: set<string>,
    essentialClaims: EssentialClaims)

  /** A `code` parameter that the code validator accepted: the handle sent and the stored code. */
  datatype ValidAuthorizationCode = ValidAuthorizationCode(handle: string, code: IssuedAuthorizationCode)

  /** A `refresh_token` parameter that the refresh-token validator accepted. */
  datatype ValidRefreshToken = ValidRefreshToken(handle: string, token: IssuedRefreshToken)

  /** The consent a resource owner granted a client. */
  datatype GrantedConsent = GrantedConsent(grantedScopes: set<string>)

  /** The resource owner's profile. */
  datatype ResourceOwnerProfile = ResourceOwnerProfile(essentialClaims: EssentialClaims, claims: seq<string>)

  /** `GetResourceOwnerProfileAsync`: whether the account is active, and its profile. */
  datatype ProfileValidation = ProfileValidation(isActive: bool, profile: ResourceOwnerProfile)

  /** The granted consent still covers every scope the grant artifact carries. */
  predicate ConsentCovers(consent: Option<GrantedConsent>, grantedScopes: set<string>)
  {
    consent.Some? && grantedScopes <= consent.value.grantedScopes
  }

  /** A validated token request of one of the two grants that go through a resource owner. */
  datatype ValidGrantRequest<+A> = ValidGrantRequest(
    client: Client,
    allowedResources: ValidResources,
    handle: string,
    artifact: A,
    profile: ResourceOwnerProfile)

  const UnauthorizedGrantType :=
    ProtocolError(UnauthorizedClient, Some("The authenticated client is not authorized to use this authorization grant type"))
}
