/**
 * The token endpoint's `refresh_token` grant validator (section 4.3 of the
 * OAuth 2.1 draft): the client must be allowed the grant; the refresh token
 * must be valid; the resource owner's consent must still cover the token's
 * scopes; the requested scopes must lie within the token's; and the resource
 * owner must be active.  Unlike the code grant, this validator does not itself
 * compare the token's client with the authenticated client.
 */
module RefreshTokenGrant {
  import opened Wrappers
  import opened ProtocolErrors
  import opened Clients
  import opened Resources
  import opened RequestParameters
  import opened TokenModels

  /** The validator's collaborators; each receives the request form. */
  datatype RefreshTokenServices = RefreshTokenServices(
    /** `ValidateRefreshTokenAsync`: the `refresh_token` parameter, looked up. */
    refreshTokenValidator: (Params, Client) -> Result<ValidRefreshToken, ProtocolError>,
    /** `ValidateScopeAsync`: the `scope` parameter, within the given ceiling of granted scopes. */
    scopeValidator: (Params, Client, set<string>) -> Result<ValidResources, ProtocolError>,
    /** `GetResourceOwnerProfileAsync`. */
    profiles: (EssentialClaims, ValidResources) -> ProfileValidation,
    /** `IGrantedConsentService.FindAsync(subjectId, client)`. */
    consents: (string, Client) -> Option<GrantedConsent>)

  const DisabledRefreshTokenUser :=
    ProtocolError(InvalidGrant, Some("User account for provided refresh token has been disabled"))

  type ValidRefreshTokenTokenRequest = ValidGrantRequest<IssuedRefreshToken>

  function ValidateRefreshTokenRequest(form: Params, client: Client, s: RefreshTokenServices)
    : (r: Result<ValidRefreshTokenTokenRequest, ProtocolError>)
    // The grant type is checked before the token is looked at.
    ensures RefreshToken !in client.grantTypes ==> r == Err(UnauthorizedGrantType)
    ensures RefreshToken in client.grantTypes && s.refreshTokenValidator(form, client).Err? ==>
      r == Err(s.refreshTokenValidator(form, client).error)
    // Consent that does not cover the token's scopes is `unauthorized_client`.
    ensures RefreshToken in client.grantTypes && s.refreshTokenValidator(form, client).Ok? ==>
      var token := s.refreshTokenValidator(form, client).value.token;
      !ConsentCovers(s.consents(token.essentialClaims.subjectId, client), token.grantedScopes) ==>
      r == Err(UnauthorizedGrantType)
    // Past the consent check, the scope validator's error and an inactive
    // resource owner are reported in that order; a request that passes both
    // is a valid grant.
    ensures RefreshToken in client.grantTypes && s.refreshTokenValidator(form, client).Ok? ==>
      var valid := s.refreshTokenValidator(form, client).value;
      var consented := ConsentCovers(s.consents(valid.token.essentialClaims.subjectId, client), valid.token.grantedScopes);
      var scope := s.scopeValidator(form, client, valid.token.grantedScopes);
      && (consented && scope.Err? ==> r == Err(scope.error))
      && (consented && scope.Ok? ==>
            var profile := s.profiles(valid.token.essentialClaims, scope.value);
            r == if profile.isActive then Ok(ValidGrantRequest(client, scope.value, valid.handle, valid.token, profile.profile))
                 else Err(DisabledRefreshTokenUser))
    // A success is backed by every check.
    ensures r.Ok? ==>
      var validToken := s.refreshTokenValidator(form, client);
      && RefreshToken in client.grantTypes
      && validToken.Ok? && r.value.handle == validToken.value.handle && r.value.artifact == validToken.value.token
      && ConsentCovers(s.consents(r.value.artifact.essentialClaims.subjectId, client), r.value.artifact.grantedScopes)
      && s.scopeValidator(form, client, r.value.artifact.grantedScopes) == Ok(r.value.allowedResources)
      && s.profiles(r.value.artifact.essentialClaims, r.value.allowedResources) == ProfileValidation(true, r.value.profile)
      && r.value.client == client
  {
    if RefreshToken !in client.grantTypes then Err(UnauthorizedGrantType)
    else
      var refreshTokenValidation := s.refreshTokenValidator(form, client);
      if refreshTokenValidation.HasError() then Err(refreshTokenValidation.error)
      else
        var refreshToken := refreshTokenValidation.value.token;
        var refreshTokenScopes := refreshToken.grantedScopes;
        var grantedConsent := s.consents(refreshToken.essentialClaims.subjectId, client);
        if !ConsentCovers(grantedConsent, refreshTokenScopes) then Err(UnauthorizedGrantType)
        else
          var scopeValidation := s.scopeValidator(form, client, refreshTokenScopes);
          if scopeValidation.HasError() then Err(scopeValidation.error)
          else
            var resourceOwnerProfileValidation := s.profiles(refreshToken.essentialClaims, scopeValidation.value);
            if !resourceOwnerProfileValidation.isActive then Err(DisabledRefreshTokenUser)
            else Ok(ValidGrantRequest(client, scopeValidation.value, refreshTokenValidation.value.handle,
                                      refreshToken, resourceOwnerProfileValidation.profile))
  }

  /**
   * Consent that no longer covers the token's scopes is `unauthorized_client`
   * whatever the scope validator would say about the `scope` parameter.
   */
  lemma ConsentFailureIgnoresScopeParameter(form: Params, client: Client, s: RefreshTokenServices)
    requires RefreshToken in client.grantTypes && s.refreshTokenValidator(form, client).Ok?
    requires
      var token := s.refreshTokenValidator(form, client).value.token;
      !ConsentCovers(s.consents(token.essentialClaims.subjectId, client), token.grantedScopes)
    ensures forall scopes :: ValidateRefreshTokenRequest(form, client, s.(scopeValidator := scopes)) == Err(UnauthorizedGrantType)
  {
  }

  /**
   * The token's own client identifier plays no part here: a token issued to
   * another client that passes every other check is accepted, so any binding
   * to the client rests with the refresh-token validator.
   */
  lemma TokenOfAnotherClientAccepted(form: Params, client: Client, s: RefreshTokenServices)
    requires RefreshToken in client.grantTypes && s.refreshTokenValidator(form, client).Ok?
    requires
      var token := s.refreshTokenValidator(form, client).value.token;
      && token.clientId != client.clientId
      && ConsentCovers(s.consents(token.essentialClaims.subjectId, client), token.grantedScopes)
      && s.scopeValidator(form, client, token.grantedScopes).Ok?
      && s.profiles(token.essentialClaims, s.scopeValidator(form, client, token.grantedScopes).value).isActive
    ensures ValidateRefreshTokenRequest(form, client, s).Ok?
    ensures ValidateRefreshTokenRequest(form, client, s).value.artifact.clientId != client.clientId
  {
  }

  /** An inactive resource owner gets `invalid_grant` even when every other check passes. */
  lemma InactiveResourceOwnerRejected(form: Params, client: Client, s: RefreshTokenServices)
    requires RefreshToken in client.grantTypes && s.refreshTokenValidator(form, client).Ok?
    requires
      var token := s.refreshTokenValidator(form, client).value.token;
      && ConsentCovers(s.consents(token.essentialClaims.subjectId, client), token.grantedScopes)
      && s.scopeValidator(form, client, token.grantedScopes).Ok?
      && !s.profiles(token.essentialClaims, s.scopeValidator(form, client, token.grantedScopes).value).isActive
    ensures ValidateRefreshTokenRequest(form, client, s) == Err(DisabledRefreshTokenUser)
  {
  }
}
