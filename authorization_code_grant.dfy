/**
 * The token endpoint's `authorization_code` grant validator (section 4.1.3
 * of the OAuth 2.1 draft): the client must be allowed the grant; the code must
 * be valid and issued to this client; the code verifier must match; the
 * resource owner's consent must still cover the code's scopes; the requested
 * scopes must lie within the code's; and the resource owner must be active.
 */
module AuthorizationCodeGrant {
  import opened Wrappers
  import opened ProtocolErrors
  import opened Clients
  import opened Resources
  import opened RequestParameters
  import opened TokenModels

  /** The validator's collaborators; each receives the request form. */
  datatype AuthorizationCodeServices = AuthorizationCodeServices(
    /** `ValidateCodeAsync`: the `code` parameter, looked up and consumed. */
    codeValidator: (Params, Client) -> Result<ValidAuthorizationCode, ProtocolError>,
    /** `ValidateCodeVerifierAsync`: the PKCE `code_verifier` against the code's challenge. */
    codeVerifierValidator: (Params, Client, IssuedAuthorizationCode) -> Outcome<ProtocolError>,
    /** `ValidateScopeAsync`: the `scope` parameter, within the given ceiling of granted scopes. */
    scopeValidator: (Params, Client, set<string>) -> Result<ValidResources, ProtocolError>,
    /** `GetResourceOwnerProfileAsync`. */
    profiles: (EssentialClaims, ValidResources) -> ProfileValidation,
    /** `IGrantedConsentService.FindAsync(subjectId, client)`. */
    consents: (string, Client) -> Option<GrantedConsent>)

  const InvalidAuthorizationCodeGrant := ProtocolError(InvalidGrant, Some(
    "The provided authorization grant (e.g., authorization code) is invalid, expired, revoked, does not match the redirect URI used in the authorization request, or was issued to another client"))
  const DisabledAuthorizationCodeUser :=
    ProtocolError(InvalidGrant, Some("User account for provided authorization code has been disabled"))

  type ValidAuthorizationCodeTokenRequest = ValidGrantRequest<IssuedAuthorizationCode>

  function ValidateAuthorizationCodeRequest(form: Params, client: Client, s: AuthorizationCodeServices)
    : (r: Result<ValidAuthorizationCodeTokenRequest, ProtocolError>)
    // The grant type is checked before the code is looked at.
    ensures AuthorizationCode !in client.grantTypes ==> r == Err(UnauthorizedGrantType)
    ensures AuthorizationCode in client.grantTypes && s.codeValidator(form, client).Err? ==>
      r == Err(s.codeValidator(form, client).error)
    // A code issued to another client is an invalid grant, whatever else the request holds.
    ensures AuthorizationCode in client.grantTypes && s.codeValidator(form, client).Ok?
            && s.codeValidator(form, client).value.code.clientId != client.clientId ==>
      r == Err(InvalidAuthorizationCodeGrant)
    // For this client's code, the verifier's failure, a consent gap, the scope
    // validator's error and an inactive resource owner are reported in that
    // order; a request that passes them all is a valid grant.
    ensures AuthorizationCode in client.grantTypes && s.codeValidator(form, client).Ok?
            && s.codeValidator(form, client).value.code.clientId == client.clientId ==>
      var valid := s.codeValidator(form, client).value;
      var verifier := s.codeVerifierValidator(form, client, valid.code);
      var consented := ConsentCovers(s.consents(valid.code.essentialClaims.subjectId, client), valid.code.grantedScopes);
      var scope := s.scopeValidator(form, client, valid.code.grantedScopes);
      && (verifier.Fail? ==> r == Err(verifier.error))
      && (verifier.Pass? && !consented ==> r == Err(UnauthorizedGrantType))
      && (verifier.Pass? && consented && scope.Err? ==> r == Err(scope.error))
      && (verifier.Pass? && consented && scope.Ok? ==>
            var profile := s.profiles(valid.code.essentialClaims, scope.value);
            r == if profile.isActive then Ok(ValidGrantRequest(client, scope.value, valid.handle, valid.code, profile.profile))
                 else Err(DisabledAuthorizationCodeUser))
    // A success is backed by every check, for exactly this client's code.
    ensures r.Ok? ==>
      var validCode := s.codeValidator(form, client);
      && AuthorizationCode in client.grantTypes
      && validCode.Ok? && r.value.handle == validCode.value.handle && r.value.artifact == validCode.value.code
      && r.value.artifact.clientId == client.clientId
      && s.codeVerifierValidator(form, client, r.value.artifact).Pass?
      && ConsentCovers(s.consents(r.value.artifact.essentialClaims.subjectId, client), r.value.artifact.grantedScopes)
      && s.scopeValidator(form, client, r.value.artifact.grantedScopes) == Ok(r.value.allowedResources)
      && s.profiles(r.value.artifact.essentialClaims, r.value.allowedResources) == ProfileValidation(true, r.value.profile)
      && r.value.client == client
  {
    if AuthorizationCode !in client.grantTypes then Err(UnauthorizedGrantType)
    else
      var codeValidation := s.codeValidator(form, client);
      if codeValidation.HasError() then Err(codeValidation.error)
      else
        var authorizationCode := codeValidation.value.code;
        if authorizationCode.clientId != client.clientId then Err(InvalidAuthorizationCodeGrant)
        else
          var codeVerifierValidation := s.codeVerifierValidator(form, client, authorizationCode);
          if codeVerifierValidation.Fail? then Err(codeVerifierValidation.error)
          else
            var codeScopes := authorizationCode.grantedScopes;
            var grantedConsent := s.consents(authorizationCode.essentialClaims.subjectId, client);
            if !ConsentCovers(grantedConsent, codeScopes) then Err(UnauthorizedGrantType)
            else
              var scopeValidation := s.scopeValidator(form, client, codeScopes);
              if scopeValidation.HasError() then Err(scopeValidation.error)
              else
                var resourceOwnerProfileValidation := s.profiles(authorizationCode.essentialClaims, scopeValidation.value);
                if !resourceOwnerProfileValidation.isActive then Err(DisabledAuthorizationCodeUser)
                else Ok(ValidGrantRequest(client, scopeValidation.value, codeValidation.value.handle,
                                          authorizationCode, resourceOwnerProfileValidation.profile))
  }

  /**
   * The code verifier, the consent, the scope validator and the profile are
   * consulted only for a code issued to this client: services that agree on
   * the code give the same answer for a code of another client.
   */
  lemma VerifierOnlyAfterClientMatch(form: Params, client: Client, s: AuthorizationCodeServices, t: AuthorizationCodeServices)
    requires s.codeValidator(form, client) == t.codeValidator(form, client)
    requires s.codeValidator(form, client).Ok? && s.codeValidator(form, client).value.code.clientId != client.clientId
    ensures ValidateAuthorizationCodeRequest(form, client, s) == ValidateAuthorizationCodeRequest(form, client, t)
  {
  }

  /**
   * Consent that no longer covers the code's scopes is `unauthorized_client`
   * before the scope validator is asked, so the `scope` parameter cannot
   * change that outcome.
   */
  lemma ConsentCheckedBeforeScope(form: Params, client: Client, s: AuthorizationCodeServices)
    requires AuthorizationCode in client.grantTypes && s.codeValidator(form, client).Ok?
    requires
      var code := s.codeValidator(form, client).value.code;
      code.clientId == client.clientId && s.codeVerifierValidator(form, client, code).Pass?
      && !ConsentCovers(s.consents(code.essentialClaims.subjectId, client), code.grantedScopes)
    ensures ValidateAuthorizationCodeRequest(form, client, s) == Err(UnauthorizedGrantType)
    ensures forall scopes :: ValidateAuthorizationCodeRequest(form, client, s.(scopeValidator := scopes)) == Err(UnauthorizedGrantType)
  {
  }

  /** An inactive resource owner gets `invalid_grant` even when every other check passes. */
  lemma InactiveResourceOwnerRejected(form: Params, client: Client, s: AuthorizationCodeServices)
    requires AuthorizationCode in client.grantTypes && s.codeValidator(form, client).Ok?
    requires
      var code := s.codeValidator(form, client).value.code;
      && code.clientId == client.clientId && s.codeVerifierValidator(form, client, code).Pass?
      && ConsentCovers(s.consents(code.essentialClaims.subjectId, client), code.grantedScopes)
      && s.scopeValidator(form, client, code.grantedScopes).Ok?
      && !s.profiles(code.essentialClaims, s.scopeValidator(form, client, code.grantedScopes).value).isActive
    ensures ValidateAuthorizationCodeRequest(form, client, s) == Err(DisabledAuthorizationCodeUser)
  {
  }

  /** Every error of the validator's own is `unauthorized_client` or `invalid_grant`; collaborators' errors pass through. */
  lemma OwnErrors(form: Params, client: Client, s: AuthorizationCodeServices)
    requires ValidateAuthorizationCodeRequest(form, client, s).Err?
    ensures
      var e := ValidateAuthorizationCodeRequest(form, client, s).error;
      e in {UnauthorizedGrantType, InvalidAuthorizationCodeGrant, DisabledAuthorizationCodeUser}
      || Err(e) == s.codeValidator(form, client)
      || (s.codeValidator(form, client).Ok? && Fail(e) == s.codeVerifierValidator(form, client, s.codeValidator(form, client).value.code))
      || (s.codeValidator(form, client).Ok? && Err(e) == s.scopeValidator(form, client, s.codeValidator(form, client).value.code.grantedScopes))
  {
  }
}
