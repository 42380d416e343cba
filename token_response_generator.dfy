/**
 * The token endpoint's response generator (section 3.2.3 of the OAuth 2.1
 * draft): after a token request has been validated it issues an access token,
 * an ID token when the `openid` scope was granted, and a refresh token when
 * `offline_access` was granted, and assembles the successful response.  Any
 * failing issuance ends generation with that failure's description; no partial
 * response is produced.
 */
module TokenResponseGeneration {
  import opened Wrappers
  import opened Text
  import opened Clients
  import opened Resources
  import opened TokenModels

  /** `ValidTokenRequest`: the validated request of any of the three grants. */
  datatype ValidTokenRequest = ValidTokenRequest(
    grantType: string,
    client: Client,
    allowedResources: ValidResources,
    authorizationCode: Option<ValidAuthorizationCode>,
    refreshToken: Option<ValidRefreshToken>,
    resourceOwnerProfile: Option<ResourceOwnerProfile>,
    issuer: string)

  /** An issued access token: its handle, lifetime and the instant it was actually issued at. */
  datatype AccessToken = AccessToken(handle: string, lifetimeInSeconds: int, actualIssuedAt: int)

  /** The arguments of `IAccessTokenService.CreateAccessTokenAsync`. */
  datatype AccessTokenRequest = AccessTokenRequest(
    client: Client,
    issuer: string,
    grantType: string,
    resourceOwnerProfile: Option<ResourceOwnerProfile>,
    grantedResources: ValidResources,
    issuedAt: int)

  /** The arguments of `IIdTokenService.CreateIdTokenAsync`. */
  datatype IdTokenRequest = IdTokenRequest(
    client: Client,
    issuer: string,
    authorizationCodeHandle: Option<string>,
    accessTokenHandle: Option<string>,
    nonce: Option<string>,
    resourceOwnerProfile: ResourceOwnerProfile,
    includeProfileClaims: bool,
    grantedResources: ValidResources,
    issuedAt: int)

  /** The arguments of `IRefreshTokenService.CreateAsync`: the refresh token being replaced, if any. */
  datatype RefreshTokenRequest = RefreshTokenRequest(
    issuer: string,
    previousRefreshToken: Option<ValidRefreshToken>,
    accessToken: AccessToken)

  /** The issuance services; each yields what it issued or an error description. */
  datatype IssuanceServices = IssuanceServices(
    accessTokens: AccessTokenRequest -> Result<AccessToken, string>,
    idTokens: IdTokenRequest -> Result<string, string>,
    refreshTokens: RefreshTokenRequest -> Result<string, string>)

  /** `SuccessfulTokenResponse`: absent members are left out of the JSON body. */
  datatype SuccessfulTokenResponse = SuccessfulTokenResponse(
    accessToken: string,
    tokenType: string,
    refreshToken: Option<string>,
    expiresIn: int,
    idToken: Option<string>,
    scope: Option<string>,
    issuer: string)

  /** `TokenResponseGenerationResult`: a response, or an error description. */
  type TokenResponseGenerationResult = Result<SuccessfulTokenResponse, string>

  const Bearer := "Bearer"
  const InvalidRequestState := "Invalid request state"
  const UnsupportedGrantTypeDescription := "Unsupported grant type"

  /** The `scope` member: the granted scopes joined with spaces, when any scope was granted. */
  function ResultScope(grantedResources: ValidResources): (scope: Option<string>)
    ensures scope.Some? <==> grantedResources.hasAnyScope
  {
    if grantedResources.hasAnyScope then Some(Join(grantedResources.rawScopes, ' ')) else None
  }

  /** The response members every grant fills in the same way from the access token and the resources. */
  predicate CommonMembers(response: SuccessfulTokenResponse, accessToken: AccessToken,
                          grantedResources: ValidResources, issuer: string)
  {
    && response.accessToken == accessToken.handle
    && response.tokenType == Bearer
    && response.expiresIn == accessToken.lifetimeInSeconds
    && response.scope == ResultScope(grantedResources)
    && response.issuer == issuer
  }

  /** The ID token request made at the token endpoint: bound to the access token, with no code and no nonce. */
  function IdTokenFor(client: Client, issuer: string, accessToken: AccessToken, profile: ResourceOwnerProfile,
                      grantedResources: ValidResources): IdTokenRequest
  {
    IdTokenRequest(client, issuer, None, Some(accessToken.handle), None, profile,
                   client.includeUserClaimsInIdTokenTokenResponse, grantedResources, accessToken.actualIssuedAt)
  }

  /**
   * The ID-token and refresh-token steps shared by the two grants with a
   * resource owner: an ID token iff `openid` was granted (which needs the
   * profile), a refresh token iff `offline_access` was granted, the first
   * failure ending generation.
   */
  function IssueRemaining(client: Client, grantedResources: ValidResources, accessToken: AccessToken,
                          profile: Option<ResourceOwnerProfile>, previous: Option<ValidRefreshToken>, issuer: string,
                          services: IssuanceServices): (r: TokenResponseGenerationResult)
    ensures grantedResources.hasOpenId && profile.None? ==> r == Err(InvalidRequestState)
    ensures grantedResources.hasOpenId && profile.Some?
            && services.idTokens(IdTokenFor(client, issuer, accessToken, profile.value, grantedResources)).Err? ==>
      r == Err(services.idTokens(IdTokenFor(client, issuer, accessToken, profile.value, grantedResources)).error)
    // Generation succeeds exactly when every token that is due is issued.
    ensures r.Ok? <==>
      && (grantedResources.hasOpenId ==>
            profile.Some? && services.idTokens(IdTokenFor(client, issuer, accessToken, profile.value, grantedResources)).Ok?)
      && (grantedResources.hasOfflineAccess ==> services.refreshTokens(RefreshTokenRequest(issuer, previous, accessToken)).Ok?)
    ensures r.Ok? ==>
      && CommonMembers(r.value, accessToken, grantedResources, issuer)
      && (r.value.idToken.Some? <==> grantedResources.hasOpenId)
      && (r.value.idToken.Some? ==>
            profile.Some? && services.idTokens(IdTokenFor(client, issuer, accessToken, profile.value, grantedResources)) == Ok(r.value.idToken.value))
      && (r.value.refreshToken.Some? <==> grantedResources.hasOfflineAccess)
      && (r.value.refreshToken.Some? ==>
            services.refreshTokens(RefreshTokenRequest(issuer, previous, accessToken)) == Ok(r.value.refreshToken.value))
  {
    var idTokenResult: Result<Option<string>, string> :=
      if grantedResources.hasOpenId then
        if profile.None? then Err(InvalidRequestState)
        else
          var issued := services.idTokens(IdTokenFor(client, issuer, accessToken, profile.value, grantedResources));
          if issued.HasError() then Err(issued.error) else Ok(Some(issued.value))
      else Ok(None);
    if idTokenResult.Err? then Err(idTokenResult.error)
    else
      var refreshTokenResult: Result<Option<string>, string> :=
        if grantedResources.hasOfflineAccess then
          var issued := services.refreshTokens(RefreshTokenRequest(issuer, previous, accessToken));
          if issued.HasError() then Err(issued.error) else Ok(Some(issued.value))
        else Ok(None);
      if refreshTokenResult.Err? then Err(refreshTokenResult.error)
      else Ok(SuccessfulTokenResponse(accessToken.handle, Bearer, refreshTokenResult.value, accessToken.lifetimeInSeconds,
                                      idTokenResult.value, ResultScope(grantedResources), issuer))
  }

  /**
   * `CreateAuthorizationCodeResponseAsync`: an access token for the granted
   * resources, then an ID token iff `openid` was granted and a refresh token
   * iff `offline_access` was granted; no prior refresh token is passed on.
   */
  function CreateAuthorizationCodeResponse(client: Client, grantedResources: ValidResources, profile: ResourceOwnerProfile,
                                           issuer: string, services: IssuanceServices, now: int)
    : (r: TokenResponseGenerationResult)
    ensures
      var issued := services.accessTokens(AccessTokenRequest(client, issuer, AuthorizationCode, Some(profile), grantedResources, now));
      && (issued.Err? ==> r == Err(issued.error))
      && (issued.Ok? ==>
            var idToken := services.idTokens(IdTokenFor(client, issuer, issued.value, profile, grantedResources));
            var refreshToken := services.refreshTokens(RefreshTokenRequest(issuer, None, issued.value));
            && (grantedResources.hasOpenId && idToken.Err? ==> r == Err(idToken.error))
            && ((!grantedResources.hasOpenId || idToken.Ok?) && grantedResources.hasOfflineAccess && refreshToken.Err? ==>
                  r == Err(refreshToken.error))
            && (r.Ok? <==> (grantedResources.hasOpenId ==> idToken.Ok?) && (grantedResources.hasOfflineAccess ==> refreshToken.Ok?))
            && (r.Ok? ==>
                  && CommonMembers(r.value, issued.value, grantedResources, issuer)
                  && r.value.idToken == (if grantedResources.hasOpenId then Some(idToken.value) else None)
                  && r.value.refreshToken == (if grantedResources.hasOfflineAccess then Some(refreshToken.value) else None)))
  {
    var accessTokenResult := services.accessTokens(AccessTokenRequest(client, issuer, AuthorizationCode, Some(profile), grantedResources, now));
    if accessTokenResult.HasError() then Err(accessTokenResult.error)
    else IssueRemaining(client, grantedResources, accessTokenResult.value, Some(profile), None, issuer, services)
  }

  /** `CreateClientCredentialsResponseAsync`: there is no resource owner, so only an access token is issued. */
  function CreateClientCredentialsResponse(client: Client, grantedResources: ValidResources,
                                           issuer: string, services: IssuanceServices, now: int)
    : (r: TokenResponseGenerationResult)
    ensures
      var issued := services.accessTokens(AccessTokenRequest(client, issuer, ClientCredentials, None, grantedResources, now));
      && (issued.Err? ==> r == Err(issued.error))
      && (issued.Ok? ==> r.Ok? && CommonMembers(r.value, issued.value, grantedResources, issuer))
    // Never a refresh token or an ID token, whatever scopes were granted.
    ensures r.Ok? ==> r.value.refreshToken.None? && r.value.idToken.None?
  {
    var accessTokenResult := services.accessTokens(AccessTokenRequest(client, issuer, ClientCredentials, None, grantedResources, now));
    if accessTokenResult.HasError() then Err(accessTokenResult.error)
    else
      var accessToken := accessTokenResult.value;
      Ok(SuccessfulTokenResponse(accessToken.handle, Bearer, None, accessToken.lifetimeInSeconds,
                                 None, ResultScope(grantedResources), issuer))
  }

  /**
   * `CreateRefreshTokenResponseAsync`: the profile may be missing, which is
   * an invalid state only once an ID token is due; the refresh token being
   * used is passed on to be replaced.
   */
  function CreateRefreshTokenResponse(client: Client, grantedResources: ValidResources, refreshToken: ValidRefreshToken,
                                      profile: Option<ResourceOwnerProfile>, issuer: string,
                                      services: IssuanceServices, now: int)
    : (r: TokenResponseGenerationResult)
    ensures
      var issued := services.accessTokens(AccessTokenRequest(client, issuer, RefreshToken, profile, grantedResources, now));
      && (issued.Err? ==> r == Err(issued.error))
      && (issued.Ok? ==>
            var replacement := services.refreshTokens(RefreshTokenRequest(issuer, Some(refreshToken), issued.value));
            // No ID token is due, or one was issued for the profile.
            var idTokenIssued := !grantedResources.hasOpenId ||
              (profile.Some? && services.idTokens(IdTokenFor(client, issuer, issued.value, profile.value, grantedResources)).Ok?);
            && (grantedResources.hasOpenId && profile.None? ==> r == Err(InvalidRequestState))
            && (grantedResources.hasOpenId && profile.Some? ==>
                  var idToken := services.idTokens(IdTokenFor(client, issuer, issued.value, profile.value, grantedResources));
                  && (idToken.Err? ==> r == Err(idToken.error))
                  && (r.Ok? ==> r.value.idToken == Some(idToken.value)))
            && (!grantedResources.hasOpenId ==> r.Ok? ==> r.value.idToken.None?)
            && (idTokenIssued && grantedResources.hasOfflineAccess && replacement.Err? ==> r == Err(replacement.error))
            && (r.Ok? <==> idTokenIssued && (grantedResources.hasOfflineAccess ==> replacement.Ok?))
            && (r.Ok? ==>
                  && CommonMembers(r.value, issued.value, grantedResources, issuer)
                  && r.value.refreshToken == (if grantedResources.hasOfflineAccess then Some(replacement.value) else None)))
  {
    var accessTokenResult := services.accessTokens(AccessTokenRequest(client, issuer, RefreshToken, profile, grantedResources, now));
    if accessTokenResult.HasError() then Err(accessTokenResult.error)
    else IssueRemaining(client, grantedResources, accessTokenResult.value, profile, Some(refreshToken), issuer, services)
  }

  /** `CreateResponseAsync`: dispatch on the grant type. */
  function CreateResponse(request: ValidTokenRequest, services: IssuanceServices, now: int): (r: TokenResponseGenerationResult)
    ensures request.grantType == AuthorizationCode ==>
      (if request.authorizationCode.None? || request.resourceOwnerProfile.None? then r == Err(InvalidRequestState)
       else r == CreateAuthorizationCodeResponse(request.client, request.allowedResources, request.resourceOwnerProfile.value,
                                                 request.issuer, services, now))
    ensures request.grantType == ClientCredentials ==>
      r == CreateClientCredentialsResponse(request.client, request.allowedResources, request.issuer, services, now)
    ensures request.grantType == RefreshToken ==>
      (if request.refreshToken.None? then r == Err(InvalidRequestState)
       else r == CreateRefreshTokenResponse(request.client, request.allowedResources, request.refreshToken.value,
                                            request.resourceOwnerProfile, request.issuer, services, now))
    ensures request.grantType !in {AuthorizationCode, ClientCredentials, RefreshToken} ==> r == Err(UnsupportedGrantTypeDescription)
    // Every response is a Bearer token for the request's issuer, with the granted scopes.
    ensures r.Ok? ==> r.value.tokenType == Bearer && r.value.issuer == request.issuer
                      && r.value.scope == ResultScope(request.allowedResources)
  {
    if request.grantType == AuthorizationCode then
      if request.authorizationCode.None? || request.resourceOwnerProfile.None? then Err(InvalidRequestState)
      else CreateAuthorizationCodeResponse(request.client, request.allowedResources, request.resourceOwnerProfile.value,
                                           request.issuer, services, now)
    else if request.grantType == ClientCredentials then
      CreateClientCredentialsResponse(request.client, request.allowedResources, request.issuer, services, now)
    else if request.grantType == RefreshToken then
      if request.refreshToken.None? then Err(InvalidRequestState)
      else CreateRefreshTokenResponse(request.client, request.allowedResources, request.refreshToken.value,
                                      request.resourceOwnerProfile, request.issuer, services, now)
    else Err(UnsupportedGrantTypeDescription)
  }

  /**
   * The `scope` member lists the granted scopes in order: splitting it on
   * spaces gives them back, as long as no scope contains a space.
   */
  lemma ScopeMemberRoundTrip(grantedResources: ValidResources)
    requires grantedResources.hasAnyScope && |grantedResources.rawScopes| >= 1
    requires forall i | 0 <= i < |grantedResources.rawScopes| :: ' ' !in grantedResources.rawScopes[i]
    ensures Split(ResultScope(grantedResources).value, ' ') == grantedResources.rawScopes
  {
    SplitJoin(grantedResources.rawScopes, ' ');
  }

  /** A client-credentials response never carries a refresh token or an ID token, even for `openid offline_access`. */
  lemma ClientCredentialsIssuesAccessTokenOnly(request: ValidTokenRequest, services: IssuanceServices, now: int)
    requires request.grantType == ClientCredentials
    requires request.allowedResources.hasOpenId && request.allowedResources.hasOfflineAccess
    ensures CreateResponse(request, services, now).Ok? ==>
      CreateResponse(request, services, now).value.refreshToken.None? && CreateResponse(request, services, now).value.idToken.None?
  {
  }

  /**
   * A refresh-token request that was granted `openid` but carries no
   * profile is an invalid state, reported only after the access token was issued.
   */
  lemma RefreshWithoutProfileForOpenId(request: ValidTokenRequest, services: IssuanceServices, now: int)
    requires request.grantType == RefreshToken && request.refreshToken.Some?
    requires request.allowedResources.hasOpenId && request.resourceOwnerProfile.None?
    ensures
      var issued := services.accessTokens(AccessTokenRequest(request.client, request.issuer, RefreshToken, None,
                                                             request.allowedResources, now));
      CreateResponse(request, services, now) == if issued.Err? then Err(issued.error) else Err(InvalidRequestState)
  {
  }

  /**
   * For both grants with a resource owner, a response carries an ID token
   * exactly when `openid` was granted and a refresh token exactly when
   * `offline_access` was granted.
   */
  lemma OwnerGrantTokens(request: ValidTokenRequest, services: IssuanceServices, now: int)
    requires request.grantType in {AuthorizationCode, RefreshToken}
    requires CreateResponse(request, services, now).Ok?
    ensures
      var response := CreateResponse(request, services, now).value;
      && (response.idToken.Some? <==> request.allowedResources.hasOpenId)
      && (response.refreshToken.Some? <==> request.allowedResources.hasOfflineAccess)
  {
  }
}
