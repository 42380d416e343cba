/**
 * The registered client as the validators see it, and the grant-type and
 * response-type identifiers.  A client's sets are plain sets: the authorize
 * endpoint treats a missing (null) set like an empty one, so the model does
 * not distinguish them.
 */
module Clients {
  import opened Wrappers
  import opened Text
  import opened VsChar

  datatype Client = Client(
    clientId: string,
    clientSecretExpiresAt: int,
    grantTypes: set<string>,
    responseTypes: set<string>,
    redirectUris: set<string>,
    scopes: set<string>,
    includeUserClaimsInIdTokenTokenResponse: bool)

  // Grant types.
  const AuthorizationCode := "authorization_code"
  const ClientCredentials := "client_credentials"
  const RefreshToken := "refresh_token"
  const Implicit := "implicit"

  const GrantTypeValues: set<string> := {AuthorizationCode, Implicit, ClientCredentials, RefreshToken}

  // Response types.
  const Code := "code"
  const IdToken := "id_token"

  const ResponseTypeValues: set<string> := {Code, IdToken}

  /**
   * What the client accessors document about the values they return: a
   * non-empty identifier of characters in %x20-7E, and a secret expiry
   * that is not negative.
   */
  predicate WellFormed(c: Client)
  {
    c.clientId != "" && IsVsChar(c.clientId) && c.clientSecretExpiresAt >= 0
  }

  /** A well-formed identifier is ASCII, so its UTF-16 length is its character count, and it is not empty. */
  lemma WellFormedIdCodeUnits(c: Client)
    requires WellFormed(c)
    ensures Utf16Length(c.clientId) == |c.clientId| > 0
  {
    Utf16LengthCounts(c.clientId);
  }

  /**
   * `GetClientSecretExpiresAt`: seconds since the Unix epoch at which the
   * secret expires, with 0 meaning that it never expires.
   */
  function SecretExpiry(c: Client): (expiry: Option<int>)
    requires WellFormed(c)
    ensures expiry.None? <==> c.clientSecretExpiresAt == 0
    ensures expiry.Some? ==> expiry.value > 0 && expiry.value == c.clientSecretExpiresAt
  {
    if c.clientSecretExpiresAt == 0 then None else Some(c.clientSecretExpiresAt)
  }
}
