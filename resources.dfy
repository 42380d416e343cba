/**
 * The outcome of resolving requested scopes against the configured scopes
 * and resources (`IResourceService.ValidateRequestedScopesAsync`), which the
 * scope validator and the token endpoint consume.  The resolution itself is a
 * collaborator: it is a parameter of the operations that call it.
 */
module Resources {
  import opened Wrappers
  import opened Clients

  /** The token types a resolved scope must be usable in. */
  datatype TokenTypeFilter = AccessTokenFilter | IdTokenAccessTokenFilter

  /** The resolved scopes and resources, and the flags the token endpoint reads. */
  datatype ValidResources = ValidResources(
    rawScopes: seq<string>,
    hasOpenId: bool,
    hasOfflineAccess: bool,
    hasAnyScope: bool)

  /** Why a resolution failed: a configuration problem, or scopes the client may not have. */
  datatype ResourcesValidationError = ResourcesValidationError(hasConfigurationError: bool)

  /** `ValidateRequestedScopesAsync(client, requestedScopes, tokenTypeFilter)`. */
  type ScopeResolver = (Client, set<string>, TokenTypeFilter) -> Result<ValidResources, ResourcesValidationError>
}
