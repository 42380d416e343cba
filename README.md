# OpenIdentityFramework request validation, in Dafny

This project models the request-validation core of OpenIdentityFramework, an
OAuth 2.1 (draft-ietf-oauth-v2-1-11) and OpenID Connect Core 1.0
authorization server written in C#, and proves properties of the model. The
model covers these parts:

- **VSCHAR syntax** (`VsChar`, `SyntaxValidators`). The left-to-right
  character scan is a method proved against a predicate. Its aliases for
  `client_id`, `state` and `code` are one-line predicates.
- **Value types.** `Result` and its single-type form, `ProtocolError` (its
  error code is never blank), the client record, the authorization
  request's required parameters, and the authorize validation error with its
  two constructors (`Wrappers`, `ProtocolErrors`, `Clients`, `AuthorizeModels`).
- **The shared single-value rule** (`RequestParameters.ReadSingle`). A
  parameter that is absent, has no values or has the empty value is
  omitted. Sending it more than once is an error, and so is a value over
  its limit.
- **The authorize-endpoint parameter validators.** These are `client_id`,
  `response_type`, `response_mode`, `state`, `redirect_uri`, `scope` and
  the OpenID Connect `nonce`. Each is a function of the request parameters
  (`map<string, seq<string>>`), the client and the length limits, and it
  returns the validator's result type. The loops in the source are methods
  proved against reference functions: the response-type filter, the
  loopback redirect-URI search and the scope-entry check.
- **Compositions.** The required-parameters step runs `client_id`,
  `response_type`, `response_mode` and `state` in order, and the first error
  wins, and an exception of a step escapes. The authorize request validator wraps that error so that it is shown
  rather than redirected. Both success paths end in
  `NotImplementedException`, which the model states as an explicit outcome.
- **The token endpoint's `authorization_code` and `refresh_token` grant
  validators.** They are ordered short-circuit chains over their
  collaborators.
- **The token response generator.** It dispatches on the grant type. It
  issues an ID token only when `openid` was granted and a refresh token
  only when `offline_access` was granted, and the first failure aborts it.
- **The response-header helpers.** `HttpResponse` is a class whose header
  map the methods update in place. Each method is specified by a function of
  the old headers.

Collaborators the source calls through interfaces are parameters of
arrow type. These are the client store, the URI parser, the scope syntax
validator, the resource resolver, the code, code-verifier, refresh-token
and scope validators of the token endpoint, the consent and profile
services, and the token issuance services. The clock is a parameter (`now`).

Two places in the source disagree with what its comments and the protocol
intend; they are listed under "Findings". In each case the model keeps the
code as written and a corrected version, and the operations built on them
take either: `RequiredParametersValidation.DefaultValidators` is the
required-parameters step as built, with the throwing `state` validator, and
`CorrectedValidators` the same step with the corrected one;
`ScopeValidation.ValidateScopeParameter` takes the entry check to run,
`AsWritten` or `Corrected`. The nonce validator does no VSCHAR check of the nonce:
the model follows the code, and `NonceValidation.LineFeedNonceAccepted`
states the consequence. The response-type validator narrows a
`code id_token` request from a client limited to `code` to `{code}`
without an error: the model follows the code
(`ResponseTypeValidation.HybridRequestNarrowedToCode`).

## Model

| member | source | states |
|---|---|---|
| VsChar.FirstInvalid | src/OpenIdentityFramework/Services/SyntaxValidation/Protocol/VsCharSyntaxValidator.cs:13-21 | the index of the first character outside %x20-7E, or the length; the prefix before it is VSCHAR |
| VsChar.IsValid | src/OpenIdentityFramework/Services/SyntaxValidation/Protocol/VsCharSyntaxValidator.cs:13-21 | the scan accepts exactly the VSCHAR values and, on a rejection, has looked at the characters up to and including the first offending one and no further |
| VsChar.FirstInvalidIsFirst | src/OpenIdentityFramework/Services/SyntaxValidation/Protocol/VsCharSyntaxValidator.cs:15-18 | the scan's stopping point is the first character outside the range |
| VsChar.ConcatValid | src/OpenIdentityFramework/Services/SyntaxValidation/Protocol/VsCharSyntaxValidator.cs:13-21 | a concatenation is VSCHAR iff both halves are |
| VsChar.PrefixValid | src/OpenIdentityFramework/Services/SyntaxValidation/Protocol/VsCharSyntaxValidator.cs:13-21 | every prefix of a VSCHAR value is VSCHAR |
| VsChar.RangeBoundaries | src/OpenIdentityFramework/Services/SyntaxValidation/Protocol/VsCharSyntaxValidator.cs:7-8 | the empty value, space and `~` are accepted; %x1F, DEL, tab, CR, LF and a non-ASCII letter are rejected |
| VsChar.NonAsciiRejected | src/OpenIdentityFramework/Services/SyntaxValidation/Protocol/VsCharSyntaxValidator.cs:15 | a character above %x7E makes the value invalid |
| SyntaxValidators.ClientIdRejectsControlAndNonAscii | src/OpenIdentityFramework/Services/SyntaxValidation/ClientIdSyntaxValidator.cs:11 | a `client_id` holding a tab, CR, LF or a character above %x7E fails the syntax check |
| SyntaxValidators.StateAcceptsSpaces | src/OpenIdentityFramework/Services/SyntaxValidation/StateSyntaxValidator.cs:11 | two valid states joined by a space form a valid state |
| SyntaxValidators.StatePrefixClosed | src/OpenIdentityFramework/Services/SyntaxValidation/StateSyntaxValidator.cs:11 | every prefix of a valid state is valid |
| SyntaxValidators.CodeClosedUnderConcatenation | src/libs/OpenIdentityFramework/Services/Static/SyntaxValidation/CodeSyntaxValidator.cs:11 | the empty code is valid and two valid codes concatenated are valid |
| SyntaxValidators.CodeRejectsControlAndDelete | src/libs/OpenIdentityFramework/Services/Static/SyntaxValidation/CodeSyntaxValidator.cs:11 | a code holding a character below %x20 or DEL is rejected |
| Wrappers.ResultSidesExclusive | src/OpenIdentityFramework/Models/Result.cs:6-27 | exactly one of `Ok` and `Error` is populated, and `HasError` says which |
| Wrappers.PartialSides | src/OpenIdentityFramework/Models/Result.cs:29-45 | the single-type result built without a value is the failed one and carries nothing; a success carries its value |
| ProtocolErrors.NewProtocolError | src/OpenIdentityFramework/Models/ProtocolError.cs:7-16 | construction needs an error code that is not null or white space and stores code and description unchanged |
| Text.BlankMeansAllWhiteSpace | src/OpenIdentityFramework/Models/ProtocolError.cs:9 | `IsNullOrWhiteSpace` holds iff every character is white space |
| Text.NonBlankWitness | src/OpenIdentityFramework/Models/ProtocolError.cs:9 | one character that is not white space makes a string acceptable to the guard |
| Clients.WellFormedIdCodeUnits | src/OpenIdentityFramework/Models/Configuration/AbstractClient.cs:22-23 | a documented client identifier (non-empty, every character in %x20-7E) is not empty and its UTF-16 length is its character count |
| Clients.SecretExpiry | src/OpenIdentityFramework/Models/Configuration/AbstractClient.cs:25-29 | for a client as documented, an expiry of 0 means the secret never expires; any other value is the positive expiry instant |
| AuthorizeModels.NewRequiredParameters | src/OpenIdentityFramework/Services/Endpoints/Authorize/Models/Validation/AuthorizeRequestRequiredParameters.cs:11-30 | construction needs a response mode and a redirect URI that are not blank; every field equals its argument; `state` may be absent |
| AuthorizeModels.RedirectUnsafeError | src/OpenIdentityFramework/Services/Endpoints/Authorize/Models/AuthorizeRequestValidator/AuthorizeRequestValidationError.cs:11-15 | the one-argument error keeps the protocol error and carries no required parameters, so it may not be redirected |
| AuthorizeModels.RedirectSafeError | src/OpenIdentityFramework/Services/Endpoints/Authorize/Models/AuthorizeRequestValidator/AuthorizeRequestValidationError.cs:17-25 | the two-argument error keeps the protocol error and the required parameters, so it may be redirected |
| AuthorizeModels.ErrorConstructors | src/OpenIdentityFramework/Services/Endpoints/Authorize/Models/AuthorizeRequestValidator/AuthorizeRequestValidationError.cs:11-29 | every validation error comes from exactly one of the two constructors, and the presence of required parameters says which |
| RequestParameters.Situations | src/OpenIdentityFramework/Services/Endpoints/Authorize/Implementation/Validation/DefaultAuthorizeRequestParameterClientIdValidator.cs:49-66 | every parameter is omitted, repeated or sent once with a value, and the three cases do not overlap |
| RequestParameters.ReadSingle | src/OpenIdentityFramework/Services/Endpoints/Authorize/Implementation/Validation/DefaultAuthorizeRequestParameterClientIdValidator.cs:49-72 | "missing" iff omitted (absent, no values or the empty value), "multiple" iff sent more than once, "too long" iff the single value's UTF-16 length exceeds the limit; otherwise the value sent |
| RequestParameters.ReadSingleCountsCodeUnits | src/OpenIdentityFramework/Services/Endpoints/Authorize/Implementation/Validation/DefaultAuthorizeRequestParameterClientIdValidator.cs:70 | the limit counts UTF-16 code units: the character count for a value without supplementary characters, twice that for one made only of them |
| RequestParameters.ReadSingleIsLocal | src/OpenIdentityFramework/Services/Endpoints/Authorize/Implementation/Validation/DefaultAuthorizeRequestParameterClientIdValidator.cs:49-72 | the read depends only on the parameter's own entry |
| Text.NonEmptyValues | src/libs/OpenIdentityFramework/Services/Endpoints/Authorize/Implementations/Validation/DefaultAuthorizeRequestParameterScopeValidator.cs:60 | exactly the values that are not empty, as `StringValues.ToString()` keeps when it joins several values |
| Text.SeveralValuesEmptyIffAllEmpty | src/libs/OpenIdentityFramework/Services/Endpoints/Authorize/Implementations/Validation/DefaultAuthorizeRequestParameterScopeValidator.cs:60-62 | two or more values read as the empty string exactly when every one of them is empty, because the join skips empty values |
| Text.SingleValueUnchanged | src/libs/OpenIdentityFramework/Services/Endpoints/Authorize/Implementations/Validation/DefaultAuthorizeRequestParameterScopeValidator.cs:60-62 | a single value reads as itself |
| Text.Split | src/libs/OpenIdentityFramework/Services/Endpoints/Authorize/Implementations/Validation/DefaultAuthorizeRequestParameterScopeValidator.cs:105-106 | splitting yields at least one piece and no piece holds the separator |
| Text.JoinSplit | src/libs/OpenIdentityFramework/Services/Endpoints/Authorize/Implementations/Validation/DefaultAuthorizeRequestParameterScopeValidator.cs:105-106 | joining the pieces of a split restores the string |
| Text.SplitJoin | src/libs/OpenIdentityFramework/Services/Endpoints/Token/Implementations/DefaultTokenResponseGenerator.cs:175 | splitting a join restores parts that hold no separator |
| Text.Utf16LengthCounts | src/libs/OpenIdentityFramework/Services/Endpoints/Authorize/Implementations/Validation/OpenIdConnect/DefaultAuthorizeRequestOidcParameterNonceValidator.cs:67 | `string.Length` counts UTF-16 code units: it equals the character count iff no character is supplementary, and twice it iff every character is |
| Text.Utf16LengthConcat | src/libs/OpenIdentityFramework/Services/Endpoints/Authorize/Implementations/Validation/OpenIdConnect/DefaultAuthorizeRequestOidcParameterNonceValidator.cs:67 | UTF-16 lengths add up over a concatenation |
| Text.IndexOf | src/libs/OpenIdentityFramework/Services/Endpoints/Authorize/Implementations/Validation/DefaultAuthorizeRequestParameterScopeValidator.cs:105-106 | the first occurrence of the separator |
| ClientIdValidation.ValidateClientId | src/OpenIdentityFramework/Services/Endpoints/Authorize/Implementation/Validation/DefaultAuthorizeRequestParameterClientIdValidator.cs:49-88 | missing, multiple, too long (before syntax), invalid syntax, unknown client, in that order; a success is exactly the store's client for a present, short enough, VSCHAR identifier (every limit counts UTF-16 code units, as `string.Length` does) |
| ClientIdValidation.WellFormedClientFoundByItsId | src/OpenIdentityFramework/Services/Endpoints/Authorize/Implementation/Validation/DefaultAuthorizeRequestParameterClientIdValidator.cs:49-88 | a well-formed client the store holds is accepted when its own identifier is sent once within the limit |
| ClientIdValidation.StoreOnlyConsultedForWellFormedIds | src/OpenIdentityFramework/Services/Endpoints/Authorize/Implementation/Validation/DefaultAuthorizeRequestParameterClientIdValidator.cs:82-86 | the store is asked only after every syntactic check passed |
| ResponseTypeValidation.ClientGrantTypes | src/OpenIdentityFramework/Services/Endpoints/Authorize/Implementation/Validation/DefaultAuthorizeRequestParameterResponseTypeValidator.cs:172-182 | declared grant types, or `authorization_code` alone when none are declared |
| ResponseTypeValidation.ClientResponseTypes | src/OpenIdentityFramework/Services/Endpoints/Authorize/Implementation/Validation/DefaultAuthorizeRequestParameterResponseTypeValidator.cs:198-208 | declared response types, or `code` alone when none are declared |
| ResponseTypeValidation.Kept | src/OpenIdentityFramework/Services/Endpoints/Authorize/Implementation/Validation/DefaultAuthorizeRequestParameterResponseTypeValidator.cs:133-153 | only `code` and `id_token` can survive |
| ResponseTypeValidation.GetSupportedResponseTypes | src/OpenIdentityFramework/Services/Endpoints/Authorize/Implementation/Validation/DefaultAuthorizeRequestParameterResponseTypeValidator.cs:111-156 | the loop fails iff some token is repeated; otherwise it returns exactly the requested tokens the client may obtain |
| ResponseTypeValidation.ValidateResponseType | src/OpenIdentityFramework/Services/Endpoints/Authorize/Implementation/Validation/DefaultAuthorizeRequestParameterResponseTypeValidator.cs:48-108 | missing, multiple, too long, repeated token, nothing supported, in that order; a success is a non-empty subset of `{code, id_token}` (every limit counts UTF-16 code units, as `string.Length` does) |
| ResponseTypeValidation.CodeSurvival | src/OpenIdentityFramework/Services/Endpoints/Authorize/Implementation/Validation/DefaultAuthorizeRequestParameterResponseTypeValidator.cs:135-152 | `code` survives iff requested with the `code` response type and the `authorization_code` grant; `id_token` iff requested with the `id_token` response type and the `implicit` grant |
| ResponseTypeValidation.UndeclaredClientGetsCode | src/OpenIdentityFramework/Services/Endpoints/Authorize/Implementation/Validation/DefaultAuthorizeRequestParameterResponseTypeValidator.cs:174-206 | a client that declares nothing can obtain `code` and nothing else |
| ResponseTypeValidation.HybridValueTokens | src/OpenIdentityFramework/Services/Endpoints/Authorize/Implementation/Validation/DefaultAuthorizeRequestParameterResponseTypeValidator.cs:82 | `code id_token` splits into its two tokens |
| ResponseTypeValidation.NarrowedToCode | src/OpenIdentityFramework/Services/Endpoints/Authorize/Implementation/Validation/DefaultAuthorizeRequestParameterResponseTypeValidator.cs:133-153 | a request for both tokens from a client limited to `code` yields `{code}` without an error |
| ResponseTypeValidation.HybridRequestNarrowedToCode | src/OpenIdentityFramework/Services/Endpoints/Authorize/Implementation/Validation/DefaultAuthorizeRequestParameterResponseTypeValidator.cs:48-108 | the concrete request `response_type=code id_token` from such a client is accepted as `{code}` |
| ResponseModeValidation.InferDefaultResponseMode | src/OpenIdentityFramework/Services/Endpoints/Authorize/Implementation/Validation/DefaultAuthorizeRequestParameterResponseModeValidator.cs:100-131 | `fragment` iff the response types are exactly `{id_token}` or exactly `{code, id_token}`, `query` otherwise |
| ResponseModeValidation.DefaultModes | src/OpenIdentityFramework/Services/Endpoints/Authorize/Implementation/Validation/DefaultAuthorizeRequestParameterResponseModeValidator.cs:100-131 | `{code}` defaults to `query`; `{id_token}` and `{code, id_token}` default to `fragment` |
| ResponseModeValidation.SmallSetIsExactly | src/OpenIdentityFramework/Services/Endpoints/Authorize/Implementation/Validation/DefaultAuthorizeRequestParameterResponseModeValidator.cs:100-118 | a set of one or two elements that holds them holds nothing else |
| ResponseModeValidation.SubsetCardinality | src/OpenIdentityFramework/Services/Endpoints/Authorize/Implementation/Validation/DefaultAuthorizeRequestParameterResponseModeValidator.cs:100-118 | a subset is no larger than its superset |
| ResponseModeValidation.ValidateResponseMode | src/OpenIdentityFramework/Services/Endpoints/Authorize/Implementation/Validation/DefaultAuthorizeRequestParameterResponseModeValidator.cs:46-87 | omitted gives the default; multiple and too long are errors; a given mode is accepted unchanged iff it is `query`, `fragment` or `form_post`; every success is one of the three (every limit counts UTF-16 code units, as `string.Length` does) |
| StateValidation.ValidateStateAsWritten | src/OpenIdentityFramework/Services/Endpoints/Authorize/Implementation/Validation/DefaultAuthorizeRequestParameterStateValidator.cs:46-77 | the code as written: the constructor throws exactly for an omitted state, and every other request gets the corrected validator's result |
| StateValidation.OmittedStateThrows | src/OpenIdentityFramework/Services/Endpoints/Authorize/Implementation/Validation/DefaultAuthorizeRequestParameterStateValidator.cs:46-49 | a request without `state` reaches the throwing constructor |
| StateValidation.ValidateState | src/OpenIdentityFramework/Services/Endpoints/Authorize/Implementation/Validation/DefaultAuthorizeRequestParameterStateValidator.cs:46-77 | omitted gives no state; multiple, too long (before syntax) and invalid syntax are errors; a returned state is the value sent, within the limit and VSCHAR (every limit counts UTF-16 code units, as `string.Length` does) |
| RedirectUriValidation.RedirectUriSyntax | src/OpenIdentityFramework/Services/Endpoints/Authorize/Implementation/Validation/DefaultAuthorizeRequestParameterRedirectUriValidator.cs:110-113 | a URI is accepted iff the parser accepts it as absolute and well formed as written, without a fragment |
| RedirectUriValidation.FindLoopbackMatch | src/OpenIdentityFramework/Services/Endpoints/Authorize/Implementation/Validation/DefaultAuthorizeRequestParameterRedirectUriValidator.cs:124-137 | the loop finds a match iff some registered URI is a valid loopback URI with the same scheme, host and path-and-query |
| RedirectUriValidation.ValidateRedirectUri | src/OpenIdentityFramework/Services/Endpoints/Authorize/Implementation/Validation/DefaultAuthorizeRequestParameterRedirectUriValidator.cs:82-153 | missing, multiple, too long, invalid syntax; then loopback matching on any port, plain `http` rejected, exact match otherwise; a success is the value sent and registered (every limit counts UTF-16 code units, as `string.Length` does) |
| RedirectUriValidation.NoRegisteredUriNoRedirect | src/OpenIdentityFramework/Services/Endpoints/Authorize/Implementation/Validation/DefaultAuthorizeRequestParameterRedirectUriValidator.cs:165-171 | a client without registered redirect URIs rejects every request |
| RedirectUriValidation.PlainHttpRejected | src/OpenIdentityFramework/Services/Endpoints/Authorize/Implementation/Validation/DefaultAuthorizeRequestParameterRedirectUriValidator.cs:142-145 | a non-loopback `http` URI is rejected even when registered verbatim |
| RedirectUriValidation.LoopbackPortIgnored | src/OpenIdentityFramework/Services/Endpoints/Authorize/Implementation/Validation/DefaultAuthorizeRequestParameterRedirectUriValidator.cs:124-137 | a loopback URI that differs from a registered one only in its port is accepted |
| ScopeValidation.Classify | src/libs/OpenIdentityFramework/Services/Endpoints/Authorize/Implementations/Validation/DefaultAuthorizeRequestParameterScopeValidator.cs:130-140 | a configuration error is "misconfigured", any other failure "invalid scope", a success the resolved resources |
| ScopeValidation.RequestedScopesFilter | src/libs/OpenIdentityFramework/Services/Endpoints/Authorize/Implementations/Validation/DefaultAuthorizeRequestParameterScopeValidator.cs:123-127 | the `id_token access_token` filter iff the request is an OpenID Connect request |
| ScopeValidation.Distinct | src/libs/OpenIdentityFramework/Services/Endpoints/Authorize/Implementations/Validation/DefaultAuthorizeRequestParameterScopeValidator.cs:105-107 | each entry once, at its first occurrence, and exactly the entries of the input |
| ScopeValidation.EntryFaultAsWritten | src/libs/OpenIdentityFramework/Services/Endpoints/Authorize/Implementations/Validation/DefaultAuthorizeRequestParameterScopeValidator.cs:110-120 | the entry check as written: an entry passes iff it is non-empty or accepted by the syntax validator, and within the entry limit; a syntax error iff it is empty and rejected; the limit counts UTF-16 code units |
| ScopeValidation.EntryFault | src/libs/OpenIdentityFramework/Services/Endpoints/Authorize/Implementations/Validation/DefaultAuthorizeRequestParameterScopeValidator.cs:110-120 | the corrected entry check: an entry passes iff it is non-empty, of valid syntax and within the entry limit; a syntax error iff it is empty or rejected; the limit counts UTF-16 code units |
| ScopeValidation.SupplementaryEntryTooLong | src/libs/OpenIdentityFramework/Services/Endpoints/Authorize/Implementations/Validation/DefaultAuthorizeRequestParameterScopeValidator.cs:117 | an entry of supplementary characters within the limit by characters but over it by UTF-16 code units is faulty under either check |
| ScopeValidation.CheckEntry | src/libs/OpenIdentityFramework/Services/Endpoints/Authorize/Implementations/Validation/DefaultAuthorizeRequestParameterScopeValidator.cs:110-120 | for either check: a fault is a syntax error or too long, an entry over the limit is faulty, and a non-empty well-formed entry within the limit passes |
| ScopeValidation.SyntaxOfNonEmptyEntriesUnchecked | src/libs/OpenIdentityFramework/Services/Endpoints/Authorize/Implementations/Validation/DefaultAuthorizeRequestParameterScopeValidator.cs:111 | as written, a non-empty entry of invalid syntax passes; the corrected check rejects it |
| ScopeValidation.FirstEntryFault | src/libs/OpenIdentityFramework/Services/Endpoints/Authorize/Implementations/Validation/DefaultAuthorizeRequestParameterScopeValidator.cs:108-121 | for either entry check: no fault iff every entry passes; a fault is that of an entry before which every entry passes |
| ScopeValidation.CheckRequestedScopes | src/libs/OpenIdentityFramework/Services/Endpoints/Authorize/Implementations/Validation/DefaultAuthorizeRequestParameterScopeValidator.cs:108-121 | for either entry check, as written or corrected: the loop returns the first entry's fault, in order |
| ScopeValidation.FaultFreeOrderIndependent | src/libs/OpenIdentityFramework/Services/Endpoints/Authorize/Implementations/Validation/DefaultAuthorizeRequestParameterScopeValidator.cs:105-121 | for either entry check, as written or corrected: whether some entry fails does not depend on the de-duplicated order |
| ScopeValidation.ScopeReadAgreesWithRule | src/libs/OpenIdentityFramework/Services/Endpoints/Authorize/Implementations/Validation/DefaultAuthorizeRequestParameterScopeValidator.cs:60-64 | the scope validator's own read (an empty read counts as omitted) treats a parameter as omitted exactly when it is absent, has no values, or all its values are empty; a value sent once reads as itself; anything else is repeated or sent once |
| ScopeValidation.RepeatedEmptyScopeReadsAsOmitted | src/libs/OpenIdentityFramework/Services/Endpoints/Authorize/Implementations/Validation/DefaultAuthorizeRequestParameterScopeValidator.cs:60-85 | `scope=&scope=` takes the omitted branch (the client's scopes, or "missing" for OpenID Connect), not the multiple-scope error |
| ScopeValidation.ValidateScopeParameter | src/libs/OpenIdentityFramework/Services/Endpoints/Authorize/Implementations/Validation/DefaultAuthorizeRequestParameterScopeValidator.cs:60-140 | the validator with the entry check as written (`AsWritten`) or corrected (`Corrected`); omitted, including repeated empty values: the client's scopes with the access-token filter, or "missing" for OpenID Connect; otherwise repeated: multiple; too long; the fault of the first faulty distinct entry; otherwise the resolution of the distinct entries with the request's filter; both limits count UTF-16 code units |
| ScopeValidation.ResolvedEntriesAreWellFormed | src/libs/OpenIdentityFramework/Services/Endpoints/Authorize/Implementations/Validation/DefaultAuthorizeRequestParameterScopeValidator.cs:108-129 | with the corrected entry check, every scope passed to the resolver is non-empty, of valid syntax and within the entry limit |
| ScopeValidation.OversizedEntryReportedAsWritten | src/libs/OpenIdentityFramework/Services/Endpoints/Authorize/Implementations/Validation/DefaultAuthorizeRequestParameterScopeValidator.cs:105-129 | with the entry check as written, when no entry is an empty one the syntax validator rejects, an entry over the entry limit makes the result `ScopeIsTooLong`, whichever order the entries are enumerated in |
| ScopeValidation.ResolvedEntriesAsWritten | src/libs/OpenIdentityFramework/Services/Endpoints/Authorize/Implementations/Validation/DefaultAuthorizeRequestParameterScopeValidator.cs:108-129 | with the entry check as written, every scope passed to the resolver is within the entry limit and non-empty or accepted by the syntax validator, and no more |
| ScopeValidation.InvalidEntryResolvedAsWritten | src/libs/OpenIdentityFramework/Services/Endpoints/Authorize/Implementations/Validation/DefaultAuthorizeRequestParameterScopeValidator.cs:108-129 | as written, `scope=a"b` rejected by the syntax validator is resolved; the corrected validator reports invalid syntax |
| NonceValidation.InferDefaultNonceResult | src/libs/OpenIdentityFramework/Services/Endpoints/Authorize/Implementations/Validation/OpenIdConnect/DefaultAuthorizeRequestOidcParameterNonceValidator.cs:75-85 | a missing nonce is an error iff the response types are exactly `{code, id_token}` |
| NonceValidation.ValidateNonce | src/libs/OpenIdentityFramework/Services/Endpoints/Authorize/Implementations/Validation/OpenIdConnect/DefaultAuthorizeRequestOidcParameterNonceValidator.cs:45-72 | omitted gives the default; multiple and too long are errors; otherwise exactly the value sent, with no character check (every limit counts UTF-16 code units, as `string.Length` does) |
| NonceValidation.SupplementaryNonceTooLong | src/libs/OpenIdentityFramework/Services/Endpoints/Authorize/Implementations/Validation/OpenIdConnect/DefaultAuthorizeRequestOidcParameterNonceValidator.cs:67 | one emoji, two UTF-16 code units, is too long for a nonce limit of one |
| NonceValidation.NonceOptionalOutsideHybridFlow | src/libs/OpenIdentityFramework/Services/Endpoints/Authorize/Implementations/Validation/OpenIdConnect/DefaultAuthorizeRequestOidcParameterNonceValidator.cs:79-84 | `{code}` and `{id_token}` accept a missing nonce; `{code, id_token}` does not |
| NonceValidation.NonceCharactersUnchecked | src/libs/OpenIdentityFramework/Services/Endpoints/Authorize/Implementations/Validation/OpenIdConnect/DefaultAuthorizeRequestOidcParameterNonceValidator.cs:60-72 | any value within the limit is accepted |
| NonceValidation.LineFeedNonceAccepted | src/libs/OpenIdentityFramework/Services/Endpoints/Authorize/Implementations/Validation/OpenIdConnect/DefaultAuthorizeRequestOidcParameterNonceValidator.cs:60-72 | a nonce consisting of a line feed is accepted as it stands |
| RequiredParametersValidation.DefaultValidators | src/OpenIdentityFramework/Services/Endpoints/Authorize/Implementation/Validation/DefaultAuthorizeRequestRequiredParametersValidator.cs:19-33 | the step's four validators as built: the `state` validator throws `ArgumentNullException` iff the state is omitted, and otherwise answers as the corrected one |
| RequiredParametersValidation.CorrectedValidators | src/OpenIdentityFramework/Services/Endpoints/Authorize/Implementation/Validation/DefaultAuthorizeRequestRequiredParametersValidator.cs:19-33 | the same four validators with the corrected `state` validator: it never throws, an omitted state is no state, and otherwise it answers as built |
| RequiredParametersValidation.ValidateRequiredParameters | src/OpenIdentityFramework/Services/Endpoints/Authorize/Implementation/Validation/DefaultAuthorizeRequestRequiredParametersValidator.cs:48-94 | `client_id`, `response_type`, `response_mode`, `state` in that order; the first error is returned unchanged; an `ArgumentNullException` of the `state` validator escapes; each step is fed the earlier steps' values; success ends in `NotImplementedException` |
| RequiredParametersValidation.LaterValidatorsNotConsulted | src/OpenIdentityFramework/Services/Endpoints/Authorize/Implementation/Validation/DefaultAuthorizeRequestRequiredParametersValidator.cs:53-92 | after an error no later validator is consulted |
| RequiredParametersValidation.SameAnswersSameOutcome | src/OpenIdentityFramework/Services/Endpoints/Authorize/Implementation/Validation/DefaultAuthorizeRequestRequiredParametersValidator.cs:48-94 | the outcome depends on the request only through the validators' answers |
| RequiredParametersValidation.OnlyFourParametersRead | src/OpenIdentityFramework/Services/Endpoints/Authorize/Implementation/Validation/DefaultAuthorizeRequestRequiredParametersValidator.cs:48-94 | with the default validators, as written or corrected, only the four named parameters are read; `redirect_uri` is never read |
| RequiredParametersValidation.ClientIdIsLocal | src/OpenIdentityFramework/Services/Endpoints/Authorize/Implementation/Validation/DefaultAuthorizeRequestParameterClientIdValidator.cs:49-88 | the `client_id` validator reads only `client_id` |
| RequiredParametersValidation.ResponseTypeIsLocal | src/OpenIdentityFramework/Services/Endpoints/Authorize/Implementation/Validation/DefaultAuthorizeRequestParameterResponseTypeValidator.cs:48-108 | the `response_type` validator reads only `response_type` |
| RequiredParametersValidation.ResponseModeIsLocal | src/OpenIdentityFramework/Services/Endpoints/Authorize/Implementation/Validation/DefaultAuthorizeRequestParameterResponseModeValidator.cs:46-87 | the `response_mode` validator reads only `response_mode` |
| RequiredParametersValidation.StateIsLocal | src/OpenIdentityFramework/Services/Endpoints/Authorize/Implementation/Validation/DefaultAuthorizeRequestParameterStateValidator.cs:46-77 | the `state` validator, as written and corrected, reads only `state` |
| RequiredParametersValidation.MissingClientIdRejected | src/OpenIdentityFramework/Services/Endpoints/Authorize/Implementation/Validation/DefaultAuthorizeRequestRequiredParametersValidator.cs:51-56 | a request without `client_id` gets "client_id is missing" |
| RequiredParametersValidation.UnknownClientRejected | src/OpenIdentityFramework/Services/Endpoints/Authorize/Implementation/Validation/DefaultAuthorizeRequestRequiredParametersValidator.cs:51-56 | a well-formed identifier unknown to the store gets `unauthorized_client` |
| RequiredParametersValidation.CompletedRunIsValidated | src/OpenIdentityFramework/Services/Endpoints/Authorize/Implementation/Validation/DefaultAuthorizeRequestRequiredParametersValidator.cs:48-94 | with the validators as written, a run that reaches the end has the store's client, a non-empty subset of `{code, id_token}`, a supported mode and a VSCHAR state, which is always present |
| RequiredParametersValidation.WiringsDifferOnlyForOmittedState | src/OpenIdentityFramework/Services/Endpoints/Authorize/Implementation/Validation/DefaultAuthorizeRequestRequiredParametersValidator.cs:83-94 | as written, the run throws `ArgumentNullException` iff the state is omitted and the corrected run completes, which it then does with no state; otherwise the two wirings agree |
| AuthorizeRequestValidation.ValidateAuthorizeRequest | src/OpenIdentityFramework/Services/Endpoints/Authorize/Implementation/DefaultAuthorizeRequestValidator.cs:35-46 | the step's error is wrapped without required parameters; the step's `ArgumentNullException` escapes iff the step throws it; every other run ends in `NotImplementedException`; nothing is validated and no error is redirected |
| AuthorizeRequestValidation.DefaultRequiredParametersValidator | src/OpenIdentityFramework/Services/Endpoints/Authorize/Implementation/DefaultAuthorizeRequestValidator.cs:20-26 | the validator wired to the step as built: it never returns required parameters, and it throws `ArgumentNullException` iff the state is omitted and the corrected step would complete |
| AuthorizeRequestValidation.CorrectedRequiredParametersValidator | src/OpenIdentityFramework/Services/Endpoints/Authorize/Implementation/DefaultAuthorizeRequestValidator.cs:20-26 | the validator wired to the corrected step: it never throws `ArgumentNullException`, and it agrees with the one as built whenever the state is given |
| AuthorizeRequestValidation.OnlyRequiredParametersConsulted | src/OpenIdentityFramework/Services/Endpoints/Authorize/Implementation/DefaultAuthorizeRequestValidator.cs:35-39 | the required-parameters step is the only thing consulted |
| AuthorizeRequestValidation.DefaultErrorsAreShownNotRedirected | src/OpenIdentityFramework/Services/Endpoints/Authorize/Implementation/DefaultAuthorizeRequestValidator.cs:35-46 | with the default steps as written, every parameter error is shown unchanged and never redirected, and the `state` validator's exception escapes |
| AuthorizeRequestValidation.MissingClientIdShown | src/OpenIdentityFramework/Services/Endpoints/Authorize/Implementation/DefaultAuthorizeRequestValidator.cs:40-43 | a request without `client_id` yields the "missing" error, not redirected |
| AuthorizeRequestValidation.UnknownClientShown | src/OpenIdentityFramework/Services/Endpoints/Authorize/Implementation/DefaultAuthorizeRequestValidator.cs:40-43 | an unknown client yields `unauthorized_client`, not redirected |
| AuthorizeRequestValidation.OmittedStateEscapes | src/OpenIdentityFramework/Services/Endpoints/Authorize/Implementation/DefaultAuthorizeRequestValidator.cs:35-46 | a request passing the first three steps without `state` ends in `ArgumentNullException` as written, and reaches `NotImplementedException` with the corrected `state` validator |
| AuthorizationCodeGrant.ValidateAuthorizationCodeRequest | src/libs/OpenIdentityFramework/Services/Endpoints/Token/Implementations/Validation/Flows/AuthorizationCode/DefaultTokenRequestAuthorizationCodeValidator.cs:75-132 | grant allowed, code valid, code issued to this client, verifier, consent covering the code's scopes, scope validator, active owner, in that order; each collaborator's error passes through unchanged; a request that passes every check is a valid grant holding the client, the scope validator's resources, the code's handle, the code and the profile; a success carries exactly what these checks returned |
| AuthorizationCodeGrant.VerifierOnlyAfterClientMatch | src/libs/OpenIdentityFramework/Services/Endpoints/Token/Implementations/Validation/Flows/AuthorizationCode/DefaultTokenRequestAuthorizationCodeValidator.cs:87-96 | nothing after the client-id comparison is consulted for a code of another client |
| AuthorizationCodeGrant.ConsentCheckedBeforeScope | src/libs/OpenIdentityFramework/Services/Endpoints/Token/Implementations/Validation/Flows/AuthorizationCode/DefaultTokenRequestAuthorizationCodeValidator.cs:98-114 | consent that does not cover the code's scopes is `unauthorized_client` whatever the scope validator says |
| AuthorizationCodeGrant.InactiveResourceOwnerRejected | src/libs/OpenIdentityFramework/Services/Endpoints/Token/Implementations/Validation/Flows/AuthorizationCode/DefaultTokenRequestAuthorizationCodeValidator.cs:116-125 | an inactive owner gets `invalid_grant` "disabled" |
| AuthorizationCodeGrant.OwnErrors | src/libs/OpenIdentityFramework/Services/Endpoints/Token/Implementations/Validation/Flows/AuthorizationCode/DefaultTokenRequestAuthorizationCodeValidator.cs:32-40 | every error is one of the validator's three or a collaborator's error passed through |
| RefreshTokenGrant.ValidateRefreshTokenRequest | src/libs/OpenIdentityFramework/Services/Endpoints/Token/Implementations/Validation/Flows/RefreshToken/DefaultTokenRequestRefreshTokenValidator.cs:66-111 | grant allowed, token valid, consent covering the token's scopes, scope validator, active owner, in that order; each collaborator's error passes through unchanged; a request that passes every check is a valid grant holding the client, the scope validator's resources, the token's handle, the token and the profile; a success carries exactly what these checks returned |
| RefreshTokenGrant.ConsentFailureIgnoresScopeParameter | src/libs/OpenIdentityFramework/Services/Endpoints/Token/Implementations/Validation/Flows/RefreshToken/DefaultTokenRequestRefreshTokenValidator.cs:77-87 | consent that does not cover the token's scopes is `unauthorized_client` whatever the scope validator says |
| RefreshTokenGrant.TokenOfAnotherClientAccepted | src/libs/OpenIdentityFramework/Services/Endpoints/Token/Implementations/Validation/Flows/RefreshToken/DefaultTokenRequestRefreshTokenValidator.cs:66-111 | the pipeline itself never compares the token's client with the authenticated client |
| RefreshTokenGrant.InactiveResourceOwnerRejected | src/libs/OpenIdentityFramework/Services/Endpoints/Token/Implementations/Validation/Flows/RefreshToken/DefaultTokenRequestRefreshTokenValidator.cs:95-104 | an inactive owner gets `invalid_grant` "disabled" |
| TokenResponseGeneration.ResultScope | src/libs/OpenIdentityFramework/Services/Endpoints/Token/Implementations/DefaultTokenResponseGenerator.cs:175 | a `scope` member iff some scope was granted |
| TokenResponseGeneration.IssueRemaining | src/libs/OpenIdentityFramework/Services/Endpoints/Token/Implementations/DefaultTokenResponseGenerator.cs:135-184 | an ID token iff `openid` was granted, bound to the access token; a refresh token iff `offline_access` was granted; the first failure aborts; Bearer, lifetime, scopes and issuer filled in |
| TokenResponseGeneration.CreateAuthorizationCodeResponse | src/libs/OpenIdentityFramework/Services/Endpoints/Token/Implementations/DefaultTokenResponseGenerator.cs:107-185 | an access-token, ID-token or refresh-token failure aborts with its description, in that order; success iff every due token is issued; the response has the common members, the ID token iff `openid` and the refresh token iff `offline_access`, the refresh token requested with no previous token |
| TokenResponseGeneration.CreateClientCredentialsResponse | src/libs/OpenIdentityFramework/Services/Endpoints/Token/Implementations/DefaultTokenResponseGenerator.cs:187-220 | an access-token failure aborts; a success never has a refresh token or an ID token |
| TokenResponseGeneration.CreateRefreshTokenResponse | src/libs/OpenIdentityFramework/Services/Endpoints/Token/Implementations/DefaultTokenResponseGenerator.cs:222-303 | an access-token failure aborts; `openid` without a profile is "Invalid request state"; an ID-token or refresh-token failure aborts with its description; success iff every due token is issued; the response has the common members, the ID token iff `openid` and the refresh token iff `offline_access`, requested with the refresh token used as the previous one |
| TokenResponseGeneration.CreateResponse | src/libs/OpenIdentityFramework/Services/Endpoints/Token/Implementations/DefaultTokenResponseGenerator.cs:52-105 | dispatch on the grant type, with "Invalid request state" for a missing code, profile or token and "Unsupported grant type" otherwise; every success is Bearer with the request's issuer and granted scopes |
| TokenResponseGeneration.ScopeMemberRoundTrip | src/libs/OpenIdentityFramework/Services/Endpoints/Token/Implementations/DefaultTokenResponseGenerator.cs:175 | splitting the `scope` member on spaces gives the granted scopes back |
| TokenResponseGeneration.ClientCredentialsIssuesAccessTokenOnly | src/libs/OpenIdentityFramework/Services/Endpoints/Token/Implementations/DefaultTokenResponseGenerator.cs:211-218 | a client-credentials response with `openid offline_access` still has no refresh or ID token |
| TokenResponseGeneration.RefreshWithoutProfileForOpenId | src/libs/OpenIdentityFramework/Services/Endpoints/Token/Implementations/DefaultTokenResponseGenerator.cs:243-254 | `openid` without a profile is "Invalid request state", after the access token was issued |
| TokenResponseGeneration.OwnerGrantTokens | src/libs/OpenIdentityFramework/Services/Endpoints/Token/Implementations/DefaultTokenResponseGenerator.cs:135-173 | for the two owner grants, ID token iff `openid`, refresh token iff `offline_access` |
| HttpResponses.WholeSeconds | src/libs/OpenIdentityFramework/Extensions/HttpResponseExtensions.cs:23 | truncating division by ticks per second |
| HttpResponses.PositiveSecondsIffOneSecond | src/libs/OpenIdentityFramework/Extensions/HttpResponseExtensions.cs:23-24 | the whole seconds are positive iff the duration is at least one second |
| HttpResponses.VaryValue | src/libs/OpenIdentityFramework/Extensions/HttpResponseExtensions.cs:35-46 | `Origin` when absent, `*` kept, `, Origin` appended otherwise |
| HttpResponses.HttpResponse.constructor | src/libs/OpenIdentityFramework/Extensions/HttpResponseExtensions.cs:13 | the response starts with the given headers |
| HttpResponses.HttpResponse.SetNoCache | src/libs/OpenIdentityFramework/Extensions/HttpResponseExtensions.cs:13-18 | the headers become those of the no-cache function of the old headers |
| HttpResponses.HttpResponse.SetCache | src/libs/OpenIdentityFramework/Extensions/HttpResponseExtensions.cs:20-49 | the headers become those of the caching function of the old headers |
| HttpResponses.HttpResponse.SetNoReferrer | src/libs/OpenIdentityFramework/Extensions/HttpResponseExtensions.cs:51-55 | the headers become those of the no-referrer function of the old headers |
| HttpResponses.HttpResponse.AddScriptCspHeaders | src/libs/OpenIdentityFramework/Extensions/HttpResponseExtensions.cs:57-72 | an undefined level throws before any header changes; otherwise the headers become those of the policy function |
| HttpResponses.NoCacheEffect | src/libs/OpenIdentityFramework/Extensions/HttpResponseExtensions.cs:13-18 | `Cache-Control` and `Pragma` are set to the no-cache values and nothing else changes |
| HttpResponses.ShortMaxAgeDisablesCaching | src/libs/OpenIdentityFramework/Extensions/HttpResponseExtensions.cs:23-28 | a max-age under one second has exactly the effect of `SetNoCache` |
| HttpResponses.CacheEffect | src/libs/OpenIdentityFramework/Extensions/HttpResponseExtensions.cs:30-48 | an existing `Cache-Control` is kept, otherwise `max-age=N` whose digits read back as the whole seconds; `Vary` updated; nothing else changes |
| HttpResponses.NoReferrerEffect | src/libs/OpenIdentityFramework/Extensions/HttpResponseExtensions.cs:51-55 | only `Referrer-Policy` changes, to `no-referrer` |
| HttpResponses.CspLevels | src/libs/OpenIdentityFramework/Extensions/HttpResponseExtensions.cs:61-66 | level two is the level-one policy without `'unsafe-inline'`; both allow exactly the hashed script |
| HttpResponses.CspEffect | src/libs/OpenIdentityFramework/Extensions/HttpResponseExtensions.cs:67-71 | the deprecated header gets the same policy iff asked for; nothing but the two policy headers changes |

## Left out

- Transport, routing, endpoint handlers, result serialisation and `WriteHtmlAsync`: I/O. The model starts from the parsed parameter map and ends at the values the handlers would serialise.
- `async`, `Task`, `CancellationToken` and `ThrowIfCancellationRequested`: the operations have no concurrency semantics. Cancellation is not modelled.
- `ArgumentNullException` guards on arguments: Dafny values are never null, so these guards cannot fire. Guards on strings that may be blank (`ProtocolError`, `AuthorizeRequestRequiredParameters`) are preconditions.
- Wrappers.ResultSidesExclusive: a `Result` payload cannot be null in Dafny, so the null-rejecting guards of both `Result` constructors are not modelled. The one exception is the `state` finding, where the guard decides the outcome and is modelled.
- The behaviour of the collaborators: each is an arrow-typed parameter about which nothing is assumed. The PKCE verifier, the code, refresh-token and token-endpoint scope validators, the resource resolver, `ScopeSyntaxValidator` and the client store are not part of this model.
- `System.Uri` parsing and `IsWellFormedOriginalString`: these are the parser parameter. The model reads off its scheme, host, port, path-and-query, fragment and loopback flag.
- Header names and values: ASP.NET compares header names case-insensitively and stores `StringValues`. The model's map compares names exactly and holds one string per header. `Vary` is read through `StringValues.ToString()` in the source; the model holds that string directly.
- HttpResponses.HttpResponse.AddScriptCspHeaders: a null `hash` is a possible input in C#. It formats as the empty string there; Dafny strings are never null.
- Client sets: a client's grant-type, response-type, redirect-URI and scope sets are plain sets. The authorize endpoint treats a null set like an empty one, so the model does not distinguish them. The token pipelines read the grant types directly, without the authorize endpoint's defaults, as the source does.
- Length limits are C# `int`s and stay unbounded integers; every length compared with them is the UTF-16 code-unit count `Text.Utf16Length`, as `string.Length` is. Only four of them have declared defaults (100/100/100/300). The others are parameters without defaults.
- ScopeValidation.Distinct: the source removes duplicate entries with a `HashSet<string>` and then iterates over it. .NET does not document the order in which a `HashSet` enumerates its elements. The model fixes that order as first occurrence. When two or more distinct entries are faulty, this order decides which fault ScopeValidation.ValidateScopeParameter reports. ScopeValidation.FaultFreeOrderIndependent proves that whether some fault is reported does not depend on the order.
- `StringValues` can hold null strings; Dafny strings cannot. `Text.StringValuesToString` skips empty values where .NET skips null and empty ones.
- The SHA-384 hasher and the OpenID Connect `request`/`registration` parameter results: no modelled logic uses them.

## Findings

| source | as written | input that shows it | evidently intended | confidence | as-written member | corrected member |
|---|---|---|---|---|---|---|
| src/OpenIdentityFramework/Services/Endpoints/Authorize/Implementation/Validation/DefaultAuthorizeRequestParameterStateValidator.cs:46-49 | an omitted `state` is returned as `new Result<string?, ProtocolError>((string?) null)`, which selects the ok constructor, whose guard throws `ArgumentNullException` on a null value | an authorization request without `state` (`map[]`), which the protocol allows | an omitted `state` is accepted as no state | high (not executed) | StateValidation.ValidateStateAsWritten (shown by StateValidation.OmittedStateThrows and, for a whole run, AuthorizeRequestValidation.OmittedStateEscapes) | StateValidation.ValidateState (wired in by RequiredParametersValidation.CorrectedValidators) |
| src/libs/OpenIdentityFramework/Services/Endpoints/Authorize/Implementations/Validation/DefaultAuthorizeRequestParameterScopeValidator.cs:111 | the syntax check of an entry fires only when the entry is empty and the syntax validator rejects it (`IsNullOrEmpty(entry) && !IsValid(entry)`) | the entry `a"b`, which the scope-token syntax of section 3.3 of RFC 6749 excludes: it is not empty, so it reaches the resolver unchecked | an entry that is empty or of invalid syntax is rejected: the two conditions were meant to be joined by "or" | medium (not executed) | ScopeValidation.EntryFaultAsWritten, run by ScopeValidation.ValidateScopeParameter with `AsWritten` (shown by ScopeValidation.InvalidEntryResolvedAsWritten and ScopeValidation.SyntaxOfNonEmptyEntriesUnchecked) | ScopeValidation.EntryFault, run with `Corrected` (ScopeValidation.ResolvedEntriesAreWellFormed) |
