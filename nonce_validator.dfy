/**
 * The OpenID Connect `nonce` validator of the authorize endpoint (section
 * 3.1.2.1 and section 3.3.2.11 of OpenID Connect Core 1.0).  The nonce is
 * optional except in the hybrid flow `code id_token`; when sent it must be sent
 * once and be within its limit.  Its characters are not checked.
 */
module NonceValidation {
  import opened Wrappers
  import opened Text
  import opened Clients
  import opened RequestParameters

  /** `AuthorizeRequestOidcParameterNonceValidationResult`: `NonceValid(None)` is its `Null` instance. */
  datatype NonceValidationResult =
    | NonceValid(nonce: Option<string>)
    | NonceIsMissing
    | MultipleNonce
    | NonceIsTooLong

  /** `InferDefaultResult`: only the hybrid flow requires a nonce. */
  function InferDefaultNonceResult(responseType: set<string>): (r: NonceValidationResult)
    ensures r == NonceIsMissing <==> responseType == {Code, IdToken}
    ensures r != NonceIsMissing ==> r == NonceValid(None)
  {
    if responseType == {Code, IdToken} then NonceIsMissing else NonceValid(None)
  }

  function ValidateNonce(p: Params, responseType: set<string>, limits: Limits): (r: NonceValidationResult)
    ensures Omitted(p, NonceParameter) ==> r == InferDefaultNonceResult(responseType)
    ensures Repeated(p, NonceParameter) ==> r == MultipleNonce
    ensures SuppliedOnce(p, NonceParameter) ==>
      r == (if Utf16Length(Value(p, NonceParameter)) > limits.nonce then NonceIsTooLong
            else NonceValid(Some(Value(p, NonceParameter))))
    // A nonce that is returned is exactly the value sent.
    ensures r.NonceValid? && r.nonce.Some? ==> SuppliedOnce(p, NonceParameter) && r.nonce.value == Value(p, NonceParameter)
    // A missing nonce is an error for the hybrid flow and for no other response type.
    ensures r == NonceIsMissing <==> Omitted(p, NonceParameter) && responseType == {Code, IdToken}
  {
    match ReadSingle(p, NonceParameter, limits.nonce)
    case Missing => InferDefaultNonceResult(responseType)
    case Multiple => MultipleNonce
    case TooLong => NonceIsTooLong
    case Present(nonce) => NonceValid(Some(nonce))
  }

  /** The authorization code flow and the implicit flow accept a request without a nonce. */
  lemma NonceOptionalOutsideHybridFlow(p: Params, limits: Limits)
    requires Omitted(p, NonceParameter)
    ensures ValidateNonce(p, {Code}, limits) == NonceValid(None)
    ensures ValidateNonce(p, {IdToken}, limits) == NonceValid(None)
    ensures ValidateNonce(p, {Code, IdToken}, limits) == NonceIsMissing
  {
    assert {Code} != {Code, IdToken} by { assert IdToken !in {Code}; }
    assert {IdToken} != {Code, IdToken} by { assert Code !in {IdToken}; }
  }

  /** Any value within the limit is accepted, even one that is not VSCHAR. */
  lemma NonceCharactersUnchecked(p: Params, responseType: set<string>, limits: Limits)
    requires SuppliedOnce(p, NonceParameter) && Utf16Length(Value(p, NonceParameter)) <= limits.nonce
    ensures ValidateNonce(p, responseType, limits) == NonceValid(Some(Value(p, NonceParameter)))
  {
  }

  /** A nonce made of a line feed is accepted as it stands. */
  lemma LineFeedNonceAccepted(limits: Limits)
    requires limits.nonce >= 1
    ensures ValidateNonce(map[NonceParameter := ["\n"]], {Code, IdToken}, limits) == NonceValid(Some("\n"))
  {
    var p := map[NonceParameter := ["\n"]];
    assert SuppliedOnce(p, NonceParameter) && Value(p, NonceParameter) == "\n";
    NonceCharactersUnchecked(p, {Code, IdToken}, limits);
  }

  /** One emoji is two UTF-16 code units, so it is too long for a limit of one. */
  lemma SupplementaryNonceTooLong(limits: Limits)
    requires limits.nonce == 1
    ensures ValidateNonce(map[NonceParameter := ["\U{1F600}"]], {Code}, limits) == NonceIsTooLong
  {
    var p := map[NonceParameter := ["\U{1F600}"]];
    assert SuppliedOnce(p, NonceParameter) && Value(p, NonceParameter) == "\U{1F600}";
    assert Utf16Length("\U{1F600}") == 2;
  }
}
