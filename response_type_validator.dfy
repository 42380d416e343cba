/**
 * The authorize endpoint's `response_type` validator.  The value is split on
 * single spaces; a repeated token makes the value invalid; `code` survives
 * when the client may use the `code` response type and the
 * `authorization_code` grant, `id_token` when it may use the `id_token`
 * response type and the `implicit` grant; every other token, and every token
 * the client may not use, is dropped without an error.  Only when nothing
 * survives is the value unsupported.
 */
module ResponseTypeValidation {
  import opened Wrappers
  import opened Text
  import opened ProtocolErrors
  import opened Clients
  import opened RequestParameters

  const ResponseTypeIsMissing := ProtocolError(InvalidRequest, Some("\"response_type\" is missing"))
  const MultipleResponseTypeValuesNotAllowed :=
    ProtocolError(InvalidRequest, Some("Multiple \"response_type\" values are present, but only one is allowed"))
  const ResponseTypeIsTooLong := ProtocolError(InvalidRequest, Some("\"response_type\" is too long"))
  const UnsupportedResponseTypeError := ProtocolError(UnsupportedResponseType, Some("Unsupported \"response_type\""))
  const InvalidResponseType := ProtocolError(InvalidRequest, Some("Invalid \"response_type\""))

  /** `GetClientGrantTypesAsync`: the declared grant types, or `authorization_code` alone when none are declared. */
  function ClientGrantTypes(c: Client): (r: set<string>)
    ensures r != {}
    ensures c.grantTypes != {} ==> r == c.grantTypes
    ensures c.grantTypes == {} ==> r == {AuthorizationCode}
  {
    if c.grantTypes == {} then {AuthorizationCode} else c.grantTypes
  }

  /** `GetClientResponseTypesAsync`: the declared response types, or `code` alone when none are declared. */
  function ClientResponseTypes(c: Client): (r: set<string>)
    ensures r != {}
    ensures c.responseTypes != {} ==> r == c.responseTypes
    ensures c.responseTypes == {} ==> r == {Code}
  {
    if c.responseTypes == {} then {Code} else c.responseTypes
  }

  /** The client may obtain response type `t`. */
  predicate Authorized(c: Client, t: string)
  {
    (t == Code && Code in ClientResponseTypes(c) && AuthorizationCode in ClientGrantTypes(c))
    || (t == IdToken && IdToken in ClientResponseTypes(c) && Implicit in ClientGrantTypes(c))
  }

  predicate HasDuplicate(tokens: seq<string>)
  {
    exists i, j | 0 <= i < j < |tokens| :: tokens[i] == tokens[j]
  }

  /** The requested tokens the client may obtain. */
  function Kept(c: Client, tokens: seq<string>): (kept: set<string>)
    ensures kept <= ResponseTypeValues
  {
    set t | t in tokens && Authorized(c, t)
  }

  /** Reference for `GetSupportedResponseTypesAsync`: failure on a repeated token, the kept tokens otherwise. */
  function SupportedResponseTypes(c: Client, tokens: seq<string>): Partial<set<string>>
  {
    if HasDuplicate(tokens) then Failed else Succeeded(Kept(c, tokens))
  }

  /** `GetSupportedResponseTypesAsync`: one pass over the tokens with a set of those already seen. */
  method GetSupportedResponseTypes(client: Client, parsedResponseTypes: seq<string>) returns (r: Partial<set<string>>)
    ensures r == SupportedResponseTypes(client, parsedResponseTypes)
  {
    var clientGrantTypes := ClientGrantTypes(client);
    var clientResponseTypes := ClientResponseTypes(client);
    var supportedResponseTypes: set<string> := {};
    var processedResponseTypes: set<string> := {};
    for i := 0 to |parsedResponseTypes|
      invariant processedResponseTypes == set j | 0 <= j < i :: parsedResponseTypes[j]
      invariant !HasDuplicate(parsedResponseTypes[..i])
      invariant supportedResponseTypes == Kept(client, parsedResponseTypes[..i])
    {
      var parsedResponseType := parsedResponseTypes[i];
      if parsedResponseType in processedResponseTypes {
        var j :| 0 <= j < i && parsedResponseTypes[j] == parsedResponseType;
        assert HasDuplicate(parsedResponseTypes);
        return Failed;
      }
      processedResponseTypes := processedResponseTypes + {parsedResponseType};
      assert parsedResponseTypes[..i + 1] == parsedResponseTypes[..i] + [parsedResponseType];
      if parsedResponseType == Code {
        if Code in clientResponseTypes && AuthorizationCode in clientGrantTypes {
          supportedResponseTypes := supportedResponseTypes + {Code};
        }
      } else if parsedResponseType == IdToken {
        if IdToken in clientResponseTypes && Implicit in clientGrantTypes {
          supportedResponseTypes := supportedResponseTypes + {IdToken};
        }
      }
    }
    assert parsedResponseTypes[..|parsedResponseTypes|] == parsedResponseTypes;
    return Succeeded(supportedResponseTypes);
  }

  function ValidateResponseType(p: Params, client: Client, limits: Limits): (r: Result<set<string>, ProtocolError>)
    ensures Omitted(p, ResponseTypeParameter) ==> r == Err(ResponseTypeIsMissing)
    ensures Repeated(p, ResponseTypeParameter) ==> r == Err(MultipleResponseTypeValuesNotAllowed)
    ensures SuppliedOnce(p, ResponseTypeParameter) ==>
      var v := Value(p, ResponseTypeParameter);
      r == (if Utf16Length(v) > limits.responseType then Err(ResponseTypeIsTooLong)
            else if HasDuplicate(Split(v, ' ')) then Err(InvalidResponseType)
            else if Code !in Kept(client, Split(v, ' ')) && IdToken !in Kept(client, Split(v, ' '))
            then Err(UnsupportedResponseTypeError)
            else Ok(Kept(client, Split(v, ' '))))
    ensures r.Ok? ==> r.value != {} && r.value <= ResponseTypeValues
  {
    match ReadSingle(p, ResponseTypeParameter, limits.responseType)
    case Missing => Err(ResponseTypeIsMissing)
    case Multiple => Err(MultipleResponseTypeValuesNotAllowed)
    case TooLong => Err(ResponseTypeIsTooLong)
    case Present(responseTypeString) =>
      var parsedResponseTypes := Split(responseTypeString, ' ');
      var supported := SupportedResponseTypes(client, parsedResponseTypes);
      if supported.HasError() then Err(InvalidResponseType)
      else if Code !in supported.value && IdToken !in supported.value then Err(UnsupportedResponseTypeError)
      else Ok(supported.value)
  }

  /** `code` survives exactly when requested and both its response type and its grant are allowed. */
  lemma CodeSurvival(c: Client, tokens: seq<string>)
    ensures Code in Kept(c, tokens) <==>
      Code in tokens && Code in ClientResponseTypes(c) && AuthorizationCode in ClientGrantTypes(c)
    ensures IdToken in Kept(c, tokens) <==>
      IdToken in tokens && IdToken in ClientResponseTypes(c) && Implicit in ClientGrantTypes(c)
  {
  }

  /** A client that declares nothing may use `code` and nothing else. */
  lemma UndeclaredClientGetsCode(c: Client, tokens: seq<string>)
    requires c.grantTypes == {} && c.responseTypes == {}
    ensures Kept(c, tokens) == if Code in tokens then {Code} else {}
  {
  }

  /** The hybrid value splits into its two tokens. */
  lemma HybridValueTokens()
    ensures Split("code id_token", ' ') == [Code, IdToken]
  {
    assert Join([Code, IdToken], ' ') == "code id_token";
    SplitJoin([Code, IdToken], ' ');
  }

  /** A value naming both tokens, sent by a client limited to `code`, is narrowed to `code` without an error. */
  lemma NarrowedToCode(p: Params, c: Client, limits: Limits)
    requires SuppliedOnce(p, ResponseTypeParameter) && Utf16Length(Value(p, ResponseTypeParameter)) <= limits.responseType
    requires Split(Value(p, ResponseTypeParameter), ' ') == [Code, IdToken]
    requires c.grantTypes == {} && c.responseTypes == {}
    ensures ValidateResponseType(p, c, limits) == Ok({Code})
  {
    assert !HasDuplicate([Code, IdToken]);
    UndeclaredClientGetsCode(c, [Code, IdToken]);
  }

  /**
   * Hybrid narrowing: a client limited to `code` that asks for `code id_token`
   * gets `code` alone, without an error.
   */
  lemma HybridRequestNarrowedToCode(p: Params, c: Client, limits: Limits)
    requires p == map[ResponseTypeParameter := ["code id_token"]]
    requires c.grantTypes == {} && c.responseTypes == {}
    requires limits.responseType >= 13
    ensures ValidateResponseType(p, c, limits) == Ok({Code})
  {
    HybridValueTokens();
    NarrowedToCode(p, c, limits);
  }
}
