/**
 * The authorize endpoint's `response_mode` validator.  An omitted mode takes
 * the default for the validated response types (`fragment` when an ID token
 * is returned from the authorization endpoint, `query` otherwise); a given
 * mode must be one of `query`, `fragment` and `form_post`.
 */
module ResponseModeValidation {
  import opened Wrappers
  import opened Text
  import opened ProtocolErrors
  import opened Clients
  import opened RequestParameters

  const Query := "query"
  const Fragment := "fragment"
  const FormPost := "form_post"

  const ResponseModeValues: set<string> := {Query, Fragment, FormPost}

  const MultipleResponseModeValuesNotAllowed :=
    ProtocolError(InvalidRequest, Some("Multiple \"response_mode\" values are present, but only one is allowed"))
  const ResponseModeIsTooLong := ProtocolError(InvalidRequest, Some("\"response_mode\" is too long"))
  const UnsupportedResponseMode := ProtocolError(InvalidRequest, Some("Unsupported \"response_mode\""))

  /** A set of at most `n` elements that holds `n` given elements holds nothing else. */
  lemma SmallSetIsExactly(s: set<string>, a: string, b: string)
    requires a in s && b in s
    requires |s| == (if a == b then 1 else 2)
    ensures s == {a, b}
  {
    var rest := s - {a, b};
    if rest != {} {
      var x :| x in rest;
      assert {a, b, x} <= s;
      assert |{a, b, x}| == (if a == b then 2 else 3);
      SubsetCardinality({a, b, x}, s);
    }
  }

  lemma SubsetCardinality(small: set<string>, big: set<string>)
    requires small <= big
    ensures |small| <= |big|
  {
    if small != {} {
      var x :| x in small;
      SubsetCardinality(small - {x}, big - {x});
    }
  }

  /** `InferDefaultResponseModeAsync`: `fragment` for `id_token` and for `code id_token`, `query` otherwise. */
  function InferDefaultResponseMode(responseType: set<string>): (mode: string)
    ensures mode == Fragment <==> responseType == {IdToken} || responseType == {Code, IdToken}
    ensures mode != Fragment ==> mode == Query
  {
    if |responseType| == 1 && IdToken in responseType then
      SmallSetIsExactly(responseType, IdToken, IdToken);
      Fragment
    else if |responseType| == 2 && Code in responseType && IdToken in responseType then
      SmallSetIsExactly(responseType, Code, IdToken);
      Fragment
    else
      assert |{IdToken}| == 1 && |{Code, IdToken}| == 2;
      Query
  }

  function ValidateResponseMode(p: Params, responseType: set<string>, limits: Limits): (r: Result<string, ProtocolError>)
    ensures Omitted(p, ResponseModeParameter) ==> r == Ok(InferDefaultResponseMode(responseType))
    ensures Repeated(p, ResponseModeParameter) ==> r == Err(MultipleResponseModeValuesNotAllowed)
    ensures SuppliedOnce(p, ResponseModeParameter) ==>
      var v := Value(p, ResponseModeParameter);
      r == (if Utf16Length(v) > limits.responseMode then Err(ResponseModeIsTooLong)
            else if v in ResponseModeValues then Ok(v)
            else Err(UnsupportedResponseMode))
    ensures r.Ok? ==> r.value in ResponseModeValues
    ensures r.Err? ==> r.error.error == InvalidRequest
  {
    var defaultResponseMode := InferDefaultResponseMode(responseType);
    match ReadSingle(p, ResponseModeParameter, limits.responseMode)
    case Missing => Ok(defaultResponseMode)
    case Multiple => Err(MultipleResponseModeValuesNotAllowed)
    case TooLong => Err(ResponseModeIsTooLong)
    case Present(responseMode) =>
      if responseMode == Fragment then Ok(Fragment)
      else if responseMode == Query then Ok(Query)
      else if responseMode == FormPost then Ok(FormPost)
      else Err(UnsupportedResponseMode)
  }

  /** The authorization code flow defaults to `query`; implicit and hybrid flows default to `fragment`. */
  lemma DefaultModes()
    ensures InferDefaultResponseMode({Code}) == Query
    ensures InferDefaultResponseMode({IdToken}) == Fragment
    ensures InferDefaultResponseMode({Code, IdToken}) == Fragment
  {
    assert {Code} != {IdToken} by { assert Code !in {IdToken}; }
    assert {Code} != {Code, IdToken} by { assert IdToken !in {Code}; }
  }
}
