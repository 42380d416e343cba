/**
 * Request parameters and the rule every single-valued parameter is read by
 * (section 3.1 and 3.2 of the OAuth 2.1 draft): a parameter sent without a
 * value is treated as omitted, a parameter sent more than once is an error,
 * and a value longer than its configured limit is an error.
 */
module RequestParameters {
  import opened Text

  /** The query string or form: each parameter name maps to all the values sent for it. */
  type Params = map<string, seq<string>>

  // Authorization request parameter names.
  const ClientIdParameter := "client_id"
  const ResponseTypeParameter := "response_type"
  const ResponseModeParameter := "response_mode"
  const StateParameter := "state"
  const RedirectUriParameter := "redirect_uri"
  const ScopeParameter := "scope"
  const NonceParameter := "nonce"

  /** The configured maximum lengths (`InputLengthRestrictionsOptions`); C# `int`s, so possibly negative. */
  datatype Limits = Limits(
    clientId: int,
    responseType: int,
    responseMode: int,
    state: int,
    redirectUri: int,
    scope: int,
    scopeSingleEntry: int,
    nonce: int)

  /** The declared defaults of the four limits whose defaults are declared. */
  predicate HasDeclaredDefaults(l: Limits)
  {
    l.clientId == 100 && l.responseType == 100 && l.responseMode == 100 && l.state == 300
  }

  /** The parameter is absent, has no values, or has the single value "". */
  predicate Omitted(p: Params, name: string)
  {
    name !in p || |p[name]| == 0 || p[name] == [""]
  }

  /** The parameter was sent more than once. */
  predicate Repeated(p: Params, name: string)
  {
    name in p && |p[name]| > 1
  }

  /** The parameter was sent exactly once, with a non-empty value. */
  predicate SuppliedOnce(p: Params, name: string)
  {
    name in p && |p[name]| == 1 && p[name][0] != ""
  }

  /** The value of a parameter sent exactly once. */
  function Value(p: Params, name: string): string
    requires SuppliedOnce(p, name)
  {
    p[name][0]
  }

  /** Every parameter is in exactly one of the three situations. */
  lemma Situations(p: Params, name: string)
    ensures Omitted(p, name) || Repeated(p, name) || SuppliedOnce(p, name)
    ensures !(Omitted(p, name) && Repeated(p, name))
    ensures SuppliedOnce(p, name) ==> !Omitted(p, name) && !Repeated(p, name)
  {
  }

  datatype SingleValue = Missing | Multiple | TooLong | Present(value: string)

  /**
   * The read shared by the authorize-endpoint validators: `TryGetValue` or no
   * values, then more than one value, then `StringValues.ToString()` empty,
   * then the length limit.
   */
  function ReadSingle(p: Params, name: string, maxLength: int): (r: SingleValue)
    ensures r == Missing <==> Omitted(p, name)
    ensures r == Multiple <==> Repeated(p, name)
    ensures r == TooLong <==> SuppliedOnce(p, name) && Utf16Length(Value(p, name)) > maxLength
    ensures r.Present? <==> SuppliedOnce(p, name) && Utf16Length(Value(p, name)) <= maxLength
    ensures r.Present? ==> r.value == Value(p, name)
  {
    if name !in p || |p[name]| == 0 then Missing
    else if |p[name]| != 1 then Multiple
    else
      var value := StringValuesToString(p[name]);
      if value == "" then Missing
      else if Utf16Length(value) > maxLength then TooLong
      else Present(value)
  }

  /** Two requests carry the same values (or none) for the parameter. */
  predicate SameEntry(p: Params, q: Params, name: string)
  {
    (name in p <==> name in q) && (name in p ==> p[name] == q[name])
  }

  /** Only the parameter's own entry is read. */
  lemma ReadSingleIsLocal(p: Params, q: Params, name: string, maxLength: int)
    requires SameEntry(p, q, name)
    ensures ReadSingle(p, name, maxLength) == ReadSingle(q, name, maxLength)
  {
  }

  /**
   * The limit counts UTF-16 code units: for a value without supplementary
   * characters that is its character count, and for one made only of them,
   * twice that.
   */
  lemma ReadSingleCountsCodeUnits(p: Params, name: string, maxLength: int)
    requires SuppliedOnce(p, name)
    ensures (forall i | 0 <= i < |Value(p, name)| :: !IsSupplementary(Value(p, name)[i])) ==>
      (ReadSingle(p, name, maxLength) == TooLong <==> |Value(p, name)| > maxLength)
    ensures (forall i | 0 <= i < |Value(p, name)| :: IsSupplementary(Value(p, name)[i])) ==>
      (ReadSingle(p, name, maxLength) == TooLong <==> 2 * |Value(p, name)| > maxLength)
  {
    Utf16LengthCounts(Value(p, name));
  }
}
