/**
 * The authorize endpoint's `scope` validator.  An omitted scope takes the
 * client's configured scopes, except in an OpenID Connect request, where
 * `openid` is required and the scope is therefore missing.  A given scope is
 * sent once, within its limit, split on single spaces and de-duplicated;
 * each distinct entry is checked, and the set of entries is resolved with
 * the `access_token` filter, or the `id_token access_token` filter in an
 * OpenID Connect request.
 */
module ScopeValidation {
  import opened Wrappers
  import opened Text
  import opened Clients
  import opened RequestParameters
  import opened Resources

  /** `AuthorizeRequestParameterScopeValidationResult`. */
  datatype ScopeValidationResult =
    | ScopesValid(resources: ValidResources)
    | Misconfigured
    | InvalidScope
    | ScopeIsMissing
    | MultipleScope
    | ScopeIsTooLong
    | InvalidScopeSyntax

  /** `ScopeSyntaxValidator.IsValid` (scope-token syntax), a collaborator. */
  type ScopeSyntax = string -> bool

  /** A failed resolution is a misconfiguration or an invalid scope; a successful one is the resolved resources. */
  function Classify(resolution: Result<ValidResources, ResourcesValidationError>): (r: ScopeValidationResult)
    ensures r.ScopesValid? <==> resolution.Ok?
    ensures r.ScopesValid? ==> r.resources == resolution.value
    ensures r == Misconfigured <==> resolution.Err? && resolution.error.hasConfigurationError
    ensures r == InvalidScope <==> resolution.Err? && !resolution.error.hasConfigurationError
  {
    if resolution.Err? then
      if resolution.error.hasConfigurationError then Misconfigured else InvalidScope
    else ScopesValid(resolution.value)
  }

  /** The token-type filter of the resolution: `id_token access_token` for OpenID Connect requests. */
  function RequestedScopesFilter(isOpenIdRequest: bool): (filter: TokenTypeFilter)
    ensures filter == IdTokenAccessTokenFilter <==> isOpenIdRequest
  {
    var tokenTypeFilter := AccessTokenFilter;
    if isOpenIdRequest then IdTokenAccessTokenFilter else tokenTypeFilter
  }

  /** The set a `HashSet<string>` built from the entries holds. */
  function Elements(xs: seq<string>): set<string>
  {
    set e | e in xs
  }

  predicate NoDuplicates(xs: seq<string>)
  {
    forall i, j | 0 <= i < j < |xs| :: xs[i] != xs[j]
  }

  /** `ToHashSet`, read in enumeration order: each entry once, at its first occurrence. */
  function Distinct(xs: seq<string>): (ys: seq<string>)
    ensures forall y :: y in ys <==> y in xs
    ensures NoDuplicates(ys)
  {
    if |xs| == 0 then []
    else
      var ys := Distinct(xs[..|xs| - 1]);
      var last := xs[|xs| - 1];
      assert forall y :: y in xs <==> y in xs[..|xs| - 1] || y == last by {
        assert xs == xs[..|xs| - 1] + [last];
      }
      if last in ys then ys else ys + [last]
  }

  /**
   * Which entry check the validator runs: the one the code applies, or the
   * one its "syntax validation" comment and its otherwise unused call of the
   * syntax validator intend.
   */
  datatype EntryCheck = AsWritten | Corrected

  /**
   * The check of one entry as it is built: the syntax test fires only for an
   * empty entry, and the entry limit applies to every entry.
   */
  function EntryFaultAsWritten(entry: string, maxEntryLength: int, syntax: ScopeSyntax): (fault: Option<ScopeValidationResult>)
    ensures fault.None? <==> (entry != "" || syntax(entry)) && Utf16Length(entry) <= maxEntryLength
    ensures fault.Some? ==> fault.value in {InvalidScopeSyntax, ScopeIsTooLong}
    ensures fault == Some(InvalidScopeSyntax) <==> entry == "" && !syntax(entry)
  {
    if entry == "" && !syntax(entry) then Some(InvalidScopeSyntax)
    else if Utf16Length(entry) > maxEntryLength then Some(ScopeIsTooLong)
    else None
  }

  /** The check of one entry as its comment intends: an empty entry or one of invalid syntax is a syntax error. */
  function EntryFault(entry: string, maxEntryLength: int, syntax: ScopeSyntax): (fault: Option<ScopeValidationResult>)
    ensures fault.None? <==> entry != "" && syntax(entry) && Utf16Length(entry) <= maxEntryLength
    ensures fault.Some? ==> fault.value in {InvalidScopeSyntax, ScopeIsTooLong}
    ensures fault == Some(InvalidScopeSyntax) <==> entry == "" || !syntax(entry)
  {
    if entry == "" || !syntax(entry) then Some(InvalidScopeSyntax)
    else if Utf16Length(entry) > maxEntryLength then Some(ScopeIsTooLong)
    else None
  }

  /**
   * The entry check the validator runs.  Either way a faulty entry is a syntax
   * error or too long, an entry over the limit is faulty, and a non-empty
   * well-formed entry within the limit is accepted.
   */
  function CheckEntry(check: EntryCheck, entry: string, maxEntryLength: int, syntax: ScopeSyntax)
    : (fault: Option<ScopeValidationResult>)
    ensures fault.Some? ==> fault.value in {InvalidScopeSyntax, ScopeIsTooLong}
    ensures Utf16Length(entry) > maxEntryLength ==> fault.Some?
    ensures entry != "" && syntax(entry) && Utf16Length(entry) <= maxEntryLength ==> fault.None?
  {
    match check
    case AsWritten => EntryFaultAsWritten(entry, maxEntryLength, syntax)
    case Corrected => EntryFault(entry, maxEntryLength, syntax)
  }

  /** An entry of supplementary characters within the limit by characters but over it by code units is faulty. */
  lemma SupplementaryEntryTooLong(check: EntryCheck, entry: string, maxEntryLength: int, syntax: ScopeSyntax)
    requires forall i | 0 <= i < |entry| :: IsSupplementary(entry[i])
    requires |entry| <= maxEntryLength < 2 * |entry|
    ensures CheckEntry(check, entry, maxEntryLength, syntax).Some?
  {
    Utf16LengthCounts(entry);
  }

  /** As built, an entry the syntax validator rejects is let through when it is not empty. */
  lemma SyntaxOfNonEmptyEntriesUnchecked(entry: string, maxEntryLength: int, syntax: ScopeSyntax)
    requires entry != "" && !syntax(entry) && Utf16Length(entry) <= maxEntryLength
    ensures EntryFaultAsWritten(entry, maxEntryLength, syntax) == None
    ensures EntryFault(entry, maxEntryLength, syntax) == Some(InvalidScopeSyntax)
  {
  }

  /** The fault of the first faulty entry, in order. */
  function FirstEntryFault(check: EntryCheck, entries: seq<string>, maxEntryLength: int, syntax: ScopeSyntax)
    : (fault: Option<ScopeValidationResult>)
    ensures fault.None? <==> forall i | 0 <= i < |entries| :: CheckEntry(check, entries[i], maxEntryLength, syntax).None?
    ensures fault.Some? ==>
      exists i | 0 <= i < |entries| ::
        && fault == CheckEntry(check, entries[i], maxEntryLength, syntax)
        && forall j | 0 <= j < i :: CheckEntry(check, entries[j], maxEntryLength, syntax).None?
  {
    if |entries| == 0 then None
    else
      var fault := CheckEntry(check, entries[0], maxEntryLength, syntax);
      if fault.Some? then fault
      else
        var rest := FirstEntryFault(check, entries[1..], maxEntryLength, syntax);
        assert forall i | 1 <= i < |entries| :: entries[i] == entries[1..][i - 1];
        if rest.Some? then
          var k :| 0 <= k < |entries[1..]| && rest == CheckEntry(check, entries[1..][k], maxEntryLength, syntax)
                   && forall j | 0 <= j < k :: CheckEntry(check, entries[1..][j], maxEntryLength, syntax).None?;
          assert forall j | 0 <= j < k + 1 :: CheckEntry(check, entries[j], maxEntryLength, syntax).None? by {
            forall j | 0 <= j < k + 1
              ensures CheckEntry(check, entries[j], maxEntryLength, syntax).None?
            {
              if j > 0 { assert entries[j] == entries[1..][j - 1]; }
            }
          }
          rest
        else rest
  }

  /** The `foreach` over the distinct entries: stop at the first faulty entry. */
  method CheckRequestedScopes(check: EntryCheck, requestedScopes: seq<string>, maxEntryLength: int, syntax: ScopeSyntax)
    returns (fault: Option<ScopeValidationResult>)
    ensures fault == FirstEntryFault(check, requestedScopes, maxEntryLength, syntax)
  {
    var i := 0;
    while i < |requestedScopes|
      invariant 0 <= i <= |requestedScopes|
      invariant FirstEntryFault(check, requestedScopes, maxEntryLength, syntax)
                == FirstEntryFault(check, requestedScopes[i..], maxEntryLength, syntax)
    {
      var requestedScope := requestedScopes[i];
      var entryFault := CheckEntry(check, requestedScope, maxEntryLength, syntax);
      if entryFault.Some? {
        return entryFault;
      }
      assert requestedScopes[i..][1..] == requestedScopes[i + 1..];
      i := i + 1;
    }
    return None;
  }

  /** Whether any entry is faulty does not depend on the enumeration order of the de-duplicated entries. */
  lemma {:induction false} FaultFreeOrderIndependent(check: EntryCheck, entries: seq<string>, maxEntryLength: int,
                                                     syntax: ScopeSyntax)
    ensures FirstEntryFault(check, Distinct(entries), maxEntryLength, syntax).None? <==>
            forall e | e in entries :: CheckEntry(check, e, maxEntryLength, syntax).None?
  {
    var ys := Distinct(entries);
    if FirstEntryFault(check, ys, maxEntryLength, syntax).None? {
      forall e | e in entries
        ensures CheckEntry(check, e, maxEntryLength, syntax).None?
      {
        var i :| 0 <= i < |ys| && ys[i] == e;
      }
    }
  }

  /**
   * The scope parameter counts as omitted when it is absent, has no values,
   * or reads as the empty string; since the read skips empty values, that
   * includes several values that are all empty.
   */
  predicate ScopeOmitted(p: Params)
  {
    Omitted(p, ScopeParameter) ||
    (Repeated(p, ScopeParameter) && forall i | 0 <= i < |p[ScopeParameter]| :: p[ScopeParameter][i] == "")
  }

  /**
   * The source's read of the parameter agrees with the shared omitted /
   * repeated / supplied-once rule, except that repeated empty values read
   * as omitted.
   */
  lemma ScopeReadAgreesWithRule(p: Params)
    ensures ScopeOmitted(p) <==>
      ScopeParameter !in p || |p[ScopeParameter]| == 0 || StringValuesToString(p[ScopeParameter]) == ""
    ensures SuppliedOnce(p, ScopeParameter) ==> StringValuesToString(p[ScopeParameter]) == Value(p, ScopeParameter)
    ensures !ScopeOmitted(p) ==> Repeated(p, ScopeParameter) || SuppliedOnce(p, ScopeParameter)
  {
    if ScopeParameter in p && |p[ScopeParameter]| >= 2 {
      SeveralValuesEmptyIffAllEmpty(p[ScopeParameter]);
    }
  }

  /** `scope=&scope=` is read as an omitted scope, not as a repeated one. */
  lemma RepeatedEmptyScopeReadsAsOmitted(isOpenIdRequest: bool, client: Client, limits: Limits,
                                         resolve: ScopeResolver, syntax: ScopeSyntax)
    ensures ValidateScopeParameter(AsWritten, map[ScopeParameter := ["", ""]], isOpenIdRequest, client, limits, resolve, syntax)
         == (if isOpenIdRequest then ScopeIsMissing else Classify(resolve(client, client.scopes, AccessTokenFilter)))
    ensures Repeated(map[ScopeParameter := ["", ""]], ScopeParameter)
  {
    var p := map[ScopeParameter := ["", ""]];
    assert forall i | 0 <= i < |p[ScopeParameter]| :: p[ScopeParameter][i] == "";
  }

  /**
   * `ValidateScopeParameterAsync`, running the given entry check over the
   * distinct entries: `AsWritten` is the program as it stands, `Corrected`
   * the one its comment intends.
   */
  function ValidateScopeParameter(check: EntryCheck, p: Params, isOpenIdRequest: bool, client: Client, limits: Limits,
                                  resolve: ScopeResolver, syntax: ScopeSyntax): (r: ScopeValidationResult)
    ensures ScopeOmitted(p) ==>
      r == (if isOpenIdRequest then ScopeIsMissing else Classify(resolve(client, client.scopes, AccessTokenFilter)))
    ensures Repeated(p, ScopeParameter) && !ScopeOmitted(p) ==> r == MultipleScope
    ensures SuppliedOnce(p, ScopeParameter) && Utf16Length(Value(p, ScopeParameter)) > limits.scope ==> r == ScopeIsTooLong
    ensures SuppliedOnce(p, ScopeParameter) && Utf16Length(Value(p, ScopeParameter)) <= limits.scope ==>
      var entries := Split(Value(p, ScopeParameter), ' ');
      if forall e | e in entries :: CheckEntry(check, e, limits.scopeSingleEntry, syntax).None? then
        r == Classify(resolve(client, Elements(entries), RequestedScopesFilter(isOpenIdRequest)))
      else
        r == FirstEntryFault(check, Distinct(entries), limits.scopeSingleEntry, syntax).value
  {
    ScopeReadAgreesWithRule(p);
    if ScopeParameter !in p || |p[ScopeParameter]| == 0 || StringValuesToString(p[ScopeParameter]) == "" then
      if !isOpenIdRequest then
        Classify(resolve(client, client.scopes, AccessTokenFilter))
      else
        ScopeIsMissing
    else if |p[ScopeParameter]| > 1 then MultipleScope
    else
      var scopeParameterValue := StringValuesToString(p[ScopeParameter]);
      if Utf16Length(scopeParameterValue) > limits.scope then ScopeIsTooLong
      else
        var requestedScopes := Distinct(Split(scopeParameterValue, ' '));
        FaultFreeOrderIndependent(check, Split(scopeParameterValue, ' '), limits.scopeSingleEntry, syntax);
        var fault := FirstEntryFault(check, requestedScopes, limits.scopeSingleEntry, syntax);
        if fault.Some? then fault.value
        else
          assert Elements(requestedScopes) == Elements(Split(scopeParameterValue, ' '));
          Classify(resolve(client, Elements(requestedScopes), RequestedScopesFilter(isOpenIdRequest)))
  }

  /**
   * With the corrected entry check, every scope handed to the resolver from a
   * request is non-empty, well formed and within the entry limit.
   */
  lemma ResolvedEntriesAreWellFormed(p: Params, isOpenIdRequest: bool, client: Client, limits: Limits,
                                     resolve: ScopeResolver, syntax: ScopeSyntax)
    requires SuppliedOnce(p, ScopeParameter) && Utf16Length(Value(p, ScopeParameter)) <= limits.scope
    requires ValidateScopeParameter(Corrected, p, isOpenIdRequest, client, limits, resolve, syntax)
             !in {InvalidScopeSyntax, ScopeIsTooLong}
    ensures forall e | e in Split(Value(p, ScopeParameter), ' ') ::
      e != "" && syntax(e) && Utf16Length(e) <= limits.scopeSingleEntry
  {
  }

  /**
   * As built, the resolver is only guaranteed entries within the entry limit
   * that are non-empty or accepted by the syntax validator.
   */
  lemma ResolvedEntriesAsWritten(p: Params, isOpenIdRequest: bool, client: Client, limits: Limits,
                                 resolve: ScopeResolver, syntax: ScopeSyntax)
    requires SuppliedOnce(p, ScopeParameter) && Utf16Length(Value(p, ScopeParameter)) <= limits.scope
    requires ValidateScopeParameter(AsWritten, p, isOpenIdRequest, client, limits, resolve, syntax)
             !in {InvalidScopeSyntax, ScopeIsTooLong}
    ensures forall e | e in Split(Value(p, ScopeParameter), ' ') ::
      (e != "" || syntax(e)) && Utf16Length(e) <= limits.scopeSingleEntry
  {
  }

  /**
   * As built, when no entry is an empty one the syntax validator rejects,
   * a request with an entry over the entry limit is reported as too long,
   * whichever entry the enumeration reaches first.
   */
  lemma {:induction false} OversizedEntryReportedAsWritten(p: Params, isOpenIdRequest: bool, client: Client, limits: Limits,
                                                           resolve: ScopeResolver, syntax: ScopeSyntax)
    requires SuppliedOnce(p, ScopeParameter) && Utf16Length(Value(p, ScopeParameter)) <= limits.scope
    requires forall e | e in Split(Value(p, ScopeParameter), ' ') :: e != "" || syntax(e)
    requires exists e | e in Split(Value(p, ScopeParameter), ' ') :: Utf16Length(e) > limits.scopeSingleEntry
    ensures ValidateScopeParameter(AsWritten, p, isOpenIdRequest, client, limits, resolve, syntax) == ScopeIsTooLong
  {
    var entries := Split(Value(p, ScopeParameter), ' ');
    var ys := Distinct(entries);
    var oversized :| oversized in entries && Utf16Length(oversized) > limits.scopeSingleEntry;
    FaultFreeOrderIndependent(AsWritten, entries, limits.scopeSingleEntry, syntax);
    assert CheckEntry(AsWritten, oversized, limits.scopeSingleEntry, syntax).Some?;
    var fault := FirstEntryFault(AsWritten, ys, limits.scopeSingleEntry, syntax);
    var i :| 0 <= i < |ys| && fault == CheckEntry(AsWritten, ys[i], limits.scopeSingleEntry, syntax);
    assert ys[i] in entries;
    assert fault != Some(InvalidScopeSyntax);
  }

  /**
   * `scope=a"b`, which the syntax validator rejects, reaches the resolver as
   * built; the corrected validator reports a syntax error.
   */
  lemma InvalidEntryResolvedAsWritten(isOpenIdRequest: bool, client: Client, limits: Limits,
                                      resolve: ScopeResolver, syntax: ScopeSyntax)
    requires !syntax("a\"b") && limits.scope >= 3 && limits.scopeSingleEntry >= 3
    ensures ValidateScopeParameter(AsWritten, map[ScopeParameter := ["a\"b"]], isOpenIdRequest, client, limits, resolve, syntax)
         == Classify(resolve(client, {"a\"b"}, RequestedScopesFilter(isOpenIdRequest)))
    ensures ValidateScopeParameter(Corrected, map[ScopeParameter := ["a\"b"]], isOpenIdRequest, client, limits, resolve, syntax)
         == InvalidScopeSyntax
  {
    var p := map[ScopeParameter := ["a\"b"]];
    assert SuppliedOnce(p, ScopeParameter) && Value(p, ScopeParameter) == "a\"b";
    assert Split("a\"b", ' ') == ["a\"b"];
    assert Elements(["a\"b"]) == {"a\"b"};
  }
}
