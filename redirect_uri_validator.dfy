/**
 * The authorize endpoint's `redirect_uri` validator (section 2.3.1 and
 * section 7.5.1 of the OAuth 2.1 draft).  The value must be sent once, be
 * within its limit and be an absolute, well-formed URI without a fragment.
 * A loopback URI matches a registered loopback URI with the same scheme, host
 * and path-and-query on any port; any other URI must not be plain `http` and
 * must equal a registered URI exactly.
 */
module RedirectUriValidation {
  import opened Wrappers
  import opened Text
  import opened ProtocolErrors
  import opened Clients
  import opened RequestParameters

  /** The parts of a parsed `System.Uri` the validator reads. */
  datatype Uri = Uri(
    scheme: string,
    host: string,
    port: int,
    pathAndQuery: string,
    fragment: string,
    isLoopback: bool,
    isWellFormedOriginalString: bool)

  /** `Uri.TryCreate(value, UriKind.Absolute, out uri)`: the parsed absolute URI, if the value is one. */
  type UriParser = string -> Option<Uri>

  const RedirectUriIsMissing := ProtocolError(InvalidRequest, Some("\"redirect_uri\" is missing"))
  const MultipleRedirectUriValuesNotAllowed :=
    ProtocolError(InvalidRequest, Some("Multiple \"redirect_uri\" values are present, but only one is allowed"))
  const RedirectUriIsTooLong := ProtocolError(InvalidRequest, Some("\"redirect_uri\" is too long"))
  const InvalidRedirectUriSyntax := ProtocolError(InvalidRequest, Some("Invalid \"redirect_uri\" syntax"))
  const InvalidRedirectUri := ProtocolError(InvalidRequest, Some("Invalid \"redirect_uri\""))

  /** `ClientRedirectUriSyntaxValidator.IsValid`: absolute, well formed as written, and without a fragment. */
  function RedirectUriSyntax(parse: UriParser, value: string): (uri: Option<Uri>)
    ensures uri.Some? <==> parse(value).Some? && parse(value).value.isWellFormedOriginalString && parse(value).value.fragment == ""
    ensures uri.Some? ==> uri == parse(value)
  {
    var parsed := parse(value);
    if parsed.Some? && parsed.value.isWellFormedOriginalString && parsed.value.fragment == "" then parsed else None
  }

  /** `GetClientRedirectUrisAsync`: the registered redirect URIs, none when the client registers none. */
  function ClientRedirectUris(c: Client): set<string>
  {
    c.redirectUris
  }

  /** A registered URI accepts a requested loopback URI: it is itself a valid loopback URI with the same scheme, host and path. */
  predicate LoopbackMatches(parse: UriParser, registered: string, requested: Uri)
  {
    var candidate := RedirectUriSyntax(parse, registered);
    candidate.Some? && candidate.value.isLoopback
    && candidate.value.scheme == requested.scheme
    && candidate.value.host == requested.host
    && candidate.value.pathAndQuery == requested.pathAndQuery
  }

  /** The loop over the registered URIs of the loopback branch: is there one that matches? */
  method FindLoopbackMatch(parse: UriParser, clientRedirectUris: set<string>, requested: Uri) returns (found: bool)
    ensures found <==> exists registered | registered in clientRedirectUris :: LoopbackMatches(parse, registered, requested)
  {
    var remaining := clientRedirectUris;
    while remaining != {}
      invariant remaining <= clientRedirectUris
      invariant forall registered | registered in clientRedirectUris - remaining :: !LoopbackMatches(parse, registered, requested)
      decreases |remaining|
    {
      var clientRedirectUri :| clientRedirectUri in remaining;
      if LoopbackMatches(parse, clientRedirectUri, requested) {
        return true;
      }
      remaining := remaining - {clientRedirectUri};
    }
    return false;
  }

  function ValidateRedirectUri(p: Params, client: Client, limits: Limits, parse: UriParser): (r: Result<string, ProtocolError>)
    ensures Omitted(p, RedirectUriParameter) ==> r == Err(RedirectUriIsMissing)
    ensures Repeated(p, RedirectUriParameter) ==> r == Err(MultipleRedirectUriValuesNotAllowed)
    ensures SuppliedOnce(p, RedirectUriParameter) ==>
      var v := Value(p, RedirectUriParameter);
      var uri := RedirectUriSyntax(parse, v);
      r == (if Utf16Length(v) > limits.redirectUri then Err(RedirectUriIsTooLong)
            else if uri.None? then Err(InvalidRedirectUriSyntax)
            else if uri.value.isLoopback then
              (if exists registered | registered in ClientRedirectUris(client) :: LoopbackMatches(parse, registered, uri.value)
               then Ok(v) else Err(InvalidRedirectUri))
            else if uri.value.scheme == "http" then Err(InvalidRedirectUri)
            else if v in ClientRedirectUris(client) then Ok(v)
            else Err(InvalidRedirectUri))
    // An accepted URI is the value sent, syntactically valid, and registered (exactly, or as a loopback URI).
    ensures r.Ok? ==>
      && SuppliedOnce(p, RedirectUriParameter) && r.value == Value(p, RedirectUriParameter)
      && RedirectUriSyntax(parse, r.value).Some?
      && (r.value in ClientRedirectUris(client)
          || exists registered | registered in ClientRedirectUris(client) ::
               LoopbackMatches(parse, registered, RedirectUriSyntax(parse, r.value).value))
    ensures r.Err? ==> r.error.error == InvalidRequest
  {
    match ReadSingle(p, RedirectUriParameter, limits.redirectUri)
    case Missing => Err(RedirectUriIsMissing)
    case Multiple => Err(MultipleRedirectUriValuesNotAllowed)
    case TooLong => Err(RedirectUriIsTooLong)
    case Present(redirectUri) =>
      var typedRedirectUri := RedirectUriSyntax(parse, redirectUri);
      if typedRedirectUri.None? then Err(InvalidRedirectUriSyntax)
      else
        var clientRedirectUris := ClientRedirectUris(client);
        if typedRedirectUri.value.isLoopback then
          if exists registered | registered in clientRedirectUris :: LoopbackMatches(parse, registered, typedRedirectUri.value)
          then Ok(redirectUri)
          else Err(InvalidRedirectUri)
        else if typedRedirectUri.value.scheme == "http" then Err(InvalidRedirectUri)
        else if redirectUri in clientRedirectUris then Ok(redirectUri)
        else Err(InvalidRedirectUri)
  }

  /** A client that registers no redirect URI never passes this validator. */
  lemma NoRegisteredUriNoRedirect(p: Params, client: Client, limits: Limits, parse: UriParser)
    requires client.redirectUris == {}
    ensures ValidateRedirectUri(p, client, limits, parse).Err?
  {
  }

  /** A non-loopback `http` URI is rejected even when it is registered verbatim. */
  lemma PlainHttpRejected(p: Params, client: Client, limits: Limits, parse: UriParser)
    requires SuppliedOnce(p, RedirectUriParameter)
    requires RedirectUriSyntax(parse, Value(p, RedirectUriParameter)).Some?
    requires !RedirectUriSyntax(parse, Value(p, RedirectUriParameter)).value.isLoopback
    requires RedirectUriSyntax(parse, Value(p, RedirectUriParameter)).value.scheme == "http"
    ensures ValidateRedirectUri(p, client, limits, parse) ==
      if Utf16Length(Value(p, RedirectUriParameter)) > limits.redirectUri then Err(RedirectUriIsTooLong) else Err(InvalidRedirectUri)
  {
  }

  /**
   * Loopback redirect URIs ignore the port (section 8.4.2 of the OAuth 2.1
   * draft): a request whose URI differs from a registered loopback URI only in
   * its port is accepted.
   */
  lemma LoopbackPortIgnored(p: Params, client: Client, limits: Limits, parse: UriParser, registered: string)
    requires SuppliedOnce(p, RedirectUriParameter) && Utf16Length(Value(p, RedirectUriParameter)) <= limits.redirectUri
    requires registered in client.redirectUris
    requires RedirectUriSyntax(parse, Value(p, RedirectUriParameter)).Some?
    requires RedirectUriSyntax(parse, registered).Some?
    requires
      var requested := RedirectUriSyntax(parse, Value(p, RedirectUriParameter)).value;
      var candidate := RedirectUriSyntax(parse, registered).value;
      requested.isLoopback && candidate.isLoopback
      && requested == candidate.(port := requested.port)
    ensures ValidateRedirectUri(p, client, limits, parse) == Ok(Value(p, RedirectUriParameter))
  {
    assert LoopbackMatches(parse, registered, RedirectUriSyntax(parse, Value(p, RedirectUriParameter)).value);
  }
}
