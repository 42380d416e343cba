/**
 * The response-header helpers the endpoints use: no-cache and max-age
 * caching (section 5.2.2 of RFC 9111), `Vary: Origin`, `Referrer-Policy:
 * no-referrer`, and the script Content-Security-Policy of the HTML pages.  The
 * response is an object whose header dictionary the helpers update in place;
 * each helper is specified by a function on the old header dictionary.
 */
module HttpResponses {
  import opened Wrappers
  import opened Text

  type Headers = map<string, string>

  const CacheControlHeader := "Cache-Control"
  const PragmaHeader := "Pragma"
  const VaryHeader := "Vary"
  const ReferrerPolicyHeader := "Referrer-Policy"
  const CspHeader := "Content-Security-Policy"
  const DeprecatedCspHeader := "X-Content-Security-Policy"

  const NoCacheValue := "no-store, no-cache, max-age=0"
  const NoCachePragma := "no-cache"
  const NoReferrer := "no-referrer"

  /** `TimeSpan.TicksPerSecond`. */
  const TicksPerSecond := 10_000_000

  /** `ticks / TimeSpan.TicksPerSecond` on a 64-bit integer: C# division truncates toward zero. */
  function WholeSeconds(ticks: int): (seconds: int)
    ensures ticks >= 0 ==> seconds * TicksPerSecond <= ticks < (seconds + 1) * TicksPerSecond
    ensures ticks < 0 ==> (seconds - 1) * TicksPerSecond < ticks <= seconds * TicksPerSecond
  {
    if ticks >= 0 then ticks / TicksPerSecond else -((-ticks) / TicksPerSecond)
  }

  /** A duration gives a positive number of whole seconds exactly when it lasts at least one second. */
  lemma PositiveSecondsIffOneSecond(ticks: int)
    ensures WholeSeconds(ticks) > 0 <==> ticks >= TicksPerSecond
  {
  }

  /** Two header dictionaries agree on every name outside `names`. */
  ghost predicate AgreeExcept(before: Headers, after: Headers, names: set<string>)
  {
    forall name | name !in names :: (name in before <==> name in after) && (name in before ==> before[name] == after[name])
  }

  function NoCacheHeaders(h: Headers): Headers
  {
    h[CacheControlHeader := NoCacheValue][PragmaHeader := NoCachePragma]
  }

  /** The `Vary` value after caching: `Origin` added unless the response already varies on everything. */
  function VaryValue(existing: Option<string>): (vary: string)
    ensures existing.None? ==> vary == "Origin"
    ensures existing == Some("*") ==> vary == "*"
    ensures existing.Some? && existing.value != "*" ==> vary == existing.value + ", Origin"
  {
    match existing
    case None => "Origin"
    case Some(existingVary) => if existingVary == "*" then "*" else existingVary + ", Origin"
  }

  function MaxAgeValue(seconds: nat): string
  {
    "max-age=" + DecimalString(seconds)
  }

  function CachedHeaders(h: Headers, maxAgeTicks: int): Headers
  {
    var durationInSeconds := WholeSeconds(maxAgeTicks);
    if durationInSeconds <= 0 then NoCacheHeaders(h)
    else
      var withCacheControl := if CacheControlHeader in h then h else h[CacheControlHeader := MaxAgeValue(durationInSeconds)];
      withCacheControl[VaryHeader := VaryValue(if VaryHeader in h then Some(h[VaryHeader]) else None)]
  }

  function NoReferrerHeaders(h: Headers): Headers
  {
    h[ReferrerPolicyHeader := NoReferrer]
  }

  /** `ContentSecurityPolicyLevel`; an enum variable may hold a value that names no member. */
  datatype CspLevel = LevelOne | LevelTwo | UndefinedLevel(value: int)

  datatype CspOptions = CspOptions(level: CspLevel, addDeprecatedHeader: bool)

  /** The policy for a page whose one inline script has the given hash; `None` for an undefined level. */
  function CspHeaderValue(level: CspLevel, hash: string): Option<string>
  {
    match level
    case LevelOne => Some("default-src 'none'; script-src 'unsafe-inline' '" + hash + "'")
    case LevelTwo => Some("default-src 'none'; script-src '" + hash + "'")
    case UndefinedLevel(_) => None
  }

  function CspHeaders(h: Headers, options: CspOptions, hash: string): Headers
    requires CspHeaderValue(options.level, hash).Some?
  {
    var cspHeader := CspHeaderValue(options.level, hash).value;
    var withCsp := h[CspHeader := cspHeader];
    if options.addDeprecatedHeader then withCsp[DeprecatedCspHeader := cspHeader] else withCsp
  }

  /** An ASP.NET `HttpResponse`, reduced to its header dictionary. */
  class HttpResponse {
    var headers: Headers

    constructor(headers: Headers)
      ensures this.headers == headers
    {
      this.headers := headers;
    }

    method SetNoCache()
      modifies this
      ensures headers == NoCacheHeaders(old(headers))
    {
      headers := headers[CacheControlHeader := NoCacheValue];
      headers := headers[PragmaHeader := NoCachePragma];
    }

    method SetCache(maxAgeTicks: int)
      modifies this
      ensures headers == CachedHeaders(old(headers), maxAgeTicks)
    {
      var durationInSeconds := if maxAgeTicks >= 0 then maxAgeTicks / TicksPerSecond else -((-maxAgeTicks) / TicksPerSecond);
      if durationInSeconds <= 0 {
        SetNoCache();
        return;
      }
      var existingVary := if VaryHeader in headers then Some(headers[VaryHeader]) else None;
      if CacheControlHeader !in headers {
        headers := headers[CacheControlHeader := "max-age=" + DecimalString(durationInSeconds)];
      }
      var vary: string;
      if existingVary.Some? {
        vary := if existingVary.value == "*" then "*" else existingVary.value + ", Origin";
      } else {
        vary := "Origin";
      }
      headers := headers[VaryHeader := vary];
    }

    method SetNoReferrer()
      modifies this
      ensures headers == NoReferrerHeaders(old(headers))
    {
      headers := headers[ReferrerPolicyHeader := NoReferrer];
    }

    /** `outOfRange` stands for the `ArgumentOutOfRangeException` thrown for an undefined level, before any header is set. */
    method AddScriptCspHeaders(options: CspOptions, hash: string) returns (outOfRange: bool)
      modifies this
      ensures outOfRange <==> options.level.UndefinedLevel?
      ensures outOfRange ==> headers == old(headers)
      ensures !outOfRange ==> headers == CspHeaders(old(headers), options, hash)
    {
      var cspHeader: string;
      match options.level {
        case LevelOne => cspHeader := "default-src 'none'; script-src 'unsafe-inline' '" + hash + "'";
        case LevelTwo => cspHeader := "default-src 'none'; script-src '" + hash + "'";
        case UndefinedLevel(_) => return true;
      }
      headers := headers[CspHeader := cspHeader];
      if options.addDeprecatedHeader {
        headers := headers[DeprecatedCspHeader := cspHeader];
      }
      return false;
    }
  }

  /** `SetNoCache` sets the two no-cache headers and nothing else. */
  lemma NoCacheEffect(h: Headers)
    ensures NoCacheHeaders(h)[CacheControlHeader] == NoCacheValue
    ensures NoCacheHeaders(h)[PragmaHeader] == NoCachePragma
    ensures AgreeExcept(h, NoCacheHeaders(h), {CacheControlHeader, PragmaHeader})
  {
  }

  /** A max-age under one second has exactly the effect of `SetNoCache`. */
  lemma ShortMaxAgeDisablesCaching(h: Headers, maxAgeTicks: int)
    requires maxAgeTicks < TicksPerSecond
    ensures CachedHeaders(h, maxAgeTicks) == NoCacheHeaders(h)
  {
  }

  /**
   * With a max-age of at least a second, `SetCache` keeps a `Cache-Control`
   * that is already there and otherwise sets `max-age=N`, where N reads back
   * as the whole seconds; it touches only `Cache-Control` and `Vary`.
   */
  lemma CacheEffect(h: Headers, maxAgeTicks: int)
    requires maxAgeTicks >= TicksPerSecond
    ensures var after := CachedHeaders(h, maxAgeTicks);
      && (CacheControlHeader in h ==> after[CacheControlHeader] == h[CacheControlHeader])
      && (CacheControlHeader !in h ==>
            var value := after[CacheControlHeader];
            && |value| > |"max-age="| && value[..|"max-age="|] == "max-age="
            && (forall i | |"max-age="| <= i < |value| :: '0' <= value[i] <= '9')
            && ParseDecimal(value[|"max-age="|..]) == maxAgeTicks / TicksPerSecond)
      && after[VaryHeader] == VaryValue(if VaryHeader in h then Some(h[VaryHeader]) else None)
      && AgreeExcept(h, after, {CacheControlHeader, VaryHeader})
  {
    var seconds := WholeSeconds(maxAgeTicks);
    var digits := DecimalString(seconds);
    assert MaxAgeValue(seconds)[|"max-age="|..] == digits;
    DecimalRoundTrip(seconds);
  }

  /** `SetNoReferrer` sets only `Referrer-Policy`. */
  lemma NoReferrerEffect(h: Headers)
    ensures NoReferrerHeaders(h)[ReferrerPolicyHeader] == NoReferrer
    ensures AgreeExcept(h, NoReferrerHeaders(h), {ReferrerPolicyHeader})
  {
  }

  /** The level-two policy is the level-one policy without `'unsafe-inline'`; both allow exactly the hashed script. */
  lemma CspLevels(hash: string)
    ensures
      var prefix := "default-src 'none'; script-src ";
      var script := "'" + hash + "'";
      && CspHeaderValue(LevelOne, hash) == Some(prefix + "'unsafe-inline' " + script)
      && CspHeaderValue(LevelTwo, hash) == Some(prefix + script)
  {
    var prefix := "default-src 'none'; script-src ";
    var unsafeInline := "'unsafe-inline' ";
    assert "default-src 'none'; script-src 'unsafe-inline' '" == (prefix + unsafeInline) + "'";
    assert "default-src 'none'; script-src '" == prefix + "'";
    assert ((prefix + unsafeInline) + "'") + hash + "'" == (prefix + unsafeInline) + ("'" + hash + "'");
    assert (prefix + "'") + hash + "'" == prefix + ("'" + hash + "'");
  }

  /**
   * The deprecated header is set, to the same policy, exactly when asked
   * for; nothing but the two policy headers changes.
   */
  lemma CspEffect(h: Headers, options: CspOptions, hash: string)
    requires !options.level.UndefinedLevel?
    ensures CspHeaderValue(options.level, hash).Some?
    ensures var after := CspHeaders(h, options, hash);
      && after[CspHeader] == CspHeaderValue(options.level, hash).value
      && (options.addDeprecatedHeader ==> after[DeprecatedCspHeader] == after[CspHeader])
      && (!options.addDeprecatedHeader ==> AgreeExcept(h, after, {CspHeader}))
      && AgreeExcept(h, after, {CspHeader, DeprecatedCspHeader})
  {
  }
}
