/**
 * The CORS policy of the request filter (middleware.ts, lines 6-15, 22-47):
 * which origins are allowed in which mode, and the header sets the filter
 * writes. The decision follows the CORS protocol of the WHATWG Fetch
 * Standard, section 3.2: an allowed origin is echoed exactly (never `*`)
 * because credentials are allowed.
 */
module Cors {
  import opened Wrappers
  import Origins

  /** The two regular expressions of the development allowlist. */
  datatype Pattern = LocalPattern | PreviewPattern

  /** `pattern.test(origin)` */
  predicate Test(p: Pattern, origin: string) {
    match p
    case LocalPattern => Origins.MatchesLocal(origin)
    case PreviewPattern => Origins.MatchesPreview(origin)
  }

  /** `process.env.NODE_ENV !== 'production'`; an unset variable is `None`. */
  predicate IsDevelopment(nodeEnv: Option<string>) {
    nodeEnv != Some("production")
  }

  /** The allowlist: both patterns in development, none in production. */
  function AllowedOrigins(isDevelopment: bool): seq<Pattern> {
    if isDevelopment then [LocalPattern, PreviewPattern] else []
  }

  /** `patterns.some(pattern => pattern.test(origin))` */
  function Any(patterns: seq<Pattern>, origin: string): (r: bool)
    ensures r <==> exists k :: 0 <= k < |patterns| && Test(patterns[k], origin)
  {
    if patterns == [] then false
    else Test(patterns[0], origin) || Any(patterns[1..], origin)
  }

  /**
   * The test at lines 22-23 and at line 33: the header is present and
   * non-empty (JavaScript truthiness of a string) and some pattern accepts it.
   */
  predicate IsAllowed(patterns: seq<Pattern>, origin: Option<string>) {
    origin.Some? && origin.value != "" && Any(patterns, origin.value)
  }

  const AllowOrigin := "Access-Control-Allow-Origin"
  const AllowCredentials := "Access-Control-Allow-Credentials"
  const AllowMethods := "Access-Control-Allow-Methods"
  const AllowHeaders := "Access-Control-Allow-Headers"
  const MaxAge := "Access-Control-Max-Age"
  const VaryHeader := "Vary"

  /** The headers lines 25-27 add to a normal response. */
  function CorsHeaders(origin: string): map<string, string> {
    map[AllowOrigin := origin, AllowCredentials := "true", VaryHeader := "Origin"]
  }

  /** The headers of the direct answer to an allowed preflight (lines 37-44). */
  function PreflightHeaders(origin: string): map<string, string> {
    map[
      AllowOrigin := origin,
      AllowCredentials := "true",
      AllowMethods := "GET, POST, PUT, DELETE, OPTIONS",
      AllowHeaders := "Content-Type, Authorization, X-Requested-With, X-Supabase-Authorization, apikey, Range",
      MaxAge := "86400",
      VaryHeader := "Origin"
    ]
  }

  /** In production the allowlist is empty, so no origin at all is allowed. */
  lemma {:induction false} ProductionAllowsNoOrigin(origin: Option<string>)
    ensures !IsAllowed(AllowedOrigins(IsDevelopment(Some("production"))), origin)
  {
  }

  /** Every other value of NODE_ENV, and an unset one, selects the development allowlist. */
  lemma {:induction false} DevelopmentUnlessProduction(nodeEnv: Option<string>)
    ensures AllowedOrigins(IsDevelopment(nodeEnv)) ==
      if nodeEnv == Some("production") then [] else [LocalPattern, PreviewPattern]
  {
  }

  /**
   * In development an origin is allowed exactly when it is in the language
   * of one of the two regular expressions.
   */
  lemma {:induction false} DevelopmentAllowedIff(origin: string)
    ensures IsAllowed(AllowedOrigins(true), Some(origin))
        <==> Origins.InLocalLanguage(origin) || Origins.InPreviewLanguage(origin)
  {
    Origins.LocalMatchIff(origin);
    Origins.PreviewMatchIff(origin);
    var ps := AllowedOrigins(true);
    assert Test(ps[0], origin) == Origins.MatchesLocal(origin);
    assert Test(ps[1], origin) == Origins.MatchesPreview(origin);
    if origin == "" {
      assert !Origins.MatchesLocal(origin) && !Origins.MatchesPreview(origin);
    }
  }

  /** The preflight answer carries the annotation headers and three more, and nothing else. */
  lemma {:induction false} PreflightExtendsCors(origin: string)
    ensures forall h :: h in CorsHeaders(origin) ==> h in PreflightHeaders(origin) && PreflightHeaders(origin)[h] == CorsHeaders(origin)[h]
    ensures PreflightHeaders(origin).Keys == CorsHeaders(origin).Keys + {AllowMethods, AllowHeaders, MaxAge}
    ensures |PreflightHeaders(origin).Keys| == 6
  {
    var keys := PreflightHeaders(origin).Keys;
    assert keys == {AllowOrigin, AllowCredentials, AllowMethods, AllowHeaders, MaxAge, VaryHeader};
    assert AllowOrigin != AllowCredentials && AllowOrigin != AllowMethods && AllowOrigin != AllowHeaders;
    assert AllowOrigin != MaxAge && AllowOrigin != VaryHeader;
    assert AllowCredentials != AllowMethods && AllowCredentials != AllowHeaders;
    assert AllowCredentials != MaxAge && AllowCredentials != VaryHeader;
    assert AllowMethods != AllowHeaders && AllowMethods != MaxAge && AllowMethods != VaryHeader;
    assert AllowHeaders != MaxAge && AllowHeaders != VaryHeader && MaxAge != VaryHeader;
  }
}
