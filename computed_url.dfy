/**
 * `addComputedUrlProps`: installs the getters `urlPathname` and `urlParsed`
 * on a pageContext. They are recomputed from the current `url` and
 * `_baseUrl` on every read, so reassigning either never leaves a stale value.
 */
module ComputedUrl {
  import opened Wrappers
  import opened Strings

  /** The result of a URL parser, as a record of named string fields. */
  type ParsedUrl = map<string, string>

  /** A URL parser `(url, baseUrl) -> parsed`; `parseUrl` itself and a
      custom `_parseUrl` are both external to this model. */
  type UrlParser = (string, string) -> ParsedUrl

  const PATHNAME_WITHOUT_BASE_URL: string := "pathnameWithoutBaseUrl"
  const PATHNAME: string := "pathname"

  /** What the getters assert about a parse result. */
  predicate WellParsed(p: ParsedUrl) {
    PATHNAME_WITHOUT_BASE_URL in p && StartsWith(p[PATHNAME_WITHOUT_BASE_URL], "/")
  }

  /** `getUrlParsed`'s choice of parser: `_parseUrl` unless it is null. */
  function ParserFor(parseUrlOverride: Option<UrlParser>, defaultParser: UrlParser): (p: UrlParser)
    ensures parseUrlOverride.Some? ==> p == parseUrlOverride.value
    ensures parseUrlOverride.None? ==> p == defaultParser
  {
    if parseUrlOverride.Some? then parseUrlOverride.value else defaultParser
  }

  /** The renaming `urlParsedGetter` applies: `pathnameWithoutBaseUrl`
      becomes `pathname`, everything else is kept. */
  function RenamePathname(original: ParsedUrl): (r: ParsedUrl)
    requires PATHNAME_WITHOUT_BASE_URL in original
    ensures PATHNAME_WITHOUT_BASE_URL !in r
    ensures PATHNAME in r && r[PATHNAME] == original[PATHNAME_WITHOUT_BASE_URL]
    ensures r.Keys == original.Keys - {PATHNAME_WITHOUT_BASE_URL} + {PATHNAME}
    ensures forall k :: k in original && k != PATHNAME_WITHOUT_BASE_URL && k != PATHNAME ==> r[k] == original[k]
  {
    var pathname := original[PATHNAME_WITHOUT_BASE_URL];
    (original - {PATHNAME_WITHOUT_BASE_URL})[PATHNAME := pathname]
  }

  /** The URL-related part of a pageContext. */
  class UrlPageContext {
    var url: string
    var baseUrl: string
    var parseUrlOverride: Option<UrlParser>
    /** Whether `urlPathname` (and with it `urlParsed`) is defined. */
    var hasComputedProps: bool

    constructor (url: string, baseUrl: string, parseUrlOverride: Option<UrlParser>)
      ensures this.url == url && this.baseUrl == baseUrl && this.parseUrlOverride == parseUrlOverride
      ensures !hasComputedProps
    {
      this.url := url;
      this.baseUrl := baseUrl;
      this.parseUrlOverride := parseUrlOverride;
      hasComputedProps := false;
    }

    /** `getUrlParsed(pageContext)`; the source asserts `_baseUrl` starts with `/`. */
    function GetUrlParsed(defaultParser: UrlParser): (r: ParsedUrl)
      reads this
      requires StartsWith(baseUrl, "/")
      ensures r == ParserFor(parseUrlOverride, defaultParser)(url, baseUrl)
    {
      if parseUrlOverride.None? then defaultParser(url, baseUrl) else parseUrlOverride.value(url, baseUrl)
    }

    /** The `urlPathname` getter. */
    function UrlPathname(defaultParser: UrlParser): (r: string)
      reads this
      requires hasComputedProps && StartsWith(baseUrl, "/")
      requires WellParsed(ParserFor(parseUrlOverride, defaultParser)(url, baseUrl))
      ensures r == ParserFor(parseUrlOverride, defaultParser)(url, baseUrl)[PATHNAME_WITHOUT_BASE_URL]
      ensures StartsWith(r, "/")
    {
      GetUrlParsed(defaultParser)[PATHNAME_WITHOUT_BASE_URL]
    }

    /** The `urlParsed` getter. */
    function UrlParsed(defaultParser: UrlParser): (r: ParsedUrl)
      reads this
      requires hasComputedProps && StartsWith(baseUrl, "/")
      requires WellParsed(ParserFor(parseUrlOverride, defaultParser)(url, baseUrl))
      ensures PATHNAME_WITHOUT_BASE_URL !in r
      ensures PATHNAME in r && StartsWith(r[PATHNAME], "/")
      ensures r[PATHNAME] == UrlPathname(defaultParser)
      ensures r == RenamePathname(ParserFor(parseUrlOverride, defaultParser)(url, baseUrl))
    {
      RenamePathname(GetUrlParsed(defaultParser))
    }

    /** `addComputedUrlProps(pageContext)`: installs the getters unless they
        are already there; nothing else changes. */
    method AddComputedUrlProps()
      modifies this
      ensures hasComputedProps
      ensures url == old(url) && baseUrl == old(baseUrl) && parseUrlOverride == old(parseUrlOverride)
    {
      if !hasComputedProps {
        hasComputedProps := true;
      }
    }

    /** Reassigning `url`, as user code may do. */
    method AssignUrl(newUrl: string)
      modifies this
      ensures url == newUrl
      ensures baseUrl == old(baseUrl) && parseUrlOverride == old(parseUrlOverride) && hasComputedProps == old(hasComputedProps)
    {
      url := newUrl;
    }
  }

  /** Installing twice is installing once, and a later read after `url` is
      reassigned reflects the new `url`. */
  method InstallTwiceThenReassign(ctx: UrlPageContext, newUrl: string, defaultParser: UrlParser)
    requires StartsWith(ctx.baseUrl, "/")
    requires WellParsed(ParserFor(ctx.parseUrlOverride, defaultParser)(newUrl, ctx.baseUrl))
    modifies ctx
    ensures ctx.hasComputedProps && ctx.url == newUrl
    ensures ctx.baseUrl == old(ctx.baseUrl) && ctx.parseUrlOverride == old(ctx.parseUrlOverride)
    ensures ctx.UrlPathname(defaultParser) == ParserFor(ctx.parseUrlOverride, defaultParser)(newUrl, ctx.baseUrl)[PATHNAME_WITHOUT_BASE_URL]
  {
    ctx.AddComputedUrlProps();
    ctx.AddComputedUrlProps();
    ctx.AssignUrl(newUrl);
  }
}
