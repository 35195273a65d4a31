/**
 * Pre-rendering as values: the options check, the normalisation of what
 * `prerender()` hooks return, the URL table the collectors fill, the passes
 * over pages, static routes and URLs, the `/404` page, the warnings and the
 * write plan. Every pass is a fold over its input in order (the source runs
 * them concurrently; the order of that work is unspecified). The class in
 * module `Prerender` performs the passes step by step.
 */
module PrerenderPlan {
  import opened Wrappers
  import opened Strings
  import opened Errors
  import opened JsValues
  import opened HttpResponse
  import opened PageFiles
  import opened LoadPageFiles
  import opened RenderHook
  import opened BeforeRender
  import RenderFlow

  // usage errors
  const PARTIAL_NOT_BOOLEAN: string := "Option `partial` should be a boolean"
  const NO_EXTRA_DIR_NOT_BOOLEAN: string := "Option `noExtraDir` should be a boolean"
  const ROOT_NOT_STRING: string := "Option `root` should be a string"
  const ROOT_NOT_ABSOLUTE: string := "The path `root` is not absolute"
  const OUT_DIR_NOT_STRING: string := "Option `outDir` should be a string"
  const PARALLEL_INVALID: string := "Option `parallel` should be a number `>=1`"
  const INVALID_PRERENDER_VALUE: string := "returned an invalid value"
  const URL_MISSING: string := "`url` is missing"
  const URL_NOT_STRING: string := "`url` should be a string"
  const URL_BAD_START: string := "doesn't start with `/`"
  const UNEXPECTED_KEY: string := "unexpected object key"
  const INVALID_OVERRIDES: string := "returned an invalid `pageContext` value"
  const NO_MATCHING_PAGE: string := "returns an URL that doesn't match any page route"
  const CONTRADICTORY: string := "matches the page with `doNotPrerender === true`"
  const HTML_REQUIRED: string := "Pre-rendering requires your `render()` hook to provide HTML"
  // internal assertions
  const ASSERT_BASE: string := "base === undefined"
  const ASSERT_URL_START: string := "url.startsWith('/')"
  const ASSERT_OVERRIDES_PLAIN: string := "pageContext === null || isPlainObject(pageContext)"
  const ASSERT_SOURCE_FILE: string := "prerenderSourceFile"
  const ASSERT_NOT_EXCLUDED: string := "!doNotPrerenderList.find((p) => p.pageId === pageId)"
  const ASSERT_FILE_URL: string := "fileUrl.startsWith('/')"
  const ASSERT_RELATIVE: string := "!filePathRelative.startsWith(sep)"

  const DEFAULT_OUT_DIR: string := "dist"
  const URL_404: string := "/404"
  const FAKE_404_URL: string := "/fake-404-url"
  const HTML_EXTENSION: string := ".html"
  const JSON_EXTENSION: string := ".pageContext.json"

  /* ---------------------------------------------------------------- options */

  /** The options of `prerender()` as the caller passed them. */
  datatype PrerenderOptions = PrerenderOptions(
    partial: JsValue, noExtraDir: JsValue, base: JsValue, root: JsValue, outDir: JsValue, parallel: JsValue)

  /** The options once checked. */
  datatype Settings = Settings(partial: bool, noExtraDir: bool, root: string, outDir: string)

  /** The destructuring defaults, which apply to `undefined` only; `cwd` is
      `process.cwd()` and `cpuCount` is `cpus().length`. */
  function WithDefaults(o: PrerenderOptions, cwd: string, cpuCount: nat): (r: PrerenderOptions)
    ensures r.base == o.base
    ensures forall v :: v in [r.partial, r.noExtraDir, r.root, r.outDir, r.parallel] ==> !v.JsUndefined?
    ensures r.parallel.JsNumber? && o.parallel.JsUndefined? ==> r.parallel.n >= 1.0
  {
    PrerenderOptions(
      if o.partial.JsUndefined? then JsBool(false) else o.partial,
      if o.noExtraDir.JsUndefined? then JsBool(false) else o.noExtraDir,
      o.base,
      if o.root.JsUndefined? then JsString(cwd) else o.root,
      if o.outDir.JsUndefined? then JsString(DEFAULT_OUT_DIR) else o.outDir,
      if o.parallel.JsUndefined? then JsNumber(if cpuCount == 0 then 1.0 else cpuCount as real) else o.parallel)
  }

  /** `path.isAbsolute` on a POSIX host. */
  predicate IsAbsolute(p: string) {
    StartsWith(p, "/")
  }

  /** `assertArguments(...)` followed by `assert(base === undefined)`: a set
      `base` only draws a warning in the first, then fails the second. */
  function ValidateOptions(o: PrerenderOptions): (r: Outcome<Settings>)
    ensures r.Returns? <==>
      o.partial.JsBool? && o.noExtraDir.JsBool? && o.root.JsString? && IsAbsolute(o.root.s) &&
      o.outDir.JsString? && Truthy(o.parallel) && o.base.JsUndefined?
    ensures r.Returns? ==> r.value == Settings(o.partial.b, o.noExtraDir.b, o.root.s, o.outDir.s)
    ensures r.Raises? ==> r.error.NewError? && (r.error.origin.UsageError? || r.error == NewError(AssertionFailure(ASSERT_BASE)))
  {
    if !o.partial.JsBool? then Raises(NewError(UsageError(PARTIAL_NOT_BOOLEAN)))
    else if !o.noExtraDir.JsBool? then Raises(NewError(UsageError(NO_EXTRA_DIR_NOT_BOOLEAN)))
    else if !o.root.JsString? then Raises(NewError(UsageError(ROOT_NOT_STRING)))
    else if !IsAbsolute(o.root.s) then Raises(NewError(UsageError(ROOT_NOT_ABSOLUTE)))
    else if !o.outDir.JsString? then Raises(NewError(UsageError(OUT_DIR_NOT_STRING)))
    else if !Truthy(o.parallel) then Raises(NewError(UsageError(PARALLEL_INVALID)))
    else if !o.base.JsUndefined? then Raises(NewError(AssertionFailure(ASSERT_BASE)))
    else Returns(Settings(o.partial.b, o.noExtraDir.b, o.root.s, o.outDir.s))
  }

  /** Whether `assertArguments` warns that `base` is deprecated. */
  predicate WarnsAboutBase(o: PrerenderOptions) {
    !o.base.JsUndefined?
  }

  /** The check as its messages describe it: `parallel` a number `>= 1`, and
      `base` deprecated without effect. */
  function ValidateOptionsCorrected(o: PrerenderOptions): (r: Outcome<Settings>)
    ensures r.Returns? ==> o.parallel.JsNumber? && o.parallel.n >= 1.0
    ensures r.Returns? ==> ValidateOptions(o.(base := JsUndefined)) == r
    ensures ValidateOptions(o).Returns? && o.parallel.JsNumber? && o.parallel.n >= 1.0 ==> r == ValidateOptions(o)
  {
    var r := ValidateOptions(o.(base := JsUndefined));
    if r.Returns? && !(o.parallel.JsNumber? && o.parallel.n >= 1.0) then Raises(NewError(UsageError(PARALLEL_INVALID)))
    else r
  }

  /* ----------------------------------------------------- prerender() results */

  /** One URL a `prerender()` hook returned, with its `pageContext`
      overrides (`null` for none). */
  datatype UrlEntry = UrlEntry(url: string, pageContext: JsValue)

  /** `hasProp(v, key, 'object')`: `typeof v[key] === 'object'`, which holds
      for `null` as well. */
  predicate TypeofObject(v: JsValue) {
    v.JsNull? || IsObject(v)
  }

  predicate OnlyKeys(v: JsValue, allowed: seq<string>) {
    forall k :: k in Keys(v) ==> k in allowed
  }

  /** `normalize(prerenderElement)`: a string is a URL without overrides;
      anything else must be a plain object `{ url, pageContext }`. */
  function NormalizeElement(e: JsValue): (r: Outcome<UrlEntry>)
    ensures r.Raises? ==> r.error.NewError? && r.error.origin.UsageError?
    ensures e.JsString? ==> r == Returns(UrlEntry(e.s, JsNull))
    ensures !e.JsString? && r.Returns? ==>
      IsPlainObject(e) && Get(e, "url") == JsString(r.value.url) && StartsWith(r.value.url, "/") &&
      OnlyKeys(e, ["url", "pageContext"]) && TypeofObject(r.value.pageContext) &&
      r.value.pageContext == (if HasProp(e, "pageContext") then Get(e, "pageContext") else JsNull)
  {
    if e.JsString? then Returns(UrlEntry(e.s, JsNull))
    else if !IsPlainObject(e) then Raises(NewError(UsageError(INVALID_PRERENDER_VALUE)))
    else if !HasProp(e, "url") then Raises(NewError(UsageError(URL_MISSING)))
    else if !Get(e, "url").JsString? then Raises(NewError(UsageError(URL_NOT_STRING)))
    else if !StartsWith(Get(e, "url").s, "/") then Raises(NewError(UsageError(URL_BAD_START)))
    else if !OnlyKeys(e, ["url", "pageContext"]) then Raises(NewError(UsageError(UNEXPECTED_KEY)))
    else
      var pageContext := if HasProp(e, "pageContext") then Get(e, "pageContext") else JsNull;
      if !TypeofObject(pageContext) then Raises(NewError(UsageError(INVALID_OVERRIDES)))
      else Returns(UrlEntry(Get(e, "url").s, pageContext))
  }

  /** `prerenderResult.map(normalize)`: the first invalid element fails it. */
  function NormalizeAll(items: seq<JsValue>): (r: Outcome<seq<UrlEntry>>)
    ensures r.Returns? <==> forall i :: 0 <= i < |items| ==> NormalizeElement(items[i]).Returns?
    ensures r.Returns? ==> |r.value| == |items|
    ensures r.Returns? ==> forall i :: 0 <= i < |items| ==> NormalizeElement(items[i]) == Returns(r.value[i])
    ensures r.Raises? ==>
      exists i :: (0 <= i < |items| && NormalizeElement(items[i]) == Raises(r.error) &&
                   forall j :: 0 <= j < i ==> NormalizeElement(items[j]).Returns?)
  {
    if items == [] then Returns([])
    else
      match NormalizeElement(items[0])
      case Raises(e) => Raises(e)
      case Returns(x) =>
        var rest := NormalizeAll(items[1..]);
        assert forall i :: 1 <= i < |items| ==> items[1..][i - 1] == items[i];
        match rest
        case Raises(e) => Raises(e)
        case Returns(xs) => Returns([x] + xs)
  }

  /** `normalizePrerenderResult(prerenderResult, prerenderSourceFile)`: an
      array element-wise, anything else as a one-element list. */
  function NormalizePrerenderResult(result: JsValue): (r: Outcome<seq<UrlEntry>>)
    ensures r.Returns? ==> |r.value| == (if result.JsArray? then |result.items| else 1)
    ensures r.Returns? ==> forall x :: x in r.value ==> TypeofObject(x.pageContext)
    ensures !result.JsArray? && r.Returns? ==> NormalizeElement(result) == Returns(r.value[0])
    ensures r.Raises? ==> r.error.NewError? && r.error.origin.UsageError?
  {
    if result.JsArray? then NormalizeAll(result.items)
    else
      match NormalizeElement(result)
      case Raises(e) => Raises(e)
      case Returns(x) => Returns([x])
  }

  /** What `callPrerenderHooks` asserts of each normalised URL. */
  predicate EntryChecked(x: UrlEntry) {
    StartsWith(x.url, "/") && (x.pageContext.JsNull? || IsPlainObject(x.pageContext))
  }

  function CheckEntry(x: UrlEntry): (r: Outcome<()>)
    ensures r.Returns? <==> EntryChecked(x)
    ensures r.Raises? ==> r.error.NewError? && r.error.origin.AssertionFailure?
  {
    if !StartsWith(x.url, "/") then Raises(NewError(AssertionFailure(ASSERT_URL_START)))
    else if !(x.pageContext.JsNull? || IsPlainObject(x.pageContext)) then Raises(NewError(AssertionFailure(ASSERT_OVERRIDES_PLAIN)))
    else Returns(())
  }

  /** Normalisation that rejects, as usage errors, what the collector would
      otherwise trip over: a bare URL without a leading `/`, and overrides
      that are an object but not a plain one. */
  function NormalizeElementCorrected(e: JsValue): (r: Outcome<UrlEntry>)
    ensures r.Returns? ==> EntryChecked(r.value) && NormalizeElement(e) == r
    ensures NormalizeElement(e).Returns? && EntryChecked(NormalizeElement(e).value) ==> r == NormalizeElement(e)
    ensures r.Raises? ==> r.error.NewError? && r.error.origin.UsageError?
  {
    if e.JsString? && !StartsWith(e.s, "/") then Raises(NewError(UsageError(URL_BAD_START)))
    else
      match NormalizeElement(e)
      case Raises(x) => Raises(x)
      case Returns(entry) =>
        if !(entry.pageContext.JsNull? || IsPlainObject(entry.pageContext)) then Raises(NewError(UsageError(INVALID_OVERRIDES)))
        else Returns(entry)
  }

  /** `throwPrerenderError(err)`: an error with a stack is rethrown as it is,
      anything else is wrapped in `new Error(err)`. */
  function PrerenderError(err: Thrown): (r: Expected)
    ensures r.Rethrow? ==> r.thrown == err && err.ThrownObject? && err.obj.hasStack
    ensures err.ThrownPrimitive? ==> r == NewError(WrappedPrimitive)
  {
    if err.ThrownObject? && err.obj.hasStack then Rethrow(err) else NewError(WrappedPrimitive)
  }

  /* ------------------------------------------------------------- URL table */

  /** An entry of `globalContext.prerenderPageContexts`. */
  datatype PrerenderContext = PrerenderContext(
    url: string,
    prerenderSourceFile: Option<string>,   // `null` for a page with a static route
    overrides: seq<JsValue>,               // `pageContext` objects merged in, in order
    alreadyProvided: bool,                 // `_pageContextAlreadyProvidedByPrerenderHook`
    staticPageId: Option<string>)          // `_pageId` of a static-route entry

  predicate DistinctUrls(table: seq<PrerenderContext>) {
    forall i, j :: 0 <= i < j < |table| ==> table[i].url != table[j].url
  }

  predicate RootedUrls(table: seq<PrerenderContext>) {
    forall i :: 0 <= i < |table| ==> StartsWith(table[i].url, "/")
  }

  /** `prerenderPageContexts.find((pageContext) => pageContext.url === url)`, as an index. */
  function FindUrl(table: seq<PrerenderContext>, url: string): (r: Option<nat>)
    ensures r.None? <==> forall i :: 0 <= i < |table| ==> table[i].url != url
    ensures r.Some? ==> r.value < |table| && table[r.value].url == url
    ensures r.Some? ==> forall j :: 0 <= j < r.value ==> table[j].url != url
  {
    if table == [] then None
    else if table[0].url == url then Some(0)
    else
      match FindUrl(table[1..], url)
      case None => None
      case Some(i) => Some(i + 1)
  }

  /** `objectAssign(pageContextFound, { _pageContextAlreadyProvidedByPrerenderHook: true, ...pageContext })`
      when the overrides are truthy. */
  function Merge(entry: PrerenderContext, pageContext: JsValue): PrerenderContext {
    if Truthy(pageContext) then entry.(overrides := entry.overrides + [pageContext], alreadyProvided := true)
    else entry
  }

  /** Find-or-insert by URL, then merge the overrides into the entry found. */
  function AddOverride(table: seq<PrerenderContext>, url: string, sourceFile: string, pageContext: JsValue)
    : (r: seq<PrerenderContext>)
    ensures |r| == |table| + (if FindUrl(table, url).None? then 1 else 0)
    ensures FindUrl(r, url).Some? && FindUrl(r, url) == (if FindUrl(table, url).None? then Some(|table|) else FindUrl(table, url))
    ensures forall i :: 0 <= i < |table| && table[i].url != url ==> r[i] == table[i]
    ensures var i := FindUrl(r, url).value;
      var before := if i < |table| then table[i] else PrerenderContext(url, Some(sourceFile), [], false, None);
      r[i].url == url && r[i].prerenderSourceFile == before.prerenderSourceFile &&
      r[i].staticPageId == before.staticPageId &&
      r[i].overrides == before.overrides + (if Truthy(pageContext) then [pageContext] else []) &&
      r[i].alreadyProvided == (before.alreadyProvided || Truthy(pageContext))
    ensures DistinctUrls(table) ==> DistinctUrls(r)
  {
    match FindUrl(table, url)
    case None =>
      var r := table + [Merge(PrerenderContext(url, Some(sourceFile), [], false, None), pageContext)];
      FindUrlIsFirst(r, url, |table|);
      r
    case Some(i) =>
      var r := table[i := Merge(table[i], pageContext)];
      FindUrlIsFirst(r, url, i);
      r
  }

  /** The first entry with a URL is the one `FindUrl` finds. */
  lemma FindUrlIsFirst(table: seq<PrerenderContext>, url: string, i: nat)
    requires i < |table| && table[i].url == url && forall j :: 0 <= j < i ==> table[j].url != url
    ensures FindUrl(table, url) == Some(i)
  {
    var k := FindUrl(table, url).value;
    assert !(k < i) && !(i < k);
  }

  /* ------------------------------------------------------------ environment */

  /** A page's route as `loadPageRoutes` gives it: the value its route file
      exports, if it has one, and its filesystem route. */
  datatype PageRoute = PageRoute(pageId: string, routeFile: Option<JsValue>, filesystemRoute: string)

  /** Everything pre-rendering meets outside the modelled code. */
  datatype PrerenderEnv = PrerenderEnv(
    allPageIds: seq<string>,
    allPageFiles: AllPageFiles,
    pathDistance: (string, string) -> int,
    isomorphicFiles: string -> Completion<IsomorphicFiles>,
    exportsOf: ExportsOracle,
    isErrorPage: string -> bool,
    errorPageId: Option<string>,                        // `getErrorPageId(_allPageIds)`
    pageRoutes: seq<PageRoute>,
    isStaticRoute: string -> bool,
    route: string -> Completion<RenderFlow.RouteResult>, // `route(pageContext)` for a URL
    beforeRender: string -> BeforeRenderSetup,
    renderHtml: RenderHtmlOracle,
    pageContextOk: JsValue -> bool,
    htmlString: HtmlRender -> string,                   // `getHtmlString`
    serialize: string -> string,                        // `serializePageContextClientSide`, per URL
    usesClientRouter: bool,                             // from the plugin manifest
    fileUrl: (string, string, bool) -> string,          // `getFileUrl(url, fileExtension, doNotCreateExtraDirectory)`
    sep: char)                                          // `path.sep`

  /** What the unseen code guarantees: processed page files, page ids shaped
      like paths, and routes starting with `/` (asserted by the route loader). */
  ghost predicate WellFormedPrerenderEnv(env: PrerenderEnv) {
    PageKinds() <= env.allPageFiles.Keys &&
    AllValid(env.allPageFiles[PAGE_CLIENT]) && AllValid(env.allPageFiles[PAGE_SERVER]) &&
    (forall p :: p in env.allPageIds ==> ValidPath(p)) &&
    (env.errorPageId.Some? ==> ValidPath(env.errorPageId.value)) &&
    (forall r :: r in env.pageRoutes ==> ValidPath(r.pageId) && StartsWith(r.filesystemRoute, "/")) &&
    (forall r :: (r in env.pageRoutes && r.routeFile.Some? && r.routeFile.value.JsString? &&
                  env.isStaticRoute(r.routeFile.value.s)) ==> StartsWith(r.routeFile.value.s, "/")) &&
    (forall u :: env.route(u).Normal? && env.route(u).value.Routed? && env.route(u).value.pageId.Some? ==>
       ValidPath(env.route(u).value.pageId.value))
  }

  predicate HasServerFile(files: PageFilesData) {
    files.pageServerFile.Some? || files.pageServerFileDefault.Some?
  }

  /** `loadPageFiles({ ...globalContext, _pageId: pageId })`. */
  function LoadFiles(env: PrerenderEnv, pageId: string): (r: Outcome<PageFilesData>)
    requires WellFormedPrerenderEnv(env) && ValidPath(pageId)
    ensures r.Returns? ==> HasServerFile(r.value)
  {
    LoadPageFilesOf(env.allPageFiles, pageId, env.pathDistance, env.isomorphicFiles(pageId), env.exportsOf)
  }

  /* --------------------------------------------------- collecting the URLs */

  /** An entry of `doNotPrerenderList`. */
  datatype Exclusion = Exclusion(pageId: string, pageServerFilePath: string)

  predicate IsExcluded(excluded: seq<Exclusion>, pageId: string) {
    exists i :: 0 <= i < |excluded| && excluded[i].pageId == pageId
  }

  /** The two collectors: `prerenderPageContexts` and `doNotPrerenderList`. */
  datatype Collected = Collected(table: seq<PrerenderContext>, excluded: seq<Exclusion>)

  /** `result.forEach(...)` in `callPrerenderHooks`: each URL is checked,
      then found or inserted and merged. */
  function AddEntries(table: seq<PrerenderContext>, entries: seq<UrlEntry>, sourceFile: string)
    : (r: Outcome<seq<PrerenderContext>>)
    decreases |entries|
  {
    if entries == [] then Returns(table)
    else
      match CheckEntry(entries[0])
      case Raises(e) => Raises(e)
      case Returns(_) => AddEntries(AddOverride(table, entries[0].url, sourceFile, entries[0].pageContext), entries[1..], sourceFile)
  }

  /** One page of `callPrerenderHooks`: error pages are skipped; a page whose
      server file sets `doNotPrerender` is excluded and its hook not called;
      otherwise its `prerender()` hook's URLs are added. */
  function HookStep(c: Collected, pageId: string, env: PrerenderEnv): (r: Outcome<Collected>)
    requires WellFormedPrerenderEnv(env) && ValidPath(pageId)
  {
    if env.isErrorPage(pageId) then Returns(c)
    else
      match LoadFiles(env, pageId)
      case Raises(e) => Raises(e)
      case Returns(files) =>
        match files.pageServerFile
        case None => Returns(c)
        case Some(f) =>
          if f.fileExports.doNotPrerender then Returns(c.(excluded := c.excluded + [Exclusion(pageId, f.filePath)]))
          else
            match f.fileExports.prerender
            case None => Returns(c)
            case Some(HookThrows(t)) => Raises(PrerenderError(t))
            case Some(HookReturns(v)) =>
              match NormalizePrerenderResult(v)
              case Raises(e) => Raises(e)
              case Returns(entries) =>
                match AddEntries(c.table, entries, f.filePath)
                case Raises(e) => Raises(e)
                case Returns(table) => Returns(c.(table := table))
  }

  /** `callPrerenderHooks`: the pages in order, from the collectors `c`. */
  function HookPass(pageIds: seq<string>, c: Collected, env: PrerenderEnv): (r: Outcome<Collected>)
    requires WellFormedPrerenderEnv(env) && forall p :: p in pageIds ==> ValidPath(p)
    decreases |pageIds|
  {
    if pageIds == [] then Returns(c)
    else
      match HookStep(c, pageIds[0], env)
      case Raises(e) => Raises(e)
      case Returns(c1) => HookPass(pageIds[1..], c1, env)
  }

  /** The URL of a static route: the route string if it is static, the
      filesystem route when there is no route file, none otherwise. */
  function StaticUrl(route: PageRoute, isStaticRoute: string -> bool): (r: Option<string>)
    ensures route.routeFile.None? ==> r == Some(route.filesystemRoute)
    ensures route.routeFile.Some? ==>
      (r.Some? <==> route.routeFile.value.JsString? && isStaticRoute(route.routeFile.value.s)) &&
      (r.Some? ==> r.value == route.routeFile.value.s)
  {
    match route.routeFile
    case None => Some(route.filesystemRoute)
    case Some(v) => if v.JsString? && isStaticRoute(v.s) then Some(v.s) else None
  }

  /** One route of `handlePagesWithStaticRoutes`. */
  function StaticStep(c: Collected, route: PageRoute, env: PrerenderEnv): (r: Outcome<Collected>)
    requires WellFormedPrerenderEnv(env) && route in env.pageRoutes
  {
    if IsExcluded(c.excluded, route.pageId) then Returns(c)
    else
      match StaticUrl(route, env.isStaticRoute)
      case None => Returns(c)
      case Some(url) =>
        if FindUrl(c.table, url).Some? then Returns(c)
        else
          match LoadFiles(env, route.pageId)
          case Raises(e) => Raises(e)
          case Returns(_) => Returns(c.(table := c.table + [PrerenderContext(url, None, [], false, Some(route.pageId))]))
  }

  /** `handlePagesWithStaticRoutes`: the routes in order. */
  function StaticPass(routes: seq<PageRoute>, c: Collected, env: PrerenderEnv): (r: Outcome<Collected>)
    requires WellFormedPrerenderEnv(env) && forall x :: x in routes ==> x in env.pageRoutes
    decreases |routes|
  {
    if routes == [] then Returns(c)
    else
      match StaticStep(c, routes[0], env)
      case Raises(e) => Raises(e)
      case Returns(c1) => StaticPass(routes[1..], c1, env)
  }

  /** Both collecting passes, from empty collectors. */
  function CollectSpec(env: PrerenderEnv): (r: Outcome<Collected>)
    requires WellFormedPrerenderEnv(env)
  {
    match HookPass(env.allPageIds, Collected([], []), env)
    case Raises(e) => Raises(e)
    case Returns(c) => StaticPass(env.pageRoutes, c, env)
  }

  /* ------------------------------------------------------------ rendering */

  /** What `prerenderPage` reads of the `pageContext` it is given. */
  datatype PrerenderInput = PrerenderInput(url: string, pageId: string, is404: bool, usesClientRouter: bool, alreadyProvided: bool)

  /** What `prerenderPage` returns. */
  datatype PrerenderedPage = PrerenderedPage(documentHtml: string, pageContextSerialized: Option<string>)

  /** `prerenderPage(pageContext)` once the page files are merged in: the
      `onBeforeRender()` hooks (skipped when a `prerender()` hook provided
      the `pageContext`), then the `render()` hook, which must give HTML. */
  function PrerenderPageSpec(input: PrerenderInput, files: PageFilesData, env: PrerenderEnv): (r: Outcome<PrerenderedPage>)
    requires HasServerFile(files)
    ensures r.Returns? ==> (r.value.pageContextSerialized.Some? <==> input.usesClientRouter)
    ensures r.Returns? && input.usesClientRouter ==> r.value.pageContextSerialized == Some(env.serialize(input.url))
    ensures r.Returns? ==>
      var h := ExecuteRenderHook(files.pageServerFile, files.pageServerFileDefault, env.renderHtml, env.pageContextOk);
      h.Returns? && h.value.result.Rendered? && h.value.result.htmlRender.Some? &&
      r.value.documentHtml == env.htmlString(h.value.result.htmlRender.value)
  {
    match OnBeforeRenderSpec(input.alreadyProvided, false, files.isomorphic.hasOnBeforeRenderHook, env.beforeRender(input.pageId))
    case Raises(e) => Raises(e)
    case Returns(_) =>
      match ExecuteRenderHook(files.pageServerFile, files.pageServerFileDefault, env.renderHtml, env.pageContextOk)
      case Raises(e) => Raises(e)
      case Returns(output) =>
        match output.result
        case RenderHookError(t, _, _) => Raises(PrerenderError(t))
        case Rendered(htmlRender, _) =>
          if htmlRender.None? then Raises(NewError(UsageError(HTML_REQUIRED)))
          else
            var documentHtml := env.htmlString(htmlRender.value);
            Returns(PrerenderedPage(documentHtml, if input.usesClientRouter then Some(env.serialize(input.url)) else None))
  }

  /** An entry of `htmlFiles`. */
  datatype HtmlFile = HtmlFile(
    url: string,
    pageId: Option<string>,
    htmlString: string,
    pageContextSerialized: Option<string>,
    doNotCreateExtraDirectory: bool)

  /** The `prerenderPageIds` object: page ids in insertion order, each with
      the last entry routed to it. */
  type PageIdTable = seq<(string, PrerenderContext)>

  predicate HasKey(ids: PageIdTable, pageId: string) {
    exists i :: 0 <= i < |ids| && ids[i].0 == pageId
  }

  predicate DistinctKeys(ids: PageIdTable) {
    forall i, j :: 0 <= i < j < |ids| ==> ids[i].0 != ids[j].0
  }

  /** The index of a page id in the table, if present. */
  function KeyIndex(ids: PageIdTable, pageId: string): (r: Option<nat>)
    ensures r.None? <==> !HasKey(ids, pageId)
    ensures r.Some? ==> r.value < |ids| && ids[r.value].0 == pageId
  {
    if ids == [] then None
    else if ids[0].0 == pageId then Some(0)
    else
      match KeyIndex(ids[1..], pageId)
      case None =>
        assert forall i :: 1 <= i < |ids| ==> ids[1..][i - 1] == ids[i];
        None
      case Some(i) => Some(i + 1)
  }

  /** `prerenderPageIds[pageId] = pageContext`: a new key goes last, an
      existing key keeps its place and takes the new value. */
  function SetKey(ids: PageIdTable, pageId: string, entry: PrerenderContext): (r: PageIdTable)
    ensures forall k :: HasKey(r, k) <==> HasKey(ids, k) || k == pageId
    ensures exists i :: 0 <= i < |r| && r[i] == (pageId, entry)
    ensures forall i :: 0 <= i < |ids| && ids[i].0 != pageId ==> i < |r| && r[i] == ids[i]
    ensures DistinctKeys(ids) ==> DistinctKeys(r)
  {
    match KeyIndex(ids, pageId)
    case None =>
      var r := ids + [(pageId, entry)];
      assert r[|ids|] == (pageId, entry);
      assert forall k :: HasKey(r, k) ==> HasKey(ids, k) || k == pageId by {
        forall k | HasKey(r, k) ensures HasKey(ids, k) || k == pageId {
          var i :| 0 <= i < |r| && r[i].0 == k;
          if i < |ids| { assert ids[i].0 == k; }
        }
      }
      assert forall k :: HasKey(ids, k) ==> HasKey(r, k) by {
        forall k | HasKey(ids, k) ensures HasKey(r, k) {
          var i :| 0 <= i < |ids| && ids[i].0 == k;
          assert r[i].0 == k;
        }
      }
      r
    case Some(j) =>
      var r := ids[j := (pageId, entry)];
      assert r[j] == (pageId, entry);
      assert forall k :: HasKey(r, k) ==> HasKey(ids, k) || k == pageId by {
        forall k | HasKey(r, k) ensures HasKey(ids, k) || k == pageId {
          var i :| 0 <= i < |r| && r[i].0 == k;
          if i != j { assert ids[i].0 == k; }
        }
      }
      assert forall k :: HasKey(ids, k) ==> HasKey(r, k) by {
        forall k | HasKey(ids, k) ensures HasKey(r, k) {
          var i :| 0 <= i < |ids| && ids[i].0 == k;
          if i == j { assert r[j].0 == k; } else { assert r[i].0 == k; }
        }
      }
      r
  }

  /** What `routeAndPrerender` fills: `htmlFiles` and `prerenderPageIds`. */
  datatype Rendering = Rendering(htmlFiles: seq<HtmlFile>, pageIds: PageIdTable)

  /** One URL of `routeAndPrerender`: route it, load the page's files and
      pre-render it. A URL routed to no page is a usage error naming the
      hook's file; with no such file it is an internal assertion. */
  function RouteStep(acc: Rendering, entry: PrerenderContext, noExtraDir: bool, env: PrerenderEnv): (r: Outcome<Rendering>)
    requires WellFormedPrerenderEnv(env)
  {
    var routed := env.route(entry.url);
    if routed.Threw? then Raises(Rethrow(routed.thrown))
    else if routed.value.RouteHookError? then Raises(PrerenderError(routed.value.hookError))
    else if routed.value.pageId.None? then
      if entry.prerenderSourceFile.None? then Raises(NewError(AssertionFailure(ASSERT_SOURCE_FILE)))
      else Raises(NewError(UsageError(NO_MATCHING_PAGE)))
    else RenderRouted(acc, entry, routed.value.pageId.value, noExtraDir, env)
  }

  /** The rest of one URL of `routeAndPrerender`, once routed to `pageId`. */
  function RenderRouted(acc: Rendering, entry: PrerenderContext, pageId: string, noExtraDir: bool, env: PrerenderEnv)
    : (r: Outcome<Rendering>)
    requires WellFormedPrerenderEnv(env) && ValidPath(pageId)
  {
    match LoadFiles(env, pageId)
    case Raises(e) => Raises(e)
    case Returns(files) =>
      var input := PrerenderInput(entry.url, pageId, false, env.usesClientRouter, entry.alreadyProvided);
      match PrerenderPageSpec(input, files, env)
      case Raises(e) => Raises(e)
      case Returns(page) =>
        var file := HtmlFile(entry.url, Some(pageId), page.documentHtml, page.pageContextSerialized, noExtraDir);
        Returns(Rendering(acc.htmlFiles + [file], SetKey(acc.pageIds, pageId, entry)))
  }

  /** `routeAndPrerender`: the collected URLs in order. */
  function RoutePass(table: seq<PrerenderContext>, acc: Rendering, noExtraDir: bool, env: PrerenderEnv): (r: Outcome<Rendering>)
    requires WellFormedPrerenderEnv(env)
    decreases |table|
  {
    if table == [] then Returns(acc)
    else
      match RouteStep(acc, table[0], noExtraDir, env)
      case Raises(e) => Raises(e)
      case Returns(acc1) => RoutePass(table[1..], acc1, noExtraDir, env)
  }

  /** One step of `RoutePass`. */
  lemma RoutePassCons(table: seq<PrerenderContext>, acc: Rendering, noExtraDir: bool, env: PrerenderEnv)
    requires WellFormedPrerenderEnv(env) && table != []
    ensures RoutePass(table, acc, noExtraDir, env) ==
      var o := RouteStep(acc, table[0], noExtraDir, env);
      if o.Raises? then Raises(o.error) else RoutePass(table[1..], o.value, noExtraDir, env)
  {
  }

  /** `warnContradictoryNoPrerenderList`: a pre-rendered page id that is
      also excluded fails, at the first such page id. */
  function WarnContradictoryNoPrerenderList(ids: PageIdTable, excluded: seq<Exclusion>): (r: Outcome<()>)
    ensures r.Returns? <==> forall i :: 0 <= i < |ids| ==> !IsExcluded(excluded, ids[i].0)
    ensures r.Raises? ==>
      r.error == NewError(UsageError(CONTRADICTORY)) || r.error == NewError(AssertionFailure(ASSERT_SOURCE_FILE))
    decreases |ids|
  {
    if ids == [] then Returns(())
    else if IsExcluded(excluded, ids[0].0) then
      if ids[0].1.prerenderSourceFile.None? then Raises(NewError(AssertionFailure(ASSERT_SOURCE_FILE)))
      else Raises(NewError(UsageError(CONTRADICTORY)))
    else
      var r := WarnContradictoryNoPrerenderList(ids[1..], excluded);
      assert forall i :: 1 <= i < |ids| ==> ids[1..][i - 1] == ids[i];
      r
  }

  /** The page ids `warnMissingPages` complains about: not pre-rendered, not
      excluded and not error pages, in the order of `_allPageIds`. */
  function MissingPages(pageIds: seq<string>, ids: PageIdTable, excluded: seq<Exclusion>, isErrorPage: string -> bool)
    : (r: seq<string>)
    ensures forall p :: p in r <==> p in pageIds && !HasKey(ids, p) && !IsExcluded(excluded, p) && !isErrorPage(p)
    ensures |r| <= |pageIds|
  {
    if pageIds == [] then []
    else
      var rest := MissingPages(pageIds[1..], ids, excluded, isErrorPage);
      assert forall p :: p in pageIds <==> p == pageIds[0] || p in pageIds[1..];
      if !HasKey(ids, pageIds[0]) && !IsExcluded(excluded, pageIds[0]) && !isErrorPage(pageIds[0]) then [pageIds[0]] + rest
      else rest
  }

  /** `warnMissingPages(...)`: one warning per missing page, none under `partial`. */
  function WarnMissingPages(pageIds: seq<string>, ids: PageIdTable, excluded: seq<Exclusion>, isErrorPage: string -> bool,
                            partial: bool): (r: seq<string>)
    ensures forall p :: p in r <==>
      !partial && p in pageIds && !HasKey(ids, p) && !IsExcluded(excluded, p) && !isErrorPage(p)
  {
    if partial then [] else MissingPages(pageIds, ids, excluded, isErrorPage)
  }

  /* ------------------------------------------------------------------ 404 */

  /** The `pageContext` of `renderStatic404Page`: the error page at a fake
      URL, as a 404, without client routing. */
  function Static404Input(errorPageId: string): PrerenderInput {
    PrerenderInput(FAKE_404_URL, errorPageId, true, false, false)
  }

  /** `renderStatic404Page(globalContext)`: nothing without an error page. */
  function RenderStatic404Page(env: PrerenderEnv): (r: Outcome<Option<PrerenderedPage>>)
    requires WellFormedPrerenderEnv(env)
    ensures env.errorPageId.None? ==> r == Returns(None)
    ensures r.Returns? && r.value.Some? ==> env.errorPageId.Some? && r.value.value.pageContextSerialized.None?
  {
    match env.errorPageId
    case None => Returns(None)
    case Some(id) =>
      match LoadFiles(env, id)
      case Raises(e) => Raises(e)
      case Returns(files) =>
        match PrerenderPageSpec(Static404Input(id), files, env)
        case Raises(e) => Raises(e)
        case Returns(page) => Returns(Some(page))
  }

  predicate Has404(htmlFiles: seq<HtmlFile>) {
    exists i :: 0 <= i < |htmlFiles| && htmlFiles[i].url == URL_404
  }

  /** `prerender404Page(htmlFiles, globalContext)`. */
  function Prerender404Page(htmlFiles: seq<HtmlFile>, env: PrerenderEnv): (r: Outcome<seq<HtmlFile>>)
    requires WellFormedPrerenderEnv(env)
    ensures Has404(htmlFiles) ==> r == Returns(htmlFiles)
    ensures r.Returns? ==> htmlFiles <= r.value && |r.value| <= |htmlFiles| + 1
    ensures r.Returns? && |r.value| > |htmlFiles| ==>
      !Has404(htmlFiles) && env.errorPageId.Some? &&
      r.value[|htmlFiles|].url == URL_404 && r.value[|htmlFiles|].pageId.None? &&
      r.value[|htmlFiles|].pageContextSerialized.None? && r.value[|htmlFiles|].doNotCreateExtraDirectory
    ensures r.Returns? && !Has404(htmlFiles) && env.errorPageId.Some? ==> |r.value| == |htmlFiles| + 1
  {
    if Has404(htmlFiles) then Returns(htmlFiles)
    else
      match RenderStatic404Page(env)
      case Raises(e) => Raises(e)
      case Returns(None) => Returns(htmlFiles)
      case Returns(Some(page)) => Returns(htmlFiles + [HtmlFile(URL_404, None, page.documentHtml, None, true)])
  }

  /* ----------------------------------------------------------- write plan */

  /** A file to write: `path.join(root, outDir, 'client', relative)`. */
  datatype WriteJob = WriteJob(root: string, outDir: string, relative: string, fileContent: string)

  /** `write(url, pageContext, fileExtension, fileContent, ...)`: the target
      path from `getFileUrl`, with its `/` turned into `path.sep`. */
  function Write(url: string, extension: string, content: string, flat: bool, root: string, outDir: string,
                 env: PrerenderEnv): (r: Outcome<WriteJob>)
    ensures r.Returns? ==>
      var fileUrl := env.fileUrl(url, extension, extension == JSON_EXTENSION || flat);
      StartsWith(fileUrl, "/") &&
      r.value == WriteJob(root, outDir, Replace(fileUrl[1..], '/', env.sep), content) &&
      !StartsWith(r.value.relative, [env.sep])
  {
    var fileUrl := env.fileUrl(url, extension, extension == JSON_EXTENSION || flat);
    if !StartsWith(fileUrl, "/") then Raises(NewError(AssertionFailure(ASSERT_FILE_URL)))
    else
      var relative := Join(Split(fileUrl[1..], '/'), [env.sep]);
      SplitJoinIsReplace(fileUrl[1..], '/', env.sep);
      if StartsWith(relative, [env.sep]) then Raises(NewError(AssertionFailure(ASSERT_RELATIVE)))
      else Returns(WriteJob(root, outDir, relative, content))
  }

  /** `writeHtmlFile(htmlFile, ...)`: the `.html` file always, the
      `.pageContext.json` file only with a serialised `pageContext`. */
  function WriteHtmlFile(f: HtmlFile, root: string, outDir: string, excluded: seq<Exclusion>, env: PrerenderEnv)
    : (r: Outcome<seq<WriteJob>>)
    ensures r.Returns? ==> StartsWith(f.url, "/") && (f.pageId.None? || !IsExcluded(excluded, f.pageId.value))
    ensures r.Returns? ==> |r.value| == (if f.pageContextSerialized.Some? then 2 else 1)
    ensures r.Returns? ==>
      Write(f.url, HTML_EXTENSION, f.htmlString, f.doNotCreateExtraDirectory, root, outDir, env) == Returns(r.value[0])
    ensures r.Returns? && f.pageContextSerialized.Some? ==>
      Write(f.url, JSON_EXTENSION, f.pageContextSerialized.value, true, root, outDir, env) == Returns(r.value[1])
  {
    if !StartsWith(f.url, "/") then Raises(NewError(AssertionFailure(ASSERT_URL_START)))
    else if f.pageId.Some? && IsExcluded(excluded, f.pageId.value) then Raises(NewError(AssertionFailure(ASSERT_NOT_EXCLUDED)))
    else
      match Write(f.url, HTML_EXTENSION, f.htmlString, f.doNotCreateExtraDirectory, root, outDir, env)
      case Raises(e) => Raises(e)
      case Returns(html) =>
        if f.pageContextSerialized.None? then Returns([html])
        else
          match Write(f.url, JSON_EXTENSION, f.pageContextSerialized.value, true, root, outDir, env)
          case Raises(e) => Raises(e)
          case Returns(json) => Returns([html, json])
  }

  /** The writes of all HTML files, in order. */
  function WritePlan(files: seq<HtmlFile>, root: string, outDir: string, excluded: seq<Exclusion>, env: PrerenderEnv)
    : (r: Outcome<seq<WriteJob>>)
    decreases |files|
  {
    if files == [] then Returns([])
    else
      match WriteHtmlFile(files[0], root, outDir, excluded, env)
      case Raises(e) => Raises(e)
      case Returns(jobs) =>
        match WritePlan(files[1..], root, outDir, excluded, env)
        case Raises(e) => Raises(e)
        case Returns(rest) => Returns(jobs + rest)
  }

  /* -------------------------------------------------------------- prerender */

  /** What a run produces: the files written (or handed to `onPagePrerender`)
      and the page ids warned about. */
  datatype PrerenderOutput = PrerenderOutput(writes: seq<WriteJob>, warnings: seq<string>)

  /** Everything after `routeAndPrerender`, from the collectors `c` and what
      it rendered: the contradiction check, `/404`, the writes and the
      missing-pages warning. */
  function Finish(s: Settings, c: Collected, rendering: Rendering, env: PrerenderEnv): (r: Outcome<PrerenderOutput>)
    requires WellFormedPrerenderEnv(env)
  {
    match WarnContradictoryNoPrerenderList(rendering.pageIds, c.excluded)
    case Raises(e) => Raises(e)
    case Returns(_) =>
      match Prerender404Page(rendering.htmlFiles, env)
      case Raises(e) => Raises(e)
      case Returns(files) =>
        match WritePlan(files, s.root, s.outDir, c.excluded, env)
        case Raises(e) => Raises(e)
        case Returns(writes) =>
          Returns(PrerenderOutput(writes, WarnMissingPages(env.allPageIds, rendering.pageIds, c.excluded, env.isErrorPage, s.partial)))
  }

  /** Everything after collecting, from the collectors `c`. */
  function RenderAndWrite(s: Settings, c: Collected, env: PrerenderEnv): (r: Outcome<PrerenderOutput>)
    requires WellFormedPrerenderEnv(env)
  {
    match RoutePass(c.table, Rendering([], []), s.noExtraDir, env)
    case Raises(e) => Raises(e)
    case Returns(rendering) => Finish(s, c, rendering, env)
  }

  /** `prerender(options)`. Of `callOnBeforePrerenderHook` only the
      loading of the hook is modelled: its usage errors stop the run. */
  function PrerenderSpec(o: PrerenderOptions, cwd: string, cpuCount: nat, env: PrerenderEnv): (r: Outcome<PrerenderOutput>)
    requires WellFormedPrerenderEnv(env)
  {
    match ValidateOptions(WithDefaults(o, cwd, cpuCount))
    case Raises(e) => Raises(e)
    case Returns(s) =>
      match CollectSpec(env)
      case Raises(e) => Raises(e)
      case Returns(c) =>
        match OnBeforePrerenderOf(FindDefaultFiles(env.allPageFiles[PAGE_SERVER]), env.exportsOf)
        case Raises(e) => Raises(e)
        case Returns(_) => RenderAndWrite(s, c, env)
  }
}
