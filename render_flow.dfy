/**
 * What a request to `renderPage` produces, as a value: the fields the
 * framework writes into `pageContext`, or the error thrown. The imperative
 * methods of `RenderPage` are proved to produce exactly this.
 */
module RenderFlow {
  import opened Wrappers
  import opened Strings
  import opened Errors
  import opened JsValues
  import opened HttpResponse
  import opened PageFiles
  import opened LoadPageFiles
  import opened RenderHook
  import opened BeforeRender
  import opened RenderUtils

  /** A `pageContext` key that is either absent or holds a value. */
  datatype Field<T> = Absent | Present(value: T)

  /** What `_parseUrl` reports (`parseUrl` is not part of this model). */
  datatype UrlInfo = UrlInfo(isPageContextRequest: bool, hasBaseUrl: bool)

  /** The parts of `getGlobalContext()` this model reads; the error page id
      and the page routes come from unseen routing code. */
  datatype GlobalContext = GlobalContext(allPageFiles: AllPageFiles, errorPageId: Option<string>, pageRoutesCount: nat)

  /** What `route(pageContext)` returns: a hook error, or the page id (null
      for no match) and the route parameters. */
  datatype RouteResult = RouteHookError(hookError: Thrown) | Routed(pageId: Option<string>, routeParams: map<string, string>)

  /** Everything a request meets outside the modelled code. */
  datatype Env = Env(
    urlParses: string -> bool,                           // `new URL()` accepts the URL
    baseUrl: string,
    parseUrl: string -> UrlInfo,
    globalContext: Completion<GlobalContext>,
    route: Completion<RouteResult>,
    pathDistance: (string, string) -> int,
    isomorphicFiles: string -> Completion<IsomorphicFiles>,
    exportsOf: ExportsOracle,
    beforeRender: string -> BeforeRenderSetup,
    renderHtml: RenderHtmlOracle,
    pageContextOk: JsValue -> bool,                      // `assertPageContextProvidedByUser`
    serialize: string -> string)                         // `serializePageContextClientSide`, per page

  predicate WellFormedGlobal(g: GlobalContext) {
    PageKinds() <= g.allPageFiles.Keys &&
    AllValid(g.allPageFiles[PAGE_CLIENT]) && AllValid(g.allPageFiles[PAGE_SERVER]) &&
    (g.errorPageId.Some? ==> ValidPath(g.errorPageId.value))
  }

  /** What the unseen code guarantees: a base URL starting with `/`
      (`assertBaseUrl`), processed page files, and page ids shaped like paths. */
  predicate WellFormedEnv(env: Env) {
    StartsWith(env.baseUrl, "/") &&
    (env.globalContext.Normal? ==> WellFormedGlobal(env.globalContext.value)) &&
    (env.route.Normal? && env.route.value.Routed? && env.route.value.pageId.Some? ==> ValidPath(env.route.value.pageId.value))
  }

  /** The `pageContext` fields the framework writes. */
  datatype PageContextView = PageContextView(
    url: JsValue,
    isPreRendering: Field<bool>,
    isPageContextRequest: Field<bool>,
    globalContext: Option<GlobalContext>,
    hasComputedUrlProps: bool,
    pageId: Field<Option<string>>,
    routeParams: Field<map<string, string>>,
    is404: Field<bool>,
    pageFiles: Option<PageFilesData>,
    merged: seq<JsValue>,                 // objects merged in by hooks, in order
    err: Field<Expected>,
    httpResponse: Field<Option<HttpResponse>>)

  function Blank(url: JsValue): PageContextView {
    PageContextView(url, Absent, Absent, None, false, Absent, Absent, Absent, None, [], Absent, Absent)
  }

  /** Ready for routing: initialised, with the global context merged in. */
  predicate Ready(pc: PageContextView) {
    pc.isPageContextRequest.Present? && pc.globalContext.Some? && WellFormedGlobal(pc.globalContext.value)
  }

  /** Page files loaded, with a server file to take the render hook from. */
  predicate Prepared(pc: PageContextView) {
    pc.pageFiles.Some? && HasServerFile(pc.pageFiles.value)
  }

  predicate HasServerFile(files: PageFilesData) {
    files.pageServerFile.Some? || files.pageServerFileDefault.Some?
  }

  function OptionToSeq<T>(o: Option<T>): seq<T> {
    if o.Some? then [o.value] else []
  }

  const URL_SHAPE: string := "url.startsWith('/') || url.startsWith('http')"
  const HTTP_RESPONSE_ALREADY_SET: string := "!('httpResponse' in pageContext)"
  const URL_NOT_A_STRING: string := "pageContext.url.endsWith is not a function"
  const NO_PAGE_FOUND: string := "No page found"
  const PAGE_CONTEXT_404_BODY: string := "{\"pageContext404PageDoesNotExist\":true}"
  const SERVER_SIDE_ERROR_BODY: string := "{\"serverSideError\":true}"
  const FAVICON: string := "/favicon.ico"

  /** A thrown value `logError` rejects. */
  predicate IsPrimitive(e: Expected) {
    e.Rethrow? && e.thrown.ThrownPrimitive?
  }

  /** `initializePageContext(pageContextInit)` */
  function InitializePageContextSpec(init: PageContextInit, env: Env): (r: Outcome<PageContextView>)
    requires WellFormedEnv(env)
    ensures r.Returns? && r.value.httpResponse.Absent? ==> Ready(r.value)
  {
    var url := InitUrl(init);
    if !url.JsString? then Raises(NewError(TypeError(URL_NOT_A_STRING)))
    else
      var pc := Blank(url).(isPreRendering := Present(false));
      if EndsWith(url.s, FAVICON) then Returns(pc.(httpResponse := Present(None)))
      else if !(StartsWith(url.s, "/") || StartsWith(url.s, "http")) then Raises(NewError(AssertionFailure(URL_SHAPE)))
      else
        var info := env.parseUrl(url.s);
        if !info.hasBaseUrl then Returns(pc.(httpResponse := Present(None)))
        else
          match env.globalContext
          case Threw(t) => Raises(Rethrow(t))
          case Normal(g) =>
            Returns(pc.(isPageContextRequest := Present(info.isPageContextRequest), globalContext := Some(g),
                        hasComputedUrlProps := true))
  }

  /** Loading the page's files and running its `onBeforeRender()` hooks. */
  function PreparePageSpec(pc: PageContextView, pageId: string, env: Env): (r: Outcome<PageContextView>)
    requires Ready(pc) && ValidPath(pageId)
    ensures r.Returns? ==> Ready(r.value) && Prepared(r.value)
    ensures r.Returns? ==>
      r.value == pc.(pageFiles := r.value.pageFiles, merged := r.value.merged) && |pc.merged| <= |r.value.merged|
  {
    var g := pc.globalContext.value;
    match LoadPageFilesOf(g.allPageFiles, pageId, env.pathDistance, env.isomorphicFiles(pageId), env.exportsOf)
    case Raises(e) => Raises(e)
    case Returns(files) => BeforeRenderOf(pc.(pageFiles := Some(files)), pageId, env)
  }

  /** `executeOnBeforeRenderHooks(pageContext)` once the page files are
      merged in: what the hooks return is merged in after them. */
  function BeforeRenderOf(pc: PageContextView, pageId: string, env: Env): (r: Outcome<PageContextView>)
    requires Ready(pc) && pc.pageFiles.Some?
  {
    match OnBeforeRenderSpec(false, pc.isPageContextRequest.value, pc.pageFiles.value.isomorphic.hasOnBeforeRenderHook,
                             env.beforeRender(pageId))
    case Raises(e) => Raises(e)
    case Returns(added) => Returns(pc.(merged := pc.merged + OptionToSeq(added)))
  }

  /** The result of `executeRenderHook` on a prepared page. */
  function RenderHookOf(files: PageFilesData, env: Env): (r: Outcome<RenderHookOutput>)
    requires HasServerFile(files)
  {
    ExecuteRenderHook(files.pageServerFile, files.pageServerFileDefault, env.renderHtml, env.pageContextOk)
  }

  /** `render500Page(pageContextInit, err)`; `err` was logged just before. */
  function Render500Spec(init: PageContextInit, err: Expected, env: Env): (r: Outcome<PageContextView>)
    requires WellFormedEnv(env) && !IsPrimitive(err)
  {
    match InitializePageContextSpec(init, env)
    case Raises(e) => Raises(e)
    case Returns(pc) =>
      if pc.httpResponse.Present? then Raises(NewError(AssertionFailure(HTTP_RESPONSE_ALREADY_SET)))
      else Render500From(pc, err, env)
  }

  /** `render500Page` once `pageContext` is initialised: it is marked as
      the answer to an error, then answered. */
  function Render500From(pc: PageContextView, err: Expected, env: Env): (r: Outcome<PageContextView>)
    requires Ready(pc)
  {
    Answer500(pc.(is404 := Present(false), err := Present(err), httpResponse := Present(None), routeParams := Present(map[])), env)
  }

  /** The answer of `render500Page`: `{serverSideError: true}` for a data
      request, nothing without an error page, the error page otherwise. */
  function Answer500(pc: PageContextView, env: Env): (r: Outcome<PageContextView>)
    requires Ready(pc) && pc.httpResponse == Present(None)
  {
    var g := pc.globalContext.value;
    if pc.isPageContextRequest.value then
      Returns(pc.(httpResponse := Present(CreateHttpResponseObject(Some(HtmlString(SERVER_SIDE_ERROR_BODY)), 500, None, true))))
    else if g.errorPageId.None? then Returns(pc)
    else RenderErrorPageSpec(pc.(pageId := Present(g.errorPageId)), g.errorPageId.value, env)
  }

  /** Rendering the error page of `render500Page`: its files and hooks,
      then its `render()` hook. */
  function RenderErrorPageSpec(pc: PageContextView, pageId: string, env: Env): (r: Outcome<PageContextView>)
    requires Ready(pc) && ValidPath(pageId) && pc.httpResponse == Present(None)
  {
    match PreparePageSpec(pc, pageId, env)
    case Raises(e) => Raises(e)
    case Returns(pc1) => ErrorPageAnswerSpec(pc1, env)
  }

  /** The prepared error page's `render()` hook, with status 500; a failing
      hook leaves the response null. */
  function ErrorPageAnswerSpec(pc: PageContextView, env: Env): (r: Outcome<PageContextView>)
    requires Ready(pc) && Prepared(pc)
  {
    match RenderHookOf(pc.pageFiles.value, env)
    case Raises(e) => Raises(e)
    case Returns(out) =>
      var pc1 := pc.(merged := pc.merged + OptionToSeq(out.pageContextProvided));
      match out.result
      case RenderHookError(_, _, _) => Returns(pc1)
      case Rendered(htmlRender, renderFilePath) =>
        Returns(pc1.(httpResponse := Present(CreateHttpResponseObject(htmlRender, 500, Some(renderFilePath), false))))
  }

  /** `logError(err)` followed by `render500Page(pageContextInit, err)`. */
  function LogThenRender500Spec(init: PageContextInit, err: Thrown, env: Env): (r: Outcome<PageContextView>)
    requires WellFormedEnv(env)
  {
    if err.ThrownPrimitive? then Raises(NewError(UsageError(PRIMITIVE_THROWN)))
    else Render500Spec(init, Rethrow(err), env)
  }

  /** How a stage of `renderPage` ends: it settles the request, or it meets
      a hook error, which `renderPage` logs and hands to `render500Page`. */
  datatype Handled = Settled(outcome: Outcome<PageContextView>) | HookFailed(hookError: Thrown)

  /** Rendering a routed page (or the error page for a 404) with a status code. */
  function RenderRoutedSpec(pc: PageContextView, pageId: string, statusCode: int, env: Env): (r: Handled)
    requires Ready(pc) && ValidPath(pageId)
  {
    match PreparePageSpec(pc, pageId, env)
    case Raises(e) => Settled(Raises(e))
    case Returns(pc1) => RespondSpec(pc1, pageId, statusCode, env)
  }

  /** The answer to a prepared page: the serialised `pageContext` for a data
      request, the `render()` hook's HTML otherwise. */
  function RespondSpec(pc: PageContextView, pageId: string, statusCode: int, env: Env): (r: Handled)
    requires Ready(pc) && Prepared(pc)
  {
    if pc.isPageContextRequest.value then
      Settled(Returns(pc.(httpResponse := Present(CreateHttpResponseObject(Some(HtmlString(env.serialize(pageId))), 200, None, true)))))
    else
      match RenderHookOf(pc.pageFiles.value, env)
      case Raises(e) => Settled(Raises(e))
      case Returns(out) =>
        match out.result
        case RenderHookError(err, _, _) => HookFailed(err)
        case Rendered(htmlRender, renderFilePath) =>
          Settled(Returns(pc.(merged := pc.merged + OptionToSeq(out.pageContextProvided),
                              httpResponse := Present(CreateHttpResponseObject(htmlRender, statusCode, Some(renderFilePath), false)))))
  }

  /** Routing and the 404 handling of `renderPage`. */
  function RouteSpec(pc: PageContextView, env: Env): (r: Handled)
    requires WellFormedEnv(env) && Ready(pc) && pc.httpResponse.Absent?
  {
    match env.route
    case Threw(t) => Settled(Raises(Rethrow(t)))
    case Normal(RouteHookError(err)) => HookFailed(err)
    case Normal(Routed(pageId, routeParams)) =>
      var pc1 := pc.(pageId := Present(pageId), routeParams := Present(routeParams));
      if pageId.Some? then RenderRoutedSpec(pc1, pageId.value, 200, env)
      else NoMatchSpec(pc1, env)
  }

  /** No route matched (`_pageId` is null): `warn404`, then the error page
      with `is404`, or a bare answer when there is no error page. */
  function NoMatchSpec(pc: PageContextView, env: Env): (r: Handled)
    requires Ready(pc) && pc.httpResponse.Absent?
  {
    var g := pc.globalContext.value;
    var isPageContextRequest := pc.isPageContextRequest.value;
    if !isPageContextRequest && g.pageRoutesCount == 0 then Settled(Raises(NewError(UsageError(NO_PAGE_FOUND))))
    else if g.errorPageId.None? then
      if isPageContextRequest then
        Settled(Returns(pc.(httpResponse := Present(CreateHttpResponseObject(Some(HtmlString(PAGE_CONTEXT_404_BODY)), 200, None, true)))))
      else Settled(Returns(pc.(httpResponse := Present(None))))
    else
      RenderRoutedSpec(pc.(pageId := Present(g.errorPageId), is404 := Present(true)), g.errorPageId.value,
                       if isPageContextRequest then 200 else 404, env)
  }

  /** `renderPage(pageContextInit)`, called with `argCount` arguments. */
  function RenderPageSpec(init: PageContextInit, argCount: nat, env: Env): (r: Outcome<PageContextView>)
    requires WellFormedEnv(env)
  {
    match AssertArguments(init, argCount, env.urlParses)
    case Raises(e) => Raises(e)
    case Returns(_) =>
      match InitializePageContextSpec(init, env)
      case Raises(e) => Raises(e)
      case Returns(pc) =>
        if pc.httpResponse.Present? then Returns(pc)
        else
          match RouteSpec(pc, env)
          case Settled(o) => o
          case HookFailed(err) => LogThenRender500Spec(init, err, env)
  }

  /** The error `renderPage` hands to `logError` before `render500Page`. */
  function LoggedErrorSpec(init: PageContextInit, argCount: nat, env: Env): Option<Thrown>
    requires WellFormedEnv(env)
  {
    if AssertArguments(init, argCount, env.urlParses).Raises? then None
    else
      match InitializePageContextSpec(init, env)
      case Raises(_) => None
      case Returns(pc) =>
        if pc.httpResponse.Present? then None
        else
          match RouteSpec(pc, env)
          case Settled(_) => None
          case HookFailed(err) => Some(err)
  }

  /** The `pageContext` of the last resort: `pageContextInit` with a null
      response and the second error. */
  function FallbackView(init: PageContextInit, err2: Expected): PageContextView {
    Blank(InitUrl(init)).(err := Present(err2), httpResponse := Present(None))
  }

  /** `renderPageWithoutThrowing(pageContextInit)` as written: `logError`
      runs outside the inner `try`. */
  function RenderPageWithoutThrowingSpec(init: PageContextInit, argCount: nat, env: Env): (r: Outcome<PageContextView>)
    requires WellFormedEnv(env)
  {
    match RenderPageSpec(init, argCount, env)
    case Returns(pc) => Returns(pc)
    case Raises(e) => RecoverSpec(init, e, env)
  }

  /** The `catch` of `renderPageWithoutThrowing` as written: `logError(err)`
      rejects a primitive; otherwise `render500Page`, and the fallback
      `pageContext` if that throws too. */
  function RecoverSpec(init: PageContextInit, e: Expected, env: Env): (r: Outcome<PageContextView>)
    requires WellFormedEnv(env)
  {
    if IsPrimitive(e) then Raises(NewError(UsageError(PRIMITIVE_THROWN)))
    else Fallback500(init, e, env)
  }

  /** `render500Page`, with the fallback `pageContext` when it throws. */
  function Fallback500(init: PageContextInit, e: Expected, env: Env): (r: Outcome<PageContextView>)
    requires WellFormedEnv(env) && !IsPrimitive(e)
  {
    match Render500Spec(init, e, env)
    case Returns(pc) => Returns(pc)
    case Raises(e2) => Returns(FallbackView(init, e2))
  }

  /** The same with `logError` inside the inner `try`, as the function's
      own comment promises: a primitive ends in the fallback as well. */
  function RenderPageWithoutThrowingCorrected(init: PageContextInit, argCount: nat, env: Env): (r: Outcome<PageContextView>)
    requires WellFormedEnv(env)
    ensures r.Returns?
    ensures RenderPageSpec(init, argCount, env).Returns? ==> r == RenderPageSpec(init, argCount, env)
  {
    match RenderPageSpec(init, argCount, env)
    case Returns(pc) => Returns(pc)
    case Raises(e) =>
      if IsPrimitive(e) then Returns(FallbackView(init, NewError(UsageError(PRIMITIVE_THROWN))))
      else Fallback500(init, e, env)
  }
}
