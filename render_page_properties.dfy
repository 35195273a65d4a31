/**
 * What `renderPage` promises its caller, stated over the specification:
 * status codes, 404 handling, the shape of `pageContext.json` answers,
 * and when `renderPageWithoutThrowing` can still throw.
 */
module RenderPageProperties {
  import opened Wrappers
  import opened Strings
  import opened Errors
  import opened JsValues
  import opened HttpResponse
  import opened PageFiles
  import opened RenderUtils
  import opened RenderFlow
  import opened LoadPageFiles
  import opened BeforeRender
  import opened RenderHook

  /** `initializePageContext`: the URL must be a string; a favicon request,
      or a URL outside the base URL, ends with a null response and no global
      context; otherwise the page is ready for routing. */
  lemma InitializeOutcome(init: PageContextInit, env: Env)
    requires WellFormedEnv(env)
    requires InitializePageContextSpec(init, env).Returns?
    ensures var r := InitializePageContextSpec(init, env).value;
      InitUrl(init).JsString? && r.url == InitUrl(init) &&
      r.isPreRendering == Present(false) && r.pageId.Absent? && r.err.Absent? && r.pageFiles.None?
    ensures var r := InitializePageContextSpec(init, env).value;
      r.httpResponse.Present? <==> EndsWith(InitUrl(init).s, FAVICON) || !env.parseUrl(InitUrl(init).s).hasBaseUrl
    ensures var r := InitializePageContextSpec(init, env).value;
      r.httpResponse.Present? ==> r.httpResponse == Present(None) && r.globalContext.None? && r.isPageContextRequest.Absent?
    ensures var r := InitializePageContextSpec(init, env).value;
      r.httpResponse.Absent? ==>
        Ready(r) && r.hasComputedUrlProps && r.merged == [] && r.is404.Absent? && r.routeParams.Absent? &&
        env.globalContext == Normal(r.globalContext.value) &&
        r.isPageContextRequest == Present(env.parseUrl(InitUrl(init).s).isPageContextRequest)
  {
    var url := InitUrl(init);
    if !EndsWith(url.s, FAVICON) && env.parseUrl(url.s).hasBaseUrl {
      assert InitializePageContextSpec(init, env) ==
        Returns(Blank(url).(isPreRendering := Present(false), isPageContextRequest := Present(env.parseUrl(url.s).isPageContextRequest),
                            globalContext := Some(env.globalContext.value), hasComputedUrlProps := true));
    }
  }

  /** The error page of `render500Page` is answered with status 500, and
      with a null response exactly when its `render()` hook failed or
      rendered nothing; the other fields are kept. */
  lemma ErrorPageIs500(pc: PageContextView, pageId: string, env: Env)
    requires Ready(pc) && ValidPath(pageId) && pc.httpResponse == Present(None)
    requires RenderErrorPageSpec(pc, pageId, env).Returns?
    ensures var r := RenderErrorPageSpec(pc, pageId, env).value;
      r.err == pc.err && r.is404 == pc.is404 && r.pageId == pc.pageId &&
      r.isPageContextRequest == pc.isPageContextRequest && r.globalContext == pc.globalContext &&
      Prepared(r) && RenderHookOf(r.pageFiles.value, env).Returns? && r.httpResponse.Present? &&
      (r.httpResponse == Present(None) <==>
         RenderHookOf(r.pageFiles.value, env).value.result.RenderHookError? ||
         RenderHookOf(r.pageFiles.value, env).value.result.htmlRender.None?) &&
      (r.httpResponse.value.Some? ==> r.httpResponse.value.value.statusCode == 500)
  {
    var pc1 := PreparePageSpec(pc, pageId, env).value;
    assert pc1.pageFiles == RenderErrorPageSpec(pc, pageId, env).value.pageFiles;
  }

  /** `render500Page`: the page carries the error and `is404: false`; a data
      request gets `{serverSideError: true}` with status 500; without an
      error page there is no response; any response is a 500. */
  lemma Render500Outcome(init: PageContextInit, err: Expected, env: Env)
    requires WellFormedEnv(env) && !IsPrimitive(err)
    requires Render500Spec(init, err, env).Returns?
    ensures var r := Render500Spec(init, err, env).value;
      r.err == Present(err) && r.is404 == Present(false) &&
      r.isPageContextRequest.Present? && r.globalContext.Some? && r.httpResponse.Present?
    ensures var r := Render500Spec(init, err, env).value;
      r.isPageContextRequest.value ==>
        r.httpResponse == Present(CreateHttpResponseObject(Some(HtmlString(SERVER_SIDE_ERROR_BODY)), 500, None, true))
    ensures var r := Render500Spec(init, err, env).value;
      !r.isPageContextRequest.value && r.globalContext.value.errorPageId.None? ==> r.httpResponse == Present(None)
    ensures var r := Render500Spec(init, err, env).value;
      r.httpResponse.value.Some? ==> r.httpResponse.value.value.statusCode == 500
    ensures var r := Render500Spec(init, err, env).value;
      !r.isPageContextRequest.value && r.globalContext.value.errorPageId.Some? ==>
        r.pageId == Present(r.globalContext.value.errorPageId) && Prepared(r) &&
        RenderHookOf(r.pageFiles.value, env).Returns? &&
        (r.httpResponse == Present(None) <==>
           RenderHookOf(r.pageFiles.value, env).value.result.RenderHookError? ||
           RenderHookOf(r.pageFiles.value, env).value.result.htmlRender.None?)
  {
    var pc := InitializePageContextSpec(init, env).value;
    var g := pc.globalContext.value;
    var pc1 := pc.(is404 := Present(false), err := Present(err), httpResponse := Present(None), routeParams := Present(map[]));
    assert Render500Spec(init, err, env) == Render500From(pc, err, env);
    if !pc.isPageContextRequest.value && g.errorPageId.Some? {
      var pc2 := pc1.(pageId := Present(g.errorPageId));
      assert Render500Spec(init, err, env) == RenderErrorPageSpec(pc2, g.errorPageId.value, env);
      ErrorPageIs500(pc2, g.errorPageId.value, env);
    }
  }

  /** Rendering a routed page, when it settles with a `pageContext`, leaves
      `_err` alone, keeps the page id and `is404`, answers a data request
      with the serialised `pageContext` and status 200, and an HTML request
      with the given status. */
  lemma RoutedOutcome(pc: PageContextView, pageId: string, statusCode: int, env: Env)
    requires Ready(pc) && ValidPath(pageId)
    ensures var h := RenderRoutedSpec(pc, pageId, statusCode, env);
      h.Settled? && h.outcome.Returns? ==>
        var r := h.outcome.value;
        r.err == pc.err && r.pageId == pc.pageId && r.is404 == pc.is404 && r.routeParams == pc.routeParams &&
        r.isPageContextRequest == pc.isPageContextRequest && r.httpResponse.Present? &&
        (pc.isPageContextRequest.value ==>
           r.httpResponse == Present(CreateHttpResponseObject(Some(HtmlString(env.serialize(pageId))), 200, None, true))) &&
        (!pc.isPageContextRequest.value && r.httpResponse.value.Some? ==>
           r.httpResponse.value.value.statusCode == statusCode &&
           r.httpResponse.value.value.contentType == CONTENT_TYPE_HTML)
  {
    if PreparePageSpec(pc, pageId, env).Returns? {
      var pc1 := PreparePageSpec(pc, pageId, env).value;
      assert RenderRoutedSpec(pc, pageId, statusCode, env) == RespondSpec(pc1, pageId, statusCode, env);
    }
  }

  /** Routing, when it settles with a `pageContext`, leaves `_err` alone,
      sets `_pageId`, and answers a data request with JSON and status 200:
      the serialised `pageContext`, or the 404 marker when no page matched
      and there is no error page. */
  lemma RouteOutcome(pc: PageContextView, env: Env)
    requires WellFormedEnv(env) && Ready(pc) && pc.httpResponse.Absent?
    ensures var h := RouteSpec(pc, env);
      h.Settled? && h.outcome.Returns? ==>
        var r := h.outcome.value;
        r.err == pc.err && r.isPageContextRequest == pc.isPageContextRequest && r.pageId.Present? &&
        (pc.isPageContextRequest.value ==>
           r.httpResponse == Present(CreateHttpResponseObject(
             Some(HtmlString(if r.pageId.value.Some? then env.serialize(r.pageId.value.value) else PAGE_CONTEXT_404_BODY)),
             200, None, true)))
  {
    if env.route.Normal? && env.route.value.Routed? {
      var routed := env.route.value;
      var pc1 := pc.(pageId := Present(routed.pageId), routeParams := Present(routed.routeParams));
      if routed.pageId.Some? {
        RoutedOutcome(pc1, routed.pageId.value, 200, env);
      } else {
        var g := pc.globalContext.value;
        if g.errorPageId.Some? {
          var statusCode := if pc.isPageContextRequest.value then 200 else 404;
          RoutedOutcome(pc1.(pageId := Present(g.errorPageId), is404 := Present(true)), g.errorPageId.value, statusCode, env);
        }
      }
    }
  }

  /** When routing meets a hook error, `renderPage` is `render500Page`
      for it, and the `pageContext` it returns carries that error. */
  lemma HookFailureIs500(init: PageContextInit, argCount: nat, env: Env, pc0: PageContextView)
    requires WellFormedEnv(env) && AssertArguments(init, argCount, env.urlParses).Returns?
    requires InitializePageContextSpec(init, env) == Returns(pc0) && pc0.httpResponse.Absent?
    requires RouteSpec(pc0, env).HookFailed?
    ensures var t := RouteSpec(pc0, env).hookError;
      RenderPageSpec(init, argCount, env) == LogThenRender500Spec(init, t, env) &&
      LoggedErrorSpec(init, argCount, env) == Some(t)
    ensures RenderPageSpec(init, argCount, env).Returns? ==>
      RenderPageSpec(init, argCount, env).value.err == Present(Rethrow(RouteSpec(pc0, env).hookError))
  {
    var t := RouteSpec(pc0, env).hookError;
    if t.ThrownObject? {
      assert LogThenRender500Spec(init, t, env) == Render500Spec(init, Rethrow(t), env);
      if Render500Spec(init, Rethrow(t), env).Returns? {
        Render500Outcome(init, Rethrow(t), env);
      }
    }
  }

  /** A `pageContext` carrying an error is `render500Page`'s, for exactly
      the hook error that was logged. */
  lemma ErrorMeansLogged(init: PageContextInit, argCount: nat, env: Env)
    requires WellFormedEnv(env)
    requires RenderPageSpec(init, argCount, env).Returns?
    requires RenderPageSpec(init, argCount, env).value.err.Present?
    ensures LoggedErrorSpec(init, argCount, env).Some? && LoggedErrorSpec(init, argCount, env).value.ThrownObject?
    ensures RenderPageSpec(init, argCount, env) == Render500Spec(init, Rethrow(LoggedErrorSpec(init, argCount, env).value), env)
  {
    InitializeOutcome(init, env);
    var pc0 := InitializePageContextSpec(init, env).value;
    if pc0.httpResponse.Absent? {
      RouteOutcome(pc0, env);
    }
  }

  /** A favicon request, or a URL outside the base URL, is answered with a
      null response before any routing. */
  lemma NoRoutingForFaviconOrForeignUrl(init: PageContextInit, argCount: nat, env: Env, url: string)
    requires WellFormedEnv(env) && AssertArguments(init, argCount, env.urlParses) == Returns(url)
    requires EndsWith(url, FAVICON) || !env.parseUrl(url).hasBaseUrl
    ensures RenderPageSpec(init, argCount, env).Returns?
    ensures var pc := RenderPageSpec(init, argCount, env).value;
      pc.httpResponse == Present(None) && pc.pageId.Absent? && pc.globalContext.None? && pc.url == JsString(url)
  {
    var pc0 := Blank(JsString(url)).(isPreRendering := Present(false), httpResponse := Present(None));
    assert InitializePageContextSpec(init, env) == Returns(pc0);
  }

  /** A matched route renders that page with status 200. */
  lemma MatchedRouteIs200(init: PageContextInit, argCount: nat, env: Env, pageId: string, routeParams: map<string, string>)
    requires WellFormedEnv(env) && env.route == Normal(Routed(Some(pageId), routeParams))
    requires RenderPageSpec(init, argCount, env).Returns?
    ensures var pc := RenderPageSpec(init, argCount, env).value;
      pc.err.Absent? && pc.isPageContextRequest.Present? ==>
        pc.pageId == Present(Some(pageId)) && pc.routeParams == Present(routeParams) && pc.is404.Absent? &&
        pc.httpResponse.Present? &&
        (pc.httpResponse.value.Some? ==> pc.httpResponse.value.value.statusCode == 200)
  {
    var pc0 := InitializePageContextSpec(init, env).value;
    if pc0.httpResponse.Absent? {
      var pc1 := pc0.(pageId := Present(Some(pageId)), routeParams := Present(routeParams));
      assert RouteSpec(pc0, env) == RenderRoutedSpec(pc1, pageId, 200, env);
      RoutedOutcome(pc1, pageId, 200, env);
      if RouteSpec(pc0, env).HookFailed? {
        HookFailureIs500(init, argCount, env, pc0);
      }
    }
  }

  /** A routed page whose files load, whose `onBeforeRender()` hooks
      succeed and (for an HTML request) whose `render()` hook renders HTML
      is answered with the given status. */
  lemma RoutedPageAnswers(pc: PageContextView, pageId: string, statusCode: int, env: Env, files: PageFilesData,
                          html: HtmlRender, renderFilePath: string)
    requires Ready(pc) && ValidPath(pageId)
    requires LoadPageFilesOf(pc.globalContext.value.allPageFiles, pageId, env.pathDistance, env.isomorphicFiles(pageId),
                             env.exportsOf) == Returns(files)
    requires OnBeforeRenderSpec(false, pc.isPageContextRequest.value, files.isomorphic.hasOnBeforeRenderHook,
                                env.beforeRender(pageId)).Returns?
    requires !pc.isPageContextRequest.value ==>
      HasServerFile(files) && RenderHookOf(files, env).Returns? &&
      RenderHookOf(files, env).value.result == Rendered(Some(html), renderFilePath)
    ensures var h := RenderRoutedSpec(pc, pageId, statusCode, env);
      h.Settled? && h.outcome.Returns? &&
      h.outcome.value.err == pc.err && h.outcome.value.pageId == pc.pageId &&
      h.outcome.value.routeParams == pc.routeParams && h.outcome.value.is404 == pc.is404 &&
      h.outcome.value.httpResponse == Present(Some(
        if pc.isPageContextRequest.value
        then HttpResponse(200, CONTENT_TYPE_JSON, HtmlString(env.serialize(pageId)), None)
        else HttpResponse(statusCode, CONTENT_TYPE_HTML, html, Some(renderFilePath))))
  {
    var added := OnBeforeRenderSpec(false, pc.isPageContextRequest.value, files.isomorphic.hasOnBeforeRenderHook,
                                    env.beforeRender(pageId)).value;
    var pc1 := pc.(pageFiles := Some(files), merged := pc.merged + OptionToSeq(added));
    assert PreparePageSpec(pc, pageId, env) == Returns(pc1);
  }

  /** A matched route whose page files load, whose `onBeforeRender()` hooks
      succeed and (for an HTML request) whose `render()` hook renders HTML
      is answered with status 200: the HTML, or for a data request the
      serialised `pageContext` as JSON. */
  lemma MatchedRouteAnswers200(init: PageContextInit, argCount: nat, env: Env, url: string, g: GlobalContext,
                               pageId: string, routeParams: map<string, string>, files: PageFilesData,
                               html: HtmlRender, renderFilePath: string)
    requires WellFormedEnv(env) && AssertArguments(init, argCount, env.urlParses) == Returns(url)
    requires !EndsWith(url, FAVICON) && StartsWith(url, "/") && env.parseUrl(url).hasBaseUrl
    requires env.globalContext == Normal(g) && env.route == Normal(Routed(Some(pageId), routeParams))
    requires LoadPageFilesOf(g.allPageFiles, pageId, env.pathDistance, env.isomorphicFiles(pageId), env.exportsOf) == Returns(files)
    requires OnBeforeRenderSpec(false, env.parseUrl(url).isPageContextRequest, files.isomorphic.hasOnBeforeRenderHook,
                                env.beforeRender(pageId)).Returns?
    requires !env.parseUrl(url).isPageContextRequest ==>
      HasServerFile(files) && RenderHookOf(files, env).Returns? &&
      RenderHookOf(files, env).value.result == Rendered(Some(html), renderFilePath)
    ensures RenderPageSpec(init, argCount, env).Returns?
    ensures var pc := RenderPageSpec(init, argCount, env).value;
      pc.err.Absent? && pc.pageId == Present(Some(pageId)) && pc.routeParams == Present(routeParams) && pc.is404.Absent? &&
      pc.httpResponse == Present(Some(
        if env.parseUrl(url).isPageContextRequest
        then HttpResponse(200, CONTENT_TYPE_JSON, HtmlString(env.serialize(pageId)), None)
        else HttpResponse(200, CONTENT_TYPE_HTML, html, Some(renderFilePath))))
  {
    var info := env.parseUrl(url);
    var pc0 := Blank(JsString(url)).(isPreRendering := Present(false), isPageContextRequest := Present(info.isPageContextRequest),
                                      globalContext := Some(g), hasComputedUrlProps := true);
    assert InitializePageContextSpec(init, env) == Returns(pc0);
    var pc1 := pc0.(pageId := Present(Some(pageId)), routeParams := Present(routeParams));
    assert RouteSpec(pc0, env) == RenderRoutedSpec(pc1, pageId, 200, env);
    RoutedPageAnswers(pc1, pageId, 200, env, files, html, renderFilePath);
  }

  /** With no matching route and an error page, the error page is rendered
      with `is404` set, status 404 for HTML and 200 for `pageContext.json`. */
  lemma NoMatchRendersErrorPage(init: PageContextInit, argCount: nat, env: Env, errorPageId: string)
    requires WellFormedEnv(env) && env.route.Normal? && env.route.value.Routed? && env.route.value.pageId.None?
    requires env.globalContext.Normal? && env.globalContext.value.errorPageId == Some(errorPageId)
    requires RenderPageSpec(init, argCount, env).Returns?
    ensures var pc := RenderPageSpec(init, argCount, env).value;
      pc.err.Absent? && pc.isPageContextRequest.Present? ==>
        pc.pageId == Present(Some(errorPageId)) && pc.is404 == Present(true) && pc.httpResponse.Present? &&
        (pc.httpResponse.value.Some? ==>
           pc.httpResponse.value.value.statusCode == if pc.isPageContextRequest.value then 200 else 404)
  {
    var pc0 := InitializePageContextSpec(init, env).value;
    if pc0.httpResponse.Absent? {
      var pc1 := pc0.(pageId := Present(None), routeParams := Present(env.route.value.routeParams));
      assert RouteSpec(pc0, env) == NoMatchSpec(pc1, env);
      var statusCode := if pc0.isPageContextRequest.value then 200 else 404;
      RoutedOutcome(pc1.(pageId := Present(Some(errorPageId)), is404 := Present(true)), errorPageId, statusCode, env);
      if RouteSpec(pc0, env).HookFailed? {
        HookFailureIs500(init, argCount, env, pc0);
      }
    }
  }

  /** With no matching route and no error page, an HTML request gets a null
      response and a `pageContext.json` request gets `{pageContext404PageDoesNotExist: true}`. */
  lemma NoMatchWithoutErrorPage(init: PageContextInit, argCount: nat, env: Env)
    requires WellFormedEnv(env) && env.route.Normal? && env.route.value.Routed? && env.route.value.pageId.None?
    requires env.globalContext.Normal? && env.globalContext.value.errorPageId.None?
    requires RenderPageSpec(init, argCount, env).Returns?
    ensures var pc := RenderPageSpec(init, argCount, env).value;
      pc.isPageContextRequest.Present? ==>
        pc.pageId == Present(None) && pc.err.Absent? &&
        pc.httpResponse == Present(
          if pc.isPageContextRequest.value
          then CreateHttpResponseObject(Some(HtmlString(PAGE_CONTEXT_404_BODY)), 200, None, true)
          else None)
  {
    var pc0 := InitializePageContextSpec(init, env).value;
    if pc0.httpResponse.Absent? {
      var pc1 := pc0.(pageId := Present(None), routeParams := Present(env.route.value.routeParams));
      assert RouteSpec(pc0, env) == NoMatchSpec(pc1, env);
    } else {
      InitializeOutcome(init, env);
    }
  }

  /** `warn404`: an HTML request that matches nothing while the app has no
      page routes at all is a usage error. */
  lemma NoPageAtAllIsUsageError(init: PageContextInit, argCount: nat, env: Env, url: string, g: GlobalContext)
    requires WellFormedEnv(env) && AssertArguments(init, argCount, env.urlParses) == Returns(url)
    requires !EndsWith(url, FAVICON) && env.parseUrl(url) == UrlInfo(false, true)
    requires env.globalContext == Normal(g) && g.pageRoutesCount == 0
    requires env.route.Normal? && env.route.value.Routed? && env.route.value.pageId.None?
    ensures RenderPageSpec(init, argCount, env) == Raises(NewError(UsageError(NO_PAGE_FOUND)))
  {
    var pc0 := Blank(JsString(url)).(isPreRendering := Present(false), isPageContextRequest := Present(false),
                                      globalContext := Some(g), hasComputedUrlProps := true);
    assert InitializePageContextSpec(init, env) == Returns(pc0);
    var pc1 := pc0.(pageId := Present(None), routeParams := Present(env.route.value.routeParams));
    assert RouteSpec(pc0, env) == NoMatchSpec(pc1, env);
  }

  /** A `pageContext.json` request always gets a JSON response: the
      serialised `pageContext` (or the 404 marker) with status 200, or
      `{serverSideError: true}` with status 500 after an error. */
  lemma DataRequestGetsJson(init: PageContextInit, argCount: nat, env: Env)
    requires WellFormedEnv(env)
    requires RenderPageSpec(init, argCount, env).Returns?
    requires RenderPageSpec(init, argCount, env).value.isPageContextRequest == Present(true)
    ensures var pc := RenderPageSpec(init, argCount, env).value;
      pc.httpResponse.Present? && pc.httpResponse.value.Some? &&
      pc.httpResponse.value.value.contentType == CONTENT_TYPE_JSON
    ensures var pc := RenderPageSpec(init, argCount, env).value;
      var response := pc.httpResponse.value.value;
      (pc.err.Present? ==>
         response.statusCode == 500 && response.htmlRender == HtmlString(SERVER_SIDE_ERROR_BODY)) &&
      (pc.err.Absent? ==>
         response.statusCode == 200 && pc.pageId.Present? &&
         response.htmlRender ==
           HtmlString(if pc.pageId.value.Some? then env.serialize(pc.pageId.value.value) else PAGE_CONTEXT_404_BODY))
  {
    InitializeOutcome(init, env);
    var pc0 := InitializePageContextSpec(init, env).value;
    if pc0.httpResponse.Absent? {
      RouteOutcome(pc0, env);
      if RenderPageSpec(init, argCount, env).value.err.Present? {
        ErrorMeansLogged(init, argCount, env);
        Render500Outcome(init, Rethrow(LoggedErrorSpec(init, argCount, env).value), env);
      }
    }
  }

  /** A `pageContext` carrying an error holds exactly the hook error that was
      logged, and any response it has is a 500. */
  lemma ErrorMeansLoggedAnd500(init: PageContextInit, argCount: nat, env: Env)
    requires WellFormedEnv(env)
    requires RenderPageSpec(init, argCount, env).Returns?
    requires RenderPageSpec(init, argCount, env).value.err.Present?
    ensures var pc := RenderPageSpec(init, argCount, env).value;
      LoggedErrorSpec(init, argCount, env).Some? &&
      pc.err == Present(Rethrow(LoggedErrorSpec(init, argCount, env).value)) && pc.httpResponse.Present? &&
      (pc.httpResponse.value.Some? ==> pc.httpResponse.value.value.statusCode == 500)
  {
    ErrorMeansLogged(init, argCount, env);
    Render500Outcome(init, Rethrow(LoggedErrorSpec(init, argCount, env).value), env);
  }

  /** `renderPageWithoutThrowing` as written throws exactly when
      `renderPage` threw a primitive value: `logError` rejects it outside
      any `try`. */
  lemma WithoutThrowingRaisesOnlyOnPrimitive(init: PageContextInit, argCount: nat, env: Env)
    requires WellFormedEnv(env)
    ensures RenderPageWithoutThrowingSpec(init, argCount, env).Raises? <==>
      RenderPageSpec(init, argCount, env).Raises? && IsPrimitive(RenderPageSpec(init, argCount, env).error)
    ensures RenderPageWithoutThrowingSpec(init, argCount, env).Raises? ==>
      RenderPageWithoutThrowingSpec(init, argCount, env) == Raises(NewError(UsageError(PRIMITIVE_THROWN)))
  {
  }

  /** A concrete request on which it does throw: `getGlobalContext()`
      rejects with the string "boom". */
  lemma PrimitiveRejectionEscapes()
    ensures var env := Env(
      _ => true, "/", _ => UrlInfo(false, true), Threw(ThrownPrimitive("boom")), Threw(ThrownPrimitive("boom")),
      (_, _) => 0, _ => Threw(ThrownPrimitive("boom")), _ => Threw(ThrownPrimitive("boom")),
      _ => BeforeRender.BeforeRenderSetup(BeforeRender.IsomorphicHook([], Normal(JsUndefined)), Normal(JsUndefined), _ => true),
      _ => RenderHook.HtmlRendered(HtmlString("")), _ => true, _ => "");
      WellFormedEnv(env) &&
      RenderPageWithoutThrowingSpec(InitPlain(Some(JsString("/"))), 1, env) == Raises(NewError(UsageError(PRIMITIVE_THROWN)))
  {
  }

  /** With `logError` inside the inner `try`, nothing escapes, and a
      successful `renderPage` is returned unchanged. */
  lemma CorrectedNeverThrows(init: PageContextInit, argCount: nat, env: Env)
    requires WellFormedEnv(env)
    ensures RenderPageWithoutThrowingCorrected(init, argCount, env).Returns?
    ensures RenderPageSpec(init, argCount, env).Raises? && !IsPrimitive(RenderPageSpec(init, argCount, env).error) ==>
      RenderPageWithoutThrowingCorrected(init, argCount, env) == RenderPageWithoutThrowingSpec(init, argCount, env)
    ensures RenderPageSpec(init, argCount, env).Returns? ==>
      RenderPageWithoutThrowingCorrected(init, argCount, env) == RenderPageSpec(init, argCount, env)
  {
  }
}
