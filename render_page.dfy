/**
 * `renderPage`, `render500Page`, `initializePageContext` and
 * `renderPageWithoutThrowing` as the source runs them: one mutable
 * `pageContext` object extended step by step, errors thrown as objects, and
 * hook errors logged at most once. Each method is proved to reach exactly
 * the outcome `RenderFlow` describes.
 */
module RenderPage {
  import opened Wrappers
  import opened Strings
  import opened Errors
  import opened JsValues
  import opened HttpResponse
  import opened PageFiles
  import opened LoadPageFiles
  import opened RenderHook
  import opened BeforeRender
  import opened RenderUtils
  import opened RenderFlow

  /** The `pageContext` object of one request. */
  class PageContext {
    var url: JsValue
    var isPreRendering: Field<bool>
    var isPageContextRequest: Field<bool>
    var globalContext: Option<GlobalContext>
    var hasComputedUrlProps: bool
    var pageId: Field<Option<string>>
    var routeParams: Field<map<string, string>>
    var is404: Field<bool>
    var pageFiles: Option<PageFilesData>
    var merged: seq<JsValue>
    var err: Field<Thrown>
    var httpResponse: Field<Option<HttpResponse>>

    /** The fields hold what `v` describes; `_err` is the error `v` names. */
    ghost predicate Realizes(v: PageContextView)
      reads this
    {
      url == v.url && isPreRendering == v.isPreRendering && isPageContextRequest == v.isPageContextRequest &&
      globalContext == v.globalContext && hasComputedUrlProps == v.hasComputedUrlProps &&
      pageId == v.pageId && routeParams == v.routeParams && is404 == v.is404 &&
      pageFiles == v.pageFiles && merged == v.merged && httpResponse == v.httpResponse &&
      (err.Absent? <==> v.err.Absent?) && (err.Present? ==> Matches(err.value, v.err.value))
    }

    /** A step on this object completed as `o` describes. */
    ghost predicate Reached(c: Completion<()>, o: Outcome<PageContextView>)
      reads this
    {
      match o
      case Returns(v) => c.Normal? && Realizes(v)
      case Raises(e) => c.Threw? && Matches(c.thrown, e)
    }

    /** `{ ...pageContextInit }` */
    constructor (init: PageContextInit)
      ensures Realizes(Blank(InitUrl(init)))
    {
      url := InitUrl(init);
      isPreRendering := Absent;
      isPageContextRequest := Absent;
      globalContext := None;
      hasComputedUrlProps := false;
      pageId := Absent;
      routeParams := Absent;
      is404 := Absent;
      pageFiles := None;
      merged := [];
      err := Absent;
      httpResponse := Absent;
    }

    /** `objectAssign(pageContext, await loadPageFiles(pageContext))`, then
        `executeOnBeforeRenderHooks(pageContext)`. */
    method PreparePage(pageId: string, env: Env, ghost v: PageContextView) returns (c: Completion<()>)
      requires Realizes(v) && Ready(v) && ValidPath(pageId)
      modifies this
      ensures Reached(c, PreparePageSpec(v, pageId, env))
      ensures NewErrorRaised(PreparePageSpec(v, pageId, env)) ==>
        c.Threw? && c.thrown.ThrownObject? && fresh(c.thrown.obj) && !c.thrown.obj.wasAlreadyConsoleLogged
    {
      var g := globalContext.value;
      var files := LoadPageFilesOf(g.allPageFiles, pageId, env.pathDistance, env.isomorphicFiles(pageId), env.exportsOf);
      if files.Raises? {
        var t := Raise(files.error);
        return Threw(t);
      }
      pageFiles := Some(files.value);
      c := RunBeforeRender(pageId, env, v.(pageFiles := Some(files.value)));
    }

    /** `executeOnBeforeRenderHooks(pageContext)` */
    method RunBeforeRender(pageId: string, env: Env, ghost v: PageContextView) returns (c: Completion<()>)
      requires Realizes(v) && Ready(v) && v.pageFiles.Some?
      modifies this
      ensures Reached(c, BeforeRenderOf(v, pageId, env))
      ensures NewErrorRaised(BeforeRenderOf(v, pageId, env)) ==>
        c.Threw? && c.thrown.ThrownObject? && fresh(c.thrown.obj) && !c.thrown.obj.wasAlreadyConsoleLogged
    {
      var added := ExecuteOnBeforeRenderHooks(false, isPageContextRequest.value, pageFiles.value.isomorphic.hasOnBeforeRenderHook,
                                              env.beforeRender(pageId));
      if added.Raises? {
        var t := Raise(added.error);
        return Threw(t);
      }
      merged := merged + OptionToSeq(added.value);
      c := Normal(());
    }

    /** `render500Page` from `objectAssign(pageContext, { is404: false, _err: err, ... })` on. */
    method Continue500(thrown: Thrown, ghost e: Expected, env: Env, ghost v: PageContextView) returns (c: Completion<()>)
      requires Realizes(v) && Ready(v) && v.httpResponse.Absent? && Matches(thrown, e)
      modifies this
      ensures Reached(c, Render500From(v, e, env))
      ensures NewErrorRaised(Render500From(v, e, env)) ==>
        c.Threw? && c.thrown.ThrownObject? && fresh(c.thrown.obj) && !c.thrown.obj.wasAlreadyConsoleLogged
    {
      is404 := Present(false);
      err := Present(thrown);
      httpResponse := Present(None);
      routeParams := Present(map[]);
      c := Answer500Page(env, v.(is404 := Present(false), err := Present(e), httpResponse := Present(None), routeParams := Present(map[])));
    }

    /** The answer of `render500Page` once `pageContext` carries the error. */
    method Answer500Page(env: Env, ghost v: PageContextView) returns (c: Completion<()>)
      requires Realizes(v) && Ready(v) && v.httpResponse == Present(None)
      modifies this
      ensures Reached(c, Answer500(v, env))
      ensures NewErrorRaised(Answer500(v, env)) ==>
        c.Threw? && c.thrown.ThrownObject? && fresh(c.thrown.obj) && !c.thrown.obj.wasAlreadyConsoleLogged
    {
      if isPageContextRequest.value {
        httpResponse := Present(CreateHttpResponseObject(Some(HtmlString(SERVER_SIDE_ERROR_BODY)), 500, None, true));
        return Normal(());
      }
      var g := globalContext.value;
      if g.errorPageId.None? {
        // `warnMissingErrorPage` (silent in production)
        return Normal(());
      }
      pageId := Present(g.errorPageId);
      c := RenderErrorPage(g.errorPageId.value, env, v.(pageId := Present(g.errorPageId)));
    }

    /** The error page of `render500Page`: its files, its hooks, and its
        `render()` hook with status 500. */
    method RenderErrorPage(pageId: string, env: Env, ghost v: PageContextView) returns (c: Completion<()>)
      requires Realizes(v) && Ready(v) && ValidPath(pageId) && v.httpResponse == Present(None)
      modifies this
      ensures Reached(c, RenderErrorPageSpec(v, pageId, env))
      ensures NewErrorRaised(RenderErrorPageSpec(v, pageId, env)) ==>
        c.Threw? && c.thrown.ThrownObject? && fresh(c.thrown.obj) && !c.thrown.obj.wasAlreadyConsoleLogged
    {
      c := PreparePage(pageId, env, v);
      if c.Threw? {
        return;
      }
      c := AnswerErrorPage(env, PreparePageSpec(v, pageId, env).value);
    }

    /** The prepared error page's `render()` hook. */
    method AnswerErrorPage(env: Env, ghost v: PageContextView) returns (c: Completion<()>)
      requires Realizes(v) && Ready(v) && Prepared(v)
      modifies this
      ensures Reached(c, ErrorPageAnswerSpec(v, env))
      ensures NewErrorRaised(ErrorPageAnswerSpec(v, env)) ==>
        c.Threw? && c.thrown.ThrownObject? && fresh(c.thrown.obj) && !c.thrown.obj.wasAlreadyConsoleLogged
    {
      var hook := RenderHookOf(pageFiles.value, env);
      if hook.Raises? {
        var t := Raise(hook.error);
        return Threw(t);
      }
      merged := merged + OptionToSeq(hook.value.pageContextProvided);
      match hook.value.result {
        case RenderHookError(_, _, _) =>
          // `warnCouldNotRender500Page`: the page is returned without a response
        case Rendered(htmlRender, renderFilePath) =>
          httpResponse := Present(CreateHttpResponseObject(htmlRender, 500, Some(renderFilePath), false));
      }
      c := Normal(());
    }

    /** A stage of `renderPage` ended as `h` describes: settled, or with the
        hook error handed back in `failed`. */
    ghost predicate Handles(c: Completion<()>, failed: Option<Thrown>, h: Handled)
      reads this
    {
      match h
      case Settled(o) => failed.None? && Reached(c, o)
      case HookFailed(t) => failed == Some(t)
    }

    /** `renderPage` from `route(pageContext)` on. */
    method Route(env: Env, ghost v: PageContextView) returns (c: Completion<()>, failed: Option<Thrown>)
      requires WellFormedEnv(env) && Realizes(v) && Ready(v) && v.httpResponse.Absent?
      modifies this
      ensures Handles(c, failed, RouteSpec(v, env))
      ensures NewErrorSettled(RouteSpec(v, env)) ==>
        c.Threw? && c.thrown.ThrownObject? && fresh(c.thrown.obj) && !c.thrown.obj.wasAlreadyConsoleLogged
    {
      if env.route.Threw? {
        return Threw(env.route.thrown), None;
      }
      var routeResult := env.route.value;
      if routeResult.RouteHookError? {
        return Normal(()), Some(routeResult.hookError);
      }
      pageId := Present(routeResult.pageId);
      routeParams := Present(routeResult.routeParams);
      ghost var v1 := v.(pageId := Present(routeResult.pageId), routeParams := Present(routeResult.routeParams));
      if routeResult.pageId.Some? {
        c, failed := RenderRouted(routeResult.pageId.value, 200, env, v1);
      } else {
        c, failed := NoMatch(env, v1);
      }
    }

    /** `renderPage` when no page matches the URL: `warn404`, the
        `{ pageContext404PageDoesNotExist: true }` answer, or the error page
        with status 404. */
    method NoMatch(env: Env, ghost v: PageContextView) returns (c: Completion<()>, failed: Option<Thrown>)
      requires Realizes(v) && Ready(v) && v.httpResponse.Absent?
      modifies this
      ensures Handles(c, failed, NoMatchSpec(v, env))
      ensures NewErrorSettled(NoMatchSpec(v, env)) ==>
        c.Threw? && c.thrown.ThrownObject? && fresh(c.thrown.obj) && !c.thrown.obj.wasAlreadyConsoleLogged
    {
      var g := globalContext.value;
      if !isPageContextRequest.value && g.pageRoutesCount == 0 {
        // `warn404`
        var t := Raise(NewError(UsageError(NO_PAGE_FOUND)));
        return Threw(t), None;
      }
      if g.errorPageId.None? {
        // `warnMissingErrorPage` (silent in production)
        if isPageContextRequest.value {
          httpResponse := Present(CreateHttpResponseObject(Some(HtmlString(PAGE_CONTEXT_404_BODY)), 200, None, true));
        } else {
          httpResponse := Present(None);
        }
        return Normal(()), None;
      }
      var statusCode := if isPageContextRequest.value then 200 else 404;
      pageId := Present(g.errorPageId);
      is404 := Present(true);
      c, failed := RenderRouted(g.errorPageId.value, statusCode, env, v.(pageId := Present(g.errorPageId), is404 := Present(true)));
    }

    /** `renderPage` once the page to render is known: its files and
        hooks, then the answer. */
    method RenderRouted(pageId: string, statusCode: int, env: Env, ghost v: PageContextView)
      returns (c: Completion<()>, failed: Option<Thrown>)
      requires Realizes(v) && Ready(v) && ValidPath(pageId)
      modifies this
      ensures Handles(c, failed, RenderRoutedSpec(v, pageId, statusCode, env))
      ensures NewErrorSettled(RenderRoutedSpec(v, pageId, statusCode, env)) ==>
        c.Threw? && c.thrown.ThrownObject? && fresh(c.thrown.obj) && !c.thrown.obj.wasAlreadyConsoleLogged
    {
      c := PreparePage(pageId, env, v);
      if c.Threw? {
        return c, None;
      }
      c, failed := Respond(pageId, statusCode, env, PreparePageSpec(v, pageId, env).value);
    }

    /** The answer to a prepared page: the serialised `pageContext` for a
        data request, the `render()` hook's HTML otherwise. */
    method Respond(pageId: string, statusCode: int, env: Env, ghost v: PageContextView)
      returns (c: Completion<()>, failed: Option<Thrown>)
      requires Realizes(v) && Ready(v) && Prepared(v)
      modifies this
      ensures Handles(c, failed, RespondSpec(v, pageId, statusCode, env))
      ensures NewErrorSettled(RespondSpec(v, pageId, statusCode, env)) ==>
        c.Threw? && c.thrown.ThrownObject? && fresh(c.thrown.obj) && !c.thrown.obj.wasAlreadyConsoleLogged
    {
      if isPageContextRequest.value {
        httpResponse := Present(CreateHttpResponseObject(Some(HtmlString(env.serialize(pageId))), 200, None, true));
        return Normal(()), None;
      }
      var hook := RenderHookOf(pageFiles.value, env);
      if hook.Raises? {
        var t := Raise(hook.error);
        return Threw(t), None;
      }
      match hook.value.result {
        case RenderHookError(hookError, _, _) =>
          return Normal(()), Some(hookError);
        case Rendered(htmlRender, renderFilePath) =>
          merged := merged + OptionToSeq(hook.value.pageContextProvided);
          httpResponse := Present(CreateHttpResponseObject(htmlRender, statusCode, Some(renderFilePath), false));
          return Normal(()), None;
      }
    }
  }

  /** A request completed as `o` describes. */
  ghost predicate RealizesOutcome(c: Completion<PageContext>, o: Outcome<PageContextView>)
    reads if c.Normal? then {c.value} else {}
  {
    match o
    case Returns(v) => c.Normal? && c.value.Realizes(v)
    case Raises(e) => c.Threw? && Matches(c.thrown, e)
  }

  /** The outcome is a new error object (rather than a value thrown elsewhere). */
  predicate NewErrorRaised<T>(o: Outcome<T>) {
    o.Raises? && o.error.NewError?
  }

  /** The stage settled by throwing a new error object. */
  predicate NewErrorSettled(h: Handled) {
    h.Settled? && NewErrorRaised(h.outcome)
  }

  /** The error objects whose marker `logError` may set. */
  function Marks(t: Option<Thrown>): set<ErrorObject> {
    if t.Some? && t.value.ThrownObject? then {t.value.obj} else {}
  }

  /** The error object an outcome rethrows, if any. */
  function RethrownObject<T>(o: Outcome<T>): set<ErrorObject> {
    if o.Raises? && o.error.Rethrow? && o.error.thrown.ThrownObject? then {o.error.thrown.obj} else {}
  }

  /** `t` is an error object that already carries the logged marker. */
  ghost predicate Marked(t: Option<Thrown>)
    reads Marks(t)
  {
    t.Some? && t.value.ThrownObject? && t.value.obj.wasAlreadyConsoleLogged
  }

  /** What logging `t` adds to the console, given whether it was marked. */
  function NewlyPrinted(t: Option<Thrown>, marked: bool): seq<ErrorObject> {
    if t.Some? && t.value.ThrownObject? && !marked then [t.value.obj] else []
  }

  /** `initializePageContext(pageContextInit)` */
  method InitializePageContext(init: PageContextInit, env: Env) returns (c: Completion<PageContext>)
    requires WellFormedEnv(env)
    ensures RealizesOutcome(c, InitializePageContextSpec(init, env))
    ensures c.Normal? ==> fresh(c.value)
    ensures NewErrorRaised(InitializePageContextSpec(init, env)) ==>
      c.Threw? && c.thrown.ThrownObject? && fresh(c.thrown.obj) && !c.thrown.obj.wasAlreadyConsoleLogged
  {
    var pc := new PageContext(init);
    pc.isPreRendering := Present(false);
    if !pc.url.JsString? {
      var t := Raise(NewError(TypeError(URL_NOT_A_STRING)));
      return Threw(t);
    }
    if EndsWith(pc.url.s, FAVICON) {
      pc.httpResponse := Present(None);
      return Normal(pc);
    }
    // the `assert` at the head of `_parseUrl`
    if !(StartsWith(pc.url.s, "/") || StartsWith(pc.url.s, "http")) {
      var t := Raise(NewError(AssertionFailure(URL_SHAPE)));
      return Threw(t);
    }
    var info := env.parseUrl(pc.url.s);
    if !info.hasBaseUrl {
      pc.httpResponse := Present(None);
      return Normal(pc);
    }
    pc.isPageContextRequest := Present(info.isPageContextRequest);
    if env.globalContext.Threw? {
      return Threw(env.globalContext.thrown);
    }
    pc.globalContext := Some(env.globalContext.value);
    pc.hasComputedUrlProps := true;
    c := Normal(pc);
  }

  /** `render500Page(pageContextInit, err)`, where `err` is the error `e`
      names and was logged just before. */
  method Render500Page(init: PageContextInit, err: Thrown, ghost e: Expected, env: Env) returns (c: Completion<PageContext>)
    requires WellFormedEnv(env) && !IsPrimitive(e) && Matches(err, e)
    requires err.ThrownObject? && err.obj.wasAlreadyConsoleLogged
    modifies err.obj
    ensures err.obj.wasAlreadyConsoleLogged
    ensures RealizesOutcome(c, Render500Spec(init, e, env))
    ensures c.Normal? ==> fresh(c.value)
    ensures NewErrorRaised(Render500Spec(init, e, env)) ==>
      c.Threw? && c.thrown.ThrownObject? && fresh(c.thrown.obj) && !c.thrown.obj.wasAlreadyConsoleLogged
  {
    var alreadyLogged := HasAlreadyLogged(err.obj);
    assert alreadyLogged;
    c := InitializePageContext(init, env);
    if c.Threw? {
      return;
    }
    var pc := c.value;
    if pc.httpResponse.Present? {
      var t := Raise(NewError(AssertionFailure(HTTP_RESPONSE_ALREADY_SET)));
      return Threw(t);
    }
    var step := pc.Continue500(err, e, env, InitializePageContextSpec(init, env).value);
    if step.Threw? {
      return Threw(step.thrown);
    }
  }

  /** `logError(err)` followed by `return await render500Page(pageContextInit, err)`. */
  method LogThenRender500(init: PageContextInit, err: Thrown, env: Env, console: Console) returns (c: Completion<PageContext>)
    requires WellFormedEnv(env) && console.Valid()
    modifies console, Marks(Some(err))
    ensures console.Valid()
    ensures console.printed == old(console.printed) + NewlyPrinted(Some(err), old(Marked(Some(err))))
    ensures err.ThrownObject? ==> err.obj.wasAlreadyConsoleLogged
    ensures RealizesOutcome(c, LogThenRender500Spec(init, err, env))
    ensures c.Normal? ==> fresh(c.value)
    ensures NewErrorRaised(LogThenRender500Spec(init, err, env)) ==>
      c.Threw? && c.thrown.ThrownObject? && fresh(c.thrown.obj) && !c.thrown.obj.wasAlreadyConsoleLogged
  {
    var logged := LogError(err, console);
    if logged.Threw? {
      return Threw(logged.thrown);
    }
    c := Render500Page(init, err, Rethrow(err), env);
  }

  /** `renderPage(pageContextInit)`: the only error it logs is the one
      `LoggedErrorSpec` names, printed unless it was logged before. */
  method RenderPage(init: PageContextInit, argCount: nat, env: Env, console: Console) returns (c: Completion<PageContext>)
    requires WellFormedEnv(env) && console.Valid()
    modifies console, Marks(LoggedErrorSpec(init, argCount, env))
    ensures console.Valid()
    ensures console.printed ==
      old(console.printed) + NewlyPrinted(LoggedErrorSpec(init, argCount, env), old(Marked(LoggedErrorSpec(init, argCount, env))))
    ensures LoggedErrorSpec(init, argCount, env).Some? && LoggedErrorSpec(init, argCount, env).value.ThrownObject? ==>
      Marked(LoggedErrorSpec(init, argCount, env))
    ensures RealizesOutcome(c, RenderPageSpec(init, argCount, env))
    ensures c.Normal? ==> fresh(c.value)
    ensures NewErrorRaised(RenderPageSpec(init, argCount, env)) ==>
      c.Threw? && c.thrown.ThrownObject? && fresh(c.thrown.obj) && !c.thrown.obj.wasAlreadyConsoleLogged
  {
    ghost var logged := LoggedErrorSpec(init, argCount, env);
    ghost var wasMarked := Marked(logged);
    var args := AssertArguments(init, argCount, env.urlParses);
    if args.Raises? {
      var t := Raise(args.error);
      return Threw(t);
    }
    c := InitializePageContext(init, env);
    if c.Threw? {
      return;
    }
    var pc := c.value;
    if pc.httpResponse.Present? {
      return;
    }
    ghost var v0 := InitializePageContextSpec(init, env).value;
    var step, failed := pc.Route(env, v0);
    if failed.Some? {
      c := LogThenRender500(init, failed.value, env, console);
      return;
    }
    if step.Threw? {
      return Threw(step.thrown);
    }
  }

  /** `renderPageWithoutThrowing(pageContextInit)` as written. */
  method RenderPageWithoutThrowing(init: PageContextInit, argCount: nat, env: Env, console: Console)
    returns (c: Completion<PageContext>)
    requires WellFormedEnv(env) && console.Valid()
    modifies console, Marks(LoggedErrorSpec(init, argCount, env)), RethrownObject(RenderPageSpec(init, argCount, env))
    ensures console.Valid()
    // what `renderPage` logged, then the error it threw unless that was logged before
    ensures var o := RenderPageSpec(init, argCount, env);
      var logged := LoggedErrorSpec(init, argCount, env);
      var first := old(console.printed) + NewlyPrinted(logged, old(Marked(logged)));
      (o.Returns? ==> console.printed == first) &&
      (o.Raises? && o.error.Rethrow? ==>
         console.printed == first + NewlyPrinted(Some(o.error.thrown), old(Marked(Some(o.error.thrown))) || logged == Some(o.error.thrown))) &&
      (o.Raises? && o.error.NewError? ==>
         |console.printed| == |first| + 1 && console.printed[..|first|] == first &&
         fresh(console.printed[|first|]) && console.printed[|first|].origin == o.error.origin)
    ensures RealizesOutcome(c, RenderPageWithoutThrowingSpec(init, argCount, env))
    ensures c.Normal? ==> fresh(c.value)
  {
    ghost var o := RenderPageSpec(init, argCount, env);
    ghost var logged := LoggedErrorSpec(init, argCount, env);
    ghost var first := console.printed + NewlyPrinted(logged, Marked(logged));
    ghost var markedBefore := o.Raises? && o.error.Rethrow? && Marked(Some(o.error.thrown));
    c := RenderPage(init, argCount, env, console);
    assert console.printed == first;
    if c.Normal? {
      return;
    }
    var err := c.thrown;
    if o.error.Rethrow? {
      assert err == o.error.thrown;
      assert Marked(Some(err)) <==> markedBefore || logged == Some(err);
    } else {
      assert err.ThrownObject? && !err.obj.wasAlreadyConsoleLogged;
    }
    c := Recover(init, err, o.error, env, console);
  }

  /** The `catch` of `renderPageWithoutThrowing`: `logError(err)` outside
      any `try`, then `render500Page`, and a fallback `pageContext` holding
      the second error if that throws too. */
  method Recover(init: PageContextInit, err: Thrown, ghost e: Expected, env: Env, console: Console)
    returns (c: Completion<PageContext>)
    requires WellFormedEnv(env) && console.Valid() && Matches(err, e)
    modifies console, Marks(Some(err))
    ensures console.Valid()
    ensures console.printed == old(console.printed) + NewlyPrinted(Some(err), old(Marked(Some(err))))
    ensures RealizesOutcome(c, RecoverSpec(init, e, env))
    ensures c.Normal? ==> fresh(c.value)
  {
    var logged := LogError(err, console);
    if logged.Threw? {
      return Threw(logged.thrown);
    }
    c := Fallback500Page(init, err, e, env);
  }

  /** `render500Page` after the error was logged, and the fallback
      `pageContext` holding the second error if that throws too. */
  method Fallback500Page(init: PageContextInit, err: Thrown, ghost e: Expected, env: Env) returns (c: Completion<PageContext>)
    requires WellFormedEnv(env) && !IsPrimitive(e) && Matches(err, e)
    requires err.ThrownObject? && err.obj.wasAlreadyConsoleLogged
    modifies err.obj
    ensures err.obj.wasAlreadyConsoleLogged
    ensures RealizesOutcome(c, Fallback500(init, e, env))
    ensures c.Normal? ==> fresh(c.value)
  {
    c := Render500Page(init, err, e, env);
    if c.Normal? {
      return;
    }
    var pc := new PageContext(init);
    pc.httpResponse := Present(None);
    pc.err := Present(c.thrown);
    c := Normal(pc);
  }
}
