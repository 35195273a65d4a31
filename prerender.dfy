/**
 * The pre-rendering run as the source performs it: collectors that the
 * passes push into and update in place, each pass a loop proved against
 * its fold in `PrerenderPlan`.
 */
module Prerender {
  import opened Wrappers
  import opened Errors
  import opened JsValues
  import opened LoadPageFiles
  import opened PageFiles
  import opened PrerenderPlan

  /** An outcome with its value dropped. */
  function Settle<T>(o: Outcome<T>): (r: Outcome<()>)
    ensures r.Returns? <==> o.Returns?
    ensures o.Raises? ==> r.error == o.error
  {
    match o
    case Raises(e) => Raises(e)
    case Returns(_) => Returns(())
  }

  /** The shared arrays and the dictionary a run fills:
      `globalContext.prerenderPageContexts`, `doNotPrerenderList`,
      `htmlFiles` and `prerenderPageIds`. */
  class PrerenderRun {
    var prerenderPageContexts: seq<PrerenderContext>
    var doNotPrerenderList: seq<Exclusion>
    var htmlFiles: seq<HtmlFile>
    var prerenderPageIds: PageIdTable

    constructor ()
      ensures prerenderPageContexts == [] && doNotPrerenderList == [] && htmlFiles == [] && prerenderPageIds == []
    {
      prerenderPageContexts := [];
      doNotPrerenderList := [];
      htmlFiles := [];
      prerenderPageIds := [];
    }

    function Collectors(): Collected
      reads this
    {
      Collected(prerenderPageContexts, doNotPrerenderList)
    }

    function Rendered(): Rendering
      reads this
    {
      Rendering(htmlFiles, prerenderPageIds)
    }

    /** `prerenderPageContexts.find((pageContext) => pageContext.url === url)`. */
    method FindEntry(url: string) returns (i: Option<nat>)
      ensures i == FindUrl(prerenderPageContexts, url)
    {
      var k := 0;
      while k < |prerenderPageContexts|
        invariant 0 <= k <= |prerenderPageContexts|
        invariant forall j :: 0 <= j < k ==> prerenderPageContexts[j].url != url
      {
        if prerenderPageContexts[k].url == url {
          FindUrlIsFirst(prerenderPageContexts, url, k);
          return Some(k);
        }
        k := k + 1;
      }
      return None;
    }

    /** One URL of a `prerender()` hook: the entry with that URL, created
        with the hook's file when missing, takes the overrides. */
    method AddUrl(entry: UrlEntry, sourceFile: string)
      modifies this
      ensures prerenderPageContexts == AddOverride(old(prerenderPageContexts), entry.url, sourceFile, entry.pageContext)
      ensures doNotPrerenderList == old(doNotPrerenderList) && htmlFiles == old(htmlFiles)
      ensures prerenderPageIds == old(prerenderPageIds)
    {
      var found := FindEntry(entry.url);
      var i: nat;
      if found.None? {
        prerenderPageContexts := prerenderPageContexts + [PrerenderContext(entry.url, Some(sourceFile), [], false, None)];
        i := |prerenderPageContexts| - 1;
      } else {
        i := found.value;
      }
      if Truthy(entry.pageContext) {
        var e := prerenderPageContexts[i];
        prerenderPageContexts := prerenderPageContexts[i := e.(overrides := e.overrides + [entry.pageContext], alreadyProvided := true)];
      }
    }

    /** `result.forEach(...)` in `callPrerenderHooks`. */
    method AddUrls(entries: seq<UrlEntry>, sourceFile: string) returns (r: Outcome<()>)
      modifies this
      ensures var o := AddEntries(old(prerenderPageContexts), entries, sourceFile);
        r == Settle(o) && (o.Returns? ==> prerenderPageContexts == o.value)
      ensures doNotPrerenderList == old(doNotPrerenderList) && htmlFiles == old(htmlFiles)
      ensures prerenderPageIds == old(prerenderPageIds)
    {
      var k := 0;
      while k < |entries|
        invariant 0 <= k <= |entries|
        invariant AddEntries(old(prerenderPageContexts), entries, sourceFile) ==
                  AddEntries(prerenderPageContexts, entries[k..], sourceFile)
        invariant doNotPrerenderList == old(doNotPrerenderList) && htmlFiles == old(htmlFiles)
        invariant prerenderPageIds == old(prerenderPageIds)
      {
        assert entries[k..][1..] == entries[k + 1..];
        var check := CheckEntry(entries[k]);
        if check.Raises? {
          return Raises(check.error);
        }
        AddUrl(entries[k], sourceFile);
        k := k + 1;
      }
      return Returns(());
    }

    /** One page of `callPrerenderHooks`. */
    method CallPrerenderHook(pageId: string, env: PrerenderEnv) returns (r: Outcome<()>)
      requires WellFormedPrerenderEnv(env) && ValidPath(pageId)
      modifies this
      ensures var o := HookStep(old(Collectors()), pageId, env); r == Settle(o) && (o.Returns? ==> Collectors() == o.value)
      ensures htmlFiles == old(htmlFiles) && prerenderPageIds == old(prerenderPageIds)
    {
      if env.isErrorPage(pageId) {
        return Returns(());
      }
      var files := LoadFiles(env, pageId);
      if files.Raises? {
        return Raises(files.error);
      }
      var f := files.value.pageServerFile;
      if f.None? {
        return Returns(());
      }
      if f.value.fileExports.doNotPrerender {
        doNotPrerenderList := doNotPrerenderList + [Exclusion(pageId, f.value.filePath)];
        return Returns(());
      }
      var hook := f.value.fileExports.prerender;
      if hook.None? {
        return Returns(());
      }
      if hook.value.HookThrows? {
        return Raises(PrerenderError(hook.value.thrown));
      }
      var result := NormalizePrerenderResult(hook.value.value);
      if result.Raises? {
        return Raises(result.error);
      }
      r := AddUrls(result.value, f.value.filePath);
    }

    /** `callPrerenderHooks(globalContext, doNotPrerenderList, concurrencyLimit)`. */
    method CallPrerenderHooks(env: PrerenderEnv) returns (r: Outcome<()>)
      requires WellFormedPrerenderEnv(env)
      modifies this
      ensures var o := HookPass(env.allPageIds, old(Collectors()), env); r == Settle(o) && (o.Returns? ==> Collectors() == o.value)
      ensures htmlFiles == old(htmlFiles) && prerenderPageIds == old(prerenderPageIds)
    {
      var ids := env.allPageIds;
      var k := 0;
      while k < |ids|
        invariant 0 <= k <= |ids|
        invariant HookPass(ids, old(Collectors()), env) == HookPass(ids[k..], Collectors(), env)
        invariant htmlFiles == old(htmlFiles) && prerenderPageIds == old(prerenderPageIds)
      {
        assert ids[k..][1..] == ids[k + 1..];
        r := CallPrerenderHook(ids[k], env);
        if r.Raises? {
          return;
        }
        k := k + 1;
      }
      return Returns(());
    }

    /** One route of `handlePagesWithStaticRoutes`. */
    method AddStaticRoute(route: PageRoute, env: PrerenderEnv) returns (r: Outcome<()>)
      requires WellFormedPrerenderEnv(env) && route in env.pageRoutes
      modifies this
      ensures var o := StaticStep(old(Collectors()), route, env); r == Settle(o) && (o.Returns? ==> Collectors() == o.value)
      ensures htmlFiles == old(htmlFiles) && prerenderPageIds == old(prerenderPageIds)
    {
      if IsExcluded(doNotPrerenderList, route.pageId) {
        return Returns(());
      }
      var url := StaticUrl(route, env.isStaticRoute);
      if url.None? {
        return Returns(());
      }
      var found := FindEntry(url.value);
      if found.Some? {
        return Returns(());
      }
      var files := LoadFiles(env, route.pageId);
      if files.Raises? {
        return Raises(files.error);
      }
      prerenderPageContexts := prerenderPageContexts + [PrerenderContext(url.value, None, [], false, Some(route.pageId))];
      return Returns(());
    }

    /** `handlePagesWithStaticRoutes(globalContext, doNotPrerenderList, concurrencyLimit)`. */
    method HandlePagesWithStaticRoutes(env: PrerenderEnv) returns (r: Outcome<()>)
      requires WellFormedPrerenderEnv(env)
      modifies this
      ensures var o := StaticPass(env.pageRoutes, old(Collectors()), env); r == Settle(o) && (o.Returns? ==> Collectors() == o.value)
      ensures htmlFiles == old(htmlFiles) && prerenderPageIds == old(prerenderPageIds)
    {
      var routes := env.pageRoutes;
      var k := 0;
      while k < |routes|
        invariant 0 <= k <= |routes|
        invariant StaticPass(routes, old(Collectors()), env) == StaticPass(routes[k..], Collectors(), env)
        invariant htmlFiles == old(htmlFiles) && prerenderPageIds == old(prerenderPageIds)
      {
        assert routes[k..][1..] == routes[k + 1..];
        r := AddStaticRoute(routes[k], env);
        if r.Raises? {
          return;
        }
        k := k + 1;
      }
      return Returns(());
    }

    /** One URL of `routeAndPrerender`. */
    method RouteAndPrerenderUrl(entry: PrerenderContext, noExtraDir: bool, env: PrerenderEnv) returns (r: Outcome<()>)
      requires WellFormedPrerenderEnv(env)
      modifies this
      ensures var o := RouteStep(old(Rendered()), entry, noExtraDir, env); r == Settle(o) && (o.Returns? ==> Rendered() == o.value)
      ensures prerenderPageContexts == old(prerenderPageContexts) && doNotPrerenderList == old(doNotPrerenderList)
    {
      var routed := env.route(entry.url);
      if routed.Threw? {
        return Raises(Rethrow(routed.thrown));
      }
      if routed.value.RouteHookError? {
        return Raises(PrerenderError(routed.value.hookError));
      }
      if routed.value.pageId.None? {
        if entry.prerenderSourceFile.None? {
          return Raises(NewError(AssertionFailure(ASSERT_SOURCE_FILE)));
        }
        return Raises(NewError(UsageError(NO_MATCHING_PAGE)));
      }
      r := PrerenderRouted(entry, routed.value.pageId.value, noExtraDir, env);
    }

    /** The rest of one URL of `routeAndPrerender`, once routed to `pageId`. */
    method PrerenderRouted(entry: PrerenderContext, pageId: string, noExtraDir: bool, env: PrerenderEnv) returns (r: Outcome<()>)
      requires WellFormedPrerenderEnv(env) && ValidPath(pageId)
      modifies this
      ensures var o := RenderRouted(old(Rendered()), entry, pageId, noExtraDir, env);
        r == Settle(o) && (o.Returns? ==> Rendered() == o.value)
      ensures prerenderPageContexts == old(prerenderPageContexts) && doNotPrerenderList == old(doNotPrerenderList)
    {
      var files := LoadFiles(env, pageId);
      if files.Raises? {
        return Raises(files.error);
      }
      var page := PrerenderPageSpec(PrerenderInput(entry.url, pageId, false, env.usesClientRouter, entry.alreadyProvided), files.value, env);
      if page.Raises? {
        return Raises(page.error);
      }
      htmlFiles := htmlFiles + [HtmlFile(entry.url, Some(pageId), page.value.documentHtml, page.value.pageContextSerialized, noExtraDir)];
      prerenderPageIds := SetKey(prerenderPageIds, pageId, entry);
      return Returns(());
    }

    /** `routeAndPrerender(globalContext, htmlFiles, prerenderPageIds, concurrencyLimit, noExtraDir)`. */
    method RouteAndPrerender(noExtraDir: bool, env: PrerenderEnv) returns (r: Outcome<()>)
      requires WellFormedPrerenderEnv(env)
      modifies this
      ensures var o := RoutePass(old(prerenderPageContexts), old(Rendered()), noExtraDir, env);
        r == Settle(o) && (o.Returns? ==> Rendered() == o.value)
      ensures prerenderPageContexts == old(prerenderPageContexts) && doNotPrerenderList == old(doNotPrerenderList)
    {
      var table := prerenderPageContexts;
      var k := 0;
      while k < |table|
        invariant 0 <= k <= |table|
        invariant RoutePass(table, old(Rendered()), noExtraDir, env) == RoutePass(table[k..], Rendered(), noExtraDir, env)
        invariant prerenderPageContexts == old(prerenderPageContexts) && doNotPrerenderList == old(doNotPrerenderList)
      {
        assert table[k..][1..] == table[k + 1..];
        RoutePassCons(table[k..], Rendered(), noExtraDir, env);
        r := RouteAndPrerenderUrl(table[k], noExtraDir, env);
        if r.Raises? {
          return;
        }
        k := k + 1;
      }
      return Returns(());
    }

    /** `prerender404Page(htmlFiles, globalContext)`. */
    method Prerender404(env: PrerenderEnv) returns (r: Outcome<()>)
      requires WellFormedPrerenderEnv(env)
      modifies this
      ensures var o := Prerender404Page(old(htmlFiles), env); r == Settle(o) && (o.Returns? ==> htmlFiles == o.value)
      ensures prerenderPageContexts == old(prerenderPageContexts) && doNotPrerenderList == old(doNotPrerenderList)
      ensures prerenderPageIds == old(prerenderPageIds)
    {
      if Has404(htmlFiles) {
        return Returns(());
      }
      var result := RenderStatic404Page(env);
      if result.Raises? {
        return Raises(result.error);
      }
      if result.value.Some? {
        htmlFiles := htmlFiles + [HtmlFile(URL_404, None, result.value.value.documentHtml, None, true)];
      }
      return Returns(());
    }

    /** `prerender(options)` on fresh collectors. */
    method Run(o: PrerenderOptions, cwd: string, cpuCount: nat, env: PrerenderEnv) returns (r: Outcome<PrerenderOutput>)
      requires WellFormedPrerenderEnv(env)
      requires prerenderPageContexts == [] && doNotPrerenderList == [] && htmlFiles == [] && prerenderPageIds == []
      modifies this
      ensures r == PrerenderSpec(o, cwd, cpuCount, env)
    {
      var settings := ValidateOptions(WithDefaults(o, cwd, cpuCount));
      if settings.Raises? {
        return Raises(settings.error);
      }
      var s := settings.value;
      var step := CallPrerenderHooks(env);
      if step.Raises? {
        return Raises(step.error);
      }
      ghost var hooked := Collectors();
      step := HandlePagesWithStaticRoutes(env);
      if step.Raises? {
        return Raises(step.error);
      }
      ghost var c := Collectors();
      assert CollectSpec(env) == Returns(c);
      var hook := LoadOnBeforePrerenderHook(env.allPageFiles, env.exportsOf);
      if hook.Raises? {
        return Raises(hook.error);
      }
      step := RouteAndPrerender(s.noExtraDir, env);
      if step.Raises? {
        return Raises(step.error);
      }
      var check := WarnContradictoryNoPrerenderList(prerenderPageIds, doNotPrerenderList);
      if check.Raises? {
        return Raises(check.error);
      }
      step := Prerender404(env);
      if step.Raises? {
        return Raises(step.error);
      }
      var writes := WritePlan(htmlFiles, s.root, s.outDir, doNotPrerenderList, env);
      if writes.Raises? {
        return Raises(writes.error);
      }
      var warnings := WarnMissingPages(env.allPageIds, prerenderPageIds, doNotPrerenderList, env.isErrorPage, s.partial);
      return Returns(PrerenderOutput(writes.value, warnings));
    }
  }
}
