/**
 * What pre-rendering guarantees, proved about the folds of `PrerenderPlan`:
 * the URL table holds each URL once and keeps the first hook's file, error
 * pages are never asked for URLs, static routes never override a hook's
 * URL, every collected URL becomes one HTML file, the write step's own
 * assertions always hold, and the discrepancies listed as findings.
 */
module PrerenderProperties {
  import opened Wrappers
  import opened Strings
  import opened Errors
  import opened JsValues
  import opened PageFiles
  import opened PrerenderPlan

  /** `t` grows `table`: every entry keeps its place, URL, source file and
      static page id, and only gains overrides. */
  predicate Extends(t: seq<PrerenderContext>, table: seq<PrerenderContext>) {
    |table| <= |t| &&
    forall i :: 0 <= i < |table| ==>
      t[i].url == table[i].url && t[i].prerenderSourceFile == table[i].prerenderSourceFile &&
      t[i].staticPageId == table[i].staticPageId && table[i].overrides <= t[i].overrides
  }

  lemma ExtendsTransitive(a: seq<PrerenderContext>, b: seq<PrerenderContext>, c: seq<PrerenderContext>)
    requires Extends(a, b) && Extends(b, c)
    ensures Extends(a, c)
  {
    forall i | 0 <= i < |c|
      ensures c[i].overrides <= a[i].overrides
    {
      assert c[i].overrides <= b[i].overrides <= a[i].overrides;
    }
  }

  /** A URL present in the table is found. */
  lemma Found(t: seq<PrerenderContext>, i: nat)
    requires i < |t|
    ensures FindUrl(t, t[i].url).Some?
  {
  }

  /** One URL added by a hook keeps the table's invariants and grows it. */
  lemma AddOverrideExtends(table: seq<PrerenderContext>, x: UrlEntry, sourceFile: string)
    requires EntryChecked(x)
    ensures var t := AddOverride(table, x.url, sourceFile, x.pageContext);
      Extends(t, table) && (RootedUrls(table) ==> RootedUrls(t)) && FindUrl(t, x.url).Some? &&
      forall i :: |table| <= i < |t| ==> t[i].prerenderSourceFile == Some(sourceFile)
  {
    var t := AddOverride(table, x.url, sourceFile, x.pageContext);
    forall i | 0 <= i < |table|
      ensures t[i].url == table[i].url && t[i].prerenderSourceFile == table[i].prerenderSourceFile
      ensures t[i].staticPageId == table[i].staticPageId && table[i].overrides <= t[i].overrides
    {
      if table[i].url == x.url {
        assert FindUrl(table, x.url).Some?;
        var j := FindUrl(table, x.url).value;
        if i != j {
          assert FindUrl(table, x.url) == FindUrl(t, x.url);
        }
      }
    }
  }

  /** `result.forEach(...)` succeeds exactly when every URL passes the
      collector's checks; it then keeps the table's invariants, adds every
      URL, and the entries it creates name the hook's file. */
  lemma {:induction false} AddEntriesPreserves(table: seq<PrerenderContext>, entries: seq<UrlEntry>, sourceFile: string)
    ensures AddEntries(table, entries, sourceFile).Returns? <==> forall x :: x in entries ==> EntryChecked(x)
    ensures var r := AddEntries(table, entries, sourceFile);
      r.Returns? ==>
        Extends(r.value, table) &&
        (DistinctUrls(table) ==> DistinctUrls(r.value)) &&
        (RootedUrls(table) ==> RootedUrls(r.value)) &&
        (forall i :: |table| <= i < |r.value| ==> r.value[i].prerenderSourceFile == Some(sourceFile)) &&
        (forall x :: x in entries ==> FindUrl(r.value, x.url).Some?)
    decreases |entries|
  {
    if entries != [] {
      var x := entries[0];
      assert forall y :: y in entries <==> y == x || y in entries[1..];
      if EntryChecked(x) {
        var t1 := AddOverride(table, x.url, sourceFile, x.pageContext);
        AddOverrideExtends(table, x, sourceFile);
        AddEntriesPreserves(t1, entries[1..], sourceFile);
        var r := AddEntries(t1, entries[1..], sourceFile);
        if r.Returns? {
          ExtendsTransitive(r.value, t1, table);
          var j := FindUrl(t1, x.url).value;
          assert r.value[j].url == x.url;
          Found(r.value, j);
        }
      }
    }
  }

  /** The invariant of the collectors during `callPrerenderHooks`. */
  predicate HookInvariant(c: Collected, env: PrerenderEnv) {
    DistinctUrls(c.table) && RootedUrls(c.table) &&
    (forall i :: 0 <= i < |c.table| ==> c.table[i].prerenderSourceFile.Some?) &&
    (forall i :: 0 <= i < |c.excluded| ==> c.excluded[i].pageId in env.allPageIds && !env.isErrorPage(c.excluded[i].pageId))
  }

  /** One page keeps the invariant: an error page changes nothing, and an
      excluded page is recorded without its hook being called. */
  lemma HookStepPreserves(c: Collected, pageId: string, env: PrerenderEnv)
    requires WellFormedPrerenderEnv(env) && pageId in env.allPageIds && HookInvariant(c, env)
    ensures env.isErrorPage(pageId) ==> HookStep(c, pageId, env) == Returns(c)
    ensures var r := HookStep(c, pageId, env);
      r.Returns? ==> HookInvariant(r.value, env) && Extends(r.value.table, c.table) && c.excluded <= r.value.excluded
  {
    var r := HookStep(c, pageId, env);
    if r.Returns? && !env.isErrorPage(pageId) {
      var files := LoadFiles(env, pageId).value;
      if files.pageServerFile.Some? && !files.pageServerFile.value.fileExports.doNotPrerender {
        var f := files.pageServerFile.value;
        if f.fileExports.prerender.Some? {
          var entries := NormalizePrerenderResult(f.fileExports.prerender.value.value).value;
          AddEntriesPreserves(c.table, entries, f.filePath);
        }
      }
    }
  }

  /** The pages whose `prerender()` hook is not called: error pages, pages
      without a server file, and pages whose server file sets
      `doNotPrerender`, which are added to the exclusion list instead. */
  lemma HookStepSkips(c: Collected, pageId: string, env: PrerenderEnv)
    requires WellFormedPrerenderEnv(env) && ValidPath(pageId)
    ensures env.isErrorPage(pageId) ==> HookStep(c, pageId, env) == Returns(c)
    ensures var files := LoadFiles(env, pageId);
      !env.isErrorPage(pageId) && files.Returns? && files.value.pageServerFile.None? ==>
        HookStep(c, pageId, env) == Returns(c)
    ensures var files := LoadFiles(env, pageId);
      !env.isErrorPage(pageId) && files.Returns? && files.value.pageServerFile.Some? &&
      files.value.pageServerFile.value.fileExports.doNotPrerender ==>
        HookStep(c, pageId, env) ==
          Returns(c.(excluded := c.excluded + [Exclusion(pageId, files.value.pageServerFile.value.filePath)]))
  {
  }

  /** `callPrerenderHooks` keeps the invariant and only grows the collectors. */
  lemma {:induction false} HookPassPreserves(pageIds: seq<string>, c: Collected, env: PrerenderEnv)
    requires WellFormedPrerenderEnv(env) && (forall p :: p in pageIds ==> p in env.allPageIds) && HookInvariant(c, env)
    ensures var r := HookPass(pageIds, c, env);
      r.Returns? ==> HookInvariant(r.value, env) && Extends(r.value.table, c.table) && c.excluded <= r.value.excluded
    decreases |pageIds|
  {
    if pageIds != [] {
      HookStepPreserves(c, pageIds[0], env);
      var s := HookStep(c, pageIds[0], env);
      if s.Returns? {
        assert forall p :: p in pageIds[1..] ==> p in pageIds;
        HookPassPreserves(pageIds[1..], s.value, env);
        var r := HookPass(pageIds[1..], s.value, env);
        if r.Returns? {
          ExtendsTransitive(r.value.table, s.value.table, c.table);
        }
      }
    }
  }

  /** The invariant of the collectors during `handlePagesWithStaticRoutes`,
      relative to the table `hooked` the hooks produced. */
  predicate StaticInvariant(c: Collected, hooked: Collected) {
    c.excluded == hooked.excluded && hooked.table <= c.table &&
    DistinctUrls(c.table) && RootedUrls(c.table) &&
    forall i :: |hooked.table| <= i < |c.table| ==>
      c.table[i].prerenderSourceFile.None? && c.table[i].overrides == [] && !c.table[i].alreadyProvided &&
      c.table[i].staticPageId.Some? && !IsExcluded(hooked.excluded, c.table[i].staticPageId.value)
  }

  /** One step of `StaticPass`. */
  lemma StaticPassCons(routes: seq<PageRoute>, c: Collected, env: PrerenderEnv)
    requires WellFormedPrerenderEnv(env) && routes != [] && (forall x :: x in routes ==> x in env.pageRoutes)
    ensures StaticPass(routes, c, env) ==
      var o := StaticStep(c, routes[0], env);
      if o.Raises? then Raises(o.error) else StaticPass(routes[1..], o.value, env)
  {
  }

  /** One static route appends at most one entry, at a new URL, for a page
      that is not excluded. */
  lemma StaticStepPreserves(c: Collected, route: PageRoute, hooked: Collected, env: PrerenderEnv)
    requires WellFormedPrerenderEnv(env) && route in env.pageRoutes && StaticInvariant(c, hooked)
    ensures var s := StaticStep(c, route, env);
      s.Returns? ==> StaticInvariant(s.value, hooked) && c.table <= s.value.table
  {
    var s := StaticStep(c, route, env);
    if s.Returns? && |s.value.table| != |c.table| {
      var url := StaticUrl(route, env.isStaticRoute).value;
      assert StartsWith(url, "/");
      assert FindUrl(c.table, url).None?;
      assert s.value == c.(table := c.table + [PrerenderContext(url, None, [], false, Some(route.pageId))]);
      StaticAppendPreserves(c, hooked, url, route.pageId);
    }
  }

  /** Appending a static entry at a new rooted URL, for a page that is not
      excluded, keeps the invariant. */
  lemma StaticAppendPreserves(c: Collected, hooked: Collected, url: string, pageId: string)
    requires StaticInvariant(c, hooked) && StartsWith(url, "/") && FindUrl(c.table, url).None?
    requires !IsExcluded(c.excluded, pageId)
    ensures var t := c.table + [PrerenderContext(url, None, [], false, Some(pageId))];
      StaticInvariant(c.(table := t), hooked) && c.table <= t
  {
    var t := c.table + [PrerenderContext(url, None, [], false, Some(pageId))];
    assert t[|c.table|].url == url;
    assert forall i :: 0 <= i < |c.table| ==> t[i] == c.table[i];
  }

  /** The routes `handlePagesWithStaticRoutes` skips: those of excluded
      pages, route functions and parameterised route strings, and URLs
      already collected; any other route adds its URL with no source file. */
  lemma StaticStepCases(c: Collected, route: PageRoute, env: PrerenderEnv)
    requires WellFormedPrerenderEnv(env) && route in env.pageRoutes
    ensures var u := StaticUrl(route, env.isStaticRoute);
      (IsExcluded(c.excluded, route.pageId) || u.None? || FindUrl(c.table, u.value).Some?) ==>
        StaticStep(c, route, env) == Returns(c)
    ensures var u := StaticUrl(route, env.isStaticRoute);
      !IsExcluded(c.excluded, route.pageId) && u.Some? && FindUrl(c.table, u.value).None? &&
      LoadFiles(env, route.pageId).Returns? ==>
        StaticStep(c, route, env) == Returns(c.(table := c.table + [PrerenderContext(u.value, None, [], false, Some(route.pageId))]))
  {
  }

  /** `handlePagesWithStaticRoutes` only appends entries, each for a page
      that is not excluded and at a URL no entry had. */
  lemma {:induction false} StaticPassPreserves(routes: seq<PageRoute>, c: Collected, hooked: Collected, env: PrerenderEnv)
    requires WellFormedPrerenderEnv(env) && (forall x :: x in routes ==> x in env.pageRoutes)
    requires StaticInvariant(c, hooked)
    ensures var r := StaticPass(routes, c, env);
      r.Returns? ==> StaticInvariant(r.value, hooked) && c.table <= r.value.table
    decreases |routes|
  {
    if routes != [] {
      StaticPassCons(routes, c, env);
      StaticStepPreserves(c, routes[0], hooked, env);
      var s := StaticStep(c, routes[0], env);
      if s.Returns? {
        assert forall x :: x in routes[1..] ==> x in routes;
        StaticPassPreserves(routes[1..], s.value, hooked, env);
      }
    }
  }

  /** The collected table: one entry per URL, every URL starting with `/`,
      the hooks' entries first (each naming its hook's file), then the
      static routes' entries for pages that are not excluded; and no error
      page is ever excluded, since error pages are never consulted. */
  lemma CollectedTable(env: PrerenderEnv)
    requires WellFormedPrerenderEnv(env)
    ensures var r := CollectSpec(env);
      r.Returns? ==>
        DistinctUrls(r.value.table) && RootedUrls(r.value.table) &&
        (forall i :: 0 <= i < |r.value.excluded| ==> !env.isErrorPage(r.value.excluded[i].pageId)) &&
        (forall i :: 0 <= i < |r.value.table| && r.value.table[i].prerenderSourceFile.None? ==>
           r.value.table[i].staticPageId.Some? && !IsExcluded(r.value.excluded, r.value.table[i].staticPageId.value))
  {
    var c0 := Collected([], []);
    HookPassPreserves(env.allPageIds, c0, env);
    var h := HookPass(env.allPageIds, c0, env);
    if h.Returns? {
      StaticPassPreserves(env.pageRoutes, h.value, h.value, env);
    }
  }

  /** Every HTML file of a page names a page id of `prerenderPageIds`. */
  predicate FilesRecorded(r: Rendering) {
    DistinctKeys(r.pageIds) &&
    forall i :: 0 <= i < |r.htmlFiles| ==> r.htmlFiles[i].pageId.Some? && HasKey(r.pageIds, r.htmlFiles[i].pageId.value)
  }

  /** `files` is `acc` followed by one HTML file per entry of `table`, at
      that entry's URL, in order. */
  predicate Appended(acc: seq<HtmlFile>, files: seq<HtmlFile>, table: seq<PrerenderContext>, noExtraDir: bool,
                     usesClientRouter: bool) {
    |files| == |acc| + |table| && acc <= files &&
    forall i :: 0 <= i < |table| ==>
      files[|acc| + i].url == table[i].url && files[|acc| + i].doNotCreateExtraDirectory == noExtraDir &&
      (files[|acc| + i].pageContextSerialized.Some? <==> usesClientRouter)
  }

  lemma AppendedTransitive(a: seq<HtmlFile>, b: seq<HtmlFile>, c: seq<HtmlFile>, t1: seq<PrerenderContext>,
                           t2: seq<PrerenderContext>, noExtraDir: bool, usesClientRouter: bool)
    requires Appended(a, b, t1, noExtraDir, usesClientRouter) && Appended(b, c, t2, noExtraDir, usesClientRouter)
    ensures Appended(a, c, t1 + t2, noExtraDir, usesClientRouter)
  {
    var t := t1 + t2;
    forall i | 0 <= i < |t|
      ensures c[|a| + i].url == t[i].url && c[|a| + i].doNotCreateExtraDirectory == noExtraDir
      ensures c[|a| + i].pageContextSerialized.Some? <==> usesClientRouter
    {
      if i < |t1| {
        assert c[|a| + i] == b[|a| + i] && t[i] == t1[i];
      } else {
        var k := i - |t1|;
        assert |a| + i == |b| + k && t[i] == t2[k];
      }
    }
  }

  /** One URL of `routeAndPrerender` appends one HTML file at that URL. */
  lemma RouteStepFiles(acc: Rendering, entry: PrerenderContext, noExtraDir: bool, env: PrerenderEnv)
    requires WellFormedPrerenderEnv(env)
    ensures var s := RouteStep(acc, entry, noExtraDir, env);
      s.Returns? ==> Appended(acc.htmlFiles, s.value.htmlFiles, [entry], noExtraDir, env.usesClientRouter)
  {
    var routed := env.route(entry.url);
    if routed.Normal? && routed.value.Routed? && routed.value.pageId.Some? {
      RenderRoutedFiles(acc, entry, routed.value.pageId.value, noExtraDir, env);
    }
  }

  /** A routed URL appends one HTML file at that URL. */
  lemma RenderRoutedFiles(acc: Rendering, entry: PrerenderContext, pageId: string, noExtraDir: bool, env: PrerenderEnv)
    requires WellFormedPrerenderEnv(env) && ValidPath(pageId)
    ensures var s := RenderRouted(acc, entry, pageId, noExtraDir, env);
      s.Returns? ==> Appended(acc.htmlFiles, s.value.htmlFiles, [entry], noExtraDir, env.usesClientRouter)
  {
    var s := RenderRouted(acc, entry, pageId, noExtraDir, env);
    if s.Returns? {
      var input := PrerenderInput(entry.url, pageId, false, env.usesClientRouter, entry.alreadyProvided);
      var page := PrerenderPageSpec(input, LoadFiles(env, pageId).value, env).value;
      assert s.value.htmlFiles == acc.htmlFiles + [HtmlFile(entry.url, Some(pageId), page.documentHtml, page.pageContextSerialized, noExtraDir)];
    }
  }

  /** A routed URL records the page id of the file it adds. */
  lemma RenderRoutedRecorded(acc: Rendering, entry: PrerenderContext, pageId: string, noExtraDir: bool, env: PrerenderEnv)
    requires WellFormedPrerenderEnv(env) && ValidPath(pageId) && FilesRecorded(acc)
    ensures var s := RenderRouted(acc, entry, pageId, noExtraDir, env);
      s.Returns? ==> FilesRecorded(s.value)
  {
    var s := RenderRouted(acc, entry, pageId, noExtraDir, env);
    if s.Returns? {
      assert HasKey(s.value.pageIds, pageId);
      assert forall i :: 0 <= i < |acc.htmlFiles| ==> s.value.htmlFiles[i] == acc.htmlFiles[i];
    }
  }

  /** One URL of `routeAndPrerender` records the page id of the file it adds. */
  lemma RouteStepRecorded(acc: Rendering, entry: PrerenderContext, noExtraDir: bool, env: PrerenderEnv)
    requires WellFormedPrerenderEnv(env) && FilesRecorded(acc)
    ensures var s := RouteStep(acc, entry, noExtraDir, env);
      s.Returns? ==> FilesRecorded(s.value)
  {
    var routed := env.route(entry.url);
    if routed.Normal? && routed.value.Routed? && routed.value.pageId.Some? {
      RenderRoutedRecorded(acc, entry, routed.value.pageId.value, noExtraDir, env);
    }
  }

  /** A collected URL that routes to no page is a usage error when a
      `prerender()` hook returned it, and an internal assertion otherwise. */
  lemma UnmatchedUrlFails(acc: Rendering, entry: PrerenderContext, noExtraDir: bool, env: PrerenderEnv)
    requires WellFormedPrerenderEnv(env)
    ensures var routed := env.route(entry.url);
      routed.Normal? && routed.value.Routed? && routed.value.pageId.None? ==>
        RouteStep(acc, entry, noExtraDir, env) ==
          if entry.prerenderSourceFile.Some? then Raises(NewError(UsageError(NO_MATCHING_PAGE)))
          else Raises(NewError(AssertionFailure(ASSERT_SOURCE_FILE)))
  {
  }

  /** `routeAndPrerender` turns each collected URL, in order, into one HTML
      file, with `doNotCreateExtraDirectory` from `noExtraDir` and a
      serialised `pageContext` exactly under client routing. */
  lemma {:induction false} RoutePassFiles(table: seq<PrerenderContext>, acc: Rendering, noExtraDir: bool, env: PrerenderEnv)
    requires WellFormedPrerenderEnv(env)
    ensures var r := RoutePass(table, acc, noExtraDir, env);
      r.Returns? ==> Appended(acc.htmlFiles, r.value.htmlFiles, table, noExtraDir, env.usesClientRouter)
    decreases |table|
  {
    if table == [] {
      assert Appended(acc.htmlFiles, acc.htmlFiles, table, noExtraDir, env.usesClientRouter);
    } else {
      var s := RouteStep(acc, table[0], noExtraDir, env);
      if s.Returns? {
        RoutePassFiles(table[1..], s.value, noExtraDir, env);
      }
      RoutePassFilesCons(table, acc, noExtraDir, env);
    }
  }

  /** The step of `RoutePassFiles`: the first URL's file, then the rest's. */
  lemma RoutePassFilesCons(table: seq<PrerenderContext>, acc: Rendering, noExtraDir: bool, env: PrerenderEnv)
    requires WellFormedPrerenderEnv(env) && table != []
    requires var s := RouteStep(acc, table[0], noExtraDir, env);
      s.Returns? ==>
        var r := RoutePass(table[1..], s.value, noExtraDir, env);
        r.Returns? ==> Appended(s.value.htmlFiles, r.value.htmlFiles, table[1..], noExtraDir, env.usesClientRouter)
    ensures var r := RoutePass(table, acc, noExtraDir, env);
      r.Returns? ==> Appended(acc.htmlFiles, r.value.htmlFiles, table, noExtraDir, env.usesClientRouter)
  {
    RoutePassCons(table, acc, noExtraDir, env);
    var s := RouteStep(acc, table[0], noExtraDir, env);
    if s.Returns? {
      var r := RoutePass(table[1..], s.value, noExtraDir, env);
      assert RoutePass(table, acc, noExtraDir, env) == r;
      if r.Returns? {
        RouteStepFiles(acc, table[0], noExtraDir, env);
        assert [table[0]] + table[1..] == table;
        AppendedTransitive(acc.htmlFiles, s.value.htmlFiles, r.value.htmlFiles, [table[0]], table[1..],
                           noExtraDir, env.usesClientRouter);
      }
    }
  }

  /** Every HTML file `routeAndPrerender` produces is for a page id it
      records, and each page id is recorded once. */
  lemma {:induction false} RoutePassRecorded(table: seq<PrerenderContext>, acc: Rendering, noExtraDir: bool, env: PrerenderEnv)
    requires WellFormedPrerenderEnv(env) && FilesRecorded(acc)
    ensures var r := RoutePass(table, acc, noExtraDir, env);
      r.Returns? ==> FilesRecorded(r.value)
    decreases |table|
  {
    if table != [] {
      RoutePassCons(table, acc, noExtraDir, env);
      RouteStepRecorded(acc, table[0], noExtraDir, env);
      var s := RouteStep(acc, table[0], noExtraDir, env);
      if s.Returns? {
        RoutePassRecorded(table[1..], s.value, noExtraDir, env);
      }
    }
  }

  /** The write step's assertions hold on files with rooted URLs whose page
      ids are not excluded: only the unseen `getFileUrl` can fail it. */
  lemma {:induction false} WritePlanChecksHold(files: seq<HtmlFile>, root: string, outDir: string, excluded: seq<Exclusion>,
                                               env: PrerenderEnv)
    requires forall i :: 0 <= i < |files| ==> StartsWith(files[i].url, "/")
    requires forall i :: 0 <= i < |files| && files[i].pageId.Some? ==> !IsExcluded(excluded, files[i].pageId.value)
    ensures var r := WritePlan(files, root, outDir, excluded, env);
      r.Raises? ==> r.error == NewError(AssertionFailure(ASSERT_FILE_URL)) || r.error == NewError(AssertionFailure(ASSERT_RELATIVE))
    decreases |files|
  {
    if files != [] {
      WritePlanChecksHold(files[1..], root, outDir, excluded, env);
    }
  }

  /** How many HTML files carry a serialised `pageContext`. */
  function SerializedCount(files: seq<HtmlFile>): (n: nat)
    ensures n <= |files|
  {
    if files == [] then 0 else (if files[0].pageContextSerialized.Some? then 1 else 0) + SerializedCount(files[1..])
  }

  /** The write plan: one `.html` job per file and one `.pageContext.json`
      job per serialised `pageContext`, file by file in order. */
  lemma {:induction false} WritePlanJobs(files: seq<HtmlFile>, root: string, outDir: string, excluded: seq<Exclusion>,
                                         env: PrerenderEnv)
    ensures var r := WritePlan(files, root, outDir, excluded, env);
      r.Returns? ==>
        |r.value| == |files| + SerializedCount(files) &&
        (files != [] ==> Write(files[0].url, HTML_EXTENSION, files[0].htmlString, files[0].doNotCreateExtraDirectory,
                               root, outDir, env) == Returns(r.value[0]))
    decreases |files|
  {
    if files != [] {
      WritePlanJobs(files[1..], root, outDir, excluded, env);
    }
  }

  /** The HTML files after `/404` synthesis: one per URL. */
  lemma Files404(files: seq<HtmlFile>, env: PrerenderEnv)
    requires WellFormedPrerenderEnv(env)
    requires forall i, j :: 0 <= i < j < |files| ==> files[i].url != files[j].url
    ensures var r := Prerender404Page(files, env);
      r.Returns? ==> forall i, j :: 0 <= i < j < |r.value| ==> r.value[i].url != r.value[j].url
  {
  }

  /** The files after `/404` synthesis satisfy the write step's checks when
      the rendered ones came from a table of rooted URLs and no rendered
      page is excluded. */
  lemma FilesWritable(table: seq<PrerenderContext>, rendering: Rendering, excluded: seq<Exclusion>, noExtraDir: bool,
                      env: PrerenderEnv)
    requires WellFormedPrerenderEnv(env) && RootedUrls(table) && FilesRecorded(rendering)
    requires Appended([], rendering.htmlFiles, table, noExtraDir, env.usesClientRouter)
    requires WarnContradictoryNoPrerenderList(rendering.pageIds, excluded).Returns?
    ensures var files := Prerender404Page(rendering.htmlFiles, env);
      files.Returns? ==>
        (forall i :: 0 <= i < |files.value| ==> StartsWith(files.value[i].url, "/")) &&
        (forall i :: 0 <= i < |files.value| && files.value[i].pageId.Some? ==> !IsExcluded(excluded, files.value[i].pageId.value))
  {
    var files := Prerender404Page(rendering.htmlFiles, env);
    if files.Returns? {
      var fs := files.value;
      var hs := rendering.htmlFiles;
      forall i | 0 <= i < |fs|
        ensures StartsWith(fs[i].url, "/")
        ensures fs[i].pageId.Some? ==> !IsExcluded(excluded, fs[i].pageId.value)
      {
        if i < |hs| {
          assert fs[i] == hs[i];
          assert hs[0 + i].url == table[i].url;
          var p := hs[i].pageId.value;
          assert HasKey(rendering.pageIds, p);
          var k :| 0 <= k < |rendering.pageIds| && rendering.pageIds[k].0 == p;
        }
      }
    }
  }

  /** After collecting, every file `routeAndPrerender` and the `/404`
      synthesis hand to the write step has a URL starting with `/` and is
      not of an excluded page, so `writeHtmlFile`'s own assertions hold and
      only `getFileUrl`'s result can make the write step fail. */
  lemma ExcludedNeverWritten(s: Settings, c: Collected, env: PrerenderEnv)
    requires WellFormedPrerenderEnv(env) && RootedUrls(c.table)
    ensures var rendering := RoutePass(c.table, Rendering([], []), s.noExtraDir, env);
      rendering.Returns? && WarnContradictoryNoPrerenderList(rendering.value.pageIds, c.excluded).Returns? ==>
        var files := Prerender404Page(rendering.value.htmlFiles, env);
        files.Returns? ==>
          (forall i :: 0 <= i < |files.value| ==> StartsWith(files.value[i].url, "/")) &&
          (forall i :: 0 <= i < |files.value| && files.value[i].pageId.Some? ==>
             !IsExcluded(c.excluded, files.value[i].pageId.value)) &&
          var w := WritePlan(files.value, s.root, s.outDir, c.excluded, env);
          w.Raises? ==> w.error == NewError(AssertionFailure(ASSERT_FILE_URL)) || w.error == NewError(AssertionFailure(ASSERT_RELATIVE))
  {
    RoutePassFiles(c.table, Rendering([], []), s.noExtraDir, env);
    RoutePassRecorded(c.table, Rendering([], []), s.noExtraDir, env);
    var rendering := RoutePass(c.table, Rendering([], []), s.noExtraDir, env);
    if rendering.Returns? && WarnContradictoryNoPrerenderList(rendering.value.pageIds, c.excluded).Returns? {
      FilesWritable(c.table, rendering.value, c.excluded, s.noExtraDir, env);
      var files := Prerender404Page(rendering.value.htmlFiles, env);
      if files.Returns? {
        WritePlanChecksHold(files.value, s.root, s.outDir, c.excluded, env);
      }
    }
  }

  /* --------------------------------------------------------------- findings */

  /** A `prerender()` hook returning the bare string `"about"` passes
      normalisation and then fails the collector's internal assertion; the
      corrected normalisation rejects it as a usage error. */
  lemma BareUrlReachesAssertion()
    ensures NormalizePrerenderResult(JsString("about")) == Returns([UrlEntry("about", JsNull)])
    ensures AddEntries([], [UrlEntry("about", JsNull)], "/pages/about.page.server.js") ==
            Raises(NewError(AssertionFailure(ASSERT_URL_START)))
    ensures NormalizeElementCorrected(JsString("about")) == Raises(NewError(UsageError(URL_BAD_START)))
  {
    assert "about"[0] != '/';
  }

  /** `{ url: '/a', pageContext: [] }` passes normalisation, since
      `typeof [] === 'object'`, and then fails the collector's internal
      assertion; the corrected normalisation rejects it as a usage error. */
  lemma NonPlainOverridesReachAssertion()
    ensures var e := JsObject([("url", JsString("/a")), ("pageContext", JsArray([]))], "Object");
      NormalizeElement(e) == Returns(UrlEntry("/a", JsArray([]))) &&
      AddEntries([], [UrlEntry("/a", JsArray([]))], "/pages/a.page.server.js") ==
        Raises(NewError(AssertionFailure(ASSERT_OVERRIDES_PLAIN))) &&
      NormalizeElementCorrected(e) == Raises(NewError(UsageError(INVALID_OVERRIDES)))
  {
    var e := JsObject([("url", JsString("/a")), ("pageContext", JsArray([]))], "Object");
    assert Keys(e) == ["url", "pageContext"];
    assert Get(e, "url") == JsString("/a");
    assert Get(e, "pageContext") == JsArray([]);
    assert StartsWith("/a", "/");
  }

  /** Options valid except for `parallel`. */
  function OptionsWithParallel(parallel: JsValue): PrerenderOptions {
    PrerenderOptions(JsBool(false), JsBool(false), JsUndefined, JsString("/app"), JsString("dist"), parallel)
  }

  /** `parallel: -1` and `parallel: 'many'` pass the check, which only asks
      for a truthy value; the corrected check rejects both. */
  lemma ParallelAcceptsAnyTruthyValue()
    ensures ValidateOptions(OptionsWithParallel(JsNumber(-1.0))).Returns?
    ensures ValidateOptions(OptionsWithParallel(JsString("many"))).Returns?
    ensures ValidateOptionsCorrected(OptionsWithParallel(JsNumber(-1.0))).Raises?
    ensures ValidateOptionsCorrected(OptionsWithParallel(JsString("many"))).Raises?
  {
    assert StartsWith("/app", "/");
  }

  /** A set `base` draws the deprecation warning and then fails
      `assert(base === undefined)`; the corrected check only warns. */
  lemma BaseOptionFailsAssertion()
    ensures var o := OptionsWithParallel(JsNumber(2.0)).(base := JsString("/docs/"));
      WarnsAboutBase(o) && ValidateOptions(o) == Raises(NewError(AssertionFailure(ASSERT_BASE))) &&
      ValidateOptionsCorrected(o) == Returns(Settings(false, false, "/app", "dist"))
  {
    assert StartsWith("/app", "/");
  }

  /* ------------------------------------------------------- normalisation */

  /** A hook returning `"/foo"` is the same as one returning
      `{ url: "/foo" }` or `{ url: "/foo", pageContext: null }`. */
  lemma ShorthandEquivalence(url: string)
    requires StartsWith(url, "/")
    ensures var short := NormalizePrerenderResult(JsString(url));
      short == NormalizePrerenderResult(JsObject([("url", JsString(url))], "Object")) &&
      short == NormalizePrerenderResult(JsObject([("url", JsString(url)), ("pageContext", JsNull)], "Object")) &&
      short == Returns([UrlEntry(url, JsNull)])
  {
    var e1 := JsObject([("url", JsString(url))], "Object");
    var e2 := JsObject([("url", JsString(url)), ("pageContext", JsNull)], "Object");
    assert Keys(e1) == ["url"];
    assert Keys(e2) == ["url", "pageContext"];
    assert Get(e1, "url") == JsString(url);
    assert Get(e2, "url") == JsString(url);
    assert Get(e2, "pageContext") == JsNull;
  }
}
