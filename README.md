# vite-plugin-ssr rendering core, modelled in Dafny

This project models the decision-making core of vite-plugin-ssr (the compiled `dist/` output of version 0.3.x) and proves properties about it:

- **Request rendering.** `renderPage`, `initializePageContext`, `render500Page` and `renderPageWithoutThrowing` extend one mutable `pageContext` step by step. They decide between a null response, a routed page (status 200), an error page for an unmatched URL (404, or 200 for a `pageContext.json` data request) and the 500 path.
- **Before-render capability protocol.** Two closure flags guard `skipOnBeforeRenderServerHooks` and `runOnBeforeRenderServerHooks`.
- **Render hook.** Selecting the `render()` hook and validating the shape of its result (`executeRenderHook`, `assertHookResult`, `assertKeys`).
- **HTTP response object.** `createHttpResponseObject`, with its content type and its `body` getter.
- **Error logging.** A marker on the error object makes `logError` print a given error at most once.
- **Pre-rendering.** The `prerender()` command:
  - normalising `prerender()` hook results;
  - the URL table, keyed by URL, that merges overrides;
  - the `doNotPrerender` exclusion list;
  - the static-route pass;
  - routing and rendering every URL;
  - the contradiction check and the missing-page warning;
  - `/404` synthesis;
  - the write plan.
- **Page-file resolution.** `getPageFiles.js`: the page-file registry, lookup with a conflict error, default files and the nearest default file.
- **Computed URL properties.** The getters that `addComputedUrlProps` installs.
- **Build helpers.** The Vite build plugin's output directory, client-code removal, rollup input merging and server entry name.
- **`normalizePath`.** Path normalisation.

Code that the core calls but does not define is a parameter of the model: an "oracle" with no behaviour of its own beyond its inputs. This covers routing, user hooks, file loaders, URL parsing, `getErrorPageId`, `isStaticRoute`, `getFileUrl`, `getPathDistance`, HTML rendering and serialisation. The model is sequential: `Promise.all` and `p-limit` fan-outs run in array order, and the first failure ends the run.

Errors follow JavaScript's two kinds of throw:

- **In the methods.** A thrown value is a `Completion` (`Normal` or `Threw`). A freshly raised framework error is a new `ErrorObject` whose `wasAlreadyConsoleLogged` field is the logging marker.
- **In the specification functions.** An outcome is an `Outcome` (`Returns` or `Raises`). `Raises` carries an `Expected` failure: either a rethrown user value or a new error of a given origin (usage error, assertion failure, wrapped primitive).

Each class method is proved against a specification function of its old state. Two conventions:

- **Prerender methods.** `ensures var o := Spec(old(state)); r == Settle(o) && (o.Returns? ==> state == o.value)`.
- **`renderPage` methods.** The new `pageContext` realises the specification's view of it.

The properties are proved about those functions.

## Model

Source paths are relative to the repository root.

| member | source | states |
|---|---|---|
| Errors.HasAlreadyLogged | vite-plugin-ssr/dist/esm/node/renderPage.js:723-731 | returns whether the error object was already marked, and leaves it marked: false on first sight, true on every later call |
| Errors.LogError | vite-plugin-ssr/dist/esm/node/renderPage.js:699-712 | a primitive is a usage error and prints nothing; an error object is printed exactly when it was not yet marked, and is marked afterwards, so it is printed at most once |
| HttpResponse.ContentType | vite-plugin-ssr/dist/esm/node/renderPage.js:207 | `application/json` exactly for a data request, `text/html` exactly otherwise |
| HttpResponse.CreateHttpResponseObject | vite-plugin-ssr/dist/esm/node/renderPage.js:200-243 | the response is null exactly when the render is null; otherwise it is well formed and carries the given status code and render |
| HttpResponse.Body | vite-plugin-ssr/dist/esm/node/renderPage.js:208-217 | the `body` getter returns the HTML exactly for a string render, and is a usage error for a stream |
| HttpResponse.DataRequestBodyReadable | vite-plugin-ssr/dist/esm/node/renderPage.js:200-217 | every response built for a data request has the JSON content type and a readable body equal to the string it was built from |
| BeforeRender.Capabilities.constructor | vite-plugin-ssr/dist/esm/node/renderPage.js:415-416 | both closure flags start false |
| BeforeRender.Capabilities.Skip | vite-plugin-ssr/dist/esm/node/renderPage.js:447-450 | after `run` it is a usage error that changes no flag; otherwise it sets `skipServerHooks` and nothing else |
| BeforeRender.Capabilities.Run | vite-plugin-ssr/dist/esm/node/renderPage.js:451-457 | after `skip`, or a second time, it is a usage error that changes no flag; otherwise it sets `serverHooksCalled` and returns the server hooks' result |
| BeforeRender.RespectedSnoc | vite-plugin-ssr/dist/esm/node/renderPage.js:447-457 | appending a call keeps the protocol exactly when the earlier calls keep it and the new call is allowed after them |
| BeforeRender.ProtocolErrors | vite-plugin-ssr/dist/esm/node/renderPage.js:447-457 | a sequence of capability calls completes exactly when it never runs after a skip, skips after a run or runs twice; the final flags are exactly "run was called" and "skip was called" |
| BeforeRender.CapabilityErrorsAreUsageErrors | vite-plugin-ssr/dist/esm/node/renderPage.js:447-457 | every failure of a call sequence is one of the three usage errors |
| BeforeRender.FailureSticks | vite-plugin-ssr/dist/esm/node/renderPage.js:447-457 | once a call fails, the later calls do not change the outcome |
| BeforeRender.OnBeforeRenderSpec | vite-plugin-ssr/dist/esm/node/renderPage.js:410-440 | nothing runs when `pageContext` was provided by the prerender hook; with no isomorphic hook, or for a data request, the server hooks run directly and their failure is rethrown |
| BeforeRender.ProtocolViolationFails | vite-plugin-ssr/dist/esm/node/renderPage.js:417-423 | an isomorphic hook that breaks the capability protocol makes the stage fail with one of the three usage errors |
| BeforeRender.ExecuteOnBeforeRenderHooks | vite-plugin-ssr/dist/esm/node/renderPage.js:410-458 | the method, with its mutable flags, computes exactly `OnBeforeRenderSpec` |
| RenderHook.UnknownKeys | vite-plugin-ssr/dist/esm/node/renderPage.js:557-572 | the result holds exactly the keys of the object that are not expected |
| RenderHook.AssertKeys | vite-plugin-ssr/dist/esm/node/renderPage.js:557-572 | the loop collects exactly the unknown keys; it fails, with the unknown-keys usage error, exactly when some key is outside the list |
| RenderHook.AssertHookResult | vite-plugin-ssr/dist/esm/node/renderPage.js:549-556 | accepts exactly a nullish value or a plain object with only allowed keys; the error says which check failed |
| RenderHook.ChooseRender | vite-plugin-ssr/dist/esm/node/renderPage.js:461-478 | the page file's `render` is preferred, then the default file's, each with its own file path; none when neither exports one |
| RenderHook.CheckDocumentHtml | vite-plugin-ssr/dist/esm/node/renderPage.js:504-533 | accepts exactly `null`, document HTML, or an object whose `documentHtml` is nullish or document HTML, returning that document; a plain string, another bare value, a string `documentHtml` and any other `documentHtml` each get their own usage error |
| RenderHook.ExecuteRenderHook | vite-plugin-ssr/dist/esm/node/renderPage.js:459-548 | no `render` is a usage error; a throwing hook is captured with hook name and file; `null` renders nothing; document HTML, or a plain `{ documentHtml, pageContext }` with known keys, an accepted `pageContext` and a nullish or document-HTML `documentHtml`, is rendered by `renderHtml` (its failure reported as the hook's) and hands back the `pageContext`; a string, `undefined`, a number, a boolean or a function is refused, as are a non-plain object, unknown keys, a refused `pageContext` and a string or other invalid `documentHtml`, each with its own usage error |
| RenderUtils.AssertArguments | vite-plugin-ssr/dist/esm/node/renderPage.js:573-595 | accepts exactly a single plain-object argument whose `url` is a string starting with `/` or `http` that parses as a URL, and returns that URL; every rejection is a usage error |
| RenderUtils.IsFileRequestMeaning | vite-plugin-ssr/dist/esm/node/renderPage.js:653-665 | a pathname is a file request exactly when its last segment ends with a dot and a non-empty lower-case alphanumeric extension |
| RenderUtils.FileRequestEndsWithExtension | vite-plugin-ssr/dist/esm/node/renderPage.js:653-665 | a file request ends with an extension |
| RenderUtils.ExtensionMakesFileRequest | vite-plugin-ssr/dist/esm/node/renderPage.js:653-665 | a pathname ending with an extension is a file request |
| RenderUtils.TruncateString | vite-plugin-ssr/dist/esm/node/renderPage.js:644-652 | as written: a string shorter than the limit comes back with its length and characters; otherwise the result keeps the first `len` characters, is `len + 3` long and ends with `...` |
| RenderUtils.TruncateStringAtExactLength | vite-plugin-ssr/dist/esm/node/renderPage.js:644-652 | every string exactly at the limit comes back whole and three characters longer, with `...` appended |
| RenderUtils.TruncateStringCorrected | vite-plugin-ssr/dist/esm/node/renderPage.js:644-652 | a string within the limit is kept; a longer one keeps its first `len` characters and ends with `...` |
| RenderUtils.TruncateStringAgreesOffBoundary | vite-plugin-ssr/dist/esm/node/renderPage.js:644-652 | the as-written and the corrected truncation agree on every string whose length is not exactly the limit |
| LoadPageFiles.FindPageFileOrThrow | vite-plugin-ssr/dist/esm/node/renderPage.js:345-382 | fails, with the conflicting-files usage error, exactly when `findPageFile` reports a conflict; otherwise returns its file |
| LoadPageFiles.PassToClient | vite-plugin-ssr/dist/esm/node/renderPage.js:318-320 | the page file's `passToClient` wins, then the default file's, else empty |
| LoadPageFiles.GetPageClientPath | vite-plugin-ssr/dist/esm/node/renderPage.js:336-344 | no client file is a usage error; conflicting page files are the conflict error; the page's own client file wins, and without one the result is the nearest default file's path, or the internal assertion when there is none |
| LoadPageFiles.LoadServerFile | vite-plugin-ssr/dist/esm/node/renderPage.js:345-382 | no file gives nothing; a loaded file keeps its path |
| LoadPageFiles.LoadPageServerFiles | vite-plugin-ssr/dist/esm/node/renderPage.js:345-382 | no server file at all is a usage error; conflicting page files are the conflict error; a result holds exactly the loaded page file and the loaded nearest default file, at least one present; a loader failure (the page file's first) is rethrown; the page file is `<pageId>.page.*` and the default file lies under `/_default` |
| LoadPageFiles.LoadPageFilesOf | vite-plugin-ssr/dist/esm/node/renderPage.js:305-335 | failures surface in order (isomorphic files, client path, server files); a result holds the isomorphic files, the page's client path, exactly the two server files `loadPageServerFiles` loads, and their `passToClient` choice |
| LoadPageFiles.OnBeforePrerenderStep | vite-plugin-ssr/dist/esm/node/renderPage.js:383-402 | a step changes the hook found only by recording a first hook, named by its file |
| LoadPageFiles.OnBeforePrerenderFailureSticks | vite-plugin-ssr/dist/esm/node/renderPage.js:383-402 | once a default file fails to load or declares a second hook, the later files do not change the outcome |
| LoadPageFiles.OnBeforePrerenderUnique | vite-plugin-ssr/dist/esm/node/renderPage.js:383-402 | a second `onBeforePrerender` export is a usage error; a found hook is exported by exactly that file |
| LoadPageFiles.LoadOnBeforePrerenderHook | vite-plugin-ssr/dist/esm/node/renderPage.js:383-402 | the loop over the default server files computes exactly the fold over them |
| RenderFlow.InitializePageContextSpec | vite-plugin-ssr/dist/esm/node/renderPage.js:106-128 | a result without a response is ready for routing |
| RenderFlow.PreparePageSpec | vite-plugin-ssr/dist/esm/node/renderPage.js:79-80 | loading page files keeps the page ready, gives it a server file, and changes only the page files and the merged additions |
| RenderFlow.RenderPageWithoutThrowingCorrected | vite-plugin-ssr/dist/esm/node/renderPage.js:130-151 | never raises, and returns `renderPage`'s result whenever that succeeds |
| RenderPage.PageContext.constructor | vite-plugin-ssr/dist/esm/node/renderPage.js:106-110 | a fresh `pageContext` realises the blank view of its URL |
| RenderPage.PageContext.PreparePage | vite-plugin-ssr/dist/esm/node/renderPage.js:79-80 | reaches `PreparePageSpec` of the old view; a new error is a fresh error object |
| RenderPage.PageContext.RunBeforeRender | vite-plugin-ssr/dist/esm/node/renderPage.js:81 | reaches the before-render stage of the old view |
| RenderPage.PageContext.Continue500 | vite-plugin-ssr/dist/esm/node/renderPage.js:157-170 | reaches `render500Page` once the page is initialised: marked with the error, `is404: false`, then answered |
| RenderPage.PageContext.Answer500Page | vite-plugin-ssr/dist/esm/node/renderPage.js:163-178 | reaches the 500 answer: `{serverSideError: true}` for a data request, nothing without an error page, the error page otherwise |
| RenderPage.PageContext.RenderErrorPage | vite-plugin-ssr/dist/esm/node/renderPage.js:179-199 | reaches the 500 error-page rendering of the old view |
| RenderPage.PageContext.AnswerErrorPage | vite-plugin-ssr/dist/esm/node/renderPage.js:186-199 | reaches the error page's answer: status 500, or a null response when its hook failed |
| RenderPage.PageContext.Route | vite-plugin-ssr/dist/esm/node/renderPage.js:31-78 | handles routing as `RouteSpec` does, returning a route hook error for the 500 path |
| RenderPage.PageContext.NoMatch | vite-plugin-ssr/dist/esm/node/renderPage.js:43-78 | handles an unmatched URL as `NoMatchSpec` does |
| RenderPage.PageContext.RenderRouted | vite-plugin-ssr/dist/esm/node/renderPage.js:79-104 | handles a routed page as `RenderRoutedSpec` does |
| RenderPage.PageContext.Respond | vite-plugin-ssr/dist/esm/node/renderPage.js:82-104 | answers a prepared page as `RespondSpec` does |
| RenderPage.InitializePageContext | vite-plugin-ssr/dist/esm/node/renderPage.js:106-128 | a fresh `pageContext` realising `InitializePageContextSpec` |
| RenderPage.Render500Page | vite-plugin-ssr/dist/esm/node/renderPage.js:152-199 | realises `Render500Spec` and keeps the error marked as logged |
| RenderPage.LogThenRender500 | vite-plugin-ssr/dist/esm/node/renderPage.js:33-37 | prints the error once if it was not yet logged, leaves it marked, then realises `render500Page` for it |
| RenderPage.RenderPage | vite-plugin-ssr/dist/esm/node/renderPage.js:23-105 | realises `RenderPageSpec`; the console gains exactly the logged hook error, if it was not logged before, and that error ends marked |
| RenderPage.RenderPageWithoutThrowing | vite-plugin-ssr/dist/esm/node/renderPage.js:130-151 | realises the as-written `renderPageWithoutThrowing`; the console gains what `renderPage` logged and then the error it threw, unless that was marked already (a new error object always is printed); `render500Page` prints nothing |
| RenderPage.Recover | vite-plugin-ssr/dist/esm/node/renderPage.js:136-149 | the `catch` branch: `logError`, then `render500Page`, then the fallback `pageContext`; the console gains the caught error exactly when it was not yet marked |
| RenderPage.Fallback500Page | vite-plugin-ssr/dist/esm/node/renderPage.js:140-148 | `render500Page`, or on its failure a `pageContext` with a null response that carries the second error |
| RenderPageProperties.InitializeOutcome | vite-plugin-ssr/dist/esm/node/renderPage.js:106-128 | the URL is a string; there is a null response exactly for a favicon URL or one outside the base URL; otherwise the page is ready with the global context and computed URL props |
| RenderPageProperties.NoRoutingForFaviconOrForeignUrl | vite-plugin-ssr/dist/esm/node/renderPage.js:26-29 | such a request ends with a null response, no page id and no global context, before routing |
| RenderPageProperties.MatchedRouteIs200 | vite-plugin-ssr/dist/esm/node/renderPage.js:40-42 | a matched page keeps its id and route parameters, is not a 404, has a response field, and any response is status 200 |
| RenderPageProperties.RoutedPageAnswers | vite-plugin-ssr/dist/esm/node/renderPage.js:80-104 | a routed page whose files, hooks and render succeed is answered with the given status, keeping its id, route parameters, error and `is404` |
| RenderPageProperties.MatchedRouteAnswers200 | vite-plugin-ssr/dist/esm/node/renderPage.js:38-104 | a matched route whose files load, whose `onBeforeRender()` hooks succeed and whose `render()` hook renders HTML gets a status-200 response: that HTML, or the serialised `pageContext` as JSON for a data request |
| RenderPageProperties.NoMatchRendersErrorPage | vite-plugin-ssr/dist/esm/node/renderPage.js:66-78 | with no match and an error page, the error page is rendered with `is404` and a response field, status 404 for HTML and 200 for data |
| RenderPageProperties.NoMatchWithoutErrorPage | vite-plugin-ssr/dist/esm/node/renderPage.js:49-65 | with no match and no error page: a null response for HTML, `{pageContext404PageDoesNotExist: true}` with status 200 for data |
| RenderPageProperties.NoPageAtAllIsUsageError | vite-plugin-ssr/dist/esm/node/renderPage.js:606-617 | an HTML request in an app with no page routes is a usage error |
| RenderPageProperties.DataRequestGetsJson | vite-plugin-ssr/dist/esm/node/renderPage.js:82-87 | a successful data request gets a JSON response with status 200 or 500 |
| RenderPageProperties.ErrorPageIs500 | vite-plugin-ssr/dist/esm/node/renderPage.js:179-199 | the 500 error page keeps the other fields and answers 500, with a null response exactly when its hook failed or rendered nothing |
| RenderPageProperties.Render500Outcome | vite-plugin-ssr/dist/esm/node/renderPage.js:152-199 | the page carries the error and `is404: false`; `{serverSideError: true}` with status 500 for data; no response without an error page; any response is a 500 |
| RenderPageProperties.RoutedOutcome | vite-plugin-ssr/dist/esm/node/renderPage.js:79-104 | a rendered page keeps its id, `is404` and route parameters; data gets the serialised `pageContext` with 200, HTML gets the given status |
| RenderPageProperties.RouteOutcome | vite-plugin-ssr/dist/esm/node/renderPage.js:31-87 | routing that settles sets `_pageId`; data gets JSON with 200: the serialised `pageContext`, or the 404 marker |
| RenderPageProperties.HookFailureIs500 | vite-plugin-ssr/dist/esm/node/renderPage.js:33-37 | a route hook error is logged and answered by `render500Page`, and the result carries it |
| RenderPageProperties.ErrorMeansLogged | vite-plugin-ssr/dist/esm/node/renderPage.js:33-37 | a `pageContext` with `_err` is `render500Page`'s, for exactly the logged error object |
| RenderPageProperties.ErrorMeansLoggedAnd500 | vite-plugin-ssr/dist/esm/node/renderPage.js:90-94 | a returned `pageContext` with an error holds the logged error and has a response field, which is null or a 500 |
| RenderPageProperties.WithoutThrowingRaisesOnlyOnPrimitive | vite-plugin-ssr/dist/esm/node/renderPage.js:130-151 | as written, it raises exactly when `renderPage` threw a primitive, and then raises the `logError` usage error |
| RenderPageProperties.PrimitiveRejectionEscapes | vite-plugin-ssr/dist/esm/node/renderPage.js:130-138 | a request on which `getGlobalContext` rejects with a string makes it throw |
| RenderPageProperties.CorrectedNeverThrows | vite-plugin-ssr/dist/esm/node/renderPage.js:130-151 | the corrected version returns always, and agrees with the written one whenever the written one does not throw |
| PrerenderPlan.WithDefaults | vite-plugin-ssr/dist/cjs/node/prerender.js:20 | every option except `base` gets a value; the default parallelism is at least 1 |
| PrerenderPlan.ValidateOptions | vite-plugin-ssr/dist/cjs/node/prerender.js:294-302 | accepts exactly boolean `partial`/`noExtraDir`, absolute string `root`, string `outDir`, truthy `parallel` and absent `base`; a rejection is a usage error or the `base` assertion |
| PrerenderPlan.ValidateOptionsCorrected | vite-plugin-ssr/dist/cjs/node/prerender.js:294-302 | accepts only a number `parallel` of at least 1, treats `base` as the warning says, and agrees with the written check otherwise |
| PrerenderPlan.NormalizeElement | vite-plugin-ssr/dist/cjs/node/prerender.js:266-283 | a string becomes `{url, pageContext: null}`; an object must be plain with a string `url` starting with `/` and only `url`/`pageContext` keys; missing `pageContext` becomes null; failures are usage errors |
| PrerenderPlan.NormalizeAll | vite-plugin-ssr/dist/cjs/node/prerender.js:259-262 | succeeds exactly when every element does, element-wise and in order |
| PrerenderPlan.NormalizePrerenderResult | vite-plugin-ssr/dist/cjs/node/prerender.js:259-284 | an array maps element-wise, anything else to one entry; every `pageContext` is of type object |
| PrerenderPlan.CheckEntry | vite-plugin-ssr/dist/cjs/node/prerender.js:92-94 | passes exactly for a URL starting with `/` and a null or plain `pageContext`; otherwise an internal assertion fails |
| PrerenderPlan.NormalizeElementCorrected | vite-plugin-ssr/dist/cjs/node/prerender.js:266-283 | every accepted entry passes the later assertions, and agrees with the written function on those |
| PrerenderPlan.PrerenderError | vite-plugin-ssr/dist/esm/node/renderPage.js:688-698 | an object with a stack is rethrown as is; a primitive is wrapped in a new error |
| PrerenderPlan.FindUrl | vite-plugin-ssr/dist/cjs/node/prerender.js:95 | the index of the first entry with that URL, or none when no entry has it |
| PrerenderPlan.AddOverride | vite-plugin-ssr/dist/cjs/node/prerender.js:95-102 | a new URL is appended; a known URL keeps its place, source file and other fields and merges the overrides; other entries are unchanged; distinct URLs stay distinct |
| PrerenderPlan.FindUrlIsFirst | vite-plugin-ssr/dist/cjs/node/prerender.js:95 | with distinct URLs, the entry at an index is the one found for its URL |
| PrerenderPlan.LoadFiles | vite-plugin-ssr/dist/esm/node/renderPage.js:305-335 | loaded page files include a server file |
| PrerenderPlan.StaticUrl | vite-plugin-ssr/dist/cjs/node/prerender.js:115-131 | no route file gives `filesystemRoute`; a route string is used only when static; a route function gives none |
| PrerenderPlan.PrerenderPageSpec | vite-plugin-ssr/dist/esm/node/renderPage.js:244-267 | a serialised `pageContext` exists exactly under client routing; the rendered page has the HTML of its render hook |
| PrerenderPlan.KeyIndex | vite-plugin-ssr/dist/cjs/node/prerender.js:181 | the position of a page id in the `prerenderPageIds` table, or none exactly when absent |
| PrerenderPlan.SetKey | vite-plugin-ssr/dist/cjs/node/prerender.js:181 | the key set gains exactly the page id, the entry is recorded, other keys keep their entries, keys stay distinct |
| PrerenderPlan.RoutePassCons | vite-plugin-ssr/dist/cjs/node/prerender.js:155-187 | the routing pass over a table is its first step followed by the pass over the rest |
| PrerenderPlan.WarnContradictoryNoPrerenderList | vite-plugin-ssr/dist/cjs/node/prerender.js:188-196 | passes exactly when no pre-rendered page id is on the exclusion list; otherwise a usage error |
| PrerenderPlan.MissingPages | vite-plugin-ssr/dist/cjs/node/prerender.js:197-205 | exactly the page ids not pre-rendered, not excluded and not error pages |
| PrerenderPlan.WarnMissingPages | vite-plugin-ssr/dist/cjs/node/prerender.js:197-205 | the warnings name exactly the missing pages, and none under `partial` |
| PrerenderPlan.RenderStatic404Page | vite-plugin-ssr/dist/esm/node/renderPage.js:268-285 | nothing without an error page; the rendered 404 has no serialised `pageContext` |
| PrerenderPlan.Prerender404Page | vite-plugin-ssr/dist/cjs/node/prerender.js:206-222 | files with `/404` are unchanged; at most one file is appended, with URL `/404` and no extra directory, exactly when there is an error page |
| PrerenderPlan.Write | vite-plugin-ssr/dist/cjs/node/prerender.js:234-258 | the target is `root`/`outDir` with the file URL from `getFileUrl` minus its leading `/`, every `/` turned into the platform separator, and never absolute; a file URL not starting with `/` is an internal assertion |
| PrerenderPlan.WriteHtmlFile | vite-plugin-ssr/dist/cjs/node/prerender.js:223-233 | one `.html` job, plus one `.pageContext.json` job exactly when a serialised `pageContext` exists; only rooted, non-excluded files get written |
| Prerender.Settle | vite-plugin-ssr/dist/cjs/node/prerender.js:20-61 | the method outcome succeeds exactly when the specification does, with the same error |
| Prerender.PrerenderRun.constructor | vite-plugin-ssr/dist/cjs/node/prerender.js:40-52 | all collectors start empty |
| Prerender.PrerenderRun.FindEntry | vite-plugin-ssr/dist/cjs/node/prerender.js:95 | the loop finds exactly `FindUrl` |
| Prerender.PrerenderRun.AddUrl | vite-plugin-ssr/dist/cjs/node/prerender.js:95-102 | the table becomes `AddOverride` of the old table; nothing else changes |
| Prerender.PrerenderRun.AddUrls | vite-plugin-ssr/dist/cjs/node/prerender.js:88-103 | the table becomes `AddEntries` of the old one when that succeeds; the other collectors are unchanged |
| Prerender.PrerenderRun.CallPrerenderHook | vite-plugin-ssr/dist/cjs/node/prerender.js:66-103 | the collectors become `HookStep` of the old ones |
| Prerender.PrerenderRun.CallPrerenderHooks | vite-plugin-ssr/dist/cjs/node/prerender.js:63-105 | the collectors become `HookPass` over all page ids |
| Prerender.PrerenderRun.AddStaticRoute | vite-plugin-ssr/dist/cjs/node/prerender.js:109-136 | the collectors become `StaticStep` of the old ones |
| Prerender.PrerenderRun.HandlePagesWithStaticRoutes | vite-plugin-ssr/dist/cjs/node/prerender.js:106-138 | the collectors become `StaticPass` over all routes |
| Prerender.PrerenderRun.RouteAndPrerenderUrl | vite-plugin-ssr/dist/cjs/node/prerender.js:158-186 | the rendered files and page ids become `RouteStep` of the old ones |
| Prerender.PrerenderRun.PrerenderRouted | vite-plugin-ssr/dist/cjs/node/prerender.js:171-185 | the rendered files and page ids become `RenderRouted` of the old ones |
| Prerender.PrerenderRun.RouteAndPrerender | vite-plugin-ssr/dist/cjs/node/prerender.js:155-187 | the rendered files and page ids become `RoutePass` over the URL table |
| Prerender.PrerenderRun.Prerender404 | vite-plugin-ssr/dist/cjs/node/prerender.js:206-222 | the files become `Prerender404Page` of the old ones |
| Prerender.PrerenderRun.Run | vite-plugin-ssr/dist/cjs/node/prerender.js:20-61 | the whole run computes exactly `PrerenderSpec`, including the loading of the `onBeforePrerender` hook |
| PrerenderProperties.ExtendsTransitive | vite-plugin-ssr/dist/cjs/node/prerender.js:95-102 | table growth composes |
| PrerenderProperties.AddOverrideExtends | vite-plugin-ssr/dist/cjs/node/prerender.js:95-102 | adding a URL keeps every entry's URL, source file and static page id, and only grows overrides |
| PrerenderProperties.AddEntriesPreserves | vite-plugin-ssr/dist/cjs/node/prerender.js:91-103 | succeeds exactly when every entry passes the assertions; keeps URLs distinct and rooted; new entries name the hook's file; every entry's URL is in the table |
| PrerenderProperties.HookStepPreserves | vite-plugin-ssr/dist/cjs/node/prerender.js:66-103 | error pages are skipped; a step keeps URLs distinct and rooted and exclusions valid |
| PrerenderProperties.HookStepSkips | vite-plugin-ssr/dist/cjs/node/prerender.js:66-79 | error pages and pages without a server file change nothing; `doNotPrerender` appends the page to the exclusions and calls no hook |
| PrerenderProperties.HookPassPreserves | vite-plugin-ssr/dist/cjs/node/prerender.js:63-105 | the hook pass keeps the table invariant |
| PrerenderProperties.StaticPassCons | vite-plugin-ssr/dist/cjs/node/prerender.js:106-138 | the static pass is its first step followed by the pass over the rest |
| PrerenderProperties.StaticStepCases | vite-plugin-ssr/dist/cjs/node/prerender.js:109-136 | excluded pages, non-static routes and known URLs change nothing; otherwise the URL is added with the page id and no overrides |
| PrerenderProperties.StaticStepPreserves | vite-plugin-ssr/dist/cjs/node/prerender.js:109-136 | a static step keeps the invariant |
| PrerenderProperties.StaticPassPreserves | vite-plugin-ssr/dist/cjs/node/prerender.js:106-138 | the static pass keeps the invariant |
| PrerenderProperties.CollectedTable | vite-plugin-ssr/dist/cjs/node/prerender.js:47-49 | the collected table has distinct rooted URLs, no excluded error page, and every entry not from a hook has a non-excluded page id |
| PrerenderProperties.AppendedTransitive | vite-plugin-ssr/dist/cjs/node/prerender.js:155-187 | per-URL appended files compose along the table |
| PrerenderProperties.RouteStepFiles | vite-plugin-ssr/dist/cjs/node/prerender.js:158-186 | a routing step appends exactly one file for its URL |
| PrerenderProperties.UnmatchedUrlFails | vite-plugin-ssr/dist/cjs/node/prerender.js:166-170 | a URL that routes to no page is a usage error when the entry has a source file, else an internal assertion |
| PrerenderProperties.RenderRoutedRecorded | vite-plugin-ssr/dist/cjs/node/prerender.js:171-185 | rendering a routed URL records its page id |
| PrerenderProperties.RouteStepRecorded | vite-plugin-ssr/dist/cjs/node/prerender.js:158-186 | a routing step keeps every file's page id recorded |
| PrerenderProperties.RoutePassFiles | vite-plugin-ssr/dist/cjs/node/prerender.js:155-187 | the pass appends one file per table URL, in order, with the client-routing serialisation rule |
| PrerenderProperties.RoutePassRecorded | vite-plugin-ssr/dist/cjs/node/prerender.js:155-187 | after the pass every file's page id is recorded |
| PrerenderProperties.WritePlanChecksHold | vite-plugin-ssr/dist/cjs/node/prerender.js:223-258 | for rooted, non-excluded files the write plan fails only on its two path assertions |
| PrerenderProperties.WritePlanJobs | vite-plugin-ssr/dist/cjs/node/prerender.js:223-233 | one job per file plus one per serialised `pageContext`, starting with the first file's `.html` |
| PrerenderProperties.Files404 | vite-plugin-ssr/dist/cjs/node/prerender.js:206-222 | `/404` synthesis keeps file URLs distinct |
| PrerenderProperties.FilesWritable | vite-plugin-ssr/dist/cjs/node/prerender.js:188-222 | after the contradiction check, every file is rooted and names no excluded page |
| PrerenderProperties.ExcludedNeverWritten | vite-plugin-ssr/dist/cjs/node/prerender.js:51-60 | an excluded page is never written: the written files are rooted and non-excluded, and writing fails only on a path assertion |
| PrerenderProperties.BareUrlReachesAssertion | vite-plugin-ssr/dist/cjs/node/prerender.js:267-268 | the bare string `about` passes normalisation and is refused only later |
| PrerenderProperties.NonPlainOverridesReachAssertion | vite-plugin-ssr/dist/cjs/node/prerender.js:281 | an array `pageContext` passes normalisation and is refused only later |
| PrerenderProperties.ParallelAcceptsAnyTruthyValue | vite-plugin-ssr/dist/cjs/node/prerender.js:301 | `parallel: -1` and `parallel: "many"` pass the option check |
| PrerenderProperties.BaseOptionFailsAssertion | vite-plugin-ssr/dist/cjs/node/prerender.js:297 | a `base` option reaches an internal assertion instead of a warning |
| PrerenderProperties.ShorthandEquivalence | vite-plugin-ssr/dist/cjs/node/prerender.js:267-268 | a string URL normalises the same as `{url}` with a null `pageContext` |
| PageFiles.FilesOfPage | vite-plugin-ssr/dist/esm/shared/getPageFiles.js:48-58 | exactly the files whose path starts with `<pageId>.page.` |
| PageFiles.FindPageFile | vite-plugin-ssr/dist/esm/shared/getPageFiles.js:48-63 | null exactly when no file matches; a conflict exactly when two or more do, naming them; otherwise the unique match |
| PageFiles.FindDefaultFiles | vite-plugin-ssr/dist/esm/shared/getPageFiles.js:64-71 | exactly the files under `/_default`, in input order |
| PageFiles.FindDefaultFilesAppend | vite-plugin-ssr/dist/esm/shared/getPageFiles.js:64-71 | the filter distributes over appending |
| PageFiles.FirstLeastRanked | vite-plugin-ssr/dist/esm/shared/getPageFiles.js:80-89 | none exactly for no files; otherwise one of them |
| PageFiles.FirstLeastRankedIsStableMinimum | vite-plugin-ssr/dist/esm/shared/getPageFiles.js:80-89 | the chosen file has the least ranking key, and is the first one with it, as a stable sort would choose |
| PageFiles.FindDefaultFile | vite-plugin-ssr/dist/esm/shared/getPageFiles.js:80-89 | the loop returns the first least-ranked default file, and null exactly when there is none |
| PageFiles.DefaultFileOf | vite-plugin-ssr/dist/esm/shared/getPageFiles.js:80-89 | a found file is a default file of the list |
| PageFiles.ToPageFiles | vite-plugin-ssr/dist/esm/shared/getPageFiles.js:35-39 | a one-to-one `{filePath, loadFile}` image of the entries |
| PageFiles.ProcessPageFiles | vite-plugin-ssr/dist/esm/shared/getPageFiles.js:35-46 | succeeds exactly when all four kinds are present, and returns exactly the four kinds, each transformed |
| PageFiles.PageFilesRegistry.constructor | vite-plugin-ssr/dist/esm/shared/getPageFiles.js:11-19 | no files and no async getter |
| PageFiles.PageFilesRegistry.SetPageFiles | vite-plugin-ssr/dist/esm/shared/getPageFiles.js:12-15 | stores the files (which must contain a `.page` key) and nothing else |
| PageFiles.PageFilesRegistry.SetPageFilesAsync | vite-plugin-ssr/dist/esm/shared/getPageFiles.js:20-22 | records the async getter and nothing else |
| PageFiles.PageFilesRegistry.GetAllPageFiles | vite-plugin-ssr/dist/esm/shared/getPageFiles.js:24-47 | reloads when the cache is empty or not in production, then returns the processed cache |
| ComputedUrl.ParserFor | vite-plugin-ssr/dist/esm/shared/addComputedUrlProps.js:22-32 | `_parseUrl` when set, else the default parser |
| ComputedUrl.RenamePathname | vite-plugin-ssr/dist/esm/shared/addComputedUrlProps.js:39-48 | `pathname` takes the value of `pathnameWithoutBaseUrl`, which is removed; other keys are kept |
| ComputedUrl.UrlPageContext.constructor | vite-plugin-ssr/dist/esm/shared/addComputedUrlProps.js:3 | the fields as given, getters not installed |
| ComputedUrl.UrlPageContext.GetUrlParsed | vite-plugin-ssr/dist/esm/shared/addComputedUrlProps.js:22-32 | the chosen parser applied to the current `url` and `_baseUrl` |
| ComputedUrl.UrlPageContext.UrlPathname | vite-plugin-ssr/dist/esm/shared/addComputedUrlProps.js:33-38 | the parsed `pathnameWithoutBaseUrl`, recomputed on each read, starting with `/` |
| ComputedUrl.UrlPageContext.UrlParsed | vite-plugin-ssr/dist/esm/shared/addComputedUrlProps.js:39-48 | the renamed parse result: `pathname` equals `urlPathname`, and no `pathnameWithoutBaseUrl` key |
| ComputedUrl.UrlPageContext.AddComputedUrlProps | vite-plugin-ssr/dist/esm/shared/addComputedUrlProps.js:3-21 | installs the getters, idempotently, changing no other field |
| ComputedUrl.UrlPageContext.AssignUrl | vite-plugin-ssr/dist/esm/shared/addComputedUrlProps.js:22-32 | changes only `url` |
| ComputedUrl.InstallTwiceThenReassign | vite-plugin-ssr/dist/esm/shared/addComputedUrlProps.js:5-20 | installing twice then reassigning `url` makes `urlPathname` follow the new URL |
| Build.GetOutDir | vite-plugin-ssr/dist/esm/node/plugin/build.js:97-104 | the user directory, or `dist` when absent or empty, followed by `/server` exactly for SSR and `/client` otherwise |
| Build.RemoveClientCode | vite-plugin-ssr/dist/esm/node/plugin/build.js:39-49 | code exactly for SSR builds of `.page.client.` ids; it throws an error naming the id, with empty mappings |
| Build.PosixPath | vite-plugin-ssr/dist/esm/node/plugin/build.js:105-107 | every separator replaced by `/`, none left |
| Build.NormalizeRollupInput | vite-plugin-ssr/dist/esm/node/plugin/build.js:108-122 | a falsy input is `{}`, an object is unchanged, a non-empty string is refused |
| Build.MergeInput | vite-plugin-ssr/dist/esm/node/plugin/build.js:14-17 | the merged keys are the union, and user keys override generated entry points |
| Build.Basename | vite-plugin-ssr/dist/esm/node/plugin/build.js:60-62 | holds no separator |
| Build.ServerEntryName | vite-plugin-ssr/dist/esm/node/plugin/build.js:60-62 | the basename with one trailing `.js` removed |
| Build.ServerEntryPoints | vite-plugin-ssr/dist/esm/node/plugin/build.js:58-67 | one entry, from the entry name to the path |
| Build.BuildPlugin.constructor | vite-plugin-ssr/dist/esm/node/plugin/build.js:6-7 | the SSR flag is unset |
| Build.BuildPlugin.Config | vite-plugin-ssr/dist/esm/node/plugin/build.js:11-32 | records the SSR flag; succeeds exactly when the user input normalises, with the user's keys overriding the entry points |
| Build.BuildPlugin.Transform | vite-plugin-ssr/dist/esm/node/plugin/build.js:33-36 | `removeClientCode` under the recorded flag; nothing exactly for client builds or other ids |
| NormalizePath.NormalizePath | vite-plugin-ssr/dist/cjs/shared/utils/normalizePath.js:6-13 | the identity off Windows; on Windows every `\` becomes `/` and none is left; the length is kept |
| NormalizePath.NoProcessIsNotWindows | vite-plugin-ssr/dist/cjs/shared/utils/normalizePath.js:15-20 | without `process` the host is not Windows and the path is unchanged |
| NormalizePath.NormalizePathIdempotent | vite-plugin-ssr/dist/cjs/shared/utils/normalizePath.js:6-13 | normalising twice is normalising once |
| Strings.SplitJoinIsReplace | vite-plugin-ssr/dist/esm/node/plugin/build.js:105-107 | `split(a).join(b)` on one character is character-wise replacement |

## Left out

- File and console I/O: `mkdir`/`writeFile` become the write plan's jobs; console messages, colours and warning texts become values (`WarnMissingPages`) or are dropped.
- Concurrency: `p-limit` and `Promise.all` run sequentially in array order, and the first failure ends the run. Which of several parallel failures surfaces is not modelled.
- User hooks (`render`, `onBeforeRender`, `prerender`, `onBeforePrerender`), page-file loaders, routing, `getErrorPageId`, `isStaticRoute`, `getFileUrl`, `getPathDistance`, `parseUrl` and `new URL`: these are parameters whose results are given. `pageContext` values passed to them are not tracked.
- HTML rendering and streams are kept only as "string or stream"; JSON serialisation (`stringify`, `serializePageContextClientSide`) is a parameter.
- `callOnBeforePrerenderHook` (prerender.js:139-154) and the `pageContextInit` merge: `PrerenderSpec` loads the `onBeforePrerender` hook (`loadOnBeforePrerenderHook`), so its usage errors stop the run, but calling the hook and its rewrite of the URL table are not modelled.
- `pLimit(parallel)` (prerender.js:39): the p-limit package is not part of this model. Its own argument check, which probably rejects `-1` or `"many"` with a `TypeError`, is not modelled, so `PrerenderSpec` runs with any truthy `parallel`.
- Malformed server-file exports: in `ServerExports` an export of `render`, `onBeforeRender` or `prerender` that is not a function, and a `passToClient` that is not an array of strings, cannot be represented, so the usage errors of `assert_pageServerFile` (renderPage.js:372-381) and `assertExportsOfServerPage` are not modelled.
- The isomorphic `onBeforeRender()` hook (`IsomorphicHook`) is a fixed sequence of capability calls followed by a fixed ending. The model assumes the hook awaits each call and does not catch a capability's rejection, so a hook that catches it, or chooses its calls by their results, is not modelled.
- RenderFlow.InitializePageContextSpec: `_isPreRendering` is always `false`; a `pageContextInit` carrying its own `_isPreRendering`, which the spread at renderPage.js:107-110 lets win, is not modelled.
- Hook overwrites of framework fields: `merged` in `PageContextView` records the objects that hooks merge into `pageContext` but does not apply them, so a hook that overwrites a framework field such as `_isPageContextRequest` (read at renderPage.js:82) or `_pageId` does not change the model's later decisions.
- `assertPluginManifest` (prerender.js:285-293), `setProductionEnvVar` and the `onPagePrerender` callback: build-manifest I/O, environment mutation and a user callback in place of the file write.
- `path.isAbsolute` is the POSIX rule (a leading `/`), and `path.join` is concatenation with `/`.
- `hasProp(x, 'pageContext', 'object')` is modelled as JavaScript `typeof` "object", which includes `null`.
- `assertUsageServerHooksCalled`, `preparePageContextForRelease`, `getPagesAndRoutesInfo`, `assertNotAlreadyLoaded` and the Vite dev-server paths (`viteAlreadyLoggedError`, `viteErrorCleanup`): unseen or development-only code. `logError` is modelled for production.
- getViteManifest.js and importBuild.js are not part of this model: registration glue and manifest I/O.
- isPlainObject.js is a predicate on the tagged value type (`IsPlainObject`), not runtime reflection.
- `browserEntryPoints` (build.js:68-81) globs the file system and is a parameter.
- PrerenderPlan.PrerenderPageSpec: the rendered HTML and serialisation come from parameters, so the contract speaks of where they come from, not of their text.
- RenderFlow.InitializePageContextSpec: its own contract states readiness only; the field-by-field outcome is stated by `RenderPageProperties.InitializeOutcome`.

## Findings

| source | as written | input that shows it | evidently intended | confidence | as-written member | corrected member |
|---|---|---|---|---|---|---|
| vite-plugin-ssr/dist/esm/node/renderPage.js:130-151 | `logError(err)` runs outside the inner `try`, and rejects a primitive with a usage error | `getGlobalContext()` rejecting with the string `"boom"` | `renderPageWithoutThrowing` never throws | not executed; high | RenderPageProperties.PrimitiveRejectionEscapes | RenderPageProperties.CorrectedNeverThrows |
| vite-plugin-ssr/dist/esm/node/renderPage.js:644-652 | `len > str.length` keeps only strictly shorter strings | `truncateString("abc", 3)` gives `"abc..."` | a string of exactly `len` characters is not truncated | not executed; medium | RenderUtils.TruncateStringAtExactLength | RenderUtils.TruncateStringCorrected |
| vite-plugin-ssr/dist/cjs/node/prerender.js:301 | `assertUsage(parallel, …)` checks only truthiness, so the promised usage error is not raised; p-limit (not part of this model) probably rejects the value at line 39 with its own `TypeError` | `parallel: -1` or `parallel: "many"` passes the option check | a number of at least 1, refused with the usage error its message describes | not executed; medium | PrerenderProperties.ParallelAcceptsAnyTruthyValue | PrerenderPlan.ValidateOptionsCorrected |
| vite-plugin-ssr/dist/cjs/node/prerender.js:297 | `base` only warns, then `assert(base === undefined)` at line 22 fails | `prerender({ base: "/docs/" })` | a deprecated option that has no effect | not executed; high | PrerenderProperties.BaseOptionFailsAssertion | PrerenderPlan.ValidateOptionsCorrected |
| vite-plugin-ssr/dist/cjs/node/prerender.js:267-268 | a string result skips the `/` check; the internal `assert(url.startsWith('/'))` at line 93 refuses it | a `prerender()` hook returning `"about"` | the usage error for a URL not starting with `/` | not executed; high | PrerenderProperties.BareUrlReachesAssertion | PrerenderPlan.NormalizeElementCorrected |
| vite-plugin-ssr/dist/cjs/node/prerender.js:281 | `hasProp(…, 'object')` accepts any object; the internal `assert(isPlainObject(pageContext))` at line 94 refuses an array | `{ url: "/a", pageContext: [] }` | the usage error for a non-plain `pageContext` | not executed; high | PrerenderProperties.NonPlainOverridesReachAssertion | PrerenderPlan.NormalizeElementCorrected |
