/**
 * `executeRenderHook`: picks the page's `render()` hook, calls it, validates
 * what it returns and hands the document HTML to `renderHtml`.
 */
module RenderHook {
  import opened Wrappers
  import opened Errors
  import opened JsValues
  import opened HttpResponse
  import opened LoadPageFiles

  const HOOK_NAME: string := "render"
  const RENDER_RESULT_KEYS: seq<string> := ["documentHtml", "pageContext"]

  const NO_RENDER_HOOK: string := "No `render()` hook found"
  const HOOK_RESULT_NOT_PLAIN: string := "should return `null`, `undefined`, or a plain JavaScript object"
  const UNKNOWN_KEYS: string := "returned an object with unknown keys"
  const PLAIN_STRING: string := "returned a plain JavaScript string which is forbidden"
  const INVALID_RESULT: string := "should return `null`, a string `documentHtml`, or an object `{ documentHtml, pageContext }`"
  const PLAIN_STRING_DOCUMENT_HTML: string := "returned `{ documentHtml }`, but `documentHtml` is a plain JavaScript string"
  const INVALID_DOCUMENT_HTML: string := "returned `{ documentHtml }`, but `documentHtml` should be an escaped template"
  const INVALID_PAGE_CONTEXT: string := "returned an invalid `pageContext`"

  /** What `renderHtml` does with a document (not part of this model). */
  datatype RenderHtmlResult = HtmlRendered(htmlRender: HtmlRender) | HtmlHookError(hookError: Thrown)

  type RenderHtmlOracle = nat -> RenderHtmlResult

  datatype RenderHookResult =
    | Rendered(htmlRender: Option<HtmlRender>, renderFilePath: string)
    | RenderHookError(hookError: Thrown, hookName: string, hookFilePath: string)

  /** The result, and the `pageContext` the hook returned for merging. */
  datatype RenderHookOutput = RenderHookOutput(result: RenderHookResult, pageContextProvided: Option<JsValue>)

  /** The keys of `keys` that are not expected, in order. */
  function UnknownKeys(keys: seq<string>, keysExpected: seq<string>): (r: seq<string>)
    ensures forall k :: k in r <==> k in keys && k !in keysExpected
  {
    if keys == [] then []
    else
      var rest := UnknownKeys(keys[..|keys| - 1], keysExpected);
      var last := keys[|keys| - 1];
      assert keys == keys[..|keys| - 1] + [last];
      if last in keysExpected then rest else rest + [last]
  }

  /** `assertKeys(obj, keysExpected, errPrefix)`: collects the unknown keys
      and fails exactly when there is one. */
  method AssertKeys(obj: JsValue, keysExpected: seq<string>) returns (keysUnknown: seq<string>, r: Outcome<()>)
    ensures keysUnknown == UnknownKeys(Keys(obj), keysExpected)
    ensures r.Raises? <==> exists k :: k in Keys(obj) && k !in keysExpected
    ensures r.Raises? ==> r.error == NewError(UsageError(UNKNOWN_KEYS))
    ensures r.Returns? ==> r.value == ()
  {
    var keys := Keys(obj);
    keysUnknown := [];
    for i := 0 to |keys|
      invariant keysUnknown == UnknownKeys(keys[..i], keysExpected)
    {
      assert keys[..i + 1][..i] == keys[..i];
      if keys[i] !in keysExpected {
        keysUnknown := keysUnknown + [keys[i]];
      }
    }
    assert keys[..|keys|] == keys;
    if |keysUnknown| == 0 {
      r := Returns(());
    } else {
      assert keysUnknown[0] in keysUnknown;
      r := Raises(NewError(UsageError(UNKNOWN_KEYS)));
    }
  }

  /** `assertHookResult(hookResult, hookName, hookResultKeys, hookFile)`. */
  function AssertHookResult(hookResult: JsValue, hookResultKeys: seq<string>): (r: Outcome<()>)
    ensures r.Returns? <==>
      IsNullish(hookResult) || (IsPlainObject(hookResult) && forall k :: k in Keys(hookResult) ==> k in hookResultKeys)
    ensures r.Raises? && !IsNullish(hookResult) && !IsPlainObject(hookResult) ==>
      r.error == NewError(UsageError(HOOK_RESULT_NOT_PLAIN))
    ensures r.Raises? && IsPlainObject(hookResult) ==> r.error == NewError(UsageError(UNKNOWN_KEYS))
  {
    if !(IsNullish(hookResult) || IsPlainObject(hookResult)) then Raises(NewError(UsageError(HOOK_RESULT_NOT_PLAIN)))
    else if IsNullish(hookResult) then Returns(())
    else if UnknownKeys(Keys(hookResult), hookResultKeys) != [] then
      assert UnknownKeys(Keys(hookResult), hookResultKeys)[0] in UnknownKeys(Keys(hookResult), hookResultKeys);
      Raises(NewError(UsageError(UNKNOWN_KEYS)))
    else Returns(())
  }

  /** The `render` hook used: the page file's, else the default file's. */
  function ChooseRender(pageServerFile: Option<ServerFile>, pageServerFileDefault: Option<ServerFile>)
    : (r: Option<(HookCall, string)>)
    ensures pageServerFile.Some? && pageServerFile.value.fileExports.render.Some? ==>
      r == Some((pageServerFile.value.fileExports.render.value, pageServerFile.value.filePath))
    ensures (pageServerFile.None? || pageServerFile.value.fileExports.render.None?) ==>
      r == if pageServerFileDefault.Some? && pageServerFileDefault.value.fileExports.render.Some?
           then Some((pageServerFileDefault.value.fileExports.render.value, pageServerFileDefault.value.filePath))
           else None
  {
    if pageServerFile.Some? && pageServerFile.value.fileExports.render.Some? then
      Some((pageServerFile.value.fileExports.render.value, pageServerFile.value.filePath))
    else if pageServerFileDefault.Some? && pageServerFileDefault.value.fileExports.render.Some? then
      Some((pageServerFileDefault.value.fileExports.render.value, pageServerFileDefault.value.filePath))
    else None
  }

  /** Where the document HTML sits in an accepted result: the
      `documentHtml` key of a plain object, else the result itself. */
  function DocumentHtmlOf(result: JsValue): JsValue {
    if IsObject(result) && !IsDocumentHtml(result) then Get(result, "documentHtml") else result
  }

  /** The checks on the document HTML after the result's shape is accepted:
      a bare result must be `null` or document HTML, the `documentHtml` of an
      object may also be `undefined` (or absent); plain strings are refused. */
  function CheckDocumentHtml(result: JsValue): (r: Outcome<JsValue>)
    ensures r.Returns? <==>
      IsDocumentHtml(DocumentHtmlOf(result)) || DocumentHtmlOf(result).JsNull? ||
      (DocumentHtmlOf(result).JsUndefined? && IsObject(result))
    ensures r.Returns? ==> r.value == DocumentHtmlOf(result)
    ensures !IsObject(result) && result.JsString? ==> r == Raises(NewError(UsageError(PLAIN_STRING)))
    ensures !IsObject(result) && !result.JsString? && !result.JsNull? ==> r == Raises(NewError(UsageError(INVALID_RESULT)))
    ensures IsObject(result) && !IsDocumentHtml(result) && Get(result, "documentHtml").JsString? ==>
      r == Raises(NewError(UsageError(PLAIN_STRING_DOCUMENT_HTML)))
    ensures IsObject(result) && !IsDocumentHtml(result) && r.Raises? && !Get(result, "documentHtml").JsString? ==>
      r == Raises(NewError(UsageError(INVALID_DOCUMENT_HTML)))
  {
    if !IsObject(result) || IsDocumentHtml(result) then
      if result.JsString? then Raises(NewError(UsageError(PLAIN_STRING)))
      else if !(result.JsNull? || IsDocumentHtml(result)) then Raises(NewError(UsageError(INVALID_RESULT)))
      else Returns(result)
    else
      var documentHtml := Get(result, "documentHtml");
      if documentHtml.JsString? then Raises(NewError(UsageError(PLAIN_STRING_DOCUMENT_HTML)))
      else if !(IsNullish(documentHtml) || IsDocumentHtml(documentHtml)) then Raises(NewError(UsageError(INVALID_DOCUMENT_HTML)))
      else Returns(documentHtml)
  }

  /** The `pageContext` a result carries for merging, if it has the key. */
  function ProvidedPageContext(result: JsValue): Option<JsValue> {
    if HasProp(result, "pageContext") then Some(Get(result, "pageContext")) else None
  }

  /** What an accepted document becomes: nothing for a nullish one, else what
      `renderHtml` makes of it, its failure reported as the hook's. */
  function RenderDocument(documentHtml: JsValue, renderHtml: RenderHtmlOracle, renderFilePath: string): RenderHookResult
    requires IsNullish(documentHtml) || IsDocumentHtml(documentHtml)
  {
    if IsNullish(documentHtml) then Rendered(None, renderFilePath)
    else
      match renderHtml(documentHtml.handle)
      case HtmlHookError(t) => RenderHookError(t, HOOK_NAME, renderFilePath)
      case HtmlRendered(h) => Rendered(Some(h), renderFilePath)
  }

  /** `executeRenderHook(pageContext)`. `pageContextOk` stands for
      `assertPageContextProvidedByUser`, which is not part of this model. */
  function ExecuteRenderHook(pageServerFile: Option<ServerFile>, pageServerFileDefault: Option<ServerFile>,
                             renderHtml: RenderHtmlOracle, pageContextOk: JsValue -> bool): (r: Outcome<RenderHookOutput>)
    requires pageServerFile.Some? || pageServerFileDefault.Some?
    // having no `render()` hook at all is a usage error
    ensures ChooseRender(pageServerFile, pageServerFileDefault).None? ==> r == Raises(NewError(UsageError(NO_RENDER_HOOK)))
    // a throwing hook is captured, not rethrown
    ensures ChooseRender(pageServerFile, pageServerFileDefault).Some? &&
            ChooseRender(pageServerFile, pageServerFileDefault).value.0.HookThrows? ==>
      var (call, path) := ChooseRender(pageServerFile, pageServerFileDefault).value;
      r == Returns(RenderHookOutput(RenderHookError(call.thrown, HOOK_NAME, path), None))
    // a plain string result is rejected, and so is `undefined`
    ensures ChooseRender(pageServerFile, pageServerFileDefault).Some? &&
            ChooseRender(pageServerFile, pageServerFileDefault).value.0.HookReturns? ==>
      var result := ChooseRender(pageServerFile, pageServerFileDefault).value.0.value;
      (result.JsString? ==> r == Raises(NewError(UsageError(PLAIN_STRING)))) &&
      (result.JsUndefined? ==> r == Raises(NewError(UsageError(INVALID_RESULT)))) &&
      (IsPlainObject(result) && (exists k :: k in Keys(result) && k !in RENDER_RESULT_KEYS) ==>
         r == Raises(NewError(UsageError(UNKNOWN_KEYS))))
    // a rendered result names its hook's file and is null exactly for a nullish document
    ensures r.Returns? && r.value.result.Rendered? ==>
      var (call, path) := ChooseRender(pageServerFile, pageServerFileDefault).value;
      call.HookReturns? && r.value.result.renderFilePath == path &&
      (r.value.result.htmlRender.None? <==> IsNullish(DocumentHtmlOf(call.value))) &&
      (r.value.result.htmlRender.Some? ==>
         IsDocumentHtml(DocumentHtmlOf(call.value)) &&
         renderHtml(DocumentHtmlOf(call.value).handle) == HtmlRendered(r.value.result.htmlRender.value))
    ensures r.Returns? && r.value.result.RenderHookError? ==> r.value.result.hookName == HOOK_NAME
    // the results accepted: `null`, document HTML, or a plain `{ documentHtml, pageContext }`
    // whose `pageContext` (if any) is accepted and whose `documentHtml` is nullish or document HTML
    ensures ChooseRender(pageServerFile, pageServerFileDefault).Some? &&
            ChooseRender(pageServerFile, pageServerFileDefault).value.0.HookReturns? ==>
      var (call, path) := ChooseRender(pageServerFile, pageServerFileDefault).value;
      var result := call.value;
      var documentHtml := DocumentHtmlOf(result);
      (result.JsNull? ==> r == Returns(RenderHookOutput(Rendered(None, path), None))) &&
      (IsDocumentHtml(result) ==> r == Returns(RenderHookOutput(RenderDocument(result, renderHtml, path), None))) &&
      (IsPlainObject(result) && (forall k :: k in Keys(result) ==> k in RENDER_RESULT_KEYS) &&
       (HasProp(result, "pageContext") ==> pageContextOk(Get(result, "pageContext"))) &&
       (IsNullish(documentHtml) || IsDocumentHtml(documentHtml)) ==>
         r == Returns(RenderHookOutput(RenderDocument(documentHtml, renderHtml, path), ProvidedPageContext(result))))
    // the results refused, each with its own usage error
    ensures ChooseRender(pageServerFile, pageServerFileDefault).Some? &&
            ChooseRender(pageServerFile, pageServerFileDefault).value.0.HookReturns? ==>
      var result := ChooseRender(pageServerFile, pageServerFileDefault).value.0.value;
      var documentHtml := DocumentHtmlOf(result);
      ((result.JsNumber? || result.JsBool? || result.JsFunction? || result.JsOtherPrimitive?) ==>
         r == Raises(NewError(UsageError(INVALID_RESULT)))) &&
      (IsObject(result) && !IsDocumentHtml(result) && !IsPlainObject(result) ==>
         r == Raises(NewError(UsageError(HOOK_RESULT_NOT_PLAIN)))) &&
      (IsPlainObject(result) && (forall k :: k in Keys(result) ==> k in RENDER_RESULT_KEYS) &&
       HasProp(result, "pageContext") && !pageContextOk(Get(result, "pageContext")) ==>
         r == Raises(NewError(UsageError(INVALID_PAGE_CONTEXT)))) &&
      (IsPlainObject(result) && (forall k :: k in Keys(result) ==> k in RENDER_RESULT_KEYS) &&
       (HasProp(result, "pageContext") ==> pageContextOk(Get(result, "pageContext"))) ==>
         (documentHtml.JsString? ==> r == Raises(NewError(UsageError(PLAIN_STRING_DOCUMENT_HTML)))) &&
         (!documentHtml.JsString? && !IsNullish(documentHtml) && !IsDocumentHtml(documentHtml) ==>
            r == Raises(NewError(UsageError(INVALID_DOCUMENT_HTML)))))
    // a `renderHtml` failure is reported as the hook's error
    ensures r.Returns? && r.value.result.Rendered? ==>
      var call := ChooseRender(pageServerFile, pageServerFileDefault).value.0;
      IsDocumentHtml(DocumentHtmlOf(call.value)) ==> renderHtml(DocumentHtmlOf(call.value).handle).HtmlRendered?
  {
    match ChooseRender(pageServerFile, pageServerFileDefault)
    case None => Raises(NewError(UsageError(NO_RENDER_HOOK)))
    case Some((call, renderFilePath)) =>
      match call
      case HookThrows(t) => Returns(RenderHookOutput(RenderHookError(t, HOOK_NAME, renderFilePath), None))
      case HookReturns(result) =>
        var shape := if IsObject(result) && !IsDocumentHtml(result)
                     then AssertHookResult(result, RENDER_RESULT_KEYS) else Returns(());
        if shape.Raises? then Raises(shape.error)
        else
          var provided := ProvidedPageContext(result);
          if provided.Some? && !pageContextOk(provided.value) then Raises(NewError(UsageError(INVALID_PAGE_CONTEXT)))
          else
            match CheckDocumentHtml(result)
            case Raises(e) => Raises(e)
            case Returns(documentHtml) => Returns(RenderHookOutput(RenderDocument(documentHtml, renderHtml, renderFilePath), provided))
  }
}
