/**
 * `createHttpResponseObject`: the `httpResponse` handed back to the server
 * integration, with its status code, content type and `body` getter.
 */
module HttpResponse {
  import opened Wrappers
  import opened Errors

  /** What `renderHtml` produced: an HTML string or a stream (opaque handle). */
  datatype HtmlRender = HtmlString(html: string) | HtmlStream(stream: nat)

  datatype HttpResponse = HttpResponse(
    statusCode: int,
    contentType: string,
    htmlRender: HtmlRender,
    renderFilePath: Option<string>)

  const CONTENT_TYPE_JSON: string := "application/json"
  const CONTENT_TYPE_HTML: string := "text/html"
  const BODY_OF_STREAM: string := "`pageContext.httpResponse.body` is not available for an HTML stream"

  /** A stream can only come from a `render()` hook, whose file is known. */
  predicate WellFormed(r: HttpResponse) {
    r.htmlRender.HtmlStream? ==> r.renderFilePath.Some?
  }

  /** The `contentType` choice. */
  function ContentType(isPageContextRequest: bool): (r: string)
    ensures r == CONTENT_TYPE_JSON <==> isPageContextRequest
    ensures r == CONTENT_TYPE_HTML <==> !isPageContextRequest
  {
    if isPageContextRequest then CONTENT_TYPE_JSON else CONTENT_TYPE_HTML
  }

  /** `createHttpResponseObject(htmlRender, {statusCode, renderFilePath}, pageContext)`.
      The source asserts that a data request always renders a string. */
  function CreateHttpResponseObject(htmlRender: Option<HtmlRender>, statusCode: int, renderFilePath: Option<string>,
                                    isPageContextRequest: bool): (r: Option<HttpResponse>)
    requires isPageContextRequest && htmlRender.Some? ==> htmlRender.value.HtmlString?
    requires htmlRender.Some? && htmlRender.value.HtmlStream? ==> renderFilePath.Some?
    ensures r.None? <==> htmlRender.None?
    ensures r.Some? ==> WellFormed(r.value)
    ensures r.Some? ==> r.value.statusCode == statusCode && r.value.htmlRender == htmlRender.value
    ensures r.Some? ==> (r.value.contentType == CONTENT_TYPE_JSON <==> isPageContextRequest)
  {
    if htmlRender.None? then None
    else Some(HttpResponse(statusCode, ContentType(isPageContextRequest), htmlRender.value, renderFilePath))
  }

  /** The `body` getter: the HTML string, or a usage error for a stream. */
  function Body(r: HttpResponse): (b: Outcome<string>)
    requires WellFormed(r)
    ensures b.Returns? <==> r.htmlRender.HtmlString?
    ensures b.Returns? ==> b.value == r.htmlRender.html
    ensures b.Raises? ==> b.error == NewError(UsageError(BODY_OF_STREAM))
  {
    match r.htmlRender
    case HtmlString(html) => Returns(html)
    case HtmlStream(_) => Raises(NewError(UsageError(BODY_OF_STREAM)))
  }

  /** Every response built for a data request is JSON and its body is
      readable: the serialised string it was built from. */
  lemma DataRequestBodyReadable(htmlRender: Option<HtmlRender>, statusCode: int)
    requires htmlRender.Some? ==> htmlRender.value.HtmlString?
    ensures var r := CreateHttpResponseObject(htmlRender, statusCode, None, true);
      r.Some? ==> r.value.contentType == CONTENT_TYPE_JSON && Body(r.value) == Returns(htmlRender.value.html)
  {
  }
}
