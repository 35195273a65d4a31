/**
 * Small helpers of the request entry point: the argument check of
 * `renderPage`, `isFileRequest` and `truncateString`.
 */
module RenderUtils {
  import opened Wrappers
  import opened Strings
  import opened Errors
  import opened JsValues

  /** The first argument of `renderPage`, as far as the check looks at it. */
  datatype PageContextInit =
    | InitFalsy                             // missing, `null`, `false`, ...
    | InitNotPlain(url: Option<JsValue>)    // an object that is not plain, or a truthy primitive
    | InitPlain(url: Option<JsValue>)

  /** `pageContextInit.url`, `undefined` when absent. */
  function InitUrl(init: PageContextInit): JsValue {
    if init.InitFalsy? || init.url.None? then JsUndefined else init.url.value
  }

  const FAKE_ORIGIN: string := "http://fake-origin.example.org"

  const ARG_MISSING: string := "argument `pageContext` is missing"
  const ARG_NOT_PLAIN: string := "argument `pageContext` should be a plain JavaScript object"
  const ARG_NO_URL: string := "`pageContext` is missing the property `pageContext.url`"
  const ARG_URL_NOT_STRING: string := "`pageContext.url` should be a string"
  const ARG_URL_BAD_START: string := "`pageContext.url` should start with `/` or `http`"
  const ARG_NOT_A_URL: string := "`pageContext.url` should be a URL"
  const ARG_COUNT: string := "`renderPage()` accepts only one argument"

  /** The URL handed to `new URL()`: made absolute with a fake origin. */
  function UrlWithOrigin(url: string): string {
    if StartsWith(url, "http") then url else FAKE_ORIGIN + url
  }

  /** `assertArguments(...args)` of `renderPage`: returns the URL.
      `urlParses` stands for `new URL()` accepting its argument. */
  function AssertArguments(init: PageContextInit, argCount: nat, urlParses: string -> bool): (r: Outcome<string>)
    ensures r.Returns? <==>
      init.InitPlain? && init.url.Some? && init.url.value.JsString? &&
      (StartsWith(init.url.value.s, "/") || StartsWith(init.url.value.s, "http")) &&
      urlParses(UrlWithOrigin(init.url.value.s)) && argCount == 1
    ensures r.Returns? ==> InitUrl(init) == JsString(r.value)
    ensures r.Raises? ==> r.error.NewError? && r.error.origin.UsageError?
    ensures init.InitFalsy? ==> r == Raises(NewError(UsageError(ARG_MISSING)))
  {
    match init
    case InitFalsy => Raises(NewError(UsageError(ARG_MISSING)))
    case InitNotPlain(_) => Raises(NewError(UsageError(ARG_NOT_PLAIN)))
    case InitPlain(None) => Raises(NewError(UsageError(ARG_NO_URL)))
    case InitPlain(Some(v)) =>
      if !v.JsString? then Raises(NewError(UsageError(ARG_URL_NOT_STRING)))
      else if !(StartsWith(v.s, "/") || StartsWith(v.s, "http")) then Raises(NewError(UsageError(ARG_URL_BAD_START)))
      else if !urlParses(UrlWithOrigin(v.s)) then Raises(NewError(UsageError(ARG_NOT_A_URL)))
      else if argCount != 1 then Raises(NewError(UsageError(ARG_COUNT)))
      else Returns(v.s)
  }

  predicate IsLowerAlnum(c: char) {
    ('a' <= c <= 'z') || ('0' <= c <= '9')
  }

  /** The regular expression `/^[a-z0-9]+$/`. */
  predicate IsExtension(e: string) {
    |e| > 0 && forall i :: 0 <= i < |e| ==> IsLowerAlnum(e[i])
  }

  /** `isFileRequest(urlPathname)`: the last path segment has a dot, and
      what follows its last dot is a lower-case alphanumeric extension. */
  function IsFileRequest(urlPathname: string): bool
    requires StartsWith(urlPathname, "/")
  {
    var paths := Split(urlPathname, '/');
    var lastPath := paths[|paths| - 1];
    var parts := Split(lastPath, '.');
    if |parts| < 2 then false
    else IsExtension(parts[|parts| - 1])
  }

  /** The same test read off the characters: the path ends with a dot and an extension. */
  predicate EndsWithExtension(p: string) {
    exists k :: 0 <= k < |p| && p[k] == '.' && IsExtension(p[k + 1..])
  }

  /** A suffix longer than the last piece reaches a separator. */
  lemma LastPieceLongest(s: string, sep: char, m: nat)
    requires m <= |s|
    ensures var parts := Split(s, sep); m > |parts[|parts| - 1]| ==> sep in s[|s| - m..]
  {
    SplitLast(s, sep);
    var parts := Split(s, sep);
    var l := parts[|parts| - 1];
    if m > |l| {
      assert s[|s| - m..][m - |l| - 1] == s[|s| - |l| - 1];
    }
  }

  /** A file request ends with a dot and an extension. */
  lemma FileRequestEndsWithExtension(p: string)
    requires StartsWith(p, "/") && IsFileRequest(p)
    ensures EndsWithExtension(p)
  {
    var paths := Split(p, '/');
    var lastPath := paths[|paths| - 1];
    var parts := Split(lastPath, '.');
    var ext := parts[|parts| - 1];
    SplitLast(p, '/');
    SplitLast(lastPath, '.');
    assert lastPath == p[|p| - |lastPath|..];
    assert ext == lastPath[|lastPath| - |ext|..];
    var k := |p| - |ext| - 1;
    assert p[k] == lastPath[|lastPath| - |ext| - 1];
    assert p[k + 1..] == ext;
  }

  /** A path ending with a dot and an extension is a file request. */
  lemma ExtensionMakesFileRequest(p: string, k: nat)
    requires StartsWith(p, "/") && k < |p| && p[k] == '.' && IsExtension(p[k + 1..])
    ensures IsFileRequest(p)
  {
    var paths := Split(p, '/');
    var lastPath := paths[|paths| - 1];
    var e := p[k + 1..];
    SplitLast(p, '/');
    assert forall i :: 0 <= i < |p| - k ==> p[k..][i] != '/' by {
      forall i | 0 <= i < |p| - k ensures p[k..][i] != '/' {
        if i > 0 { assert p[k..][i] == e[i - 1]; }
      }
    }
    LastPieceLongest(p, '/', |p| - k);
    assert lastPath == p[|p| - |lastPath|..];
    assert lastPath[|lastPath| - (|p| - k)] == '.';
    ExtensionIsLastPiece(lastPath, e);
  }

  /** A dot followed by an extension at the end of a segment: the
      extension is the segment's last piece when split on dots. */
  lemma ExtensionIsLastPiece(seg: string, e: string)
    requires |e| < |seg| && seg[|seg| - |e|..] == e && seg[|seg| - |e| - 1] == '.' && IsExtension(e)
    ensures var parts := Split(seg, '.'); |parts| >= 2 && parts[|parts| - 1] == e
  {
    var parts := Split(seg, '.');
    var ext := parts[|parts| - 1];
    SplitLast(seg, '.');
    assert seg[|seg| - |e| - 1] in seg;
    LastPieceLongest(seg, '.', |e|);
    assert forall i :: 0 <= i < |e| ==> e[i] != '.';
    assert ext == seg[|seg| - |ext|..];
    assert |ext| <= |e|;
  }

  /** `isFileRequest` reads off the characters as `EndsWithExtension`. */
  lemma IsFileRequestMeaning(p: string)
    requires StartsWith(p, "/")
    ensures IsFileRequest(p) <==> EndsWithExtension(p)
  {
    if IsFileRequest(p) {
      FileRequestEndsWithExtension(p);
    }
    if EndsWithExtension(p) {
      var k :| 0 <= k < |p| && p[k] == '.' && IsExtension(p[k + 1..]);
      ExtensionMakesFileRequest(p, k);
    }
  }

  /** `truncateString(str, len)` as written: a string of exactly `len`
      characters also gets the ellipsis. */
  function TruncateString(str: string, len: nat): (r: string)
    ensures |r| == if len > |str| then |str| else len + 3
    ensures var keep := if len < |str| then len else |str|; r[..keep] == str[..keep]
    ensures len <= |str| ==> EndsWith(r, "...")
  {
    if len > |str| then str else str[..len] + "..."
  }

  /** A string exactly `len` long is not shortened but lengthened: it comes
      back whole with "..." appended. */
  lemma TruncateStringAtExactLength(str: string)
    ensures |TruncateString(str, |str|)| == |str| + 3
    ensures TruncateString(str, |str|)[..|str|] == str
    ensures TruncateString("abc", 3) == "abc..."
  {
    assert TruncateString(str, |str|)[..|str|] == str[..|str|];
  }

  /** Off the boundary `|str| == len` the two definitions agree. */
  lemma TruncateStringAgreesOffBoundary(str: string, len: nat)
    requires |str| != len
    ensures TruncateString(str, len) == TruncateStringCorrected(str, len)
  {
  }

  /** `truncateString` with the boundary the ellipsis implies: only a
      string longer than `len` is cut and marked. */
  function TruncateStringCorrected(str: string, len: nat): (r: string)
    ensures |str| <= len ==> r == str
    ensures |str| > len ==> |r| == len + 3 && r[..len] == str[..len] && EndsWith(r, "...")
  {
    if len >= |str| then str else str[..len] + "..."
  }
}
