/**
 * Loading a page's files for rendering: its `.page.client` path, its
 * `.page.server` file and nearest `_default.page.server` file, the
 * `passToClient` list, and the one `onBeforePrerender()` hook.
 */
module LoadPageFiles {
  import opened Wrappers
  import opened Strings
  import opened Errors
  import opened JsValues
  import opened PageFiles

  /** What calling a user hook does: return a value or throw. */
  datatype HookCall = HookReturns(value: JsValue) | HookThrows(thrown: Thrown)

  datatype ExportedHook = NotExported | ExportedFunction | ExportedNonFunction

  /** The exports of a `.page.server` file that this model reads. A hook
      that is exported carries what calling it does. */
  datatype ServerExports = ServerExports(
    render: Option<HookCall>,
    passToClient: Option<seq<string>>,
    prerender: Option<HookCall>,
    doNotPrerender: bool,
    onBeforePrerender: ExportedHook)

  datatype ServerFile = ServerFile(filePath: string, fileExports: ServerExports)

  /** What the loader of each page file yields. */
  type ExportsOracle = Loader -> Completion<ServerExports>

  /** The result of `loadPageIsomorphicFiles` (not part of this model). */
  datatype IsomorphicFiles = IsomorphicFiles(
    pageIsomorphicFile: Option<string>,
    pageIsomorphicFileDefault: Option<string>,
    hasOnBeforeRenderHook: bool)

  datatype PageFilesData = PageFilesData(
    isomorphic: IsomorphicFiles,
    pageClientPath: string,
    pageServerFile: Option<ServerFile>,
    pageServerFileDefault: Option<ServerFile>,
    passToClient: seq<string>)

  const NO_CLIENT_FILE: string := "No `*.page.client.js` file found"
  const NO_SERVER_FILE: string := "No `*.page.server.js` file found"
  const CONFLICTING_FILES: string := "Conflicting page files"
  const ASSERT_CLIENT_PATH: string := "pageClientPath"
  const ASSERT_SERVER_FILE: string := "pageServerFile || pageServerFileDefault"
  const ON_BEFORE_PRERENDER_NOT_FUNCTION: string := "`export { onBeforePrerender }` should be a function"
  const ONLY_ONE_ON_BEFORE_PRERENDER: string := "There can be only one `onBeforePrerender()` hook"

  /** `findPageFile` with its "Conflicting" error raised as a usage error. */
  function FindPageFileOrThrow(files: seq<PageFile>, pageId: string): (r: Outcome<Option<PageFile>>)
    requires AllValid(files) && ValidPath(pageId)
    ensures r.Raises? <==> FindPageFile(files, pageId).Failure?
    ensures r.Raises? ==> r.error == NewError(UsageError(CONFLICTING_FILES))
    ensures r.Returns? ==> r.value == FindPageFile(files, pageId).value
  {
    match FindPageFile(files, pageId)
    case Failure(_) => Raises(NewError(UsageError(CONFLICTING_FILES)))
    case Success(f) => Returns(f)
  }

  /** The `_passToClient` choice: the page file's list if it exports one
      (even an empty one, since `[]` is truthy), else the default file's,
      else `[]`. */
  function PassToClient(pageServerFile: Option<ServerFile>, pageServerFileDefault: Option<ServerFile>): (r: seq<string>)
    ensures pageServerFile.Some? && pageServerFile.value.fileExports.passToClient.Some? ==>
      r == pageServerFile.value.fileExports.passToClient.value
    ensures ((pageServerFile.None? || pageServerFile.value.fileExports.passToClient.None?) &&
             pageServerFileDefault.Some? && pageServerFileDefault.value.fileExports.passToClient.Some?) ==>
      r == pageServerFileDefault.value.fileExports.passToClient.value
    ensures r != [] ==>
      (pageServerFile.Some? && pageServerFile.value.fileExports.passToClient == Some(r)) ||
      (pageServerFileDefault.Some? && pageServerFileDefault.value.fileExports.passToClient == Some(r))
  {
    if pageServerFile.Some? && pageServerFile.value.fileExports.passToClient.Some? then
      pageServerFile.value.fileExports.passToClient.value
    else if pageServerFileDefault.Some? && pageServerFileDefault.value.fileExports.passToClient.Some? then
      pageServerFileDefault.value.fileExports.passToClient.value
    else []
  }

  /** `getPageClientPath(pageContext)`: the page's own `.page.client` file,
      else its nearest default one. */
  function GetPageClientPath(allPageFiles: AllPageFiles, pageId: string, pathDistance: (string, string) -> int)
    : (r: Outcome<string>)
    requires PAGE_CLIENT in allPageFiles && AllValid(allPageFiles[PAGE_CLIENT]) && ValidPath(pageId)
    ensures allPageFiles[PAGE_CLIENT] == [] ==> r == Raises(NewError(UsageError(NO_CLIENT_FILE)))
    ensures r.Returns? ==>
      (exists f :: f in allPageFiles[PAGE_CLIENT] && f.filePath == r.value &&
        (IsFileOfPage(f, pageId) || IsDefaultFile(f)))
    ensures r.Returns? && FilesOfPage(allPageFiles[PAGE_CLIENT], pageId) != [] ==>
      FilesOfPage(allPageFiles[PAGE_CLIENT], pageId) == [PageFile(r.value, FilesOfPage(allPageFiles[PAGE_CLIENT], pageId)[0].loadFile)]
    ensures var files := allPageFiles[PAGE_CLIENT];
      files != [] && FindPageFile(files, pageId).Failure? ==> r == Raises(NewError(UsageError(CONFLICTING_FILES)))
    ensures var files := allPageFiles[PAGE_CLIENT];
      files != [] && FindPageFile(files, pageId) == Success(None) ==>
        r == match DefaultFileOf(files, pageId, pathDistance)
             case Some(f) => Returns(f.filePath)
             case None => Raises(NewError(AssertionFailure(ASSERT_CLIENT_PATH)))
  {
    var files := allPageFiles[PAGE_CLIENT];
    if files == [] then Raises(NewError(UsageError(NO_CLIENT_FILE)))
    else
      match FindPageFileOrThrow(files, pageId)
      case Raises(e) => Raises(e)
      case Returns(Some(f)) => Returns(f.filePath)
      case Returns(None) =>
        match DefaultFileOf(files, pageId, pathDistance)
        case Some(f) => Returns(f.filePath)
        case None => Raises(NewError(AssertionFailure(ASSERT_CLIENT_PATH)))
  }

  /** `loadPageServerFile(serverFile)`: null stays null; a file is loaded. */
  function LoadServerFile(file: Option<PageFile>, exportsOf: ExportsOracle): (r: Outcome<Option<ServerFile>>)
    ensures file.None? ==> r == Returns(None)
    ensures r.Returns? && r.value.Some? ==> file.Some? && r.value.value.filePath == file.value.filePath
  {
    match file
    case None => Returns(None)
    case Some(f) =>
      match exportsOf(f.loadFile)
      case Threw(t) => Raises(Rethrow(t))
      case Normal(e) => Returns(Some(ServerFile(f.filePath, e)))
  }

  /** `loadPageServerFiles(pageContext)`: the page's own server file and its
      nearest default one, at least one of which must exist. When both
      loaders throw, the page file's error is the one reported. */
  function LoadPageServerFiles(allPageFiles: AllPageFiles, pageId: string, pathDistance: (string, string) -> int,
                               exportsOf: ExportsOracle): (r: Outcome<(Option<ServerFile>, Option<ServerFile>)>)
    requires PAGE_SERVER in allPageFiles && AllValid(allPageFiles[PAGE_SERVER]) && ValidPath(pageId)
    ensures allPageFiles[PAGE_SERVER] == [] ==> r == Raises(NewError(UsageError(NO_SERVER_FILE)))
    ensures r.Returns? ==> r.value.0.Some? || r.value.1.Some?
    ensures r.Returns? && r.value.0.Some? ==> StartsWith(r.value.0.value.filePath, pageId + ".page.")
    ensures r.Returns? && r.value.1.Some? ==> Contains(r.value.1.value.filePath, DEFAULT_MARKER)
    ensures var files := allPageFiles[PAGE_SERVER];
      files != [] && FindPageFile(files, pageId).Failure? ==> r == Raises(NewError(UsageError(CONFLICTING_FILES)))
    ensures var files := allPageFiles[PAGE_SERVER];
      r.Returns? ==>
        FindPageFile(files, pageId).Success? &&
        LoadServerFile(FindPageFile(files, pageId).value, exportsOf) == Returns(r.value.0) &&
        LoadServerFile(DefaultFileOf(files, pageId, pathDistance), exportsOf) == Returns(r.value.1)
    ensures var files := allPageFiles[PAGE_SERVER];
      files != [] && FindPageFile(files, pageId).Success? ==>
        var own := LoadServerFile(FindPageFile(files, pageId).value, exportsOf);
        var def := LoadServerFile(DefaultFileOf(files, pageId, pathDistance), exportsOf);
        (own.Raises? ==> r == Raises(own.error)) &&
        (own.Returns? && def.Raises? ==> r == Raises(def.error)) &&
        (own.Returns? && def.Returns? && (own.value.Some? || def.value.Some?) ==> r == Returns((own.value, def.value)))
  {
    var files := allPageFiles[PAGE_SERVER];
    if files == [] then Raises(NewError(UsageError(NO_SERVER_FILE)))
    else
      match FindPageFileOrThrow(files, pageId)
      case Raises(e) => Raises(e)
      case Returns(own) =>
        var def := DefaultFileOf(files, pageId, pathDistance);
        match LoadServerFile(own, exportsOf)
        case Raises(e) => Raises(e)
        case Returns(pageServerFile) =>
          match LoadServerFile(def, exportsOf)
          case Raises(e) => Raises(e)
          case Returns(pageServerFileDefault) =>
            if pageServerFile.None? && pageServerFileDefault.None? then
              Raises(NewError(AssertionFailure(ASSERT_SERVER_FILE)))
            else Returns((pageServerFile, pageServerFileDefault))
  }

  /** `loadPageFiles(pageContext)`: isomorphic files, client path, server
      files, and the `passToClient` choice. */
  function LoadPageFilesOf(allPageFiles: AllPageFiles, pageId: string, pathDistance: (string, string) -> int,
                           isomorphic: Completion<IsomorphicFiles>, exportsOf: ExportsOracle): (r: Outcome<PageFilesData>)
    requires PageKinds() <= allPageFiles.Keys
    requires AllValid(allPageFiles[PAGE_CLIENT]) && AllValid(allPageFiles[PAGE_SERVER]) && ValidPath(pageId)
    ensures r.Returns? ==> r.value.passToClient == PassToClient(r.value.pageServerFile, r.value.pageServerFileDefault)
    ensures r.Returns? ==> r.value.pageServerFile.Some? || r.value.pageServerFileDefault.Some?
    ensures r.Returns? ==> GetPageClientPath(allPageFiles, pageId, pathDistance) == Returns(r.value.pageClientPath)
    ensures r.Returns? ==>
      isomorphic == Normal(r.value.isomorphic) &&
      LoadPageServerFiles(allPageFiles, pageId, pathDistance, exportsOf) ==
        Returns((r.value.pageServerFile, r.value.pageServerFileDefault))
    ensures isomorphic.Threw? ==> r == Raises(Rethrow(isomorphic.thrown))
    ensures isomorphic.Normal? && GetPageClientPath(allPageFiles, pageId, pathDistance).Raises? ==>
      r == Raises(GetPageClientPath(allPageFiles, pageId, pathDistance).error)
    ensures isomorphic.Normal? && GetPageClientPath(allPageFiles, pageId, pathDistance).Returns? ==>
      match LoadPageServerFiles(allPageFiles, pageId, pathDistance, exportsOf)
      case Raises(e) => r == Raises(e)
      case Returns(_) => r.Returns?
  {
    match isomorphic
    case Threw(t) => Raises(Rethrow(t))
    case Normal(iso) =>
      match GetPageClientPath(allPageFiles, pageId, pathDistance)
      case Raises(e) => Raises(e)
      case Returns(clientPath) =>
        match LoadPageServerFiles(allPageFiles, pageId, pathDistance, exportsOf)
        case Raises(e) => Raises(e)
        case Returns(server) =>
          Returns(PageFilesData(iso, clientPath, server.0, server.1, PassToClient(server.0, server.1)))
  }

  /** One step of `loadOnBeforePrerenderHook`: the default file at hand may
      export the hook; it must be a function and the first one found. */
  function OnBeforePrerenderStep(found: Option<string>, file: PageFile, exportsOf: ExportsOracle): (r: Outcome<Option<string>>)
    ensures r.Returns? && r.value != found ==> found.None? && r.value == Some(file.filePath)
  {
    match exportsOf(file.loadFile)
    case Threw(t) => Raises(Rethrow(t))
    case Normal(e) =>
      match e.onBeforePrerender
      case NotExported => Returns(found)
      case ExportedNonFunction => Raises(NewError(UsageError(ON_BEFORE_PRERENDER_NOT_FUNCTION)))
      case ExportedFunction =>
        if found.Some? then Raises(NewError(UsageError(ONLY_ONE_ON_BEFORE_PRERENDER)))
        else Returns(Some(file.filePath))
  }

  /** The default server files visited in order; the first failure stops. */
  function OnBeforePrerenderOf(files: seq<PageFile>, exportsOf: ExportsOracle): (r: Outcome<Option<string>>)
  {
    if files == [] then Returns(None)
    else
      match OnBeforePrerenderOf(files[..|files| - 1], exportsOf)
      case Raises(e) => Raises(e)
      case Returns(found) => OnBeforePrerenderStep(found, files[|files| - 1], exportsOf)
  }

  /** A failure on a prefix is the failure of the whole scan. */
  lemma {:induction false} OnBeforePrerenderFailureSticks(files: seq<PageFile>, k: nat, exportsOf: ExportsOracle)
    requires k <= |files| && OnBeforePrerenderOf(files[..k], exportsOf).Raises?
    ensures OnBeforePrerenderOf(files, exportsOf) == OnBeforePrerenderOf(files[..k], exportsOf)
    decreases |files| - k
  {
    if k < |files| {
      assert files[..k + 1][..k] == files[..k];
      OnBeforePrerenderFailureSticks(files, k + 1, exportsOf);
    } else {
      assert files[..k] == files;
    }
  }

  predicate ExportsOnBeforePrerender(f: PageFile, exportsOf: ExportsOracle) {
    exportsOf(f.loadFile).Normal? && exportsOf(f.loadFile).value.onBeforePrerender.ExportedFunction?
  }

  /** The hook found is the one default file exporting `onBeforePrerender`:
      a second one is a usage error, so the hook is unique. */
  lemma {:induction false} OnBeforePrerenderUnique(files: seq<PageFile>, exportsOf: ExportsOracle)
    ensures var r := OnBeforePrerenderOf(files, exportsOf);
      r.Returns? ==>
        (r.value.None? <==> forall i :: 0 <= i < |files| ==> !ExportsOnBeforePrerender(files[i], exportsOf)) &&
        (r.value.Some? ==>
          exists i :: 0 <= i < |files| && files[i].filePath == r.value.value &&
            ExportsOnBeforePrerender(files[i], exportsOf) &&
            forall j :: 0 <= j < |files| && j != i ==> !ExportsOnBeforePrerender(files[j], exportsOf))
  {
    if files != [] {
      var n := |files|;
      var pre := files[..n - 1];
      OnBeforePrerenderUnique(pre, exportsOf);
      assert forall j :: 0 <= j < n - 1 ==> files[j] == pre[j];
      var r := OnBeforePrerenderOf(files, exportsOf);
      if r.Returns? && r.value.Some? {
        var rp := OnBeforePrerenderOf(pre, exportsOf);
        if rp.value.Some? {
          var i :| 0 <= i < |pre| && pre[i].filePath == rp.value.value &&
            ExportsOnBeforePrerender(pre[i], exportsOf) &&
            forall j :: 0 <= j < |pre| && j != i ==> !ExportsOnBeforePrerender(pre[j], exportsOf);
          assert files[i] == pre[i];
        } else {
          assert ExportsOnBeforePrerender(files[n - 1], exportsOf);
        }
      }
    }
  }

  /** `loadOnBeforePrerenderHook(globalContext)`: scans the default server
      files, keeping the one hook found; returns its file path. */
  method LoadOnBeforePrerenderHook(allPageFiles: AllPageFiles, exportsOf: ExportsOracle) returns (r: Outcome<Option<string>>)
    requires PAGE_SERVER in allPageFiles && AllValid(allPageFiles[PAGE_SERVER])
    ensures r == OnBeforePrerenderOf(FindDefaultFiles(allPageFiles[PAGE_SERVER]), exportsOf)
  {
    var defaultFiles := FindDefaultFiles(allPageFiles[PAGE_SERVER]);
    var hookFilePath: Option<string> := None;
    var i := 0;
    while i < |defaultFiles|
      invariant 0 <= i <= |defaultFiles|
      invariant OnBeforePrerenderOf(defaultFiles[..i], exportsOf) == Returns(hookFilePath)
    {
      assert defaultFiles[..i + 1][..i] == defaultFiles[..i];
      var file := defaultFiles[i];
      var exports := exportsOf(file.loadFile);
      var step: Outcome<Option<string>> := Returns(hookFilePath);
      if exports.Threw? {
        step := Raises(Rethrow(exports.thrown));
      } else if exports.value.onBeforePrerender.ExportedNonFunction? {
        step := Raises(NewError(UsageError(ON_BEFORE_PRERENDER_NOT_FUNCTION)));
      } else if exports.value.onBeforePrerender.ExportedFunction? {
        if hookFilePath.Some? {
          step := Raises(NewError(UsageError(ONLY_ONE_ON_BEFORE_PRERENDER)));
        } else {
          step := Returns(Some(file.filePath));
        }
      }
      if step.Raises? {
        OnBeforePrerenderFailureSticks(defaultFiles, i + 1, exportsOf);
        return step;
      }
      hookFilePath := step.value;
      i := i + 1;
    }
    assert defaultFiles[..i] == defaultFiles;
    r := Returns(hookFilePath);
  }
}
