/**
 * The page-file registry: the cached glob-import result, its per-kind lists
 * of `{filePath, loadFile}`, and the lookups that pick a page's own file and
 * its nearest `_default` file.
 */
module PageFiles {
  import opened Wrappers
  import opened Strings

  /** A lazy loader is opaque here; `loadFile` is its handle. */
  type Loader = nat

  /** One entry of a per-kind list. */
  datatype PageFile = PageFile(filePath: string, loadFile: Loader)

  /** The unprocessed glob result: per kind, the object's entries in order. */
  type RawPageFiles = map<string, seq<(string, Loader)>>

  /** The processed registry: per kind, the list of page files. */
  type AllPageFiles = map<string, seq<PageFile>>

  const PAGE: string := ".page"
  const PAGE_SERVER: string := ".page.server"
  const PAGE_ROUTE: string := ".page.route"
  const PAGE_CLIENT: string := ".page.client"
  const DEFAULT_MARKER: string := "/_default"

  function PageKinds(): set<string> {
    {PAGE, PAGE_SERVER, PAGE_ROUTE, PAGE_CLIENT}
  }

  datatype PageFilesError =
    | Conflicting(filePaths: seq<string>)   // usage error of `findPageFile`
    | MissingKind(kind: string)             // `Object.entries(undefined)` throws

  /** The shape every path and page id is asserted to have. */
  predicate ValidPath(p: string) {
    StartsWith(p, "/") && '\\' !in p
  }

  predicate AllValid(files: seq<PageFile>) {
    forall f :: f in files ==> ValidPath(f.filePath)
  }

  predicate IsFileOfPage(f: PageFile, pageId: string) {
    StartsWith(f.filePath, pageId + ".page.")
  }

  predicate IsDefaultFile(f: PageFile) {
    Contains(f.filePath, DEFAULT_MARKER)
  }

  /** The files of `pageId`, in input order (the `filter` of `findPageFile`). */
  function FilesOfPage(files: seq<PageFile>, pageId: string): (r: seq<PageFile>)
    ensures forall f :: f in r <==> f in files && IsFileOfPage(f, pageId)
    ensures |r| <= |files|
  {
    if files == [] then []
    else
      var rest := FilesOfPage(files[..|files| - 1], pageId);
      var last := files[|files| - 1];
      assert files == files[..|files| - 1] + [last];
      if IsFileOfPage(last, pageId) then rest + [last] else rest
  }

  function FilePaths(files: seq<PageFile>): (r: seq<string>)
    ensures |r| == |files|
    ensures forall i :: 0 <= i < |files| ==> r[i] == files[i].filePath
  {
    if files == [] then [] else [files[0].filePath] + FilePaths(files[1..])
  }

  /** `findPageFile(pageFiles, pageId)`: no match gives null, one match is
      returned, and two or more are a "Conflicting" usage error. */
  function FindPageFile(files: seq<PageFile>, pageId: string): (r: Result<Option<PageFile>, PageFilesError>)
    requires AllValid(files)
    requires files != [] ==> ValidPath(pageId)
    ensures r == Success(None) <==> forall f :: f in files ==> !IsFileOfPage(f, pageId)
    ensures r.Failure? <==> |FilesOfPage(files, pageId)| >= 2
    ensures r.Failure? ==> r.error == Conflicting(FilePaths(FilesOfPage(files, pageId)))
    ensures r.Success? && r.value.Some? ==>
      r.value.value in files && IsFileOfPage(r.value.value, pageId) &&
      FilesOfPage(files, pageId) == [r.value.value]
  {
    var matching := FilesOfPage(files, pageId);
    if |matching| == 0 then Success(None)
    else if |matching| == 1 then
      assert matching[0] in matching;
      Success(Some(matching[0]))
    else
      assert matching[0] in matching;
      Failure(Conflicting(FilePaths(matching)))
  }

  /** `findDefaultFiles(pageFiles)`: the files under a `/_default` name, in order. */
  function FindDefaultFiles(files: seq<PageFile>): (r: seq<PageFile>)
    requires AllValid(files)
    ensures forall f :: f in r <==> f in files && IsDefaultFile(f)
    ensures |r| <= |files|
  {
    if files == [] then []
    else
      var rest := FindDefaultFiles(files[..|files| - 1]);
      var last := files[|files| - 1];
      assert files == files[..|files| - 1] + [last];
      if IsDefaultFile(last) then rest + [last] else rest
  }

  /** Filtering keeps input order: appending a file appends it to the result
      exactly when it is a default file. */
  lemma FindDefaultFilesAppend(files: seq<PageFile>, f: PageFile)
    requires AllValid(files + [f])
    ensures FindDefaultFiles(files + [f]) == FindDefaultFiles(files) + (if IsDefaultFile(f) then [f] else [])
  {
    assert (files + [f])[..|files + [f]| - 1] == files;
  }

  /** The ranking key of `findDefaultFile`: -1 for a file under the page's
      own directory prefix, else the (external) path distance. */
  function RankKey(f: PageFile, pageId: string, pathDistance: (string, string) -> int): int {
    if StartsWith(f.filePath, pageId) then -1 else pathDistance(pageId, f.filePath)
  }

  /** The head of `files` after a stable sort by `RankKey`: the first file
      of least key, or nothing for no files. */
  function FirstLeastRanked(files: seq<PageFile>, pageId: string, pathDistance: (string, string) -> int): (r: Option<PageFile>)
    ensures r.None? <==> files == []
    ensures r.Some? ==> r.value in files
  {
    if files == [] then None
    else
      var best := FirstLeastRanked(files[..|files| - 1], pageId, pathDistance);
      var last := files[|files| - 1];
      if best.None? || RankKey(last, pageId, pathDistance) < RankKey(best.value, pageId, pathDistance)
      then Some(last) else best
  }

  /** What `FirstLeastRanked` picks: the element at some index `i` whose key
      every earlier element exceeds and no later element undercuts, i.e. the
      head of a stable sort by key. */
  lemma {:induction false} FirstLeastRankedIsStableMinimum(files: seq<PageFile>, pageId: string, pathDistance: (string, string) -> int)
    returns (i: nat)
    requires files != []
    ensures i < |files| && FirstLeastRanked(files, pageId, pathDistance) == Some(files[i])
    ensures forall j :: 0 <= j < i ==> RankKey(files[j], pageId, pathDistance) > RankKey(files[i], pageId, pathDistance)
    ensures forall j :: i <= j < |files| ==> RankKey(files[j], pageId, pathDistance) >= RankKey(files[i], pageId, pathDistance)
  {
    var n := |files|;
    var pre := files[..n - 1];
    if pre == [] {
      i := 0;
    } else {
      var k := FirstLeastRankedIsStableMinimum(pre, pageId, pathDistance);
      if RankKey(files[n - 1], pageId, pathDistance) < RankKey(pre[k], pageId, pathDistance) {
        i := n - 1;
      } else {
        i := k;
      }
    }
  }

  /** One more file for `FirstLeastRanked`: it wins only with a smaller key. */
  lemma FirstLeastRankedStep(files: seq<PageFile>, k: nat, pageId: string, pathDistance: (string, string) -> int)
    requires k < |files|
    ensures FirstLeastRanked(files[..k + 1], pageId, pathDistance) ==
      var best := FirstLeastRanked(files[..k], pageId, pathDistance);
      if best.None? || RankKey(files[k], pageId, pathDistance) < RankKey(best.value, pageId, pathDistance)
      then Some(files[k]) else best
  {
    assert files[..k + 1][..k] == files[..k];
  }

  /** `findDefaultFile(pageFiles, pageId)`: sorts the default files by
      `RankKey` and takes the first; here one pass keeps the running minimum. */
  method FindDefaultFile(files: seq<PageFile>, pageId: string, pathDistance: (string, string) -> int)
    returns (r: Option<PageFile>)
    requires AllValid(files)
    ensures r == FirstLeastRanked(FindDefaultFiles(files), pageId, pathDistance)
    ensures r.None? <==> FindDefaultFiles(files) == []
  {
    var defaults := FindDefaultFiles(files);
    if |defaults| == 0 {
      return None;
    }
    var best := 0;
    var k := 1;
    assert defaults[..1][..0] == [];
    while k < |defaults|
      invariant 0 <= best < k <= |defaults|
      invariant FirstLeastRanked(defaults[..k], pageId, pathDistance) == Some(defaults[best])
    {
      FirstLeastRankedStep(defaults, k, pageId, pathDistance);
      if RankKey(defaults[k], pageId, pathDistance) < RankKey(defaults[best], pageId, pathDistance) {
        best := k;
      }
      k := k + 1;
    }
    assert defaults[..k] == defaults;
    r := Some(defaults[best]);
  }

  /** The default file picked for a page: `findDefaultFile` as a value. */
  function DefaultFileOf(files: seq<PageFile>, pageId: string, pathDistance: (string, string) -> int): (r: Option<PageFile>)
    requires AllValid(files)
    ensures r.None? <==> FindDefaultFiles(files) == []
    ensures r.Some? ==> r.value in files && IsDefaultFile(r.value)
  {
    FirstLeastRanked(FindDefaultFiles(files), pageId, pathDistance)
  }

  /** The `tranform` step: an object's entries become `{filePath, loadFile}` records. */
  function ToPageFiles(entries: seq<(string, Loader)>): (r: seq<PageFile>)
    ensures |r| == |entries|
    ensures forall i :: 0 <= i < |entries| ==> r[i] == PageFile(entries[i].0, entries[i].1)
  {
    if entries == [] then [] else [PageFile(entries[0].0, entries[0].1)] + ToPageFiles(entries[1..])
  }

  /** The result of `getAllPageFiles()` for a given unprocessed value: the four
      kinds, each processed, or the error `Object.entries(undefined)` raises. */
  function ProcessPageFiles(raw: RawPageFiles): (r: Result<AllPageFiles, PageFilesError>)
    ensures r.Success? <==> PageKinds() <= raw.Keys
    ensures r.Success? ==> r.value.Keys == PageKinds()
    ensures r.Success? ==> forall k :: k in r.value ==> r.value[k] == ToPageFiles(raw[k])
  {
    if PAGE !in raw then Failure(MissingKind(PAGE))
    else if PAGE_ROUTE !in raw then Failure(MissingKind(PAGE_ROUTE))
    else if PAGE_SERVER !in raw then Failure(MissingKind(PAGE_SERVER))
    else if PAGE_CLIENT !in raw then Failure(MissingKind(PAGE_CLIENT))
    else Success(map[
      PAGE := ToPageFiles(raw[PAGE]),
      PAGE_ROUTE := ToPageFiles(raw[PAGE_ROUTE]),
      PAGE_SERVER := ToPageFiles(raw[PAGE_SERVER]),
      PAGE_CLIENT := ToPageFiles(raw[PAGE_CLIENT])])
  }

  /**
   * The module-level state of the registry: the unprocessed glob result and
   * whether an asynchronous getter was registered.
   */
  class PageFilesRegistry {
    var allPageFilesUnprocessed: Option<RawPageFiles>
    var hasAsyncGetter: bool

    ghost predicate Valid()
      reads this
    {
      allPageFilesUnprocessed.Some? ==> PAGE in allPageFilesUnprocessed.value
    }

    constructor ()
      ensures Valid() && allPageFilesUnprocessed == None && !hasAsyncGetter
    {
      allPageFilesUnprocessed := None;
      hasAsyncGetter := false;
    }

    /** `setPageFiles(pageFiles)`; the source asserts a `.page` key. */
    method SetPageFiles(pageFiles: RawPageFiles)
      requires PAGE in pageFiles
      modifies this
      ensures Valid()
      ensures allPageFilesUnprocessed == Some(pageFiles) && hasAsyncGetter == old(hasAsyncGetter)
    {
      allPageFilesUnprocessed := Some(pageFiles);
    }

    /** `setPageFilesAsync(getter)` */
    method SetPageFilesAsync()
      requires Valid()
      modifies this
      ensures Valid()
      ensures hasAsyncGetter && allPageFilesUnprocessed == old(allPageFilesUnprocessed)
    {
      hasAsyncGetter := true;
    }

    /** `isPageFilesSet()` */
    function IsPageFilesSet(): bool
      reads this
    {
      allPageFilesUnprocessed.Some?
    }

    /** `getAllPageFiles()`. `reloaded` is what the asynchronous getter yields
        if it is called; it is called when the cache is empty or outside
        production. The source asserts a `.page` key on what it then holds. */
    method GetAllPageFiles(isProduction: bool, reloaded: RawPageFiles) returns (r: Result<AllPageFiles, PageFilesError>)
      requires Valid()
      requires hasAsyncGetter ==> PAGE in reloaded
      requires !hasAsyncGetter ==> allPageFilesUnprocessed.Some?
      modifies this
      ensures Valid() && hasAsyncGetter == old(hasAsyncGetter)
      ensures allPageFilesUnprocessed ==
        if old(hasAsyncGetter) && (old(allPageFilesUnprocessed).None? || !isProduction)
        then Some(reloaded) else old(allPageFilesUnprocessed)
      ensures allPageFilesUnprocessed.Some? && r == ProcessPageFiles(allPageFilesUnprocessed.value)
    {
      if hasAsyncGetter {
        if allPageFilesUnprocessed.None? || !isProduction {
          allPageFilesUnprocessed := Some(reloaded);
        }
      }
      r := ProcessPageFiles(allPageFilesUnprocessed.value);
    }
  }
}
