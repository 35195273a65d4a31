/**
 * `normalizePath`: turns a platform path into a forward-slash path. It is a
 * no-op everywhere except on Windows, where every `path.sep` becomes `/`.
 */
module NormalizePath {
  import opened Wrappers
  import opened Strings

  /** The global `process` object, reduced to the one field read here. */
  datatype Process = Process(platform: string)

  /** What the running host exposes: whether it is a browser, and its
      `process` global, which is undefined on Cloudflare Pages workers. */
  datatype Host = Host(isBrowser: bool, process: Option<Process>)

  /** `isWindows()` */
  predicate IsWindows(host: Host) {
    host.process.Some? && host.process.value.platform == "win32"
  }

  /** Node's `path.sep` on this host. */
  function PathSep(host: Host): char {
    if IsWindows(host) then '\\' else '/'
  }

  /** `normalizePath(urlPath)`; the source asserts it never runs in a browser. */
  function NormalizePath(urlPath: string, host: Host): (r: string)
    requires !host.isBrowser
    ensures !IsWindows(host) ==> r == urlPath
    ensures IsWindows(host) ==> r == Replace(urlPath, '\\', '/') && '\\' !in r
    ensures |r| == |urlPath|
  {
    if !IsWindows(host) then urlPath
    else
      SplitJoinIsReplace(urlPath, PathSep(host), '/');
      ReplaceRemoves(urlPath, '\\', '/');
      Join(Split(urlPath, PathSep(host)), "/")
  }

  /** An undefined `process` means "not Windows", so the path is returned as is. */
  lemma NoProcessIsNotWindows(urlPath: string, host: Host)
    requires !host.isBrowser && host.process.None?
    ensures !IsWindows(host) && NormalizePath(urlPath, host) == urlPath
  {
  }

  /** Normalising twice is normalising once. */
  lemma NormalizePathIdempotent(urlPath: string, host: Host)
    requires !host.isBrowser
    ensures NormalizePath(NormalizePath(urlPath, host), host) == NormalizePath(urlPath, host)
  {
    if IsWindows(host) {
      ReplaceIdempotent(urlPath, '\\', '/');
    }
  }
}
