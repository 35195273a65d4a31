/**
 * The build plugin (`vite-plugin-ssr:build`): the Vite config it contributes,
 * the output directory, the entry points, and the `transform` hook that
 * replaces client-only page files by a throwing stub in the server build.
 */
module Build {
  import opened Wrappers
  import opened Strings

  /** `build.rollupOptions.input` as a user may set it. */
  datatype RollupInput = InputString(s: string) | InputObject(entries: map<string, string>)

  /** The part of the user's `config.build` the plugin reads. */
  datatype BuildOptions = BuildOptions(outDir: Option<string>, ssr: bool, rollupInput: Option<RollupInput>)

  datatype UserConfig = UserConfig(build: Option<BuildOptions>)

  /** What `transform` returns for a module it rewrites. */
  datatype TransformResult = TransformResult(code: string, mappings: string)

  /** The config object returned by the plugin's `config` hook. */
  datatype PluginConfig = PluginConfig(
    outDir: string,
    manifest: bool,
    input: map<string, string>,
    polyfillDynamicImport: bool,
    ssrExternal: seq<string>)

  datatype BuildError = AssertionFailure(what: string)

  const CLIENT_FILE_MARKER := ".page.client."

  function UserOutDir(config: UserConfig): Option<string> {
    if config.build.Some? then config.build.value.outDir else None
  }

  predicate IsSsrOutput(config: UserConfig) {
    config.build.Some? && config.build.value.ssr
  }

  /** `getOutDir(config)`: `dist` unless the user set a non-empty directory,
      then `/server` for the server build and `/client` otherwise. */
  function GetOutDir(config: UserConfig): (r: string)
    ensures UserOutDir(config).Some? && UserOutDir(config).value != "" ==>
      StartsWith(r, UserOutDir(config).value + "/")
    ensures (UserOutDir(config).None? || UserOutDir(config).value == "") ==>
      StartsWith(r, "dist/")
    ensures EndsWith(r, "/server") <==> IsSsrOutput(config)
    ensures EndsWith(r, "/client") <==> !IsSsrOutput(config)
    ensures r == (if UserOutDir(config).Some? && UserOutDir(config).value != "" then UserOutDir(config).value else "dist") +
                 (if IsSsrOutput(config) then "/server" else "/client")
  {
    var outDir := if UserOutDir(config).Some? && UserOutDir(config).value != "" then UserOutDir(config).value else "dist";
    var r := if IsSsrOutput(config) then outDir + "/server" else outDir + "/client";
    assert r[..|outDir| + 1] == outDir + "/";
    assert r[|r| - 7..] == if IsSsrOutput(config) then "/server" else "/client";
    r
  }

  /** `removeClientCode(isSsrBuild, id)`: in the server build a
      `.page.client.` module becomes code that throws an error naming it. */
  function RemoveClientCode(isSsrBuild: bool, id: string): (r: Option<TransformResult>)
    ensures r.Some? <==> isSsrBuild && Contains(id, CLIENT_FILE_MARKER)
    ensures r.Some? ==> Contains(r.value.code, id) && StartsWith(r.value.code, "throw new Error(")
    ensures r.Some? ==> r.value.mappings == ""
  {
    if !isSsrBuild then None
    else if Contains(id, CLIENT_FILE_MARKER) then
      var head := "throw new Error(";
      var prefix := head + "'[vite-plugin-ssr][Wrong Usage] File ";
      var suffix := " should not be loaded in Node.js');";
      ContainsMiddle(prefix, id, suffix);
      assert prefix + id + suffix == head + ("'[vite-plugin-ssr][Wrong Usage] File " + id + suffix);
      Some(TransformResult(prefix + id + suffix, ""))
    else None
  }

  /** `posixPath(path)`: every platform separator becomes `/`. */
  function PosixPath(path: string, pathSep: char): (r: string)
    ensures r == Replace(path, pathSep, '/')
    ensures pathSep != '/' ==> pathSep !in r
  {
    SplitJoinIsReplace(path, pathSep, '/');
    assert pathSep != '/' ==> pathSep !in Replace(path, pathSep, '/') by {
      if pathSep != '/' { ReplaceRemoves(path, pathSep, '/'); }
    }
    Join(Split(path, pathSep), "/")
  }

  /** `normalizeRollupInput(input)`: a falsy input becomes `{}`, an object is
      kept as is, and a non-empty string trips the source's `isObject` assertion. */
  function NormalizeRollupInput(input: Option<RollupInput>): (r: Result<map<string, string>, BuildError>)
    ensures (input.None? || input == Some(InputString(""))) ==> r == Success(map[])
    ensures input.Some? && input.value.InputObject? ==> r == Success(input.value.entries)
    ensures r.Failure? <==> input.Some? && input.value.InputString? && input.value.s != ""
  {
    match input
    case None => Success(map[])
    case Some(InputString(s)) => if s == "" then Success(map[]) else Failure(AssertionFailure("isObject(input)"))
    case Some(InputObject(entries)) => Success(entries)
  }

  /** The `input` built in `config()`: `{...entryPoints, ...userInput}`. */
  function MergeInput(entryPoints: map<string, string>, userInput: map<string, string>): (r: map<string, string>)
    ensures r.Keys == entryPoints.Keys + userInput.Keys
    ensures forall k :: k in userInput ==> r[k] == userInput[k]
    ensures forall k :: k in entryPoints && k !in userInput ==> r[k] == entryPoints[k]
  {
    entryPoints + userInput
  }

  /** `path.basename(p)` for a path without a trailing separator. */
  function Basename(p: string, pathSep: char): (r: string)
    ensures pathSep !in r
  {
    var parts := Split(p, pathSep);
    SplitPiecesFree(p, pathSep);
    parts[|parts| - 1]
  }

  /** The entry name of `serverEntryPoints()`: the basename of the server
      entry with its trailing `.js` removed. */
  function ServerEntryName(serverEntry: string, pathSep: char): (r: string)
    requires EndsWith(serverEntry, ".js")
    ensures pathSep !in r
    ensures EndsWith(Basename(serverEntry, pathSep), ".js") ==> r + ".js" == Basename(serverEntry, pathSep)
    ensures !EndsWith(Basename(serverEntry, pathSep), ".js") ==> r == Basename(serverEntry, pathSep)
  {
    var b := Basename(serverEntry, pathSep);
    if EndsWith(b, ".js") then
      assert b == b[..|b| - 3] + b[|b| - 3..];
      b[..|b| - 3]
    else b
  }

  /** `serverEntryPoints()`: one entry, named after the resolved file. */
  function ServerEntryPoints(serverEntry: string, pathSep: char): (r: map<string, string>)
    requires EndsWith(serverEntry, ".js")
    ensures r == map[ServerEntryName(serverEntry, pathSep) := serverEntry]
  {
    map[ServerEntryName(serverEntry, pathSep) := serverEntry]
  }

  /**
   * The plugin object `build()` returns. `isSsrBuild` is the variable the
   * `config` hook captures and the `transform` hook reads.
   */
  class BuildPlugin {
    var isSsrBuild: Option<bool>

    constructor ()
      ensures isSsrBuild == None
    {
      isSsrBuild := None;
    }

    /** The `config` hook. `isSsrConfig` is the verdict of the helper
        `isSSR_config`; `serverEntry` is the resolved server entry file and
        `browserEntries` the entry map built from the client-file glob. */
    method Config(config: UserConfig, isSsrConfig: bool, serverEntry: string, browserEntries: map<string, string>, pathSep: char)
      returns (r: Result<PluginConfig, BuildError>)
      requires isSsrConfig ==> EndsWith(serverEntry, ".js")
      modifies this
      ensures isSsrBuild == Some(isSsrConfig)
      ensures r.Success? <==> NormalizeRollupInput(if config.build.Some? then config.build.value.rollupInput else None).Success?
      ensures r.Success? ==>
        var entries := if isSsrConfig then ServerEntryPoints(serverEntry, pathSep) else browserEntries;
        var user := NormalizeRollupInput(if config.build.Some? then config.build.value.rollupInput else None).value;
        r.value == PluginConfig(GetOutDir(config), true, MergeInput(entries, user), false, ["vite-plugin-ssr"])
    {
      isSsrBuild := Some(isSsrConfig);
      var entries := if isSsrConfig then ServerEntryPoints(serverEntry, pathSep) else browserEntries;
      var user := NormalizeRollupInput(if config.build.Some? then config.build.value.rollupInput else None);
      if user.Failure? {
        return Failure(user.error);
      }
      r := Success(PluginConfig(GetOutDir(config), true, MergeInput(entries, user.value), false, ["vite-plugin-ssr"]));
    }

    /** The `transform` hook; the source asserts `config` ran first. */
    method Transform(src: string, id: string) returns (r: Option<TransformResult>)
      requires isSsrBuild.Some?
      ensures r == RemoveClientCode(isSsrBuild.value, id)
      ensures r.None? <==> !isSsrBuild.value || !Contains(id, CLIENT_FILE_MARKER)
    {
      r := RemoveClientCode(isSsrBuild.value, id);
    }
  }
}
