/**
 * Framework path resolution of `@iedo/utils`. The file system is a value:
 * the set of paths that exist, the parsed `package.json` files, and the
 * directory listings. `path.join` is modelled as joining with "/"
 * without normalisation.
 */
module IedoUtils {
  import opened Wrappers
  import opened Strings
  import opened OrderedMaps

  function PathJoin(a: string, b: string): string {
    a + "/" + b
  }

  predicate IsAbsolute(p: string) {
    p != [] && p[0] == '/'
  }

  /**
   * The fields of a `package.json` the resolution reads: `name` ("" when
   * missing or falsy), `iedo.framework` ("" when missing or falsy) and the
   * names under `dependencies` with a truthy version (None when the field
   * is missing).
   */
  datatype PackageJson = PackageJson(name: string, framework: string, dependencies: Option<set<string>>)

  datatype FileSystem = FileSystem(
    existing: set<string>,
    packages: map<string, PackageJson>,
    listings: map<string, seq<string>>)

  predicate Exists(fs: FileSystem, p: string) {
    p in fs.existing
  }

  /** `utility.readJSONSync(p)`: fails for a missing or unparsable file. */
  function ReadPackage(fs: FileSystem, p: string): (r: Result<PackageJson>)
    ensures r.Success? <==> p in fs.existing && p in fs.packages
  {
    if p !in fs.existing then Failure("ENOENT: " + p)
    else if p !in fs.packages then Failure("Unexpected token in JSON at " + p)
    else Success(fs.packages[p])
  }

  /** `fs.readdirSync(dir)`. */
  function ReadDir(fs: FileSystem, dir: string): Result<seq<string>> {
    if dir in fs.existing && dir in fs.listings then Success(fs.listings[dir])
    else Failure("ENOTDIR: " + dir)
  }

  /** The position of the first occurrence of `x` in `s`. */
  function FirstIndex(s: seq<string>, x: string): (k: nat)
    requires x in s
    ensures k < |s| && s[k] == x && x !in s[..k]
  {
    if s[0] == x then 0
    else
      var k := FirstIndex(s[1..], x);
      assert s[..k + 1] == [s[0]] + s[1..][..k];
      k + 1
  }

  /** A first occurrence is the only position that is one. */
  lemma FirstIndexUnique(s: seq<string>, x: string, k: nat)
    requires k < |s| && s[k] == x && x !in s[..k]
    ensures FirstIndex(s, x) == k
  {
  }

  /** Appending never moves the first occurrence of a value already present. */
  lemma FirstIndexAppend(s: seq<string>, y: string, x: string)
    requires x in s
    ensures FirstIndex(s + [y], x) == FirstIndex(s, x)
  {
    var k := FirstIndex(s, x);
    assert (s + [y])[..k] == s[..k];
    FirstIndexUnique(s + [y], x, k);
  }

  /**
   * `new Set(dirs)` iterated: each directory once, at its first
   * occurrence, in the order of those first occurrences.
   */
  function Dedup(dirs: seq<string>): (r: seq<string>)
    ensures Distinct(r) && |r| <= |dirs|
    ensures forall d :: d in r <==> d in dirs
    ensures forall i, j :: 0 <= i < j < |r| ==> FirstIndex(dirs, r[i]) < FirstIndex(dirs, r[j])
  {
    if dirs == [] then []
    else
      var init := Dedup(dirs[..|dirs| - 1]);
      var last := dirs[|dirs| - 1];
      assert dirs == dirs[..|dirs| - 1] + [last];
      forall d | d in init
        ensures FirstIndex(dirs, d) == FirstIndex(dirs[..|dirs| - 1], d)
      {
        FirstIndexAppend(dirs[..|dirs| - 1], last, d);
      }
      if last in init then init
      else
        FirstIndexUnique(dirs, last, |dirs| - 1);
        init + [last]
  }

  /**
   * The module directories `assertAndReturn` searches: the three
   * candidates without repeats, the package's own directory first.
   */
  function ModuleDirs(moduleDir: string, cwd: string, initCwd: string): (dirs: seq<string>)
    ensures Distinct(dirs) && 1 <= |dirs| <= 3
    ensures dirs[0] == moduleDir
    ensures forall d :: d in dirs <==> d == moduleDir || d == PathJoin(cwd, "node_modules") || d == PathJoin(initCwd, "node_modules")
  {
    var candidates := [moduleDir, PathJoin(cwd, "node_modules"), PathJoin(initCwd, "node_modules")];
    var dirs := Dedup(candidates);
    assert FirstIndex(candidates, moduleDir) == 0;
    assert dirs[0] in candidates;
    dirs
  }

  /** The first `dir/name` that exists, searching `dirs` in order. */
  function FirstExisting(dirs: seq<string>, name: string, fs: FileSystem): (r: Option<string>)
    ensures r.Some? ==> Exists(fs, r.value)
    ensures r.Some? ==>
      exists i :: 0 <= i < |dirs| && r.value == PathJoin(dirs[i], name) &&
        forall j :: 0 <= j < i ==> !Exists(fs, PathJoin(dirs[j], name))
    ensures r.None? <==> forall i :: 0 <= i < |dirs| ==> !Exists(fs, PathJoin(dirs[i], name))
  {
    if dirs == [] then None
    else if Exists(fs, PathJoin(dirs[0], name)) then Some(PathJoin(dirs[0], name))
    else
      var r := FirstExisting(dirs[1..], name, fs);
      assert forall i :: 1 <= i < |dirs| ==> dirs[i] == dirs[1..][i - 1];
      r
  }

  /** What `assertAndReturn` returns or throws. */
  function Lookup(name: string, moduleDir: string, cwd: string, initCwd: string, fs: FileSystem): Result<string> {
    var dirs := ModuleDirs(moduleDir, cwd, initCwd);
    match FirstExisting(dirs, name, fs)
    case Some(p) => Success(p)
    case None => Failure(name + " is not found in " + Join(dirs, ","))
  }

  /**
   * `assertAndReturn`: the first existing `dir/frameworkName` over the
   * deduplicated module directories, or the "not found" error.
   */
  method AssertAndReturn(frameworkName: string, moduleDir: string, cwd: string, initCwd: string, fs: FileSystem)
    returns (r: Result<string>)
    ensures r == Lookup(frameworkName, moduleDir, cwd, initCwd, fs)
    ensures r.Success? ==> Exists(fs, r.value)
    ensures r.Failure? <==> forall d :: d in ModuleDirs(moduleDir, cwd, initCwd) ==> !Exists(fs, PathJoin(d, frameworkName))
  {
    var dirs := ModuleDirs(moduleDir, cwd, initCwd);
    var i := 0;
    while i < |dirs|
      invariant 0 <= i <= |dirs|
      invariant FirstExisting(dirs, frameworkName, fs) == FirstExisting(dirs[i..], frameworkName, fs)
      invariant forall j :: 0 <= j < i ==> !Exists(fs, PathJoin(dirs[j], frameworkName))
    {
      var frameworkPath := PathJoin(dirs[i], frameworkName);
      if Exists(fs, frameworkPath) {
        return Success(frameworkPath);
      }
      assert dirs[i..][1..] == dirs[i + 1..];
      i := i + 1;
    }
    r := Failure(frameworkName + " is not found in " + Join(dirs, ","));
  }

  /**
   * `getFrameworkPath`: an explicit framework (absolute and existing, or
   * looked up by name), else `iedo.framework` of the app's package.json,
   * else "iedo".
   */
  function GetFrameworkPath(framework: string, baseDir: string, cwd: string, initCwd: string, fs: FileSystem)
    : (r: Result<string>)
    ensures !Exists(fs, PathJoin(baseDir, "package.json")) ==> r.Failure?
    ensures r.Success? ==> Exists(fs, r.value)
  {
    var pkgPath := PathJoin(baseDir, "package.json");
    if !Exists(fs, pkgPath) then Failure(pkgPath + " should exists")
    else
      var moduleDir := PathJoin(baseDir, "node_modules");
      match ReadPackage(fs, pkgPath)
      case Failure(e) => Failure(e)
      case Success(pkg) =>
        if framework != "" then
          if IsAbsolute(framework) then
            if Exists(fs, framework) then Success(framework) else Failure(framework + " should exists")
          else Lookup(framework, moduleDir, cwd, initCwd, fs)
        else if pkg.framework != "" then Lookup(pkg.framework, moduleDir, cwd, initCwd, fs)
        else Lookup("iedo", moduleDir, cwd, initCwd, fs)
  }

  /** An absolute framework is returned unchanged when it exists, and fails otherwise. */
  lemma AbsoluteFramework(framework: string, baseDir: string, cwd: string, initCwd: string, fs: FileSystem)
    requires IsAbsolute(framework)
    requires PathJoin(baseDir, "package.json") in fs.existing && PathJoin(baseDir, "package.json") in fs.packages
    ensures GetFrameworkPath(framework, baseDir, cwd, initCwd, fs)
      == if framework in fs.existing then Success(framework) else Failure(framework + " should exists")
  {
  }

  /** The precedence: explicit name, then the package's `iedo.framework`, then "iedo". */
  lemma FrameworkPrecedence(framework: string, baseDir: string, cwd: string, initCwd: string, fs: FileSystem)
    requires !IsAbsolute(framework)
    requires ReadPackage(fs, PathJoin(baseDir, "package.json")).Success?
    ensures var pkg := fs.packages[PathJoin(baseDir, "package.json")];
      var name := if framework != "" then framework else if pkg.framework != "" then pkg.framework else "iedo";
      GetFrameworkPath(framework, baseDir, cwd, initCwd, fs)
        == Lookup(name, PathJoin(baseDir, "node_modules"), cwd, initCwd, fs)
  {
  }

  /** The package.json of the package directory `moduleDir/entry`. */
  function PackageFileOf(moduleDir: string, entry: string): string {
    PathJoin(PathJoin(moduleDir, entry), "package.json")
  }

  /** `pkg.dependencies[n]` is truthy for one of `names`. */
  predicate DependsOn(pkg: PackageJson, names: seq<string>) {
    pkg.dependencies.Some? && exists n :: n in names && n in pkg.dependencies.value
  }

  /** The dependency scan moves past `entry`: no package.json, or one that depends on none of `names`. */
  predicate Passed(moduleDir: string, entry: string, names: seq<string>, fs: FileSystem) {
    var file := PackageFileOf(moduleDir, entry);
    !Exists(fs, file) || (ReadPackage(fs, file).Success? && !DependsOn(ReadPackage(fs, file).value, names))
  }

  /** The dependency scan stops at `entry`: its package.json reads and depends on one of `names`. */
  predicate Matches(moduleDir: string, entry: string, names: seq<string>, fs: FileSystem) {
    var file := PackageFileOf(moduleDir, entry);
    Exists(fs, file) && ReadPackage(fs, file).Success? && DependsOn(ReadPackage(fs, file).value, names)
  }

  /**
   * The dependency scan over the `node_modules` listing: the first entry
   * whose package.json depends on one of `names`, None when every entry is
   * passed, and the read error of the first unreadable package.json met
   * before any match.
   */
  function FirstDependent(moduleDir: string, entries: seq<string>, names: seq<string>, fs: FileSystem)
    : (r: Result<Option<string>>)
    ensures r.Success? && r.value.Some? <==>
      exists i :: 0 <= i < |entries| && Matches(moduleDir, entries[i], names, fs) &&
        forall j :: 0 <= j < i ==> Passed(moduleDir, entries[j], names, fs)
    ensures r.Success? && r.value.Some? ==>
      exists i :: 0 <= i < |entries| && r.value.value == PathJoin(moduleDir, entries[i]) &&
        Matches(moduleDir, entries[i], names, fs) &&
        forall j :: 0 <= j < i ==> Passed(moduleDir, entries[j], names, fs)
    ensures r == Success(None) <==> forall i :: 0 <= i < |entries| ==> Passed(moduleDir, entries[i], names, fs)
  {
    if entries == [] then Success(None)
    else
      var file := PackageFileOf(moduleDir, entries[0]);
      var rest := FirstDependent(moduleDir, entries[1..], names, fs);
      assert forall i :: 1 <= i < |entries| ==> entries[i] == entries[1..][i - 1];
      if !Exists(fs, file) then rest
      else match ReadPackage(fs, file)
        case Failure(e) => Failure(e)
        case Success(pkg) =>
          if DependsOn(pkg, names) then Success(Some(PathJoin(moduleDir, entries[0])))
          else rest
  }

  /** The name scan: the first of `names` installed as a package directory under `moduleDir`. */
  function FirstInstalled(moduleDir: string, names: seq<string>, fs: FileSystem): (r: Option<string>)
    ensures r.Some? ==>
      exists i :: 0 <= i < |names| && r.value == PathJoin(moduleDir, names[i]) &&
        Exists(fs, PackageFileOf(moduleDir, names[i])) &&
        forall j :: 0 <= j < i ==> !Exists(fs, PackageFileOf(moduleDir, names[j]))
    ensures r.None? <==> forall i :: 0 <= i < |names| ==> !Exists(fs, PackageFileOf(moduleDir, names[i]))
  {
    if names == [] then None
    else if Exists(fs, PackageFileOf(moduleDir, names[0])) then Some(PathJoin(moduleDir, names[0]))
    else
      var r := FirstInstalled(moduleDir, names[1..], fs);
      assert forall i :: 1 <= i < |names| ==> names[i] == names[1..][i - 1];
      r
  }

  /** What `getFrameworkOrIedoPath` returns ("" for nothing) or throws. */
  function FrameworkOrIedoPath(cwd: string, iedoNames: Option<seq<string>>, fs: FileSystem): (r: Result<string>)
    ensures !Exists(fs, PathJoin(cwd, "node_modules")) ==> r == Success("")
  {
    var names := iedoNames.GetOr(["iedo"]);
    var moduleDir := PathJoin(cwd, "node_modules");
    var pkgFile := PathJoin(cwd, "package.json");
    if !Exists(fs, moduleDir) then Success("")
    else if Exists(fs, pkgFile) && ReadPackage(fs, pkgFile).Failure? then Failure(ReadPackage(fs, pkgFile).error)
    else if Exists(fs, pkgFile) && ReadPackage(fs, pkgFile).value.framework != "" then
      Success(PathJoin(moduleDir, ReadPackage(fs, pkgFile).value.framework))
    else match ReadDir(fs, moduleDir)
      case Failure(e) => Failure(e)
      case Success(entries) =>
        match FirstDependent(moduleDir, entries, names, fs)
        case Failure(e) => Failure(e)
        case Success(Some(p)) => Success(p)
        case Success(None) => Success(FirstInstalled(moduleDir, names, fs).GetOr(""))
  }

  /** Whether the package file at `pkgFile` depends on one of `names`. */
  method DependsOnOneOf(pkg: PackageJson, names: seq<string>) returns (found: bool)
    ensures found <==> pkg.dependencies.Some? && exists n :: n in names && n in pkg.dependencies.value
  {
    found := false;
    if pkg.dependencies.None? {
      return;
    }
    for k := 0 to |names|
      invariant !found
      invariant forall j :: 0 <= j < k ==> names[j] !in pkg.dependencies.value
    {
      if names[k] in pkg.dependencies.value {
        return true;
      }
    }
  }

  /**
   * `getFrameworkOrIedoPath`: "" without node_modules; then the package's
   * `iedo.framework`; then the first installed package that depends on one
   * of the names; then a package directory named after one of them; else "".
   */
  method GetFrameworkOrIedoPath(cwd: string, iedoNames: Option<seq<string>>, fs: FileSystem)
    returns (r: Result<string>)
    ensures r == FrameworkOrIedoPath(cwd, iedoNames, fs)
  {
    var names := if iedoNames.Some? then iedoNames.value else ["iedo"];
    var moduleDir := PathJoin(cwd, "node_modules");
    if !Exists(fs, moduleDir) {
      return Success("");
    }
    var pkgFile := PathJoin(cwd, "package.json");
    if Exists(fs, pkgFile) {
      var pkg := ReadPackage(fs, pkgFile);
      if pkg.Failure? {
        return Failure(pkg.error);
      }
      if pkg.value.framework != "" {
        return Success(PathJoin(moduleDir, pkg.value.framework));
      }
    }
    var listing := ReadDir(fs, moduleDir);
    if listing.Failure? {
      return Failure(listing.error);
    }
    var entries := listing.value;
    var i := 0;
    while i < |entries|
      invariant 0 <= i <= |entries|
      invariant FirstDependent(moduleDir, entries, names, fs) == FirstDependent(moduleDir, entries[i..], names, fs)
    {
      var file := PathJoin(PathJoin(moduleDir, entries[i]), "package.json");
      assert entries[i..][1..] == entries[i + 1..];
      if Exists(fs, file) {
        var pkg := ReadPackage(fs, file);
        if pkg.Failure? {
          return Failure(pkg.error);
        }
        var found := DependsOnOneOf(pkg.value, names);
        if found {
          return Success(PathJoin(moduleDir, entries[i]));
        }
      }
      i := i + 1;
    }
    for k := 0 to |names|
      invariant FirstInstalled(moduleDir, names, fs) == FirstInstalled(moduleDir, names[k..], fs)
    {
      assert names[k..][1..] == names[k + 1..];
      if Exists(fs, PathJoin(PathJoin(moduleDir, names[k]), "package.json")) {
        return Success(PathJoin(moduleDir, names[k]));
      }
    }
    return Success("");
  }

  /**
   * A non-empty answer of `getFrameworkOrIedoPath` is a directory under
   * node_modules: the configured framework, a package depending on one of
   * the names, or the package named after one of them.
   */
  lemma {:induction false} FrameworkOrIedoPathUnderModules(cwd: string, iedoNames: Option<seq<string>>, fs: FileSystem)
    requires FrameworkOrIedoPath(cwd, iedoNames, fs).Success?
    requires FrameworkOrIedoPath(cwd, iedoNames, fs).value != ""
    ensures exists name :: FrameworkOrIedoPath(cwd, iedoNames, fs).value == PathJoin(PathJoin(cwd, "node_modules"), name)
  {
    var moduleDir := PathJoin(cwd, "node_modules");
    var names := iedoNames.GetOr(["iedo"]);
    var pkgFile := PathJoin(cwd, "package.json");
    if Exists(fs, pkgFile) && ReadPackage(fs, pkgFile).value.framework != "" {
    } else {
      var entries := ReadDir(fs, moduleDir).value;
      var dep := FirstDependent(moduleDir, entries, names, fs);
      if dep.value.Some? {
        FirstDependentUnder(moduleDir, entries, names, fs);
      } else {
        FirstInstalledUnder(moduleDir, names, fs);
      }
    }
  }

  /**
   * `getFrameworkOrIedoPath` answers "" exactly when there is no
   * node_modules, or when the application names no framework, the listing
   * reads, the dependency scan passes every entry and none of the names is
   * installed.
   */
  lemma FrameworkOrIedoPathNothing(cwd: string, iedoNames: Option<seq<string>>, fs: FileSystem)
    ensures var moduleDir := PathJoin(cwd, "node_modules");
      var pkgFile := PathJoin(cwd, "package.json");
      var names := iedoNames.GetOr(["iedo"]);
      FrameworkOrIedoPath(cwd, iedoNames, fs) == Success("") <==>
        || !Exists(fs, moduleDir)
        || (&& (!Exists(fs, pkgFile) || (ReadPackage(fs, pkgFile).Success? && ReadPackage(fs, pkgFile).value.framework == ""))
            && ReadDir(fs, moduleDir).Success?
            && (forall i :: 0 <= i < |fs.listings[moduleDir]| ==> Passed(moduleDir, fs.listings[moduleDir][i], names, fs))
            && (forall i :: 0 <= i < |names| ==> !Exists(fs, PackageFileOf(moduleDir, names[i]))))
  {
  }

  /**
   * When the application names no framework, the answer is the first
   * listed package that depends on one of the names, before any installed
   * package named after them.
   */
  lemma FrameworkOrIedoPathFirstDependent(cwd: string, iedoNames: Option<seq<string>>, fs: FileSystem, i: nat)
    requires var moduleDir := PathJoin(cwd, "node_modules");
      var pkgFile := PathJoin(cwd, "package.json");
      && Exists(fs, moduleDir)
      && (!Exists(fs, pkgFile) || (ReadPackage(fs, pkgFile).Success? && ReadPackage(fs, pkgFile).value.framework == ""))
      && ReadDir(fs, moduleDir).Success?
      && i < |fs.listings[moduleDir]|
      && Matches(moduleDir, fs.listings[moduleDir][i], iedoNames.GetOr(["iedo"]), fs)
      && (forall j :: 0 <= j < i ==> Passed(moduleDir, fs.listings[moduleDir][j], iedoNames.GetOr(["iedo"]), fs))
    ensures var moduleDir := PathJoin(cwd, "node_modules");
      FrameworkOrIedoPath(cwd, iedoNames, fs) == Success(PathJoin(moduleDir, fs.listings[moduleDir][i]))
  {
    var moduleDir := PathJoin(cwd, "node_modules");
    var entries := fs.listings[moduleDir];
    var names := iedoNames.GetOr(["iedo"]);
    var r := FirstDependent(moduleDir, entries, names, fs);
    assert r.Success? && r.value.Some?;
    var k :| 0 <= k < |entries| && r.value.value == PathJoin(moduleDir, entries[k]) &&
      Matches(moduleDir, entries[k], names, fs) &&
      forall j :: 0 <= j < k ==> Passed(moduleDir, entries[j], names, fs);
  }

  lemma {:induction false} FirstDependentUnder(moduleDir: string, entries: seq<string>, names: seq<string>, fs: FileSystem)
    requires FirstDependent(moduleDir, entries, names, fs).Success?
    ensures var r := FirstDependent(moduleDir, entries, names, fs).value;
      r.Some? ==> exists e :: e in entries && r.value == PathJoin(moduleDir, e)
  {
    if entries != [] && FirstDependent(moduleDir, entries[1..], names, fs).Success? {
      FirstDependentUnder(moduleDir, entries[1..], names, fs);
    }
  }

  lemma {:induction false} FirstInstalledUnder(moduleDir: string, names: seq<string>, fs: FileSystem)
    ensures var r := FirstInstalled(moduleDir, names, fs);
      r.Some? ==>
        exists n :: n in names && r.value == PathJoin(moduleDir, n) &&
          Exists(fs, PathJoin(PathJoin(moduleDir, n), "package.json"))
  {
    if names != [] {
      FirstInstalledUnder(moduleDir, names[1..], fs);
    }
  }
}
