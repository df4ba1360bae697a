/**
 * The cluster master's option normalisation. The options are a plain JS
 * object; the host facts the code reads (the working directories, the CPU
 * count, the file system, what each framework module exports and
 * `process.execArgv`) are parameters. Each rewriting rule is a function;
 * `ParseOptions` applies them field by field in the code's order.
 */
module ClusterOptions {
  import opened Wrappers
  import opened Strings
  import opened JsValues
  import opened JsObjects
  import opened IedoUtils

  /** The facts `parseOptions` reads from its process. */
  datatype Host = Host(
    cwd: string,
    initCwd: string,
    cpus: nat,
    fs: FileSystem,
    /** Framework paths whose module exports `Application`. */
    applications: set<string>,
    /** Framework paths whose module exports `Agent`. */
    agents: set<string>,
    execArgv: seq<string>)

  /** The defaults object; the port default depends on the given `https`. */
  function Defaults(given: Object, cwd: string): Object {
    map["framework" := Str(""), "baseDir" := Str(cwd),
        "port" := if Truthy(Get(given, "https")) then Num(Fin(8443)) else Null,
        "workers" := Null, "plugins" := Null, "https" := Bool(false)]
  }

  /** A falsy `workers` is replaced by the CPU count. */
  function WorkersRule(workers: JsValue, cpus: nat): JsValue {
    if Truthy(workers) then workers else Num(Fin(cpus))
  }

  /** `options.framework || options.customIedo` as the name `getFrameworkPath` receives. */
  function FrameworkName(options: Object): Result<string> {
    var v := if Truthy(Get(options, "framework")) then Get(options, "framework") else Get(options, "customIedo");
    if !Truthy(v) then Success("")
    else if v.Str? then Success(v.s)
    else Failure("The \"path\" argument must be of type string")
  }

  /** `https: true` becomes `{key, cert}` from the top-level options; anything else is kept. */
  function HttpsRule(options: Object): JsValue {
    var https := Get(options, "https");
    if https == Bool(true) then Obj(map["key" := Get(options, "key"), "cert" := Get(options, "cert")])
    else https
  }

  /** `existsSync(p)`: false for anything but an existing path text. */
  predicate ExistsValue(fs: FileSystem, p: JsValue) {
    p.Str? && p.s in fs.existing
  }

  /** The three assertions on a truthy `https` object. */
  function HttpsCheck(https: JsValue, fs: FileSystem): Option<string> {
    var key := Prop(https, "key");
    var cert := Prop(https, "cert");
    var ca := Prop(https, "ca");
    if !(Truthy(key) && ExistsValue(fs, key)) then Some("options.https.key should exists")
    else if !(Truthy(cert) && ExistsValue(fs, cert)) then Some("options.https.cert should exists")
    else if !(!Truthy(ca) || ExistsValue(fs, ca)) then Some("options.https.ca should exists")
    else None
  }

  /** `Number.parseInt(`${v}`, 10) || undefined`. */
  function IntRule(v: JsValue): JsValue {
    match ParseInt(ToText(v))
    case None => Undefined
    case Some(n) => if n == 0 then Undefined else Num(Fin(n))
  }

  /** Undefined, or a non-zero integer. */
  predicate NonZeroOrUndefined(v: JsValue) {
    v == Undefined || (v.Num? && v.x.Fin? && v.x.n != 0)
  }

  /** `[].concat(v)`: a list is kept element for element, anything else becomes a one-element list. */
  function RequireRule(v: JsValue): JsValue {
    if v.List? then v else List([v])
  }

  /** Whether some exec argument contains `--inspect` or `--debug`. */
  predicate DebugArg(arg: string) {
    Contains(arg, "--inspect") || Contains(arg, "--debug")
  }

  function AnyDebugArg(args: seq<string>): bool {
    if args == [] then false
    else DebugArg(args[0]) || AnyDebugArg(args[1..])
  }

  /** `isDebug` is forced exactly when some exec argument mentions `--inspect` or `--debug`. */
  lemma {:induction false} AnyDebugArgMeans(args: seq<string>)
    ensures AnyDebugArg(args) <==> exists i :: 0 <= i < |args| && DebugArg(args[i])
  {
    if args != [] {
      AnyDebugArgMeans(args[1..]);
      if !DebugArg(args[0]) && AnyDebugArg(args) {
        var i :| 0 <= i < |args[1..]| && DebugArg(args[1..][i]);
        assert DebugArg(args[i + 1]);
      }
      if exists i :: 0 <= i < |args| && DebugArg(args[i]) {
        var i :| 0 <= i < |args| && DebugArg(args[i]);
        if i > 0 {
          assert DebugArg(args[1..][i - 1]);
        }
      }
    }
  }

  /** The integer rule keeps a non-zero integer, in number or in text form, and drops 0: parse inverts printing. */
  lemma IntRuleOfInteger(n: int)
    ensures IntRule(Num(Fin(n))) == if n == 0 then Undefined else Num(Fin(n))
    ensures IntRule(Str(IntToString(n))) == if n == 0 then Undefined else Num(Fin(n))
  {
    ParseIntOfText(n);
    assert ToText(Num(Fin(n))) == IntToString(n);
    assert ToText(Str(IntToString(n))) == IntToString(n);
  }

  /** Whatever the value, the integer rule yields undefined or a non-zero integer. */
  lemma IntRuleRange(v: JsValue)
    ensures NonZeroOrUndefined(IntRule(v))
  {
  }

  /** null and undefined print as words, which parse to NaN: both become undefined. */
  lemma IntRuleNullish(v: JsValue)
    requires IsNullish(v)
    ensures IntRule(v) == Undefined
  {
    var text := ToText(v);
    assert text[0] == (if v == Null then 'n' else 'u');
    ParseIntNaN(text);
  }

  /** A merged option is the given one when that is not nullish, and the default otherwise. */
  lemma MergedOption(given: Object, cwd: string, k: string)
    ensures Get(Overlay(Defaults(given, cwd), given), k) ==
      if Copies(given, k) then given[k] else Get(Defaults(given, cwd), k)
  {
    OverlayProps(Defaults(given, cwd), given);
  }

  /**
   * The resulting port: a given non-zero integer is kept; without a given
   * port it is 8443 when `https` is truthy and undefined otherwise.
   */
  lemma PortOutcome(given: Object, cwd: string)
    ensures IsNullish(Get(given, "port")) ==>
      IntRule(Get(Overlay(Defaults(given, cwd), given), "port")) ==
        if Truthy(Get(given, "https")) then Num(Fin(8443)) else Undefined
    ensures forall n :: n != 0 && Get(given, "port") == Num(Fin(n)) ==>
      IntRule(Get(Overlay(Defaults(given, cwd), given), "port")) == Num(Fin(n))
  {
    var port := Get(Overlay(Defaults(given, cwd), given), "port");
    MergedOption(given, cwd, "port");
    if IsNullish(Get(given, "port")) {
      assert port == Get(Defaults(given, cwd), "port");
      if Truthy(Get(given, "https")) {
        IntRuleOfInteger(8443);
      } else {
        IntRuleNullish(port);
      }
    } else if port.Num? && port.x.Fin? {
      IntRuleOfInteger(port.x.n);
    }
  }

  /**
   * The resulting worker count: a given non-zero integer is kept; a falsy
   * one becomes the CPU count, or undefined on a host reporting no CPU.
   */
  lemma WorkersOutcome(workers: JsValue, cpus: nat)
    ensures !Truthy(workers) ==> IntRule(WorkersRule(workers, cpus)) == if cpus == 0 then Undefined else Num(Fin(cpus))
    ensures forall n :: n != 0 && workers == Num(Fin(n)) ==> IntRule(WorkersRule(workers, cpus)) == Num(Fin(n))
  {
    IntRuleOfInteger(cpus);
    if workers.Num? && workers.x.Fin? {
      IntRuleOfInteger(workers.x.n);
    }
  }

  /** `require`: a list keeps its elements, a single value becomes the list of it. */
  lemma RequireOutcome(v: JsValue)
    ensures RequireRule(v).List?
    ensures v.List? ==> RequireRule(v).items == v.items
    ensures !v.List? ==> RequireRule(v).items == [v]
  {
  }

  /**
   * Whether every assertion of `parseOptions` holds: `baseDir` is a path
   * text with a package.json, the framework name is a text that
   * `getFrameworkPath` resolves, the framework exports `Application` and
   * `Agent`, and a truthy `https` passes its three checks.
   */
  predicate Accepted(merged: Object, host: Host) {
    var baseDir := Get(merged, "baseDir");
    && baseDir.Str? && PathJoin(baseDir.s, "package.json") in host.fs.existing
    && FrameworkName(merged).Success?
    && var framework := GetFrameworkPath(FrameworkName(merged).value, baseDir.s, host.cwd, host.initCwd, host.fs);
    && framework.Success? && framework.value in host.applications && framework.value in host.agents
    && (Truthy(HttpsRule(merged)) ==> HttpsCheck(HttpsRule(merged), host.fs).None?)
  }

  /**
   * The message of the first assertion of `parseOptions` that fails, in the
   * code's order, or None when all of them hold. A `baseDir` that is not a
   * text fails in `join` with its TypeError.
   */
  function Rejection(merged: Object, host: Host): Option<string> {
    var baseDir := Get(merged, "baseDir");
    if !baseDir.Str? then Some("The \"path\" argument must be of type string")
    else
      var pkgPath := PathJoin(baseDir.s, "package.json");
      if pkgPath !in host.fs.existing then Some(pkgPath + " should exist")
      else match FrameworkName(merged)
        case Failure(e) => Some(e)
        case Success(name) =>
          match GetFrameworkPath(name, baseDir.s, host.cwd, host.initCwd, host.fs)
          case Failure(e) => Some(e)
          case Success(framework) =>
            if framework !in host.applications then Some("should define Application in " + framework)
            else if framework !in host.agents then Some("should define Agent in " + framework)
            else if Truthy(Get(merged, "https")) then HttpsCheck(HttpsRule(merged), host.fs)
            else None
  }

  /** Some assertion fails exactly when not all of them hold. */
  lemma RejectionAccepted(merged: Object, host: Host)
    ensures Rejection(merged, host).None? <==> Accepted(merged, host)
  {
    assert Truthy(Get(merged, "https")) <==> Truthy(HttpsRule(merged));
  }

  /**
   * What `parseOptions` promises about its result `r`, given the options
   * `merged` after the defaults were extended: on success the framework
   * was resolved and exports both classes, every rewritten key follows its
   * rule and every other key is kept. It succeeds exactly when every
   * assertion holds, and a failure carries the first failing assertion's
   * message.
   */
  ghost predicate Outcome(merged: Object, host: Host, r: Result<Object>) {
    var baseDir := Get(merged, "baseDir");
    var workers := WorkersRule(Get(merged, "workers"), host.cpus);
    && (r.Success? ==>
        && baseDir.Str? && PathJoin(baseDir.s, "package.json") in host.fs.existing
        && FrameworkName(merged).Success?
        && GetFrameworkPath(FrameworkName(merged).value, baseDir.s, host.cwd, host.initCwd, host.fs).Success?
        && var framework := GetFrameworkPath(FrameworkName(merged).value, baseDir.s, host.cwd, host.initCwd, host.fs).value;
        && Get(r.value, "framework") == Str(framework)
        && framework in host.fs.existing && framework in host.applications && framework in host.agents
        && Get(r.value, "port") == IntRule(Get(merged, "port"))
        && Get(r.value, "workers") == IntRule(workers)
        && Get(r.value, "https") == HttpsRule(merged)
        && (Truthy(HttpsRule(merged)) ==> HttpsCheck(HttpsRule(merged), host.fs).None?)
        && Get(r.value, "require") == (if Truthy(Get(merged, "require")) then RequireRule(Get(merged, "require"))
                                       else Get(merged, "require"))
        && Get(r.value, "isDebug") == (if AnyDebugArg(host.execArgv) then Bool(true) else Get(merged, "isDebug"))
        && forall k :: k !in RewrittenKeys ==> Get(r.value, k) == Get(merged, k))
    && (baseDir.Str? && PathJoin(baseDir.s, "package.json") !in host.fs.existing ==> r.Failure?)
    && (Truthy(HttpsRule(merged)) && HttpsCheck(HttpsRule(merged), host.fs).Some? ==> r.Failure?)
    && (r.Success? <==> Accepted(merged, host))
    && (r.Failure? ==> Rejection(merged, host) == Some(r.error))
  }

  /** `parseOptions`: extend the defaults with the given options, then normalise field by field. */
  method ParseOptions(given: Object, host: Host) returns (r: Result<Object>)
    ensures Outcome(Overlay(Defaults(given, host.cwd), given), host, r)
  {
    var merged := MergeDefaults(given, host.cwd);
    r := Normalize(merged, host);
  }

  /**
   * The rewrites after the merge, in the code's order: the assertions and
   * the `workers`, `framework` and `https` rewrites, then `port`,
   * `workers`, `require` and `isDebug`.
   */
  method Normalize(merged: Object, host: Host) returns (r: Result<Object>)
    ensures Outcome(merged, host, r)
  {
    var checked := Check(merged, host);
    if checked.Failure? {
      return Failure(checked.error);
    }
    var options := Finish(checked.value, AnyDebugArg(host.execArgv));
    return Success(options);
  }

  /**
   * Up to the https assertions: a falsy `workers` becomes the CPU count,
   * the framework is resolved and must export `Application` and `Agent`,
   * `https: true` becomes `{key, cert}` and the https files must exist.
   * It fails exactly when an assertion does, with that assertion's message.
   */
  method Check(merged: Object, host: Host) returns (r: Result<Object>)
    ensures var baseDir := Get(merged, "baseDir");
      r.Success? ==>
        && baseDir.Str? && PathJoin(baseDir.s, "package.json") in host.fs.existing
        && FrameworkName(merged).Success?
        && GetFrameworkPath(FrameworkName(merged).value, baseDir.s, host.cwd, host.initCwd, host.fs).Success?
        && var framework := GetFrameworkPath(FrameworkName(merged).value, baseDir.s, host.cwd, host.initCwd, host.fs).value;
        && Get(r.value, "framework") == Str(framework)
        && framework in host.fs.existing && framework in host.applications && framework in host.agents
        && Get(r.value, "workers") == WorkersRule(Get(merged, "workers"), host.cpus)
        && Get(r.value, "https") == HttpsRule(merged)
        && (Truthy(HttpsRule(merged)) ==> HttpsCheck(HttpsRule(merged), host.fs).None?)
        && forall k :: k !in {"framework", "workers", "https"} ==> Get(r.value, k) == Get(merged, k)
    ensures var baseDir := Get(merged, "baseDir");
      baseDir.Str? && PathJoin(baseDir.s, "package.json") !in host.fs.existing ==> r.Failure?
    ensures Truthy(HttpsRule(merged)) && HttpsCheck(HttpsRule(merged), host.fs).Some? ==> r.Failure?
    ensures r.Success? <==> Accepted(merged, host)
    ensures r.Failure? ==> Rejection(merged, host) == Some(r.error)
  {
    RejectionAccepted(merged, host);
    var options := merged;
    if !Truthy(Get(options, "workers")) {
      options := options["workers" := Num(Fin(host.cpus))];
    }
    var baseDir := Get(options, "baseDir");
    if !baseDir.Str? {
      return Failure("The \"path\" argument must be of type string");
    }
    var pkgPath := PathJoin(baseDir.s, "package.json");
    if pkgPath !in host.fs.existing {
      return Failure(pkgPath + " should exist");
    }
    var name := FrameworkName(options);
    if name.Failure? {
      return Failure(name.error);
    }
    var framework := GetFrameworkPath(name.value, baseDir.s, host.cwd, host.initCwd, host.fs);
    if framework.Failure? {
      return Failure(framework.error);
    }
    options := options["framework" := Str(framework.value)];
    if framework.value !in host.applications {
      return Failure("should define Application in " + framework.value);
    }
    if framework.value !in host.agents {
      return Failure("should define Agent in " + framework.value);
    }
    if Truthy(Get(options, "https")) {
      if Get(options, "https").Bool? {
        options := options["https" := Obj(map["key" := Get(options, "key"), "cert" := Get(options, "cert")])];
      }
      var problem := HttpsCheck(Get(options, "https"), host.fs);
      if problem.Some? {
        return Failure(problem.value);
      }
    }
    return Success(options);
  }

  /** `extend({defaults}, options)` on a fresh defaults object. */
  method MergeDefaults(given: Object, cwd: string) returns (merged: Object)
    ensures merged == Overlay(Defaults(given, cwd), given)
  {
    var target := new JsObject(Defaults(given, cwd));
    var extended := Extend(target, given);
    merged := extended.props;
  }

  /** The last rewrites: `port` and `workers` as integers, `require` as a list, `isDebug` from the exec arguments. */
  method Finish(options: Object, debug: bool) returns (r: Object)
    ensures Get(r, "port") == IntRule(Get(options, "port"))
    ensures Get(r, "workers") == IntRule(Get(options, "workers"))
    ensures Get(r, "require") == if Truthy(Get(options, "require")) then RequireRule(Get(options, "require"))
                                  else Get(options, "require")
    ensures Get(r, "isDebug") == if debug then Bool(true) else Get(options, "isDebug")
    ensures forall k :: k != "port" && k != "workers" && k != "require" && k != "isDebug" ==> Get(r, k) == Get(options, k)
  {
    var port := IntRule(Get(options, "port"));
    var workers := IntRule(Get(options, "workers"));
    r := Rewrite(options, port, workers, debug);
  }

  /** The assignments of `Finish`, once the two integers are computed. */
  method Rewrite(options: Object, port: JsValue, workers: JsValue, debug: bool) returns (r: Object)
    ensures Get(r, "port") == port && Get(r, "workers") == workers
    ensures Get(r, "require") == if Truthy(Get(options, "require")) then RequireRule(Get(options, "require"))
                                  else Get(options, "require")
    ensures Get(r, "isDebug") == if debug then Bool(true) else Get(options, "isDebug")
    ensures forall k :: k != "port" && k != "workers" && k != "require" && k != "isDebug" ==> Get(r, k) == Get(options, k)
  {
    r := options["port" := port];
    r := r["workers" := workers];
    if Truthy(Get(r, "require")) {
      r := r["require" := RequireRule(Get(r, "require"))];
    }
    if debug {
      r := r["isDebug" := Bool(true)];
    }
  }

  /** The keys `parseOptions` rewrites after the merge. */
  const RewrittenKeys: set<string> := {"framework", "port", "workers", "https", "require", "isDebug"}
}
