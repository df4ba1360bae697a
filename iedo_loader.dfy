/**
 * The start of `IedoLoader`: the checks on its options, the package
 * descriptor, the server environment, the application information and
 * the server scope, in the order the constructor computes them. The
 * process environment, the OS home directory, the file system and the
 * content of `config/env` are parameters.
 */
module IedoLoader {
  import opened Wrappers
  import opened Strings
  import opened IedoUtils
  import opened Environment

  /**
   * The loader options the modelled code reads; `app` and `logger` only
   * matter through their presence.
   */
  datatype LoaderOptions = LoaderOptions(
    baseDir: string,
    serverScope: Option<string>,
    env: Option<string>,
    hasApp: bool,
    hasLogger: bool)

  /** `appInfo`; `scope` is the value `serverScope` has when it is read (unset: None). */
  datatype AppInfo = AppInfo(
    name: string,
    baseDir: string,
    env: string,
    scope: Option<string>,
    home: string,
    pkg: PackageJson,
    root: string)

  /** The loader's fields after its constructor. */
  datatype Loader = Loader(
    options: LoaderOptions,
    pkg: PackageJson,
    serverEnv: string,
    appInfo: AppInfo,
    serverScope: string)

  /**
   * The first non-empty source of the server environment, in precedence
   * order: the option, the trimmed `config/env` file, `EGG_SERVER_ENV`;
   * "" when there is none.
   */
  function EnvSource(optionsEnv: Option<string>, envFile: Option<string>, env: Env): string {
    if optionsEnv.Some? && optionsEnv.value != "" then optionsEnv.value
    else if envFile.Some? && Trim(envFile.value) != "" then Trim(envFile.value)
    else EnvText(env, "EGG_SERVER_ENV")
  }

  /** The environment used when no source names one, from `NODE_ENV`. */
  function DefaultServerEnv(nodeEnv: string): string {
    if nodeEnv == "test" then "unittest"
    else if nodeEnv == "production" then "prod"
    else "local"
  }

  /** The server environment: the trimmed source, or the `NODE_ENV` default when there is none. */
  function ServerEnv(optionsEnv: Option<string>, envFile: Option<string>, env: Env): string {
    var source := EnvSource(optionsEnv, envFile, env);
    if source == "" then DefaultServerEnv(EnvText(env, "NODE_ENV")) else Trim(source)
  }

  /**
   * `getServerEnv()`: one local reassigned by each source in turn;
   * `envFile` is the content of `baseDir/config/env` when that file exists.
   */
  method GetServerEnv(optionsEnv: Option<string>, envFile: Option<string>, env: Env) returns (serverEnv: string)
    ensures serverEnv == ServerEnv(optionsEnv, envFile, env)
  {
    var current := optionsEnv;
    if (current.None? || current.value == "") && envFile.Some? {
      current := Some(Trim(envFile.value));
    }
    if current.None? || current.value == "" {
      current := if "EGG_SERVER_ENV" in env then Some(env["EGG_SERVER_ENV"]) else None;
    }
    if current.None? || current.value == "" {
      var nodeEnv := if "NODE_ENV" in env then Some(env["NODE_ENV"]) else None;
      if nodeEnv == Some("test") {
        serverEnv := "unittest";
      } else if nodeEnv == Some("production") {
        serverEnv := "prod";
      } else {
        serverEnv := "local";
      }
    } else {
      serverEnv := Trim(current.value);
    }
  }

  /**
   * Precedence of the server environment: a non-empty option wins, then a
   * `config/env` file with non-blank content, then `EGG_SERVER_ENV`, and
   * only without any of them `NODE_ENV` decides.
   */
  lemma ServerEnvPrecedence(optionsEnv: Option<string>, envFile: Option<string>, env: Env)
    ensures optionsEnv.Some? && optionsEnv.value != "" ==>
      ServerEnv(optionsEnv, envFile, env) == Trim(optionsEnv.value)
    ensures (optionsEnv.None? || optionsEnv.value == "") && envFile.Some? && Trim(envFile.value) != "" ==>
      ServerEnv(optionsEnv, envFile, env) == Trim(envFile.value)
    ensures (optionsEnv.None? || optionsEnv.value == "") && (envFile.None? || Trim(envFile.value) == "") &&
            EnvText(env, "EGG_SERVER_ENV") != "" ==>
      ServerEnv(optionsEnv, envFile, env) == Trim(env["EGG_SERVER_ENV"])
    ensures (optionsEnv.None? || optionsEnv.value == "") && (envFile.None? || Trim(envFile.value) == "") &&
            EnvText(env, "EGG_SERVER_ENV") == "" ==>
      ServerEnv(optionsEnv, envFile, env) ==
        (if EnvText(env, "NODE_ENV") == "test" then "unittest"
         else if EnvText(env, "NODE_ENV") == "production" then "prod"
         else "local")
  {
    if (optionsEnv.None? || optionsEnv.value == "") && envFile.Some? && Trim(envFile.value) != "" {
      TrimIdempotent(envFile.value);
    }
  }

  /** The server environment is always trimmed, whichever source it came from. */
  lemma ServerEnvTrimmed(optionsEnv: Option<string>, envFile: Option<string>, env: Env)
    ensures Trim(ServerEnv(optionsEnv, envFile, env)) == ServerEnv(optionsEnv, envFile, env)
  {
    var source := EnvSource(optionsEnv, envFile, env);
    if source == "" {
      var r := DefaultServerEnv(EnvText(env, "NODE_ENV"));
      TrimStartNoop(r);
      TrimEndNoop(r);
    } else {
      TrimIdempotent(source);
    }
  }

  /** `getHomedir()`: `IEDO_HOME`, else the OS home, else "/home/admin". */
  function Homedir(env: Env, osHome: string): (home: string)
    ensures home != ""
    ensures EnvText(env, "IEDO_HOME") != "" ==> home == env["IEDO_HOME"]
    ensures EnvText(env, "IEDO_HOME") == "" && osHome != "" ==> home == osHome
    ensures EnvText(env, "IEDO_HOME") == "" && osHome == "" ==> home == "/home/admin"
  {
    if EnvText(env, "IEDO_HOME") != "" then env["IEDO_HOME"]
    else if osHome != "" then osHome
    else "/home/admin"
  }

  /** `getServerScope()`: `IEDO_SERVER_SCOPE`, else "". */
  function ServerScope(env: Env): (scope: string)
    ensures "IEDO_SERVER_SCOPE" in env ==> scope == env["IEDO_SERVER_SCOPE"]
    ensures "IEDO_SERVER_SCOPE" !in env ==> scope == ""
  {
    if "IEDO_SERVER_SCOPE" in env && env["IEDO_SERVER_SCOPE"] != "" then env["IEDO_SERVER_SCOPE"] else ""
  }

  /** `getAppname()`: the package name, or an error naming the descriptor. */
  function Appname(pkg: PackageJson, baseDir: string): (r: Result<string>)
    ensures r.Success? <==> pkg.name != ""
    ensures r.Success? ==> r.value == pkg.name
    ensures r.Failure? ==> r.error == "name is required from " + PathJoin(baseDir, "package.json")
  {
    if pkg.name != "" then Success(pkg.name)
    else Failure("name is required from " + PathJoin(baseDir, "package.json"))
  }

  /**
   * `getAppInfo()`, read while `serverScope` is still unset: the root is
   * the base directory in the "local" and "unittest" environments, the
   * home directory otherwise.
   */
  function GetAppInfo(pkg: PackageJson, baseDir: string, serverEnv: string, scope: Option<string>,
                      env: Env, osHome: string): (r: Result<AppInfo>)
    ensures r.Success? <==> pkg.name != ""
    ensures r.Success? ==>
      && r.value.name == pkg.name && r.value.baseDir == baseDir && r.value.env == serverEnv
      && r.value.scope == scope && r.value.pkg == pkg && r.value.home == Homedir(env, osHome)
      && r.value.root == (if serverEnv == "local" || serverEnv == "unittest" then baseDir else Homedir(env, osHome))
  {
    var home := Homedir(env, osHome);
    var name := Appname(pkg, baseDir);
    if name.Failure? then Failure(name.error)
    else
      Success(AppInfo(name.value, baseDir, serverEnv, scope, home, pkg,
                      if serverEnv == "local" || serverEnv == "unittest" then baseDir else home))
  }

  /**
   * The constructor: the three assertions on the options, the package
   * descriptor, the server environment, the application information and
   * finally the server scope, each failure surfacing as the error thrown.
   */
  method Load(options: LoaderOptions, fs: FileSystem, envFile: Option<string>, env: Env, osHome: string)
    returns (r: Result<Loader>)
    ensures !Exists(fs, options.baseDir) ==> r == Failure(" " + options.baseDir + " not exists")
    ensures Exists(fs, options.baseDir) && !options.hasApp ==> r == Failure("options.app is required")
    ensures Exists(fs, options.baseDir) && options.hasApp && !options.hasLogger ==>
      r == Failure("options.logger is required")
    ensures r.Success? ==>
      && Exists(fs, options.baseDir) && options.hasApp && options.hasLogger
      && ReadPackage(fs, PathJoin(options.baseDir, "package.json")) == Success(r.value.pkg)
      && r.value.options == options
      && r.value.serverEnv == ServerEnv(options.env, envFile, env)
      && GetAppInfo(r.value.pkg, options.baseDir, r.value.serverEnv, None, env, osHome) == Success(r.value.appInfo)
      && r.value.serverScope == (if options.serverScope.Some? then options.serverScope.value else ServerScope(env))
    ensures Exists(fs, options.baseDir) && options.hasApp && options.hasLogger ==>
      (r.Success? <==> ReadPackage(fs, PathJoin(options.baseDir, "package.json")).Success? &&
                       ReadPackage(fs, PathJoin(options.baseDir, "package.json")).value.name != "")
  {
    if !Exists(fs, options.baseDir) {
      return Failure(" " + options.baseDir + " not exists");
    }
    if !options.hasApp {
      return Failure("options.app is required");
    }
    if !options.hasLogger {
      return Failure("options.logger is required");
    }
    var pkg := ReadPackage(fs, PathJoin(options.baseDir, "package.json"));
    if pkg.Failure? {
      return Failure(pkg.error);
    }
    var serverEnv := GetServerEnv(options.env, envFile, env);
    var appInfo := GetAppInfo(pkg.value, options.baseDir, serverEnv, None, env, osHome);
    if appInfo.Failure? {
      return Failure(appInfo.error);
    }
    var serverScope := if options.serverScope.Some? then options.serverScope.value else ServerScope(env);
    r := Success(Loader(options, pkg.value, serverEnv, appInfo.value, serverScope));
  }

  /**
   * Because the application information is computed before the server
   * scope is assigned, a loaded application never carries a scope, and
   * its root follows the environment.
   */
  lemma LoadedScopeUnset(options: LoaderOptions, fs: FileSystem, envFile: Option<string>, env: Env,
                         osHome: string, loader: Loader)
    requires ReadPackage(fs, PathJoin(options.baseDir, "package.json")) == Success(loader.pkg)
    requires loader.serverEnv == ServerEnv(options.env, envFile, env)
    requires GetAppInfo(loader.pkg, options.baseDir, loader.serverEnv, None, env, osHome) == Success(loader.appInfo)
    ensures loader.appInfo.scope == None
    ensures loader.appInfo.root ==
      (if loader.serverEnv in {"local", "unittest"} then options.baseDir else Homedir(env, osHome))
    ensures loader.appInfo.name != ""
  {
  }
}
