/** `process.env` as a value: variable name to value, with the three ways the code reads it. */
module Environment {
  type Env = map<string, string>

  /** `process.env[name]` as a truthy test: set and non-empty. */
  predicate EnvSet(env: Env, name: string) {
    name in env && env[name] != ""
  }

  /** `process.env[name] === value`. */
  predicate EnvIs(env: Env, name: string, value: string) {
    name in env && env[name] == value
  }

  /** `process.env[name]` where only its text matters: "" when unset. */
  function EnvText(env: Env, name: string): (text: string)
    ensures text != "" <==> EnvSet(env, name)
    ensures EnvSet(env, name) ==> text == env[name]
  {
    if name in env then env[name] else ""
  }
}
