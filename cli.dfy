/**
 `from_env_or_required`, the one decision in the programs' command-line
 wiring: an option takes its default from a non-empty environment variable
 and is mandatory otherwise. Both programs carry identical copies.
 */
module Cli {
  import opened Options

  /** The keyword arguments handed to `add_argument`. */
  datatype ArgSpec = Default(value: string) | Required

  /** `os.environ.get(key)` is truthy: the variable is set and not empty. */
  predicate EnvSet(env: map<string, string>, key: string) {
    key in env && env[key] != ""
  }

  function FromEnvOrRequired(env: map<string, string>, key: string): (spec: ArgSpec)
    ensures spec.Default? <==> EnvSet(env, key)
    ensures spec.Default? ==> spec.value == env[key]
  {
    if EnvSet(env, key) then Default(env[key]) else Required
  }

  /**
   What the argument parser makes of an option declared with `spec` when the
   command line supplies `given`: the command-line value wins, then the
   default; a required option left out is a usage error (`None`).
   */
  function Resolve(spec: ArgSpec, given: Option<string>): Option<string> {
    match given
    case Some(v) => Some(v)
    case None => if spec.Default? then Some(spec.value) else None
  }

  /** An option declared this way is satisfied by the command line or by the environment, in that order. */
  lemma ResolveFromEnv(env: map<string, string>, key: string, given: Option<string>)
    ensures Resolve(FromEnvOrRequired(env, key), given) ==
      if given.Some? then given
      else if EnvSet(env, key) then Some(env[key])
      else None
  {
  }
}
