/** Reading the process environment, given as a map from variable name to value. */
module Env {
  /** `std::env::var(name).unwrap_or_else(|_| default)`: the variable's value when
      it is set, else the default. */
  function EnvOr(env: map<string, string>, name: string, default: string): (v: string)
    ensures name in env ==> v == env[name]
    ensures name !in env ==> v == default
  {
    if name in env then env[name] else default
  }
}
