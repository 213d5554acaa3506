/** The process environment (os.environ) as a map, read at the moment of each call. */
module Environ {
  import opened Text

  type Env = map<string, string>

  /** os.environ.get(key, default) */
  function Get(env: Env, key: string, default: string): string {
    if key in env then env[key] else default
  }

  /** The truth value of os.environ.get(key): set and not empty. */
  predicate IsSet(env: Env, key: string) {
    key in env && env[key] != ""
  }

  /** os.environ.get(key, "false").lower() == "true" */
  predicate FlagEnabled(env: Env, key: string): (b: bool)
    ensures b ==> key in env
    ensures key in env ==> (b <==> Lower(env[key]) == "true")
  {
    assert Lower("false") == "false";
    Lower(Get(env, key, "false")) == "true"
  }

  /** A feature flag is off when its variable is absent and on for any capitalisation of "true". */
  lemma FlagDefaults(env: Env, key: string)
    ensures key !in env ==> !FlagEnabled(env, key)
    ensures key in env && Lower(env[key]) == "true" ==> FlagEnabled(env, key)
    ensures FlagEnabled(env[key := "TRUE"], key) && FlagEnabled(env[key := "True"], key)
    ensures !FlagEnabled(env[key := ""], key) && !FlagEnabled(env[key := "1"], key)
  {
    assert Lower("false") == "false";
    assert Lower("TRUE") == "true";
    assert Lower("True") == "true";
    assert Lower("1") == "1";
  }
}
