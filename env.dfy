/** Environment lookups (internal/config/env.go). The process environment
    is a map; `os.Getenv` reads "" for a key that is not set. */
module Config {
  import opened Go

  type Environment = map<string, string>

  /** `os.Getenv`. */
  function Getenv(env: Environment, key: string): string
  {
    if key in env then env[key] else ""
  }

  /** `GetEnv`: the stored value, or `fallback` when the key is unset or
      empty. */
  function GetEnv(env: Environment, key: string, fallback: string): (v: string)
    ensures (key !in env || env[key] == "") ==> v == fallback
    ensures key in env && env[key] != "" ==> v == env[key]
  {
    var value := Getenv(env, key);
    if value == "" then fallback else value
  }

  const RequiredMessage: string := "Variable d'environnement requise : "

  /** `RequireEnv`: the stored value, or a panic naming the key when the key
      is unset or empty. */
  function RequireEnv(env: Environment, key: string): (r: Run<string>)
    ensures r.Panicked? <==> key !in env || env[key] == ""
    ensures r.Panicked? ==> r.message == RequiredMessage + key
    ensures r.Returned? ==> r.value == env[key] && r.value != ""
  {
    var value := Getenv(env, key);
    if value == "" then Panicked(RequiredMessage + key) else Returned(value)
  }

  /** When `RequireEnv` succeeds, it agrees with `GetEnv` for any fallback. */
  lemma RequireAgreesWithGetEnv(env: Environment, key: string, fallback: string)
    requires RequireEnv(env, key).Returned?
    ensures RequireEnv(env, key).value == GetEnv(env, key, fallback)
  {
  }

  /** An unset key and a key set to "" are indistinguishable to both
      functions. */
  lemma UnsetIsEmpty(env: Environment, key: string, fallback: string)
    ensures GetEnv(env - {key}, key, fallback) == GetEnv(env[key := ""], key, fallback) == fallback
    ensures RequireEnv(env - {key}, key) == RequireEnv(env[key := ""], key)
  {
  }

  /** The panic message ends with the key it names. */
  lemma PanicNamesKey(env: Environment, key: string)
    requires RequireEnv(env, key).Panicked?
    ensures var m := RequireEnv(env, key).message;
            |m| >= |key| && m[|m| - |key|..] == key
  {
  }
}
