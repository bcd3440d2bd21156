/** The process environment the services read their credentials from
  * (`os.environ` in Python, `Deno.env` in the edge functions). */
module Environment {

  type Env = map<string, string>

  /** `os.environ.get(name)` / `Deno.env.get(name)` is truthy: set and not empty. */
  predicate IsSet(env: Env, name: string)
  {
    name in env && env[name] != ""
  }
}
