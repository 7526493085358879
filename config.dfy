/** Configuration as `ConfigService.get<string>(key)` sees it: environment
    variables read at startup, `undefined` when unset. */
module Config {
  import opened Wrappers

  type Env = map<string, string>

  /** `configService.get<string>(key)`. */
  function Get(env: Env, key: string): (v: Option<string>)
    ensures v.Some? <==> key in env
    ensures v.Some? ==> v.value == env[key]
  {
    if key in env then Some(env[key]) else None
  }

  /** A value interpolated into a template literal: `${undefined}` reads "undefined". */
  function Interpolate(v: Option<string>): (s: string)
    ensures v.Some? ==> s == v.value
    ensures v.None? ==> s == "undefined"
  {
    match v
    case Some(x) => x
    case None => "undefined"
  }
}
