/** Typed lookups in the process environment, given here as an explicit map
    from variable names to values. */
module ConfigLoader {
  import opened Text
  import opened Outcomes

  type Env = map<string, string>

  /** The values `get_bool` reads as true, after lower-casing. */
  const TrueWords: seq<string> := ["true", "1", "yes", "on"]

  /** `get(key, default)`: the variable's value when it is set. */
  function Get(env: Env, key: string, default: Option<string>): (r: Option<string>)
    ensures r.Some? <==> key in env || default.Some?
    ensures key in env ==> r == Some(env[key])
    ensures key !in env ==> r == default
  {
    if key in env then Some(env[key]) else default
  }

  /** `get_int(key, default)`: the variable parsed as an integer; the default
      when it is unset or does not parse. */
  function GetInt(env: Env, key: string, default: Option<int>): (r: Option<int>)
    ensures key !in env ==> r == default
    ensures key in env && ParseInt(env[key]).Some? ==> r == ParseInt(env[key])
    ensures key in env && ParseInt(env[key]) == None ==> r == default
  {
    if key !in env then default
    else match ParseInt(env[key])
      case Some(n) => Some(n)
      case None => default
  }

  /** `str(b)` for a boolean. */
  function BoolText(b: bool): string {
    if b then "True" else "False"
  }

  /** `get_bool(key, default)`: whether the variable, or `str(default)` when
      it is unset, lower-cases to one of the true words. So a set variable is
      true exactly when it lower-cases to "true", "1", "yes" or "on", and an
      unset one gives the default back. */
  function GetBool(env: Env, key: string, default: bool): (r: bool)
    ensures key in env ==> (r <==> Lower(env[key]) in {"true", "1", "yes", "on"})
    ensures key !in env ==> r == default
  {
    assert Lower("True") == "true";
    assert Lower("False") == "false";
    Lower(if key in env then env[key] else BoolText(default)) in TrueWords
  }

  /** Writing an integer into the environment and reading it back gives the
      integer, whatever the default. */
  lemma GetIntRoundTrip(env: Env, key: string, n: int, default: Option<int>)
    ensures GetInt(env[key := IntToString(n)], key, default) == Some(n)
  {
    ParseIntRoundTrip(n);
  }
}
