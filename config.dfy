/** The settings records with their defaults, and the server settings read
    from the environment. */
module Config {
  import opened Text
  import opened Outcomes
  import opened ConfigLoader

  datatype ChunkingConfig = ChunkingConfig(chunkSize: int, chunkOverlap: int)
  datatype RetrievalConfig = RetrievalConfig(k: int, similarityThreshold: real)
  datatype ApiConfig = ApiConfig(host: string, port: int, debug: bool)
  datatype ModelConfig = ModelConfig(modelName: string, embeddingDim: int)

  const DefaultChunking := ChunkingConfig(500, 50)
  const DefaultRetrieval := RetrievalConfig(5, 0.5)
  const DefaultHost := "0.0.0.0"
  const DefaultPortText := "7860"
  const DefaultApi := ApiConfig(DefaultHost, 7860, false)
  const DefaultModel := ModelConfig("sentence-transformers/all-MiniLM-L6-v2", 384)

  /** `os.getenv(key, default)` with a default that is always a string. */
  function EnvOr(env: Env, key: string, default: string): string {
    if key in env then env[key] else default
  }

  /** The `ValueError` `int()` raises for text it cannot read. */
  function IntError(text: string): Exception {
    ValueError("invalid literal for int() with base 10: '" + text + "'")
  }

  /** `APIConfig.from_env()`: the host verbatim, the port through `int()`
      (which raises on bad text), and debug on only for "true" in any case. */
  function ApiFromEnv(env: Env): (r: Outcome<ApiConfig>)
    ensures r.Ok? <==> ParseInt(EnvOr(env, "API_PORT", DefaultPortText)).Some?
    ensures r.Raised? ==> r.error == IntError(EnvOr(env, "API_PORT", DefaultPortText))
    ensures r.Ok? ==>
      && r.value.host == EnvOr(env, "API_HOST", DefaultHost)
      && Some(r.value.port) == ParseInt(EnvOr(env, "API_PORT", DefaultPortText))
      && (r.value.debug <==> "DEBUG" in env && Lower(env["DEBUG"]) == "true")
  {
    LowerWords();
    var portText := EnvOr(env, "API_PORT", DefaultPortText);
    match ParseInt(portText)
    case None => Raised(IntError(portText))
    case Some(port) =>
      Ok(ApiConfig(EnvOr(env, "API_HOST", DefaultHost), port, Lower(EnvOr(env, "DEBUG", "false")) == "true"))
  }

  /** With none of its variables set, `from_env` gives the defaults. */
  lemma FromEnvDefaults(env: Env)
    requires "API_HOST" !in env && "API_PORT" !in env && "DEBUG" !in env
    ensures ApiFromEnv(env) == Ok(DefaultApi)
  {
    DefaultPortParses();
    LowerWords();
  }

  /** `int("7860")` is 7860. */
  lemma DefaultPortParses()
    ensures ParseInt(DefaultPortText) == Some(7860)
  {
    DefaultPortDigits();
    ParseIntRoundTrip(7860);
  }

  /** The default port's text is `str(7860)`. */
  lemma DefaultPortDigits()
    ensures IntToString(7860) == DefaultPortText
  {
    assert NatToString(7) == "7";
    assert NatToString(78) == NatToString(7) + [DigitChar(8)] == "78";
    assert NatToString(786) == NatToString(78) + [DigitChar(6)] == "786";
    assert NatToString(7860) == NatToString(786) + [DigitChar(0)] == "7860";
  }

  /** What `from_env` reads: the host verbatim; the port exactly when it
      parses, and a `ValueError` with no fallback otherwise; debug exactly
      when the variable lower-cases to "true", so "1" and "yes" leave it off. */
  lemma FromEnvReads(env: Env)
    ensures ApiFromEnv(env).Ok? <==> ParseInt(EnvOr(env, "API_PORT", DefaultPortText)).Some?
    ensures "API_PORT" in env && ParseInt(env["API_PORT"]) == None ==>
      ApiFromEnv(env) == Raised(IntError(env["API_PORT"]))
    ensures ApiFromEnv(env).Ok? ==>
      && ApiFromEnv(env).value.host == EnvOr(env, "API_HOST", DefaultHost)
      && Some(ApiFromEnv(env).value.port) == ParseInt(EnvOr(env, "API_PORT", DefaultPortText))
      && (ApiFromEnv(env).value.debug <==> "DEBUG" in env && Lower(env["DEBUG"]) == "true")
    ensures ApiFromEnv(env).Ok? && "DEBUG" in env && env["DEBUG"] in {"1", "yes", "on"} ==>
      !ApiFromEnv(env).value.debug
  {
    LowerWords();
  }

  /** `from_env` and `get_bool` disagree: "1", "yes" and "on" are true to
      `get_bool` but leave `from_env`'s debug off. */
  lemma DebugStricterThanGetBool(env: Env)
    requires "DEBUG" in env && env["DEBUG"] in {"1", "yes", "on"}
    requires ApiFromEnv(env).Ok?
    ensures GetBool(env, "DEBUG", false) && !ApiFromEnv(env).value.debug
  {
    FromEnvReads(env);
    LowerWords();
  }

  /** The words the debug switch and `get_bool` compare against are already
      lower-case. */
  lemma LowerWords()
    ensures Lower("false") == "false" && Lower("1") == "1"
    ensures Lower("yes") == "yes" && Lower("on") == "on"
  {
    LowerFixed("false");
    LowerFixed("1");
    LowerFixed("yes");
    LowerFixed("on");
  }
}
