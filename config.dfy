/**
 * The application settings of `app/config.py`: each setting is an environment
 * lookup with an optional default, except that a PostgreSQL URL written with the
 * `postgres://` scheme is rewritten once to `postgresql://`.
 */
module Config {
  import opened Wrappers
  import opened Text

  /** The process environment after `.env` has been merged into it. */
  type Environment = map<string, string>

  const DEFAULT_SECRET_KEY := "dev-secret-key-change-in-production"
  const DEFAULT_MONGODB_URI := "mongodb://localhost:27017/"
  const DEFAULT_MONGODB_DB_NAME := "voicebot_analytics"
  const GROQ_MODEL := "llama-3.3-70b-versatile"
  /** 16 MB, the largest accepted request body. */
  const MAX_CONTENT_LENGTH: nat := 16 * 1024 * 1024

  const POSTGRES_SCHEME := "postgres://"
  const POSTGRESQL_SCHEME := "postgresql://"

  /** `os.getenv(key)`: the variable's value, or `None` when it is not set. */
  function GetEnv(env: Environment, key: string): (r: Option<string>)
    ensures r.Some? <==> key in env
    ensures key in env ==> r.value == env[key]
  {
    if key in env then Some(env[key]) else None
  }

  /** `os.getenv(key, default)`: a variable set to the empty string keeps that value. */
  function GetEnvOr(env: Environment, key: string, default: string): (r: string)
    ensures key in env ==> r == env[key]
    ensures key !in env ==> r == default
  {
    if key in env then env[key] else default
  }

  /** The rewrite of the `SQLALCHEMY_DATABASE_URI` setting (config.py lines 13-14). */
  function FixDatabaseUrl(uri: Option<string>): (r: Option<string>)
    ensures uri.Some? && StartsWith(uri.value, POSTGRES_SCHEME) ==>
      r == Some(POSTGRESQL_SCHEME + uri.value[|POSTGRES_SCHEME|..])
    ensures !(uri.Some? && StartsWith(uri.value, POSTGRES_SCHEME)) ==> r == uri
  {
    if Truthy(uri) && StartsWith(uri.value, POSTGRES_SCHEME) then
      Some(ReplaceFirst(uri.value, POSTGRES_SCHEME, POSTGRESQL_SCHEME))
    else
      uri
  }

  /** A rewritten URL no longer starts with `postgres://`, so rewriting twice changes nothing more. */
  lemma FixDatabaseUrlIdempotent(uri: Option<string>)
    ensures FixDatabaseUrl(FixDatabaseUrl(uri)) == FixDatabaseUrl(uri)
  {
    if uri.Some? && StartsWith(uri.value, POSTGRES_SCHEME) {
      var once := FixDatabaseUrl(uri).value;
      // the ninth character is 'q' in "postgresql://" but ':' in "postgres://"
      assert once[8] != POSTGRES_SCHEME[8];
    }
  }

  /** The attributes of class `Config`. */
  datatype Settings = Settings(
    secretKey: string,
    databaseUri: Option<string>,
    trackModifications: bool,
    mongodbUri: string,
    mongodbDbName: string,
    deepgramApiKey: Option<string>,
    groqApiKey: Option<string>,
    groqModel: string,
    maxContentLength: nat)

  /** The settings class `Config` derives when `app/config.py` is imported under `env`. */
  function FromEnvironment(env: Environment): (c: Settings)
    ensures "SECRET_KEY" !in env ==> c.secretKey == DEFAULT_SECRET_KEY
    ensures "SECRET_KEY" in env ==> c.secretKey == env["SECRET_KEY"]
    ensures "DATABASE_URL" !in env ==> c.databaseUri.None?
    ensures "DATABASE_URL" in env && StartsWith(env["DATABASE_URL"], POSTGRES_SCHEME) ==>
      c.databaseUri == Some(POSTGRESQL_SCHEME + env["DATABASE_URL"][|POSTGRES_SCHEME|..])
    ensures "DATABASE_URL" in env && !StartsWith(env["DATABASE_URL"], POSTGRES_SCHEME) ==>
      c.databaseUri == Some(env["DATABASE_URL"])
    ensures !c.trackModifications
    ensures "MONGODB_URI" !in env ==> c.mongodbUri == DEFAULT_MONGODB_URI
    ensures "MONGODB_URI" in env ==> c.mongodbUri == env["MONGODB_URI"]
    ensures "MONGODB_DB_NAME" !in env ==> c.mongodbDbName == DEFAULT_MONGODB_DB_NAME
    ensures "MONGODB_DB_NAME" in env ==> c.mongodbDbName == env["MONGODB_DB_NAME"]
    ensures c.deepgramApiKey == (if "DEEPGRAM_API_KEY" in env then Some(env["DEEPGRAM_API_KEY"]) else None)
    ensures c.groqApiKey == (if "GROQ_API_KEY" in env then Some(env["GROQ_API_KEY"]) else None)
    ensures c.groqModel == GROQ_MODEL
    ensures c.maxContentLength == 16777216
  {
    Settings(
      secretKey := GetEnvOr(env, "SECRET_KEY", DEFAULT_SECRET_KEY),
      databaseUri := FixDatabaseUrl(GetEnv(env, "DATABASE_URL")),
      trackModifications := false,
      mongodbUri := GetEnvOr(env, "MONGODB_URI", DEFAULT_MONGODB_URI),
      mongodbDbName := GetEnvOr(env, "MONGODB_DB_NAME", DEFAULT_MONGODB_DB_NAME),
      deepgramApiKey := GetEnv(env, "DEEPGRAM_API_KEY"),
      groqApiKey := GetEnv(env, "GROQ_API_KEY"),
      groqModel := GROQ_MODEL,
      maxContentLength := MAX_CONTENT_LENGTH)
  }
}
