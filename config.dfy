/** config/config.go: building the service configuration from the process
    environment. Reading the environment and the .env file is I/O; here the
    environment is a map from variable name to value, and a missing variable
    reads as "" as it does with os.Getenv. */
module Config {
  import opened Wrappers
  import opened Errors

  datatype Config = Config(
    httpPort: string,
    masterDSN: string,
    slaveDSNs: seq<string>,   // [] stands for Go's nil slice
    rabbitURL: string,
    redisAddr: string)

  const DefaultHTTPPort: string := ":8080"
  const DefaultRedisAddr: string := "localhost:6379"

  function Getenv(env: map<string, string>, key: string): (v: string)
    ensures key !in env ==> v == ""
  {
    if key in env then env[key] else ""
  }

  /** The HTTP listen address: the default when unset, otherwise the value
      with a ':' put in front unless it already has one. */
  function NormalizePort(port: string): (r: string)
    ensures |r| > 0 && r[0] == ':'
    ensures port == "" ==> r == DefaultHTTPPort
    ensures port != "" ==> |port| <= |r| <= |port| + 1 && r[|r| - |port|..] == port
    ensures port != "" ==> (r == port <==> port[0] == ':')
  {
    if port == "" then DefaultHTTPPort
    else if |port| > 0 && port[0] != ':' then ":" + port
    else port
  }

  /** NewConfig: the configuration and the error it returns, which is always nil. */
  function NewConfig(env: map<string, string>): (r: (Config, Option<Error>))
    ensures r.1 == None
    ensures r.0.httpPort == NormalizePort(Getenv(env, "HTTP_PORT"))
    ensures r.0.masterDSN == Getenv(env, "MASTER_DSN")
    ensures r.0.rabbitURL == Getenv(env, "RABBIT_URL")
    ensures r.0.redisAddr == (if Getenv(env, "REDIS_ADDR") == "" then DefaultRedisAddr else Getenv(env, "REDIS_ADDR"))
    ensures r.0.slaveDSNs == []
  {
    var cfg := Config("", "", [], "", "");
    var httpPort := Getenv(env, "HTTP_PORT");
    var cfg := cfg.(httpPort := NormalizePort(httpPort));
    var masterDSN := Getenv(env, "MASTER_DSN");
    var cfg := if masterDSN != "" then cfg.(masterDSN := masterDSN) else cfg;
    // SLAVE_DSN is read into a local slice that is never stored in cfg.
    var slaveDSNs := [] + [Getenv(env, "SLAVE_DSN")];
    var rabbitURL := Getenv(env, "RABBIT_URL");
    var cfg := if rabbitURL != "" then cfg.(rabbitURL := rabbitURL) else cfg;
    var redisAddr := Getenv(env, "REDIS_ADDR");
    var cfg := if redisAddr != "" then cfg.(redisAddr := redisAddr) else cfg.(redisAddr := DefaultRedisAddr);
    (cfg, None)
  }

  /** A port already normalised is left as it is. */
  lemma NormalizePortIdempotent(port: string)
    ensures NormalizePort(NormalizePort(port)) == NormalizePort(port)
  {
  }

  /** The three cases of the port normalisation. */
  lemma NormalizePortCases(port: string)
    ensures port == "" ==> NormalizePort(port) == ":8080"
    ensures port != "" && port[0] != ':' ==> NormalizePort(port) == ":" + port
    ensures port != "" && port[0] == ':' ==> NormalizePort(port) == port
  {
  }

  /** The resulting configuration always has a usable listen address and a
      Redis address, and never any replica DSNs. */
  lemma NewConfigWellFormed(env: map<string, string>)
    ensures var cfg := NewConfig(env).0;
      && |cfg.httpPort| > 0 && cfg.httpPort[0] == ':'
      && NormalizePort(cfg.httpPort) == cfg.httpPort
      && cfg.redisAddr != ""
      && cfg.slaveDSNs == []
  {
  }

  /** SLAVE_DSN has no effect on the configuration. */
  lemma SlaveDsnIgnored(env: map<string, string>, value: string)
    ensures NewConfig(env[("SLAVE_DSN") := value]) == NewConfig(env)
  {
  }

  /** An unset MASTER_DSN or RABBIT_URL leaves the field empty; an unset
      REDIS_ADDR falls back to the local default. */
  lemma UnsetVariables(env: map<string, string>)
    requires "MASTER_DSN" !in env && "RABBIT_URL" !in env && "REDIS_ADDR" !in env && "HTTP_PORT" !in env
    ensures NewConfig(env).0 == Config(":8080", "", [], "", "localhost:6379")
  {
  }
}
