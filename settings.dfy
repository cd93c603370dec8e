/**
 * Process configuration read from the environment and the health endpoint
 * that reports whether the speech credentials are present.
 */
module Settings {

  /** The environment as os.Getenv sees it: an unset variable reads as "". */
  type Environment = map<string, string>

  datatype Config = Config(speechKey: string, speechRegion: string, outputDir: string, port: string)

  const DefaultOutputDir: string := "/app/output"
  const DefaultPort: string := "8080"

  const ServiceVersion: string := "1.0.0"
  const ServiceName: string := "Azure TTS API"
  const MissingCredentials: string := "Missing SPEECH_KEY or SPEECH_REGION environment variables"

  const StatusOK: int := 200
  const StatusServiceUnavailable: int := 503

  /** A variable's value when it is set to something non-empty, the default otherwise. */
  function GetEnv(env: Environment, key: string, defaultValue: string): (r: string)
    ensures key in env && env[key] != "" ==> r == env[key]
    ensures key !in env || env[key] == "" ==> r == defaultValue
    ensures r == "" ==> defaultValue == ""
  {
    if key in env && env[key] != "" then env[key] else defaultValue
  }

  /** The configuration assembled at start-up (directory bootstrapping aside). */
  function LoadConfig(env: Environment): (c: Config)
    ensures c.outputDir != "" && c.port != ""
  {
    Config(GetEnv(env, "SPEECH_KEY", ""), GetEnv(env, "SPEECH_REGION", ""),
           GetEnv(env, "OUTPUT_DIR", DefaultOutputDir), GetEnv(env, "PORT", DefaultPort))
  }

  /** Synthesis can only work with both credentials present. */
  predicate Configured(c: Config) {
    c.speechKey != "" && c.speechRegion != ""
  }

  /** The loaded configuration has credentials exactly when both variables are set non-empty. */
  lemma ConfiguredFromEnvironment(env: Environment)
    ensures Configured(LoadConfig(env)) <==>
      ("SPEECH_KEY" in env && env["SPEECH_KEY"] != "" && "SPEECH_REGION" in env && env["SPEECH_REGION"] != "")
  {
  }

  /**
   * GET /api/health: the status document starts out "healthy" and is
   * overwritten to "unhealthy", with an "error" entry, when a credential is missing.
   */
  method HealthCheck(config: Config, now: string) returns (code: int, status: map<string, string>)
    ensures code == (if Configured(config) then StatusOK else StatusServiceUnavailable)
    ensures "status" in status && status["status"] == (if Configured(config) then "healthy" else "unhealthy")
    ensures "error" in status <==> !Configured(config)
    ensures "error" in status ==> status["error"] == MissingCredentials
    ensures status.Keys == {"status", "timestamp", "version", "service", "region", "output_dir"} + (if Configured(config) then {} else {"error"})
    ensures status["timestamp"] == now && status["version"] == ServiceVersion && status["service"] == ServiceName
    ensures status["region"] == config.speechRegion && status["output_dir"] == config.outputDir
  {
    status := map[
      "status" := "healthy",
      "timestamp" := now,
      "version" := ServiceVersion,
      "service" := ServiceName,
      "region" := config.speechRegion,
      "output_dir" := config.outputDir
    ];
    if config.speechKey == "" || config.speechRegion == "" {
      status := status["status" := "unhealthy"];
      status := status["error" := MissingCredentials];
      code := StatusServiceUnavailable;
      return;
    }
    code := StatusOK;
  }
}
