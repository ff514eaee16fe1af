/**
 * `Settings`: values read from the environment, overridden by explicit
 * keyword arguments, then validated (`log_level`, `min_score`). The
 * environment lookup and Python's `int()` / `float()` conversions are
 * parameters; a conversion that raises `ValueError` is `None`.
 */
module Config {
  import opened Wrappers
  import opened Text

  datatype Settings = Settings(
    credentialsPath: string,
    spreadsheetId: Option<string>,
    useAdvancedNlp: bool,
    scraperTimeoutSeconds: int,
    scraperMaxRetries: int,
    scraperRateLimitDelay: real,
    cacheEnabled: bool,
    cacheTtlHours: int,
    logLevel: string,
    logToFile: bool,
    logFilePath: string,
    maxResults: int,
    minScore: real,
    devMode: bool)

  /** The keyword arguments of `Settings(**kwargs)`; `None` is an argument not given. */
  datatype Overrides = Overrides(
    credentialsPath: Option<string>,
    spreadsheetId: Option<Option<string>>,
    useAdvancedNlp: Option<bool>,
    scraperTimeoutSeconds: Option<int>,
    scraperMaxRetries: Option<int>,
    scraperRateLimitDelay: Option<real>,
    cacheEnabled: Option<bool>,
    cacheTtlHours: Option<int>,
    logLevel: Option<string>,
    logToFile: Option<bool>,
    logFilePath: Option<string>,
    maxResults: Option<int>,
    minScore: Option<real>,
    devMode: Option<bool>)

  const NoOverrides := Overrides(None, None, None, None, None, None, None, None, None, None, None, None, None, None)

  /** `os.getenv(name)`. */
  type Environment = string -> Option<string>
  /** `int(s)`, `None` where it raises `ValueError`. */
  type IntParser = string -> Option<int>
  /** `float(s)`, `None` where it raises `ValueError`. */
  type RealParser = string -> Option<real>

  const ConversionError := "ValueError: environment value is not a number"
  const ValidationError := "ValueError: settings validation failed"

  const AllowedLevels: seq<string> := ["DEBUG", "INFO", "WARNING", "ERROR", "CRITICAL"]

  /** `validate_log_level`: upper-cased, and one of the five levels. */
  function ValidateLogLevel(v: string): (r: Result<string>)
    ensures r.Success? <==> Upper(v) in AllowedLevels
    ensures r.Success? ==> r.value == Upper(v)
  {
    if Upper(v) in AllowedLevels then Success(Upper(v)) else Failure(ValidationError)
  }

  /** `validate_min_score`: 0 to 100, both ends included. */
  function ValidateMinScore(v: real): (r: Result<real>)
    ensures r.Success? <==> 0.0 <= v <= 100.0
    ensures r.Success? ==> r.value == v
  {
    if 0.0 <= v <= 100.0 then Success(v) else Failure(ValidationError)
  }

  /** A lower-case level is accepted in upper case; a name outside the five is refused. */
  lemma LogLevelExamples()
    ensures ValidateLogLevel("debug") == Success("DEBUG")
    ensures ValidateLogLevel("Warning") == Success("WARNING")
    ensures ValidateLogLevel("INVALID").Failure?
    ensures ValidateLogLevel("").Failure?
  {
    assert Upper("debug") == "DEBUG";
    assert Upper("Warning") == "WARNING";
    assert Upper("INVALID") == "INVALID";
    assert Upper("") == "";
  }

  /**
   * `os.getenv(name, default).lower() == "true"`: the flag is set exactly
   * when the variable, or the default when it is unset, spells "true" in
   * any mix of cases.
   */
  function EnvFlag(env: Environment, name: string, default: string): (b: bool)
    ensures var v := env(name).GetOr(default);
      b <==> |v| == 4 && v[0] in "tT" && v[1] in "rR" && v[2] in "uU" && v[3] in "eE"
  {
    var v := env(name).GetOr(default);
    LowerIsTrue(v);
    Lower(v) == "true"
  }

  /** Lower-casing gives "true" exactly for the sixteen capitalisations of it. */
  lemma LowerIsTrue(v: string)
    ensures Lower(v) == "true" <==> |v| == 4 && v[0] in "tT" && v[1] in "rR" && v[2] in "uU" && v[3] in "eE"
  {
    if |v| == 4 {
      var w := Lower(v);
      assert w == "true" <==> w[0] == 't' && w[1] == 'r' && w[2] == 'u' && w[3] == 'e';
    }
  }

  /** Any capitalisation of "true" sets a flag; anything else, "1" and "yes" included, clears it. */
  lemma EnvFlagExamples(env: Environment, name: string)
    ensures env(name) == Some("TRUE") ==> EnvFlag(env, name, "false")
    ensures env(name) == Some("True") ==> EnvFlag(env, name, "false")
    ensures env(name) == Some("1") ==> !EnvFlag(env, name, "true")
    ensures env(name) == Some("yes") ==> !EnvFlag(env, name, "true")
    ensures env(name).None? ==> EnvFlag(env, name, "true") && !EnvFlag(env, name, "false")
  {
    assert Lower("TRUE") == "true" && Lower("True") == "true";
    assert Lower("1") == "1" && Lower("yes") == "yes";
    assert Lower("true") == "true" && Lower("false") == "false";
  }

  /** `env_data` as built from the environment; the first conversion that raises ends it. */
  function EnvData(env: Environment, parseInt: IntParser, parseReal: RealParser): Result<Settings> {
    var timeout := parseInt(env("SCRAPER_TIMEOUT_SECONDS").GetOr("30"));
    var retries := parseInt(env("SCRAPER_MAX_RETRIES").GetOr("3"));
    var delay := parseReal(env("SCRAPER_RATE_LIMIT_DELAY").GetOr("2.0"));
    var ttl := parseInt(env("CACHE_TTL_HOURS").GetOr("24"));
    var maxResults := parseInt(env("MAX_RESULTS").GetOr("20"));
    var minScore := parseReal(env("MIN_SCORE").GetOr("60"));
    if timeout.None? || retries.None? || delay.None? || ttl.None? || maxResults.None? || minScore.None? then
      Failure(ConversionError)
    else
      Success(Settings(
        env("GOOGLE_SHEETS_CREDENTIALS_PATH").GetOr("./config/google_credentials.json"),
        env("GOOGLE_SHEETS_SPREADSHEET_ID"),
        EnvFlag(env, "USE_ADVANCED_NLP", "false"),
        timeout.value,
        retries.value,
        delay.value,
        EnvFlag(env, "CACHE_ENABLED", "true"),
        ttl.value,
        env("LOG_LEVEL").GetOr("INFO"),
        EnvFlag(env, "LOG_TO_FILE", "true"),
        env("LOG_FILE_PATH").GetOr("./logs/scraper.log"),
        maxResults.value,
        minScore.value,
        EnvFlag(env, "DEV_MODE", "false")))
  }

  /** `env_data.update(kwargs)`: every given argument replaces the environment's value. */
  function Merged(d: Settings, o: Overrides): Settings {
    Settings(
      o.credentialsPath.GetOr(d.credentialsPath),
      o.spreadsheetId.GetOr(d.spreadsheetId),
      o.useAdvancedNlp.GetOr(d.useAdvancedNlp),
      o.scraperTimeoutSeconds.GetOr(d.scraperTimeoutSeconds),
      o.scraperMaxRetries.GetOr(d.scraperMaxRetries),
      o.scraperRateLimitDelay.GetOr(d.scraperRateLimitDelay),
      o.cacheEnabled.GetOr(d.cacheEnabled),
      o.cacheTtlHours.GetOr(d.cacheTtlHours),
      o.logLevel.GetOr(d.logLevel),
      o.logToFile.GetOr(d.logToFile),
      o.logFilePath.GetOr(d.logFilePath),
      o.maxResults.GetOr(d.maxResults),
      o.minScore.GetOr(d.minScore),
      o.devMode.GetOr(d.devMode))
  }

  /** The validators run on the merged values; any failure fails construction. */
  function Validated(d: Settings): Result<Settings> {
    var level := ValidateLogLevel(d.logLevel);
    var score := ValidateMinScore(d.minScore);
    if level.Failure? || score.Failure? then Failure(ValidationError)
    else Success(d.(logLevel := level.value, minScore := score.value))
  }

  /** `Settings(**kwargs)`: `env_data`, updated with the arguments, then validated. */
  function NewSettings(env: Environment, parseInt: IntParser, parseReal: RealParser, o: Overrides): Result<Settings> {
    var d := EnvData(env, parseInt, parseReal);
    if d.Failure? then Failure(d.error) else Validated(Merged(d.value, o))
  }

  /**
   * Built settings always hold an allowed upper-case level and a score in
   * [0, 100]; given arguments beat the environment; a number the
   * environment cannot convert fails construction even when an argument
   * replaces it; and construction fails exactly when a conversion or a
   * validator fails.
   */
  lemma NewSettingsProperties(env: Environment, parseInt: IntParser, parseReal: RealParser, o: Overrides)
    ensures var r := NewSettings(env, parseInt, parseReal, o);
      (r.Success? ==> r.value.logLevel in AllowedLevels && 0.0 <= r.value.minScore <= 100.0)
      && (EnvData(env, parseInt, parseReal).Failure? ==> r == Failure(ConversionError))
      && (EnvData(env, parseInt, parseReal).Success? ==>
            var d := EnvData(env, parseInt, parseReal).value;
            var level := o.logLevel.GetOr(d.logLevel);
            var score := o.minScore.GetOr(d.minScore);
            (r.Success? <==> Upper(level) in AllowedLevels && 0.0 <= score <= 100.0)
            && (r.Success? ==> (r.value.logLevel == Upper(level) && r.value.minScore == score
                  && r.value.useAdvancedNlp == o.useAdvancedNlp.GetOr(EnvFlag(env, "USE_ADVANCED_NLP", "false"))
                  && r.value.cacheEnabled == o.cacheEnabled.GetOr(EnvFlag(env, "CACHE_ENABLED", "true"))
                  && r.value.logToFile == o.logToFile.GetOr(EnvFlag(env, "LOG_TO_FILE", "true"))
                  && r.value.devMode == o.devMode.GetOr(EnvFlag(env, "DEV_MODE", "false"))
                  && r.value.scraperTimeoutSeconds == o.scraperTimeoutSeconds.GetOr(d.scraperTimeoutSeconds)
                  && r.value.maxResults == o.maxResults.GetOr(d.maxResults))))
  {
  }

  /** With nothing in the environment and no arguments, the defaults hold. */
  lemma Defaults(parseInt: IntParser, parseReal: RealParser)
    requires parseInt("30") == Some(30) && parseInt("3") == Some(3) && parseInt("24") == Some(24)
    requires parseInt("20") == Some(20) && parseReal("2.0") == Some(2.0) && parseReal("60") == Some(60.0)
    ensures var r := NewSettings(_ => None, parseInt, parseReal, NoOverrides);
      r.Success? && r.value.logLevel == "INFO" && r.value.cacheEnabled && r.value.cacheTtlHours == 24
      && r.value.minScore == 60.0 && !r.value.devMode && !r.value.useAdvancedNlp && r.value.maxResults == 20
  {
    assert Upper("INFO") == "INFO";
    assert Lower("true") == "true" && Lower("false") == "false";
  }

  datatype ScrapersConfig = ScrapersConfig(timeout: int, maxRetries: int, rateLimitDelay: real, userAgents: seq<string>)

  const UserAgents: seq<string> := [
    "Mozilla/5.0 (Windows NT 10.0; Win64; x64) AppleWebKit/537.36",
    "Mozilla/5.0 (Macintosh; Intel Mac OS X 10_15_7) AppleWebKit/537.36",
    "Mozilla/5.0 (X11; Linux x86_64) AppleWebKit/537.36"]

  /** `get_scrapers_config`: the scraper fields of the settings and three fixed user agents. */
  function GetScrapersConfig(s: Settings): (c: ScrapersConfig)
    ensures c.timeout == s.scraperTimeoutSeconds && c.maxRetries == s.scraperMaxRetries
    ensures c.rateLimitDelay == s.scraperRateLimitDelay
    ensures |c.userAgents| == 3 && forall k :: 0 <= k < 3 ==> |c.userAgents[k]| > 0
  {
    ScrapersConfig(s.scraperTimeoutSeconds, s.scraperMaxRetries, s.scraperRateLimitDelay, UserAgents)
  }
}
