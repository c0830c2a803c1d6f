/**
 * Start-up configuration, newer nine-field variant (src/utils/config.ts):
 * an ordered run of "required or fail" checks over the environment, then
 * defaults. A variable that is missing or empty counts as not set.
 */
module AppConfig {
  import opened Wrappers

  /** The process environment. */
  type Env = map<string, string>

  const BotTokenRequired := "BOT_TOKEN environment variable is required"
  const SportsApiRequired := "SPORTS_API_URL and SPORTS_API_PATH environment variables are required"
  const TournamentRequired := "SPORTS_TOURNAMENT_RPL environment variable is required"
  const TelegramUrlRequired := "TELEGRAM_URL environment variable is required"
  const UranaWebRequired := "URANAWEB_APP_URL and URANAWEB_APP_PATH environment variables are required"

  const DefaultEnvironment := "development"
  const DefaultLogLevel := "info"

  datatype Config = Config(
    botToken: string,
    environment: string,
    logLevel: string,
    sportsApiUrl: string,
    sportsApiPath: string,
    sportsTournamentRpl: string,
    telegramUrl: string,
    uranaWebAppUrl: string,
    uranaWebAppPath: string)

  /** JavaScript truthiness of `process.env[key]`: present and not empty. */
  predicate IsSet(env: Env, key: string) {
    key in env && env[key] != ""
  }

  /** `process.env[key] || fallback`. */
  function OrDefault(env: Env, key: string, fallback: string): (r: string)
    ensures IsSet(env, key) ==> r == env[key]
    ensures !IsSet(env, key) ==> r == fallback
  {
    if IsSet(env, key) then env[key] else fallback
  }

  /** The guards of `validateConfig`, in the order they run, then the defaults. */
  function ValidateConfig(env: Env): (r: Result<Config, string>)
    ensures r.Success? <==>
      && IsSet(env, "BOT_TOKEN") && IsSet(env, "SPORTS_API_URL") && IsSet(env, "SPORTS_API_PATH")
      && IsSet(env, "SPORTS_TOURNAMENT_RPL") && IsSet(env, "TELEGRAM_URL")
      && IsSet(env, "URANAWEB_APP_URL") && IsSet(env, "URANAWEB_APP_PATH")
    ensures !IsSet(env, "BOT_TOKEN") ==> r == Failure(BotTokenRequired)
    ensures r.Success? ==>
      && r.value.botToken == env["BOT_TOKEN"]
      && r.value.sportsApiUrl == env["SPORTS_API_URL"]
      && r.value.sportsApiPath == env["SPORTS_API_PATH"]
      && r.value.sportsTournamentRpl == env["SPORTS_TOURNAMENT_RPL"]
      && r.value.telegramUrl == env["TELEGRAM_URL"]
      && r.value.uranaWebAppUrl == env["URANAWEB_APP_URL"]
      && r.value.uranaWebAppPath == env["URANAWEB_APP_PATH"]
    ensures r.Success? ==>
      && r.value.environment == OrDefault(env, "NODE_ENV", DefaultEnvironment)
      && r.value.logLevel == OrDefault(env, "LOG_LEVEL", DefaultLogLevel)
  {
    if !IsSet(env, "BOT_TOKEN") then Failure(BotTokenRequired)
    else if !IsSet(env, "SPORTS_API_URL") || !IsSet(env, "SPORTS_API_PATH") then Failure(SportsApiRequired)
    else if !IsSet(env, "SPORTS_TOURNAMENT_RPL") then Failure(TournamentRequired)
    else if !IsSet(env, "TELEGRAM_URL") then Failure(TelegramUrlRequired)
    else if !IsSet(env, "URANAWEB_APP_URL") || !IsSet(env, "URANAWEB_APP_PATH") then Failure(UranaWebRequired)
    else
      Success(Config(
        env["BOT_TOKEN"],
        OrDefault(env, "NODE_ENV", DefaultEnvironment),
        OrDefault(env, "LOG_LEVEL", DefaultLogLevel),
        env["SPORTS_API_URL"], env["SPORTS_API_PATH"],
        env["SPORTS_TOURNAMENT_RPL"], env["TELEGRAM_URL"],
        env["URANAWEB_APP_URL"], env["URANAWEB_APP_PATH"]))
  }

  /** One required-variable check: all of `keys` must be set, else `message`. */
  datatype Requirement = Requirement(keys: seq<string>, message: string)

  /** The required variables, grouped and ordered as the checks run. */
  const Requirements: seq<Requirement> := [
    Requirement(["BOT_TOKEN"], BotTokenRequired),
    Requirement(["SPORTS_API_URL", "SPORTS_API_PATH"], SportsApiRequired),
    Requirement(["SPORTS_TOURNAMENT_RPL"], TournamentRequired),
    Requirement(["TELEGRAM_URL"], TelegramUrlRequired),
    Requirement(["URANAWEB_APP_URL", "URANAWEB_APP_PATH"], UranaWebRequired)]

  predicate Satisfied(env: Env, req: Requirement) {
    forall i :: 0 <= i < |req.keys| ==> IsSet(env, req.keys[i])
  }

  /** The message of the earliest requirement the environment does not meet. */
  function FirstUnmet(reqs: seq<Requirement>, env: Env): (r: Option<string>)
    ensures r.None? <==> forall i :: 0 <= i < |reqs| ==> Satisfied(env, reqs[i])
    ensures r.Some? ==>
      exists i :: && 0 <= i < |reqs| && !Satisfied(env, reqs[i]) && r.value == reqs[i].message
                  && (forall j :: 0 <= j < i ==> Satisfied(env, reqs[j]))
  {
    if reqs == [] then None
    else if !Satisfied(env, reqs[0]) then Some(reqs[0].message)
    else FirstUnmet(reqs[1..], env)
  }

  lemma SatisfiedOne(env: Env, req: Requirement)
    requires |req.keys| == 1
    ensures Satisfied(env, req) <==> IsSet(env, req.keys[0])
  {
  }

  lemma SatisfiedTwo(env: Env, req: Requirement)
    requires |req.keys| == 2
    ensures Satisfied(env, req) <==> IsSet(env, req.keys[0]) && IsSet(env, req.keys[1])
  {
  }

  /**
   * The validator fails exactly when some requirement is unmet, and then with
   * the message of the earliest one: when several variables are missing,
   * the check that runs first decides the message.
   */
  lemma ValidateReportsFirstUnmet(env: Env)
    ensures ValidateConfig(env).Failure? <==> FirstUnmet(Requirements, env).Some?
    ensures ValidateConfig(env).Failure? ==> ValidateConfig(env).error == FirstUnmet(Requirements, env).value
  {
    var rs := Requirements;
    assert rs[1..][1..][1..][1..][1..] == [];
    SatisfiedOne(env, rs[0]);
    SatisfiedTwo(env, rs[1]);
    SatisfiedOne(env, rs[2]);
    SatisfiedOne(env, rs[3]);
    SatisfiedTwo(env, rs[4]);
    var s1, s2, s3, s4 := rs[1..], rs[1..][1..], rs[1..][1..][1..], rs[1..][1..][1..][1..];
    assert s1[0] == rs[1] && s2[0] == rs[2] && s3[0] == rs[3] && s4[0] == rs[4];
    assert FirstUnmet(s4, env) == if Satisfied(env, rs[4]) then None else Some(UranaWebRequired);
    assert FirstUnmet(s3, env) == if Satisfied(env, rs[3]) then FirstUnmet(s4, env) else Some(TelegramUrlRequired);
    assert FirstUnmet(s2, env) == if Satisfied(env, rs[2]) then FirstUnmet(s3, env) else Some(TournamentRequired);
    assert FirstUnmet(s1, env) == if Satisfied(env, rs[1]) then FirstUnmet(s2, env) else Some(SportsApiRequired);
    assert FirstUnmet(rs, env) == if Satisfied(env, rs[0]) then FirstUnmet(s1, env) else Some(BotTokenRequired);
  }

  /** NODE_ENV and LOG_LEVEL are not checked against their allowed values. */
  lemma AnyEnvironmentPassesThrough(env: Env, nodeEnv: string, logLevel: string)
    requires ValidateConfig(env).Success? && nodeEnv != "" && logLevel != ""
    ensures var r := ValidateConfig(env["NODE_ENV" := nodeEnv]["LOG_LEVEL" := logLevel]);
      r.Success? && r.value.environment == nodeEnv && r.value.logLevel == logLevel
  {
    var env' := env["NODE_ENV" := nodeEnv]["LOG_LEVEL" := logLevel];
    assert forall k :: k != "NODE_ENV" && k != "LOG_LEVEL" ==> (IsSet(env', k) <==> IsSet(env, k));
  }
}
