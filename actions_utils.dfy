/** The GitHub Actions flavour of the utility object,
    10bis-automation/github-actions-utils.js: configuration from environment
    variables or config.json (`getConfig`), an `updateConfig` that reports new
    tokens as workflow outputs instead of writing a file when it runs inside
    Actions, and the `setOutput` / `maskValue` workflow commands.

    The process environment is a constant map; the workflow commands printed
    to the console (`::set-output`, `::add-mask::`) are recorded, in order, as
    a sequence of Command values. */
module GitHubActionsUtils {
  import opened Js
  import opened Config

  type Env = map<string, string>

  /** A workflow command written to the console. */
  datatype Command = Mask(value: string) | Output(name: string, value: string)

  const NoConfigMessage := "No configuration found. Set environment variables or create config.json"

  /** The environment variable each configuration field is read from. */
  const EnvVars: map<string, string> := map[
    AccessToken := "ACCESS_TOKEN",
    RefreshToken := "REFRESH_TOKEN",
    Amount := "AMOUNT",
    MoneycardId := "MONEYCARD_ID"]

  /** `process.env.GITHUB_ACTIONS` is set (truthy). */
  predicate InActions(env: Env) {
    TruthyAt(env, "GITHUB_ACTIONS")
  }

  /** The condition under which `getConfig` reads the environment. */
  predicate EnvMode(env: Env) {
    TruthyAt(env, "ACCESS_TOKEN") || InActions(env)
  }

  /** Inside Actions the environment is always read; outside it, only an
      ACCESS_TOKEN variable switches to the environment. */
  lemma EnvModeCases(env: Env)
    ensures InActions(env) ==> EnvMode(env)
    ensures !InActions(env) ==> (EnvMode(env) <==> "ACCESS_TOKEN" in env && env["ACCESS_TOKEN"] != "")
  {
  }

  /** The object literal built from the environment: the four fields, each
      defined exactly when its variable is. */
  function EnvConfig(env: Env): (r: Config)
    ensures r.Keys <= EnvVars.Keys
    ensures forall f :: f in EnvVars ==> (f in r <==> EnvVars[f] in env)
    ensures forall f :: f in r ==> f in EnvVars && r[f] == env[EnvVars[f]]
  {
    map f | f in EnvVars && EnvVars[f] in env :: env[EnvVars[f]]
  }

  /** `getConfig()`: the environment when ACCESS_TOKEN or GITHUB_ACTIONS is
      set; otherwise config.json if it exists; otherwise an error. */
  function GetConfig(env: Env, file: Option<Config>): (r: Result<Config, string>)
    ensures EnvMode(env) ==> r == Ok(EnvConfig(env))
    ensures !EnvMode(env) ==> (r.Ok? <==> file.Some?)
    ensures !EnvMode(env) && file.Some? ==> r.value == file.value
    ensures !EnvMode(env) && file.None? ==> r.error == NoConfigMessage
  {
    if EnvMode(env) then Ok(EnvConfig(env))
    else if file.Some? then Ok(file.value)
    else Err(NoConfigMessage)
  }

  /** What a workflow command reaches the console as: nothing outside Actions. */
  function Emit(env: Env, commands: seq<Command>): seq<Command> {
    if InActions(env) then commands else []
  }

  /** The commands are printed whole or not at all, and unchanged exactly
      when GITHUB_ACTIONS is set (or there is nothing to print). */
  lemma EmitWholeOrNothing(env: Env, commands: seq<Command>)
    ensures Emit(env, commands) == commands || Emit(env, commands) == []
    ensures Emit(env, commands) == commands <==> InActions(env) || commands == []
  {
  }

  /** `::add-mask::` for a value, which `maskValue` skips when it is falsy. */
  function MaskOf(value: string): seq<Command> {
    if Truthy(value) then [Mask(value)] else []
  }

  /** The commands the Actions branch of `updateConfig` prints: a mask and an
      output for AccessToken, then for RefreshToken, each only when truthy. */
  function TokenOutputs(updates: Config): (r: seq<Command>)
    ensures |r| == (if TruthyAt(updates, AccessToken) then 2 else 0) + (if TruthyAt(updates, RefreshToken) then 2 else 0)
    ensures forall i :: 0 <= i < |r| ==> r[i].Mask? || r[i].name in {"access_token", "refresh_token"}
  {
    (if TruthyAt(updates, AccessToken)
     then [Mask(updates[AccessToken]), Output("access_token", updates[AccessToken])] else [])
    + (if TruthyAt(updates, RefreshToken)
       then [Mask(updates[RefreshToken]), Output("refresh_token", updates[RefreshToken])] else [])
  }

  /** `maskValue(config.AccessToken); maskValue(config.RefreshToken)`, as both
      Actions scripts do before their request: each token masked when truthy. */
  function CurrentTokenMasks(config: Config): (r: seq<Command>)
    ensures forall c :: c in r ==> c.Mask?
    ensures |r| == (if TruthyAt(config, AccessToken) then 1 else 0) + (if TruthyAt(config, RefreshToken) then 1 else 0)
    ensures TruthyAt(config, AccessToken) ==> r[0] == Mask(config[AccessToken])
    ensures TruthyAt(config, RefreshToken) ==> r[|r| - 1] == Mask(config[RefreshToken])
  {
    MaskOf(ValueOrEmpty(config, AccessToken)) + MaskOf(ValueOrEmpty(config, RefreshToken))
  }

  class ActionsUtils {
    /** `process.env`. */
    const env: Env
    /** config.json; None when it does not exist. */
    var file: Option<Config>
    /** Workflow commands printed so far. */
    var commands: seq<Command>

    constructor (environment: Env, configFile: Option<Config>)
      ensures env == environment && file == configFile && commands == []
    {
      env := environment;
      file := configFile;
      commands := [];
    }

    /** `setOutput(name, value)`: emits only inside Actions. */
    method SetOutput(name: string, value: string)
      modifies this`commands
      ensures commands == old(commands) + Emit(env, [Output(name, value)])
    {
      if InActions(env) {
        commands := commands + [Output(name, value)];
      }
    }

    /** `maskValue(value)`: emits only inside Actions and for a truthy value. */
    method MaskValue(value: string)
      modifies this`commands
      ensures commands == old(commands) + Emit(env, MaskOf(value))
    {
      if InActions(env) && Truthy(value) {
        commands := commands + [Mask(value)];
      }
    }

    /** `updateConfig(updates)`: inside Actions it leaves config.json alone
        and prints the new tokens; elsewhere it writes
        `{...current, ...updates}`, reading a missing file as `{}` and taking
        no backup. */
    method UpdateConfig(updates: Config)
      modifies this
      ensures InActions(env) ==> file == old(file) && commands == old(commands) + TokenOutputs(updates)
      ensures !InActions(env) ==>
        commands == old(commands) && file == Some(Merge(old(file).GetOr(map[]), updates))
    {
      if InActions(env) {
        if TruthyAt(updates, AccessToken) {
          commands := commands + [Mask(updates[AccessToken]), Output("access_token", updates[AccessToken])];
        }
        if TruthyAt(updates, RefreshToken) {
          commands := commands + [Mask(updates[RefreshToken]), Output("refresh_token", updates[RefreshToken])];
        }
        return;
      }
      var current: Config := map[];
      if file.Some? {
        current := file.value;
      }
      file := Some(Merge(current, updates));
    }
  }

  /** `utils.maskValue(config.AccessToken); utils.maskValue(config.RefreshToken)`. */
  method MaskCurrentTokens(utils: ActionsUtils, config: Config)
    modifies utils`commands
    ensures utils.commands == old(utils.commands) + Emit(utils.env, CurrentTokenMasks(config))
  {
    utils.MaskValue(ValueOrEmpty(config, AccessToken));
    utils.MaskValue(ValueOrEmpty(config, RefreshToken));
    EmitExtend(utils.env, old(utils.commands), MaskOf(ValueOrEmpty(config, AccessToken)), MaskOf(ValueOrEmpty(config, RefreshToken)));
  }

  /** Workflow commands never reach the console outside Actions, and inside
      Actions they pass through in order. (This and the two lemmas after it
      are plain sequence facts, called by name so that the long command-log
      proofs need not search for them.) */
  lemma EmitAppend(env: Env, a: seq<Command>, b: seq<Command>)
    ensures Emit(env, a + b) == Emit(env, a) + Emit(env, b)
  {
  }

  /** Appending to a command log in two steps or in one gives the same log. */
  lemma LogAssoc(log: seq<Command>, a: seq<Command>, b: seq<Command>)
    ensures log + a + b == log + (a + b)
  {
  }

  /** Two emissions in a row extend a command log like one emission of both. */
  lemma EmitExtend(env: Env, log: seq<Command>, a: seq<Command>, b: seq<Command>)
    ensures log + Emit(env, a) + Emit(env, b) == log + Emit(env, a + b)
  {
    EmitAppend(env, a, b);
    assert log + Emit(env, a) + Emit(env, b) == log + (Emit(env, a) + Emit(env, b));
  }

  /** The environment reading checked in 10bis-automation/test-github-actions.js. */
  lemma EnvConfigExample()
    ensures var env := map["GITHUB_ACTIONS" := "true", "ACCESS_TOKEN" := "mock_access_token",
                           "REFRESH_TOKEN" := "mock_refresh_token", "AMOUNT" := "100", "MONEYCARD_ID" := "12345"];
      GetConfig(env, None) == Ok(map[AccessToken := "mock_access_token", RefreshToken := "mock_refresh_token",
                                     Amount := "100", MoneycardId := "12345"])
  {
    var env := map["GITHUB_ACTIONS" := "true", "ACCESS_TOKEN" := "mock_access_token",
                   "REFRESH_TOKEN" := "mock_refresh_token", "AMOUNT" := "100", "MONEYCARD_ID" := "12345"];
    var expected := map[AccessToken := "mock_access_token", RefreshToken := "mock_refresh_token",
                        Amount := "100", MoneycardId := "12345"];
    assert EnvMode(env);
    assert EnvVars.Keys == expected.Keys;
    var got := EnvConfig(env);
    assert got.Keys == expected.Keys;
    assert got[AccessToken] == expected[AccessToken] && got[RefreshToken] == expected[RefreshToken];
    assert got[Amount] == expected[Amount] && got[MoneycardId] == expected[MoneycardId];
    assert got == expected;
  }
}
