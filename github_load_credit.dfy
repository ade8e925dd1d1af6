/** The GitHub Actions credit load, github-load-credit.js: skip weekends,
    read and validate the configuration, mask the tokens, send the credit
    request with retries, and report the outcome as workflow outputs; a
    failure is reported as outputs (flagging authentication errors) and
    exit status 1. `testConfiguration` runs only the configuration checks.

    The day of the week is a parameter (`new Date().getDay()`). The methods
    work on the Actions utility object and are proved equal to the
    specification functions GitHubCreditRun and ConfigTest; the properties
    of the script are lemmas about those functions. */
module GitHubLoadCredit {
  import opened Js
  import opened Config
  import opened Http
  import opened GitHubActionsUtils
  import opened Requests
  import opened CreditLoad

  /** One run: how it ended, the request it sent, and the workflow commands
      it printed. */
  datatype CreditRun = CreditRun(end: CreditEnd, sent: Option<Request>, commands: seq<Command>)

  const WeekendOutputs: seq<Command> := [Output("credit_loaded", "skipped_weekend")]

  /** The outputs the try block sets once a response has come back. */
  function ResponseOutputs(config: Config, response: Response): seq<Command> {
    if response.data.Some? then
      if response.status == 200 || response.status == 201 then
        [Output("credit_loaded", "success"), Output("amount_loaded", Interpolated(config, Amount))]
      else
        [Output("credit_loaded", "unexpected_status"), Output("response_status", NatToString(response.status))]
    else
      [Output("credit_loaded", "no_response_data")]
  }

  /** The outputs the catch block sets: the failure and its message, and
      `auth_error` when the message looks like an authentication failure. */
  function CreditFailureOutputs(message: string): seq<Command> {
    [Output("credit_loaded", "failed"), Output("error", message)]
    + (if IsAuthError(message) then [Output("auth_error", "true")] else [])
  }

  /** The try block from the masking of the tokens on, for a configuration
      that passed validation. */
  function CreditWithConfig(env: Env, config: Config, network: seq<Attempt>): CreditRun
    requires DefaultRetries <= |network|
  {
    var masks := Emit(env, CurrentTokenMasks(config));
    var sent := Some(CreditRequest(config));
    var result := RetrySpec(network, DefaultRetries).result;
    if result.Returned? then
      CreditRun(ResponseEnd(result.response), sent, masks + Emit(env, ResponseOutputs(config, result.response)))
    else
      CreditRun(RequestEnd(result), sent, masks)
  }

  /** The try block of `loadCredit`; an end of CreditFailed(m) means it threw
      an error with message m, after printing `commands`. */
  function CreditTry(env: Env, file: Option<Config>, day: int, network: seq<Attempt>): CreditRun
    requires DefaultRetries <= |network|
  {
    if IsWeekend(day) then CreditRun(SkippedWeekend, None, Emit(env, WeekendOutputs))
    else
      match GetConfig(env, file)
      case Err(e) => CreditRun(CreditFailed(e), None, [])
      case Ok(config) =>
        match ValidateConfig(config, CreditFields)
        case Fail(e) => CreditRun(CreditFailed(e), None, [])
        case Pass => CreditWithConfig(env, config, network)
  }

  /** `loadCredit()` as a whole: the try block, then the catch block's
      outputs when it threw. */
  function GitHubCreditRun(env: Env, file: Option<Config>, day: int, network: seq<Attempt>): (run: CreditRun)
    requires DefaultRetries <= |network|
    ensures run.end == SkippedWeekend <==> IsWeekend(day)
    ensures run.sent.None? ==> run.end == SkippedWeekend || run.end.CreditFailed?
  {
    var run := CreditTry(env, file, day, network);
    if run.end.CreditFailed? then run.(commands := run.commands + Emit(env, CreditFailureOutputs(run.end.message)))
    else run
  }

  /** `testConfiguration()`'s checks: the configuration is found and has all
      four fields. */
  function ConfigTest(env: Env, file: Option<Config>): (r: Outcome<string>)
    ensures r.Pass? <==> GetConfig(env, file).Ok? && forall f :: f in CreditFields ==> !IsMissing(GetConfig(env, file).value, f)
    ensures GetConfig(env, file).Err? ==> r == Fail(GetConfig(env, file).error)
  {
    match GetConfig(env, file)
    case Err(e) => Fail(e)
    case Ok(config) => ValidateConfig(config, CreditFields)
  }

  /** The outputs `testConfiguration()` sets. */
  function ConfigTestOutputs(test: Outcome<string>): seq<Command> {
    match test
    case Pass => [Output("config_test", "passed")]
    case Fail(e) => [Output("config_test", "failed"), Output("config_error", e)]
  }

  /** The `if (response.data)` block of the try block. */
  method ReportResponse(utils: ActionsUtils, config: Config, response: Response)
    modifies utils`commands
    ensures utils.commands == old(utils.commands) + Emit(utils.env, ResponseOutputs(config, response))
  {
    if response.data.Some? {
      if response.status == 200 || response.status == 201 {
        if InActions(utils.env) {
          utils.SetOutput("credit_loaded", "success");
          utils.SetOutput("amount_loaded", Interpolated(config, Amount));
        }
      } else {
        if InActions(utils.env) {
          utils.SetOutput("credit_loaded", "unexpected_status");
          utils.SetOutput("response_status", NatToString(response.status));
        }
      }
    } else {
      if InActions(utils.env) {
        utils.SetOutput("credit_loaded", "no_response_data");
      }
    }
  }

  /** The try block from the masking of the tokens on. */
  method LoadWithConfig(utils: ActionsUtils, config: Config, network: seq<Attempt>) returns (end: CreditEnd, sent: Option<Request>)
    requires DefaultRetries <= |network|
    modifies utils`commands
    ensures var run := CreditWithConfig(utils.env, config, network);
      end == run.end && sent == run.sent && utils.commands == old(utils.commands) + run.commands
  {
    ghost var masks := Emit(utils.env, CurrentTokenMasks(config));
    MaskCurrentTokens(utils, config);
    var request := CreditRequest(config);
    sent := Some(request);
    var result, attempts, delays := MakeHttpRequest(request, DefaultRetries, network);
    if !result.Returned? {
      return RequestEnd(result), sent;
    }
    ReportResponse(utils, config, result.response);
    LogAssoc(old(utils.commands), masks, Emit(utils.env, ResponseOutputs(config, result.response)));
    end := ResponseEnd(result.response);
  }

  /** The try block of `loadCredit()`. */
  method TryLoadCredit(utils: ActionsUtils, day: int, network: seq<Attempt>) returns (end: CreditEnd, sent: Option<Request>)
    requires DefaultRetries <= |network|
    modifies utils`commands
    ensures var run := CreditTry(utils.env, utils.file, day, network);
      end == run.end && sent == run.sent && utils.commands == old(utils.commands) + run.commands
  {
    if IsWeekend(day) {
      if InActions(utils.env) {
        utils.SetOutput("credit_loaded", "skipped_weekend");
      }
      return SkippedWeekend, None;
    }
    var got := GetConfig(utils.env, utils.file);
    if got.Err? {
      return CreditFailed(got.error), None;
    }
    var valid := ValidateConfig(got.value, CreditFields);
    if valid.Fail? {
      return CreditFailed(valid.error), None;
    }
    end, sent := LoadWithConfig(utils, got.value, network);
  }

  /** `loadCredit()`: the try block, and on a throw the catch block's
      outputs. `process.exit(1)` is CreditExitStatus(end). */
  method LoadCredit(utils: ActionsUtils, day: int, network: seq<Attempt>) returns (end: CreditEnd, sent: Option<Request>)
    requires DefaultRetries <= |network|
    modifies utils`commands
    ensures var run := GitHubCreditRun(utils.env, utils.file, day, network);
      end == run.end && sent == run.sent && utils.commands == old(utils.commands) + run.commands
  {
    end, sent := TryLoadCredit(utils, day, network);
    if end.CreditFailed? {
      ghost var tried := utils.commands;
      ReportFailure(utils, end.message);
      LogAssoc(old(utils.commands), tried[|old(utils.commands)|..], Emit(utils.env, CreditFailureOutputs(end.message)));
      assert tried == old(utils.commands) + tried[|old(utils.commands)|..];
    }
  }

  /** The catch block's outputs for an error with message `message`. */
  method ReportFailure(utils: ActionsUtils, message: string)
    modifies utils`commands
    ensures utils.commands == old(utils.commands) + Emit(utils.env, CreditFailureOutputs(message))
  {
    ghost var failed := Emit(utils.env, [Output("credit_loaded", "failed"), Output("error", message)]);
    ghost var flag := Emit(utils.env, if IsAuthError(message) then [Output("auth_error", "true")] else []);
    if InActions(utils.env) {
      utils.SetOutput("credit_loaded", "failed");
      utils.SetOutput("error", message);
    }
    assert utils.commands == old(utils.commands) + failed;
    if IsAuthError(message) {
      if InActions(utils.env) {
        utils.SetOutput("auth_error", "true");
      }
    }
    EmitAppend(utils.env, [Output("credit_loaded", "failed"), Output("error", message)],
               if IsAuthError(message) then [Output("auth_error", "true")] else []);
    LogAssoc(old(utils.commands), failed, flag);
  }

  /** `testConfiguration()`: true iff the configuration is found and
      complete, with the matching outputs. */
  method TestConfiguration(utils: ActionsUtils) returns (passed: bool)
    modifies utils`commands
    ensures passed <==> ConfigTest(utils.env, utils.file).Pass?
    ensures utils.commands == old(utils.commands) + Emit(utils.env, ConfigTestOutputs(ConfigTest(utils.env, utils.file)))
  {
    var got := GetConfig(utils.env, utils.file);
    var test := if got.Err? then Fail(got.error) else ValidateConfig(got.value, CreditFields);
    if test.Pass? {
      if InActions(utils.env) {
        utils.SetOutput("config_test", "passed");
      }
      return true;
    }
    if InActions(utils.env) {
      utils.SetOutput("config_test", "failed");
      utils.SetOutput("config_error", test.error);
    }
    return false;
  }

  // ----- properties of a run -----

  /** On a Friday or Saturday nothing is read and nothing is sent: the run
      only reports the skip, whatever the configuration. */
  lemma WeekendSkips(env: Env, file: Option<Config>, day: int, network: seq<Attempt>)
    requires DefaultRetries <= |network|
    requires IsWeekend(day)
    ensures GitHubCreditRun(env, file, day, network) == CreditRun(SkippedWeekend, None, Emit(env, WeekendOutputs))
    ensures CreditExitStatus(SkippedWeekend) == 0
  {
  }

  /** On a weekday the credit request goes out exactly when the
      configuration test passes, and it is the request built from that
      configuration. */
  lemma RequestIffConfigTestPasses(env: Env, file: Option<Config>, day: int, network: seq<Attempt>)
    requires DefaultRetries <= |network|
    requires !IsWeekend(day)
    ensures var run := GitHubCreditRun(env, file, day, network);
      && (run.sent.Some? <==> ConfigTest(env, file).Pass?)
      && (run.sent.Some? ==> run.sent == Some(CreditRequest(GetConfig(env, file).value)))
      && (ConfigTest(env, file).Fail? ==> run.end == CreditFailed(ConfigTest(env, file).error))
  {
  }

  /** The try block of a weekday run with a valid configuration. */
  lemma ValidatedCreditRun(env: Env, file: Option<Config>, day: int, network: seq<Attempt>, config: Config)
    requires DefaultRetries <= |network|
    requires !IsWeekend(day)
    requires GetConfig(env, file) == Ok(config)
    requires ValidateConfig(config, CreditFields).Pass?
    ensures CreditTry(env, file, day, network) == CreditWithConfig(env, config, network)
  {
  }

  /** Inside Actions, once the configuration is valid, the first two
      commands mask the two tokens: nothing is printed before them. */
  lemma TokensMaskedFirst(env: Env, file: Option<Config>, day: int, network: seq<Attempt>, config: Config)
    requires DefaultRetries <= |network|
    requires !IsWeekend(day) && InActions(env)
    requires GetConfig(env, file) == Ok(config)
    requires !IsMissing(config, AccessToken) && !IsMissing(config, RefreshToken)
    requires !IsMissing(config, Amount) && !IsMissing(config, MoneycardId)
    ensures var run := GitHubCreditRun(env, file, day, network);
      |run.commands| >= 2 && run.commands[..2] == [Mask(config[AccessToken]), Mask(config[RefreshToken])]
  {
    CreditFieldsCheck(config);
    PresentIsTruthy(config, AccessToken);
    PresentIsTruthy(config, RefreshToken);
    var masks := Emit(env, CurrentTokenMasks(config));
    assert masks == [Mask(config[AccessToken]), Mask(config[RefreshToken])];
    ValidatedCreditRun(env, file, day, network, config);
    var tried := CreditWithConfig(env, config, network);
    var tail := if tried.end.CreditFailed? then Emit(env, CreditFailureOutputs(tried.end.message)) else [];
    var rest: seq<Command>;
    var result := RetrySpec(network, DefaultRetries).result;
    if result.Returned? {
      rest := Emit(env, ResponseOutputs(config, result.response)) + tail;
      LogAssoc(masks, Emit(env, ResponseOutputs(config, result.response)), tail);
    } else {
      rest := tail;
    }
    assert GitHubCreditRun(env, file, day, network).commands == masks + rest;
  }

  /** A weekday run with a valid configuration that loads credit. */
  lemma LoadedWithConfig(env: Env, config: Config, network: seq<Attempt>)
    requires DefaultRetries <= |network|
    requires !IsMissing(config, Amount)
    ensures var run := CreditWithConfig(env, config, network);
      var result := RetrySpec(network, DefaultRetries).result;
      run.end == Loaded ==>
        && result.Returned?
        && result.response.data.Some?
        && (result.response.status == 200 || result.response.status == 201)
        && (InActions(env) ==> run.commands[|run.commands| - 1] == Output("amount_loaded", config[Amount]))
  {
  }

  /** A load is reported only for a 200 or 201 answer with a body, and
      inside Actions it ends with the configured amount. */
  lemma LoadedReportsAmount(env: Env, file: Option<Config>, day: int, network: seq<Attempt>)
    requires DefaultRetries <= |network|
    ensures var run := GitHubCreditRun(env, file, day, network);
      var result := RetrySpec(network, DefaultRetries).result;
      run.end == Loaded ==>
        && run.sent.Some?
        && result.Returned?
        && result.response.data.Some?
        && (result.response.status == 200 || result.response.status == 201)
        && GetConfig(env, file).Ok?
        && Amount in GetConfig(env, file).value
        && (InActions(env) ==>
              run.commands[|run.commands| - 1] == Output("amount_loaded", GetConfig(env, file).value[Amount]))
  {
    UncaughtRun(env, file, day, network);
    if !IsWeekend(day) && GetConfig(env, file).Ok? {
      var config := GetConfig(env, file).value;
      if ValidateConfig(config, CreditFields).Pass? {
        CreditFieldsCheck(config);
        ValidatedCreditRun(env, file, day, network, config);
        LoadedWithConfig(env, config, network);
      }
    }
  }

  /** A weekday run with a valid configuration that gets an unexpected status. */
  lemma UnexpectedWithConfig(env: Env, config: Config, network: seq<Attempt>)
    requires DefaultRetries <= |network|
    ensures var run := CreditWithConfig(env, config, network);
      run.end.UnexpectedStatus? ==>
        && run.end.status < 400 && run.end.status != 200 && run.end.status != 201
        && (InActions(env) ==>
              && run.commands[|run.commands| - 1] == Output("response_status", NatToString(run.end.status))
              && DigitsValue(run.commands[|run.commands| - 1].value) == run.end.status)
  {
    UnexpectedStatusRange(network, DefaultRetries);
    var run := CreditWithConfig(env, config, network);
    if run.end.UnexpectedStatus? {
      NatToStringRoundTrip(run.end.status);
    }
  }

  /** A run whose try block did not throw is its try block. */
  lemma UncaughtRun(env: Env, file: Option<Config>, day: int, network: seq<Attempt>)
    requires DefaultRetries <= |network|
    ensures !CreditTry(env, file, day, network).end.CreditFailed? ==>
      GitHubCreditRun(env, file, day, network) == CreditTry(env, file, day, network)
  {
  }

  /** Any other status with a body is reported with its number, rendered
      so that it reads back as the status. */
  lemma UnexpectedStatusReported(env: Env, file: Option<Config>, day: int, network: seq<Attempt>)
    requires DefaultRetries <= |network|
    ensures var run := GitHubCreditRun(env, file, day, network);
      run.end.UnexpectedStatus? ==>
        && run.end.status < 400 && run.end.status != 200 && run.end.status != 201
        && (InActions(env) ==>
              && run.commands[|run.commands| - 1] == Output("response_status", NatToString(run.end.status))
              && DigitsValue(run.commands[|run.commands| - 1].value) == run.end.status)
  {
    UncaughtRun(env, file, day, network);
    if !IsWeekend(day) && GetConfig(env, file).Ok? {
      var config := GetConfig(env, file).value;
      if ValidateConfig(config, CreditFields).Pass? {
        ValidatedCreditRun(env, file, day, network, config);
        UnexpectedWithConfig(env, config, network);
      }
    }
  }

  /** A run that throws exits with 1 and, inside Actions, reports the
      failure and its message, and sets `auth_error` exactly when the
      message mentions 401 or Unauthorized. */
  lemma FailureReported(env: Env, file: Option<Config>, day: int, network: seq<Attempt>)
    requires DefaultRetries <= |network|
    ensures var run := GitHubCreditRun(env, file, day, network);
      run.end.CreditFailed? ==>
        && CreditExitStatus(run.end) == 1
        && (InActions(env) ==>
              && Output("credit_loaded", "failed") in run.commands
              && Output("error", run.end.message) in run.commands
              && (Output("auth_error", "true") in run.commands <==> IsAuthError(run.end.message)))
  {
    var tried := CreditTry(env, file, day, network);
    if tried.end.CreditFailed? && InActions(env) {
      TriedFailurePrintsMasks(env, file, day, network);
      FailureOutputsFollowMasks(tried.commands, tried.end.message);
    }
  }

  /** The catch block's outputs after a log of masks. */
  lemma FailureOutputsFollowMasks(masks: seq<Command>, message: string)
    requires forall c :: c in masks ==> c.Mask?
    ensures var all := masks + CreditFailureOutputs(message);
      && Output("credit_loaded", "failed") in all
      && Output("error", message) in all
      && (Output("auth_error", "true") in all <==> IsAuthError(message))
  {
    var outputs := CreditFailureOutputs(message);
    var all := masks + outputs;
    assert all[|masks|] == outputs[0];
    assert all[|masks| + 1] == outputs[1];
    if IsAuthError(message) {
      assert all[|masks| + 2] == outputs[2];
    } else {
      assert Output("auth_error", "true") !in outputs;
    }
  }

  /** Before the catch block, a failed try block has printed masks only. */
  lemma TriedFailurePrintsMasks(env: Env, file: Option<Config>, day: int, network: seq<Attempt>)
    requires DefaultRetries <= |network|
    ensures var tried := CreditTry(env, file, day, network);
      tried.end.CreditFailed? ==> forall c :: c in tried.commands ==> c.Mask?
  {
  }

  /** Three failed attempts ending with a 401 answer are flagged as an
      authentication error. */
  lemma Unauthorized401Flagged(env: Env, file: Option<Config>, day: int, network: seq<Attempt>, config: Config)
    requires DefaultRetries <= |network|
    requires !IsWeekend(day) && InActions(env)
    requires GetConfig(env, file) == Ok(config)
    requires !IsMissing(config, AccessToken) && !IsMissing(config, RefreshToken)
    requires !IsMissing(config, Amount) && !IsMissing(config, MoneycardId)
    requires forall j :: 0 <= j < DefaultRetries ==> !Succeeds(network[j])
    requires network[2].Answered? && network[2].response.status == 401
    ensures var run := GitHubCreditRun(env, file, day, network);
      run.end.CreditFailed? && Output("auth_error", "true") in run.commands
  {
    Unauthorized401IsAuthError(network);
    CreditFieldsCheck(config);
    ValidatedCreditRun(env, file, day, network, config);
    FailureReported(env, file, day, network);
  }

  /** Outside Actions no workflow command is printed. */
  lemma CreditSilentOutsideActions(env: Env, file: Option<Config>, day: int, network: seq<Attempt>)
    requires DefaultRetries <= |network|
    requires !InActions(env)
    ensures GitHubCreditRun(env, file, day, network).commands == []
  {
  }

  /** The configuration test checked in 10bis-automation/test-github-actions.js:
      complete environment variables pass. */
  lemma ConfigTestExample(env: Env)
    requires env == map["GITHUB_ACTIONS" := "true", "ACCESS_TOKEN" := "mock_access_token",
                        "REFRESH_TOKEN" := "mock_refresh_token", "AMOUNT" := "100", "MONEYCARD_ID" := "12345"]
    ensures ConfigTest(env, None) == Pass
  {
    EnvConfigExample();
    var config := EnvConfig(env);
    assert !IsJsSpace(config[AccessToken][0]) && !IsJsSpace(config[RefreshToken][0]);
    assert !IsJsSpace(config[Amount][0]) && !IsJsSpace(config[MoneycardId][0]);
    assert forall f :: f in CreditFields ==> !IsMissing(config, f);
  }
}
