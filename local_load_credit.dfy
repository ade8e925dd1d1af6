/** The cron credit load, 10bis-automation/load-credit.js: skip Fridays and
    Saturdays, read config.json, check that AccessToken, RefreshToken,
    Amount and MoneycardId are present, send the PATCH request with
    retries and classify the answer. Any error ends in the catch block,
    which adds a hint to the log when the error looks like an
    authentication failure, and exits with status 1.

    The store is only read. The day of the week is a parameter. The log
    lines themselves are not modelled; the one decision they carry, the
    authentication hint, is a result. */
module LocalLoadCredit {
  import opened Js
  import opened Config
  import opened Http
  import opened Requests
  import opened Utils
  import opened CreditLoad
  import GitHubActionsUtils
  import GitHubLoadCredit

  /** One run: how it ended, the request it sent, and whether the catch
      block logged the hint that the tokens may need a refresh. */
  datatype LocalCreditRun = LocalCreditRun(end: CreditEnd, sent: Option<Request>, authHint: bool)

  /** The try block of `loadCredit()` on a store holding `current`. */
  function LocalCreditTry(current: Option<Config>, day: int, network: seq<Attempt>): (CreditEnd, Option<Request>)
    requires DefaultRetries <= |network|
  {
    if IsWeekend(day) then (SkippedWeekend, None)
    else if current.None? then (CreditFailed(ConfigFileMissing), None)
    else
      match ValidateConfig(current.value, CreditFields)
      case Fail(e) => (CreditFailed(e), None)
      case Pass =>
        (RequestEnd(RetrySpec(network, DefaultRetries).result), Some(CreditRequest(current.value)))
  }

  /** `loadCredit()` as a whole; the hint is logged when the catch block
      runs with a message mentioning 401 or Unauthorized. */
  function LocalCreditRunOf(current: Option<Config>, day: int, network: seq<Attempt>): (run: LocalCreditRun)
    requires DefaultRetries <= |network|
    ensures run.end == SkippedWeekend <==> IsWeekend(day)
    ensures run.sent.None? ==> run.end == SkippedWeekend || run.end.CreditFailed?
    ensures run.authHint ==> CreditExitStatus(run.end) == 1
  {
    var (end, sent) := LocalCreditTry(current, day, network);
    LocalCreditRun(end, sent, end.CreditFailed? && IsAuthError(end.message))
  }

  /** `testConfiguration()`'s checks: config.json exists and has all four
      fields. */
  function LocalConfigTest(current: Option<Config>): (r: Outcome<string>)
    ensures r.Pass? <==> current.Some? && forall f :: f in CreditFields ==> !IsMissing(current.value, f)
    ensures current.None? ==> r == Fail(ConfigFileMissing)
  {
    if current.None? then Fail(ConfigFileMissing)
    else ValidateConfig(current.value, CreditFields)
  }

  /** `loadCredit()` over the store and a scripted network. */
  method LoadCredit(store: ConfigStore, day: int, network: seq<Attempt>)
    returns (end: CreditEnd, sent: Option<Request>, authHint: bool)
    requires DefaultRetries <= |network|
    ensures LocalCreditRun(end, sent, authHint) == LocalCreditRunOf(store.current, day, network)
  {
    sent := None;
    if IsWeekend(day) {
      return SkippedWeekend, sent, false;
    }
    var read := store.ReadConfig();
    if read.Err? {
      end := CreditFailed(read.error);
    } else {
      var config := read.value;
      var valid := ValidateConfig(config, CreditFields);
      if valid.Fail? {
        end := CreditFailed(valid.error);
      } else {
        var request := CreditRequest(config);
        sent := Some(request);
        var result, attempts, delays := MakeHttpRequest(request, DefaultRetries, network);
        if result.Undefined? {
          end := CreditFailed(NoResultTypeError);
        } else if result.Threw? {
          end := CreditFailed(result.message);
        } else {
          end := ResponseEnd(result.response);
        }
      }
    }
    authHint := end.CreditFailed? && IsAuthError(end.message);
  }

  /** `testConfiguration()`: true exactly when the checks pass. */
  method TestConfiguration(store: ConfigStore) returns (passed: bool)
    ensures passed <==> LocalConfigTest(store.current).Pass?
  {
    var read := store.ReadConfig();
    if read.Err? {
      return false;
    }
    var valid := ValidateConfig(read.value, CreditFields);
    passed := valid.Pass?;
  }

  // ----- properties of a run -----

  /** On Friday and Saturday nothing is read or sent and the run ends
      normally. */
  lemma LocalWeekendSkips(current: Option<Config>, day: int, network: seq<Attempt>)
    requires DefaultRetries <= |network|
    requires IsWeekend(day)
    ensures LocalCreditRunOf(current, day, network) == LocalCreditRun(SkippedWeekend, None, false)
    ensures CreditExitStatus(LocalCreditRunOf(current, day, network).end) == 0
  {
  }

  /** On a weekday the request is sent exactly when the configuration test
      would pass, and it carries the configured tokens, amount and card. */
  lemma LocalRequestIffConfigTestPasses(current: Option<Config>, day: int, network: seq<Attempt>)
    requires DefaultRetries <= |network|
    requires !IsWeekend(day)
    ensures var run := LocalCreditRunOf(current, day, network);
      && (run.sent.Some? <==> LocalConfigTest(current).Pass?)
      && (run.sent.Some? ==> run.sent == Some(CreditRequest(current.value)))
      && (run.sent.None? ==> run.end == CreditFailed(LocalConfigTest(current).error))
  {
  }

  /** With no config.json, or with one that lacks any of the four fields,
      the configuration test fails and the run exits with status 1. */
  lemma IncompleteConfigFails(current: Option<Config>, day: int, network: seq<Attempt>)
    requires DefaultRetries <= |network|
    requires !IsWeekend(day)
    requires current.None? || exists f :: f in CreditFields && IsMissing(current.value, f)
    ensures LocalConfigTest(current).Fail?
    ensures CreditExitStatus(LocalCreditRunOf(current, day, network).end) == 1
    ensures LocalCreditRunOf(current, day, network).sent == None
  {
    if current.Some? {
      var f :| f in CreditFields && IsMissing(current.value, f);
      MissingFieldsMembers(current.value, CreditFields, f);
    }
  }

  /** The case exercised in 10bis-automation/test.js: an empty
      configuration, or none at all, fails the configuration test; an empty
      one is reported as missing all four fields. */
  lemma EmptyConfigFailsTest(current: Option<Config>)
    requires current == None || current == Some(map[])
    ensures current.None? ==> LocalConfigTest(current) == Fail(ConfigFileMissing)
    ensures current.Some? ==>
      LocalConfigTest(current) == Fail(MissingFieldsPrefix + Join(CreditFields, ", "))
  {
    if current.Some? {
      EmptyConfigMissesAll(CreditFields);
    }
  }

  /** In an empty configuration every required field is missing. */
  lemma {:induction false} EmptyConfigMissesAll(required: seq<string>)
    ensures MissingFields(map[], required) == required
  {
    if required != [] {
      EmptyConfigMissesAll(required[1..]);
      assert [required[0]] + required[1..] == required;
    }
  }

  /** The authentication hint is logged exactly when the run failed with
      a message mentioning 401 or Unauthorized; three failed attempts
      ending with a 401 answer produce it. */
  lemma AuthHintOn401(current: Option<Config>, day: int, network: seq<Attempt>)
    requires DefaultRetries <= |network|
    requires !IsWeekend(day) && current.Some?
    requires ValidateConfig(current.value, CreditFields).Pass?
    requires forall j :: 0 <= j < DefaultRetries ==> !Succeeds(network[j])
    requires network[2].Answered? && network[2].response.status == 401
    ensures LocalCreditRunOf(current, day, network).authHint
    ensures CreditExitStatus(LocalCreditRunOf(current, day, network).end) == 1
  {
    Unauthorized401IsAuthError(network);
  }

  /** The cron script and the Actions script agree when the Actions script
      reads config.json: same end, same request. Only the message for a
      missing file differs. */
  lemma ScriptsAgreeOnFile(env: GitHubActionsUtils.Env, current: Option<Config>, day: int, network: seq<Attempt>)
    requires DefaultRetries <= |network|
    requires !GitHubActionsUtils.EnvMode(env)
    ensures var local := LocalCreditRunOf(current, day, network);
      var actions := GitHubLoadCredit.GitHubCreditRun(env, current, day, network);
      && local.sent == actions.sent
      && (current.Some? || IsWeekend(day) ==> local.end == actions.end)
      && (current.None? && !IsWeekend(day) ==>
            local.end == CreditFailed(ConfigFileMissing)
            && actions.end == CreditFailed(GitHubActionsUtils.NoConfigMessage))
  {
  }
}
