/** The cron token refresh, 10bis-automation/refresh-token.js: read
    config.json, validate it, send the refresh request with retries, take
    the rotated tokens (and Amount) from the response body only, and merge
    them into config.json through the store's `updateConfig`, which backs
    the old file up first. Any error ends in the catch block with exit
    status 1.

    `refreshTokens` is a method over the file store; it is proved equal to
    the specification function LocalRefreshRun, and the properties of the
    script are lemmas about that function. */
module LocalRefresh {
  import opened Js
  import opened Config
  import opened Http
  import opened Requests
  import opened TokenExtraction
  import opened Utils
  import opened GitHubRefresh

  const EmptyResponseMessage := "Empty response from refresh token API"
  /** What Node reports for `response.data` when `makeHttpRequest` returns
      nothing, which it does only when asked for no attempts at all. */
  const NoResponseTypeError := "Cannot read properties of undefined (reading 'data')"

  /** One run: how it ended, the request it sent, and config.json and
      config.json.backup afterwards. */
  datatype LocalRun = LocalRun(end: RefreshEnd, sent: Option<Request>, current: Option<Config>, backup: Option<Config>)

  /** The error the try block throws when the request yields no response. */
  function LocalRequestError(result: RequestResult): string
    requires !result.Returned?
  {
    if result.Threw? then result.message else NoResponseTypeError
  }

  /** `utils.updateConfig(updates)` on a store whose file holds `config`:
      the merge is written after the backup, unless the disk fails. */
  function StoreUpdate(config: Config, backup: Option<Config>, sent: Option<Request>, updates: Config, fault: DiskFault): LocalRun {
    match fault
    case CopyFails(m, leftoverBackup) => LocalRun(RefreshFailed(m), sent, Some(config), leftoverBackup)
    case WriteFails(m, leftover) => LocalRun(RefreshFailed(m), sent, leftover, Some(config))
    case NoFault => LocalRun(Refreshed(updates), sent, Some(Merge(config, updates)), Some(config))
  }

  /** The try block once a response has arrived. */
  function LocalAfterResponse(config: Config, backup: Option<Config>, sent: Option<Request>, response: Response, fault: DiskFault): LocalRun {
    if response.data.None? then LocalRun(RefreshFailed(EmptyResponseMessage), sent, Some(config), backup)
    else
      var updates := BodyUpdates(response.data.value);
      if |updates| == 0 then LocalRun(NoUpdates, sent, Some(config), backup)
      else StoreUpdate(config, backup, sent, updates, fault)
  }

  /** `refreshTokens()` of refresh-token.js on a store holding `current`
      and `backup`; an end of RefreshFailed(m) means the catch block ran
      with message m. */
  function LocalRefreshRun(current: Option<Config>, backup: Option<Config>, network: seq<Attempt>, fault: DiskFault): (run: LocalRun)
    requires DefaultRetries <= |network|
    ensures run.sent.None? ==> run.end.RefreshFailed? && run.current == current && run.backup == backup
  {
    if current.None? then LocalRun(RefreshFailed(ConfigFileMissing), None, current, backup)
    else
      var config := current.value;
      match ValidateConfig(config, RefreshFields)
      case Fail(e) => LocalRun(RefreshFailed(e), None, current, backup)
      case Pass =>
        var sent := Some(RefreshRequest(config));
        var result := RetrySpec(network, DefaultRetries).result;
        if !result.Returned? then LocalRun(RefreshFailed(LocalRequestError(result)), sent, current, backup)
        else LocalAfterResponse(config, backup, sent, result.response, fault)
  }

  /** The body checks of refresh-token.js: AccessToken and RefreshToken when
      truthy, Amount whenever it is defined. */
  method CollectUpdates(body: map<string, string>) returns (updates: Config)
    ensures updates == BodyUpdates(body)
  {
    updates := map[];
    if TruthyAt(body, AccessToken) {
      updates := updates[AccessToken := body[AccessToken]];
    }
    if TruthyAt(body, RefreshToken) {
      updates := updates[RefreshToken := body[RefreshToken]];
    }
    if Amount in body {
      updates := updates[Amount := body[Amount]];
    }
  }

  /** From the response to the end of the try block. */
  method ApplyResponse(store: ConfigStore, config: Config, sent: Option<Request>, response: Response, fault: DiskFault)
    returns (end: RefreshEnd)
    requires store.current == Some(config)
    modifies store
    ensures var run := LocalAfterResponse(config, old(store.backup), sent, response, fault);
      end == run.end && store.current == run.current && store.backup == run.backup
  {
    if response.data.None? {
      return RefreshFailed(EmptyResponseMessage);
    }
    var updates := CollectUpdates(response.data.value);
    if |updates| == 0 {
      return NoUpdates;
    }
    var written := store.UpdateConfig(updates, fault);
    if written.Err? {
      return RefreshFailed(written.error);
    }
    return Refreshed(updates);
  }

  /** `refreshTokens()`: the try block over the file store and a scripted
      network; `process.exit(1)` in the catch block is ExitStatus(end). */
  method RefreshTokens(store: ConfigStore, network: seq<Attempt>, fault: DiskFault)
    returns (end: RefreshEnd, sent: Option<Request>)
    requires DefaultRetries <= |network|
    modifies store
    ensures var run := LocalRefreshRun(old(store.current), old(store.backup), network, fault);
      end == run.end && sent == run.sent && store.current == run.current && store.backup == run.backup
  {
    var read := store.ReadConfig();
    if read.Err? {
      return RefreshFailed(read.error), None;
    }
    var config := read.value;
    var valid := ValidateConfig(config, RefreshFields);
    if valid.Fail? {
      return RefreshFailed(valid.error), None;
    }
    var request := RefreshRequest(config);
    sent := Some(request);
    var result, attempts, delays := MakeHttpRequest(request, DefaultRetries, network);
    if !result.Returned? {
      return RefreshFailed(LocalRequestError(result)), sent;
    }
    end := ApplyResponse(store, config, sent, result.response, fault);
  }

  // ----- properties of a run -----

  /** A run that did not refresh keeps config.json as it was unless the
      write itself failed, and then the backup holds the previous file. The
      backup is untouched or a copy of that file, except after a failed copy,
      which leaves config.json intact and the backup as the fault says. */
  lemma LocalFailureKeepsPrevious(current: Option<Config>, backup: Option<Config>, network: seq<Attempt>, fault: DiskFault)
    requires DefaultRetries <= |network|
    ensures var run := LocalRefreshRun(current, backup, network, fault);
      !run.end.Refreshed? ==>
        && (run.current == current || (fault.WriteFails? && run.current == fault.leftover))
        && (run.current != current ==> run.backup == current && run.end == RefreshFailed(fault.message))
        && (!fault.WriteFails? ==> run.current == current)
        && (run.backup != backup && run.backup != current ==>
              fault.CopyFails? && run.backup == fault.leftoverBackup && run.current == current
              && run.end == RefreshFailed(fault.message))
        && (run.end.RefreshFailed? <==> ExitStatus(run.end) == 1)
  {
  }

  /** A successful run writes config.json merged with the body updates of
      the response and keeps the previous file as the backup. */
  lemma LocalSuccessMerges(current: Option<Config>, backup: Option<Config>, network: seq<Attempt>, fault: DiskFault)
    requires DefaultRetries <= |network|
    ensures var run := LocalRefreshRun(current, backup, network, fault);
      var result := RetrySpec(network, DefaultRetries).result;
      run.end.Refreshed? ==>
        && current.Some?
        && !IsMissing(current.value, RefreshToken)
        && result.Returned? && result.response.data.Some?
        && run.end.updates == BodyUpdates(result.response.data.value)
        && |run.end.updates| > 0
        && run.current == Some(Merge(current.value, run.end.updates))
        && run.backup == current
        && fault.NoFault?
  {
  }

  /** A response without a body is an error; a body without updates leaves
      both files alone and ends the run normally. */
  lemma LocalEmptyBody(current: Option<Config>, backup: Option<Config>, network: seq<Attempt>, fault: DiskFault)
    requires DefaultRetries <= |network|
    requires current.Some? && !IsMissing(current.value, RefreshToken)
    requires RetrySpec(network, DefaultRetries).result.Returned?
    ensures var run := LocalRefreshRun(current, backup, network, fault);
      var data := RetrySpec(network, DefaultRetries).result.response.data;
      && (data.None? ==> run.end == RefreshFailed(EmptyResponseMessage))
      && (data.Some? && |BodyUpdates(data.value)| == 0 ==>
            run.end == NoUpdates && run.current == current && run.backup == backup)
      && run.sent == Some(RefreshRequest(current.value))
  {
    assert ValidateConfig(current.value, RefreshFields).Pass?;
  }

  /** Without config.json, or without a usable RefreshToken in it, no
      request is sent. */
  lemma LocalNoRequestWithoutRefreshToken(current: Option<Config>, backup: Option<Config>, network: seq<Attempt>, fault: DiskFault)
    requires DefaultRetries <= |network|
    ensures var run := LocalRefreshRun(current, backup, network, fault);
      && (current.None? ==> run.end == RefreshFailed(ConfigFileMissing) && run.sent == None)
      && (current.Some? && IsMissing(current.value, RefreshToken) ==>
            run.end == RefreshFailed(MissingFieldsPrefix + "RefreshToken") && run.sent == None)
      && (current.Some? && !IsMissing(current.value, RefreshToken) ==> run.sent == Some(RefreshRequest(current.value)))
  {
    if current.Some? && IsMissing(current.value, RefreshToken) {
      assert MissingFields(current.value, RefreshFields) == [RefreshToken] by {
        assert RefreshFields[1..] == [];
      }
    }
  }

  /** The two refresh scripts agree on a response whose headers carry no
      token: the GitHub variant then applies exactly the body updates. */
  lemma ScriptsAgreeWithoutHeaderTokens(h: Headers, body: map<string, string>)
    requires HeaderTokens(h) == map[]
    ensures RefreshUpdates(h, Some(body)) == BodyUpdates(body)
  {
    RefreshUpdatesExtendBodyUpdates(h, body);
    assert Merge(BodyUpdates(body), map[]) == BodyUpdates(body);
  }
}
