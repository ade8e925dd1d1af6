/** The GitHub Actions token refresh, github-refresh-token.js: read the
    configuration, send the refresh request with retries, take the rotated
    tokens from the response headers and body, report them as workflow
    outputs (or write them to config.json outside Actions), and report a
    failure as outputs plus exit status 1.

    `extractTokensFromHeaders` and `refreshTokens` are methods over the
    Actions utility object; each is proved equal to a specification function
    (HeaderMasks / HeaderTokens, GitHubRefreshRun), and the properties of the
    script are lemmas about those functions. */
module GitHubRefresh {
  import opened Js
  import opened Config
  import opened Http
  import opened GitHubActionsUtils
  import opened Requests
  import opened TokenExtraction

  const NoResponseMessage := "No response from refresh token API"
  /** What Node reports for `config.AccessToken.substring(...)` when the
      configuration has no AccessToken. */
  const SubstringTypeError := "Cannot read properties of undefined (reading 'substring')"

  /** How `refreshTokens` ends: with updates applied, with nothing to apply,
      or in the catch block with the error's message. */
  datatype RefreshEnd = Refreshed(updates: Config) | NoUpdates | RefreshFailed(message: string)

  /** One run: how it ended, the request it sent (if it got that far), the
      workflow commands it printed and config.json afterwards. */
  datatype RefreshRun = RefreshRun(end: RefreshEnd, sent: Option<Request>, commands: seq<Command>, file: Option<Config>)

  /** `process.exit(1)` in the catch block, exit status 0 from `run()` otherwise. */
  function ExitStatus(end: RefreshEnd): int {
    if end.RefreshFailed? then 1 else 0
  }

  // ----- masks printed while extracting tokens -----

  /** The masks one turn of the Set-Cookie loop prints. */
  function CookieStepMasks(cookie: string): seq<Command> {
    (if Captures(cookie, AccessToken) then MaskOf(CaptureOf(cookie, AccessToken)) else [])
    + (if Captures(cookie, RefreshToken) then MaskOf(CaptureOf(cookie, RefreshToken)) else [])
  }

  /** The masks the Set-Cookie loop prints for `cookies`, in order. */
  function CookieMasks(cookies: seq<string>): seq<Command> {
    if cookies == [] then []
    else CookieMasks(cookies[..|cookies| - 1]) + CookieStepMasks(cookies[|cookies| - 1])
  }

  /** The masks the single-header steps print: the stripped `authorization`
      value, `x-access-token`, then `x-refresh-token`. */
  function TokenHeaderMasks(fields: map<string, string>): seq<Command> {
    (if TruthyAt(fields, "authorization") then MaskOf(StripBearer(fields["authorization"])) else [])
    + (if TruthyAt(fields, "x-access-token") then MaskOf(fields["x-access-token"]) else [])
    + (if TruthyAt(fields, "x-refresh-token") then MaskOf(fields["x-refresh-token"]) else [])
  }

  /** The masks `extractTokensFromHeaders` prints, in order. */
  function HeaderMasks(h: Headers): seq<Command> {
    CookieMasks(h.setCookie) + TokenHeaderMasks(h.fields)
  }

  /** The masks printed for the body tokens, each only when truthy. */
  function BodyMasks(data: Option<map<string, string>>): seq<Command> {
    if data.None? then []
    else MaskOf(ValueOrEmpty(data.value, AccessToken)) + MaskOf(ValueOrEmpty(data.value, RefreshToken))
  }

  /** `tokens.<field> = value; utils.maskValue(value)`: the step every
      token source shares. */
  method SetToken(utils: ActionsUtils, tokens: Config, field: string, value: string) returns (next: Config)
    modifies utils`commands
    ensures next == tokens[field := value]
    ensures utils.commands == old(utils.commands) + Emit(utils.env, MaskOf(value))
  {
    next := tokens[field := value];
    utils.MaskValue(value);
  }

  /** One turn of the Set-Cookie loop: both patterns, each match stored and
      masked. */
  method CookieTurn(utils: ActionsUtils, tokens: Config, cookie: string) returns (next: Config)
    modifies utils`commands
    ensures next == CookieStep(tokens, cookie)
    ensures utils.commands == old(utils.commands) + Emit(utils.env, CookieStepMasks(cookie))
  {
    next := tokens;
    var authMasks: seq<Command> := [];
    var authMatch := CookieCapture(cookie, AuthCookieKey);
    if authMatch.Some? {
      next := SetToken(utils, next, AccessToken, authMatch.value);
      authMasks := MaskOf(authMatch.value);
    }
    var refreshMasks: seq<Command> := [];
    var refreshMatch := CookieCapture(cookie, RefreshCookieKey);
    if refreshMatch.Some? {
      next := SetToken(utils, next, RefreshToken, refreshMatch.value);
      refreshMasks := MaskOf(refreshMatch.value);
    }
    EmitExtend(utils.env, old(utils.commands), authMasks, refreshMasks);
  }

  /** The loop's functions advance by one cookie at a time. */
  lemma CookiePrefixStep(cookies: seq<string>, k: nat)
    requires k < |cookies|
    ensures CookieTokens(cookies[..k + 1]) == CookieStep(CookieTokens(cookies[..k]), cookies[k])
    ensures CookieMasks(cookies[..k + 1]) == CookieMasks(cookies[..k]) + CookieStepMasks(cookies[k])
  {
    assert cookies[..k + 1][..k] == cookies[..k];
  }

  /** `extractTokensFromHeaders(response)`: the Set-Cookie loop, then the
      three single headers. The try/catch around it never fires here: every
      step is total. */
  method ExtractTokensFromHeaders(utils: ActionsUtils, h: Headers) returns (tokens: Config)
    modifies utils`commands
    ensures tokens == HeaderTokens(h)
    ensures utils.commands == old(utils.commands) + Emit(utils.env, HeaderMasks(h))
  {
    tokens := map[];
    var cookies := h.setCookie;
    var k := 0;
    while k < |cookies|
      invariant 0 <= k <= |cookies|
      invariant tokens == CookieTokens(cookies[..k])
      invariant utils.commands == old(utils.commands) + Emit(utils.env, CookieMasks(cookies[..k]))
    {
      tokens := CookieTurn(utils, tokens, cookies[k]);
      CookiePrefixStep(cookies, k);
      EmitExtend(utils.env, old(utils.commands), CookieMasks(cookies[..k]), CookieStepMasks(cookies[k]));
      k := k + 1;
    }
    assert cookies[..k] == cookies;
    tokens := SingleHeaderTurns(utils, tokens, h.fields);
    EmitExtend(utils.env, old(utils.commands), CookieMasks(cookies), TokenHeaderMasks(h.fields));
  }

  /** The `authorization`, `x-access-token` and `x-refresh-token` steps. */
  method SingleHeaderTurns(utils: ActionsUtils, tokens: Config, fields: map<string, string>) returns (next: Config)
    modifies utils`commands
    ensures next == ApplyTokenHeaders(tokens, fields)
    ensures utils.commands == old(utils.commands) + Emit(utils.env, TokenHeaderMasks(fields))
  {
    next := tokens;
    var a: seq<Command> := [];
    var b: seq<Command> := [];
    var c: seq<Command> := [];
    if TruthyAt(fields, "authorization") {
      next := SetToken(utils, next, AccessToken, StripBearer(fields["authorization"]));
      a := MaskOf(StripBearer(fields["authorization"]));
    }
    if TruthyAt(fields, "x-access-token") {
      next := SetToken(utils, next, AccessToken, fields["x-access-token"]);
      b := MaskOf(fields["x-access-token"]);
    }
    EmitExtend(utils.env, old(utils.commands), a, b);
    if TruthyAt(fields, "x-refresh-token") {
      next := SetToken(utils, next, RefreshToken, fields["x-refresh-token"]);
      c := MaskOf(fields["x-refresh-token"]);
    }
    EmitExtend(utils.env, old(utils.commands), a + b, c);
  }

  // ----- the run -----

  /** The line at github-refresh-token.js:182 reads `config.AccessToken`
      whenever the new AccessToken is truthy and differs from the current
      one; when the configuration has no AccessToken the two always differ
      and `substring` is called on undefined. */
  predicate AccessTokenLogCrashes(config: Config, updates: Config) {
    TruthyAt(updates, AccessToken) && AccessToken !in config
  }

  /** The outputs set after a successful update inside Actions. */
  function SuccessOutputs(updates: Config): seq<Command> {
    (if TruthyAt(updates, AccessToken) then [Output("access_token", updates[AccessToken])] else [])
    + (if TruthyAt(updates, RefreshToken) then [Output("refresh_token", updates[RefreshToken])] else [])
    + [Output("tokens_updated", "true")]
  }

  /** The outputs the catch block sets inside Actions. */
  function FailureOutputs(message: string): seq<Command> {
    [Output("tokens_updated", "false"), Output("error", message)]
  }

  /** config.json after `utils.updateConfig(updates)`: untouched inside
      Actions, the merge of its contents (or of `{}`) with the updates elsewhere. */
  function UpdatedFile(env: Env, file: Option<Config>, updates: Config): Option<Config> {
    if InActions(env) then file else Some(Merge(file.GetOr(map[]), updates))
  }

  /** The error the try block throws when the request yields no response. */
  function RequestError(result: RequestResult): string
    requires !result.Returned?
  {
    if result.Threw? then result.message else NoResponseMessage
  }

  /** The end of the try block once the updates are known: nothing to do
      when they are empty, the crash of the change log, or the update and
      its outputs. `commands` are the ones this stage prints. */
  function Conclusion(env: Env, file: Option<Config>, config: Config, sent: Option<Request>, updates: Config): (r: RefreshRun)
    ensures r.sent == sent
  {
    if |updates| == 0 then RefreshRun(NoUpdates, sent, [], file)
    else if AccessTokenLogCrashes(config, updates) then RefreshRun(RefreshFailed(SubstringTypeError), sent, [], file)
    else RefreshRun(Refreshed(updates), sent,
                    Emit(env, TokenOutputs(updates) + SuccessOutputs(updates)),
                    UpdatedFile(env, file, updates))
  }

  /** The try block once a response has arrived: extraction, merge and
      conclusion. `commands` are the ones this stage prints. */
  function AfterResponse(env: Env, file: Option<Config>, config: Config, sent: Option<Request>, response: Response): (r: RefreshRun)
    ensures r.sent == sent
  {
    var done := Conclusion(env, file, config, sent, RefreshUpdates(response.headers, response.data));
    done.(commands := Emit(env, HeaderMasks(response.headers) + BodyMasks(response.data)) + done.commands)
  }

  /** The try block once the retry loop has ended with `result`: the error
      it throws without a response, else the handling of the response. */
  function AfterResult(env: Env, file: Option<Config>, config: Config, sent: Option<Request>, result: RequestResult): (r: RefreshRun)
    ensures r.sent == sent
  {
    if !result.Returned? then RefreshRun(RefreshFailed(RequestError(result)), sent, [], file)
    else AfterResponse(env, file, config, sent, result.response)
  }

  /** The try block from the masking of the current tokens on, for a
      configuration that passed validation. */
  function RefreshWithConfig(env: Env, file: Option<Config>, config: Config, network: seq<Attempt>): RefreshRun
    requires DefaultRetries <= |network|
  {
    var rest := AfterResult(env, file, config, Some(RefreshRequest(config)), RetrySpec(network, DefaultRetries).result);
    rest.(commands := Emit(env, CurrentTokenMasks(config)) + rest.commands)
  }

  /** The try block of `refreshTokens`; an end of RefreshFailed(m) means it
      threw an error with message m, after printing `commands`. */
  function RefreshTry(env: Env, file: Option<Config>, network: seq<Attempt>): RefreshRun
    requires DefaultRetries <= |network|
  {
    match GetConfig(env, file)
    case Err(e) => RefreshRun(RefreshFailed(e), None, [], file)
    case Ok(config) =>
      match ValidateConfig(config, RefreshFields)
      case Fail(e) => RefreshRun(RefreshFailed(e), None, [], file)
      case Pass => RefreshWithConfig(env, file, config, network)
  }

  /** `refreshTokens()` as a whole: the try block, then the catch block's
      failure outputs when it threw. */
  function GitHubRefreshRun(env: Env, file: Option<Config>, network: seq<Attempt>): (run: RefreshRun)
    requires DefaultRetries <= |network|
    ensures run.sent.None? ==> run.end.RefreshFailed? && run.file == file
  {
    var run := RefreshTry(env, file, network);
    if run.end.RefreshFailed? then run.(commands := run.commands + Emit(env, FailureOutputs(run.end.message)))
    else run
  }

  /** The body tokens: each of AccessToken and RefreshToken stored and
      masked when truthy. */
  method CollectBodyTokens(utils: ActionsUtils, data: Option<map<string, string>>) returns (bodyTokens: Config)
    modifies utils`commands
    ensures bodyTokens == BodyTokens(data)
    ensures utils.commands == old(utils.commands) + Emit(utils.env, BodyMasks(data))
  {
    bodyTokens := map[];
    if data.Some? {
      var body := data.value;
      var a: seq<Command> := [];
      var b: seq<Command> := [];
      if TruthyAt(body, AccessToken) {
        bodyTokens := SetToken(utils, bodyTokens, AccessToken, body[AccessToken]);
        a := MaskOf(body[AccessToken]);
      }
      if TruthyAt(body, RefreshToken) {
        bodyTokens := SetToken(utils, bodyTokens, RefreshToken, body[RefreshToken]);
        b := MaskOf(body[RefreshToken]);
      }
      EmitExtend(utils.env, old(utils.commands), a, b);
    }
  }

  /** The `if (process.env.GITHUB_ACTIONS)` block after a successful update. */
  method ReportTokens(utils: ActionsUtils, updates: Config)
    modifies utils`commands
    ensures utils.commands == old(utils.commands) + Emit(utils.env, SuccessOutputs(updates))
  {
    if InActions(utils.env) {
      if TruthyAt(updates, AccessToken) {
        utils.SetOutput("access_token", updates[AccessToken]);
      }
      if TruthyAt(updates, RefreshToken) {
        utils.SetOutput("refresh_token", updates[RefreshToken]);
      }
      utils.SetOutput("tokens_updated", "true");
    }
  }

  /** From the empty-updates check to the end of the try block. */
  method ApplyUpdates(utils: ActionsUtils, config: Config, sent: Option<Request>, updates: Config) returns (end: RefreshEnd)
    modifies utils
    ensures var run := Conclusion(utils.env, old(utils.file), config, sent, updates);
      end == run.end && utils.file == run.file && utils.commands == old(utils.commands) + run.commands
  {
    if |updates| == 0 {
      return NoUpdates;
    }
    if TruthyAt(updates, AccessToken) {
      var changed := AccessToken !in config || updates[AccessToken] != config[AccessToken];
      if changed && AccessToken !in config {
        return RefreshFailed(SubstringTypeError);
      }
    }
    utils.UpdateConfig(updates);
    ReportTokens(utils, updates);
    EmitExtend(utils.env, old(utils.commands), TokenOutputs(updates), SuccessOutputs(updates));
    return Refreshed(updates);
  }

  /** From the response to the end of the try block. */
  method HandleResponse(utils: ActionsUtils, config: Config, sent: Option<Request>, response: Response) returns (end: RefreshEnd)
    modifies utils
    ensures var run := AfterResponse(utils.env, old(utils.file), config, sent, response);
      end == run.end && utils.file == run.file && utils.commands == old(utils.commands) + run.commands
  {
    var headerTokens := ExtractTokensFromHeaders(utils, response.headers);
    var bodyTokens := CollectBodyTokens(utils, response.data);
    EmitExtend(utils.env, old(utils.commands), HeaderMasks(response.headers), BodyMasks(response.data));
    var updates := Merge(bodyTokens, headerTokens);
    if response.data.Some? && Amount in response.data.value {
      updates := updates[Amount := response.data.value[Amount]];
    }
    assert updates == RefreshUpdates(response.headers, response.data);
    ghost var extracted := Emit(utils.env, HeaderMasks(response.headers) + BodyMasks(response.data));
    ghost var done := Conclusion(utils.env, utils.file, config, sent, updates);
    end := ApplyUpdates(utils, config, sent, updates);
    LogAssoc(old(utils.commands), extracted, done.commands);
  }

  /** The try block from the masking of the current tokens on. */
  method RequestAndApply(utils: ActionsUtils, config: Config, network: seq<Attempt>) returns (end: RefreshEnd, sent: Option<Request>)
    requires DefaultRetries <= |network|
    modifies utils
    ensures var run := RefreshWithConfig(utils.env, old(utils.file), config, network);
      end == run.end && sent == run.sent && utils.file == run.file
      && utils.commands == old(utils.commands) + run.commands
  {
    ghost var masks := Emit(utils.env, CurrentTokenMasks(config));
    MaskCurrentTokens(utils, config);
    var request := RefreshRequest(config);
    sent := Some(request);
    var result, attempts, delays := MakeHttpRequest(request, DefaultRetries, network);
    ghost var rest := AfterResult(utils.env, utils.file, config, sent, result);
    end := HandleResult(utils, config, sent, result);
    LogAssoc(old(utils.commands), masks, rest.commands);
  }

  /** What follows the retry loop in the try block. */
  method HandleResult(utils: ActionsUtils, config: Config, sent: Option<Request>, result: RequestResult) returns (end: RefreshEnd)
    modifies utils
    ensures var run := AfterResult(utils.env, old(utils.file), config, sent, result);
      end == run.end && utils.file == run.file && utils.commands == old(utils.commands) + run.commands
  {
    if !result.Returned? {
      return RefreshFailed(RequestError(result));
    }
    end := HandleResponse(utils, config, sent, result.response);
  }

  /** The try block of `refreshTokens()`, over the Actions utility object and
      a scripted network. */
  method TryRefresh(utils: ActionsUtils, network: seq<Attempt>) returns (end: RefreshEnd, sent: Option<Request>)
    requires DefaultRetries <= |network|
    modifies utils
    ensures var run := RefreshTry(utils.env, old(utils.file), network);
      end == run.end && sent == run.sent && utils.file == run.file
      && utils.commands == old(utils.commands) + run.commands
  {
    var got := GetConfig(utils.env, utils.file);
    if got.Err? {
      return RefreshFailed(got.error), None;
    }
    var valid := ValidateConfig(got.value, RefreshFields);
    if valid.Fail? {
      return RefreshFailed(valid.error), None;
    }
    end, sent := RequestAndApply(utils, got.value, network);
  }

  /** `refreshTokens()`: the try block, and on a throw the failure outputs.
      `process.exit(1)` is the exit status of the end (ExitStatus). */
  method RefreshTokens(utils: ActionsUtils, network: seq<Attempt>) returns (end: RefreshEnd, sent: Option<Request>)
    requires DefaultRetries <= |network|
    modifies utils
    ensures var run := GitHubRefreshRun(utils.env, old(utils.file), network);
      end == run.end && sent == run.sent && utils.file == run.file
      && utils.commands == old(utils.commands) + run.commands
  {
    end, sent := TryRefresh(utils, network);
    if end.RefreshFailed? {
      ghost var tried := utils.commands;
      ReportFailure(utils, end.message);
      LogAssoc(old(utils.commands), tried[|old(utils.commands)|..], Emit(utils.env, FailureOutputs(end.message)));
      assert tried == old(utils.commands) + tried[|old(utils.commands)|..];
    }
  }

  /** The catch block's outputs for an error with message `message`. */
  method ReportFailure(utils: ActionsUtils, message: string)
    modifies utils`commands
    ensures utils.commands == old(utils.commands) + Emit(utils.env, FailureOutputs(message))
  {
    if InActions(utils.env) {
      utils.SetOutput("tokens_updated", "false");
      utils.SetOutput("error", message);
    }
  }

  // ----- properties of a run -----

  /** Commands that are all masks. */
  predicate AllMasks(cmds: seq<Command>) {
    forall i :: 0 <= i < |cmds| ==> cmds[i].Mask?
  }

  /** No token output in `cmds` comes before the mask of its value. */
  predicate TokenOutputsMasked(cmds: seq<Command>) {
    forall i :: 0 <= i < |cmds| && cmds[i].Output? && cmds[i].name in {"access_token", "refresh_token"} ==>
      Mask(cmds[i].value) in cmds[..i]
  }

  lemma AllMasksAppend(a: seq<Command>, b: seq<Command>)
    requires AllMasks(a) && AllMasks(b)
    ensures AllMasks(a + b)
  {
    forall i | 0 <= i < |a + b| ensures (a + b)[i].Mask? {
      if i < |a| {
        assert (a + b)[i] == a[i];
      } else {
        assert (a + b)[i] == b[i - |a|];
      }
    }
  }

  lemma {:induction false} CookieMasksAreMasks(cookies: seq<string>)
    ensures AllMasks(CookieMasks(cookies))
  {
    if cookies != [] {
      var last := cookies[|cookies| - 1];
      CookieMasksAreMasks(cookies[..|cookies| - 1]);
      assert AllMasks(CookieStepMasks(last));
      AllMasksAppend(CookieMasks(cookies[..|cookies| - 1]), CookieStepMasks(last));
    }
  }

  lemma TokenHeaderMasksAreMasks(fields: map<string, string>)
    ensures AllMasks(TokenHeaderMasks(fields))
  {
    var a := if TruthyAt(fields, "authorization") then MaskOf(StripBearer(fields["authorization"])) else [];
    var b := if TruthyAt(fields, "x-access-token") then MaskOf(fields["x-access-token"]) else [];
    var c := if TruthyAt(fields, "x-refresh-token") then MaskOf(fields["x-refresh-token"]) else [];
    AllMasksAppend(a, b);
    AllMasksAppend(a + b, c);
  }

  lemma BodyMasksAreMasks(data: Option<map<string, string>>)
    ensures AllMasks(BodyMasks(data))
  {
    if data.Some? {
      AllMasksAppend(MaskOf(ValueOrEmpty(data.value, AccessToken)), MaskOf(ValueOrEmpty(data.value, RefreshToken)));
    }
  }

  lemma CurrentTokenMasksAreMasks(config: Config)
    ensures AllMasks(CurrentTokenMasks(config))
  {
    AllMasksAppend(MaskOf(ValueOrEmpty(config, AccessToken)), MaskOf(ValueOrEmpty(config, RefreshToken)));
  }

  /** Everything the try block prints before its conclusion is a mask. */
  lemma ExtractionPrintsMasks(env: Env, config: Config, response: Response)
    ensures AllMasks(Emit(env, CurrentTokenMasks(config)) + Emit(env, HeaderMasks(response.headers) + BodyMasks(response.data)))
  {
    var h := response.headers;
    CookieMasksAreMasks(h.setCookie);
    TokenHeaderMasksAreMasks(h.fields);
    AllMasksAppend(CookieMasks(h.setCookie), TokenHeaderMasks(h.fields));
    BodyMasksAreMasks(response.data);
    AllMasksAppend(HeaderMasks(h), BodyMasks(response.data));
    CurrentTokenMasksAreMasks(config);
    AllMasksAppend(Emit(env, CurrentTokenMasks(config)), Emit(env, HeaderMasks(h) + BodyMasks(response.data)));
  }

  /** A log that starts with masks only keeps its token outputs masked when
      the rest does. */
  lemma MaskedAfterMasks(masks: seq<Command>, rest: seq<Command>)
    requires AllMasks(masks) && TokenOutputsMasked(rest)
    ensures TokenOutputsMasked(masks + rest)
  {
    var all := masks + rest;
    forall i | 0 <= i < |all| && all[i].Output? && all[i].name in {"access_token", "refresh_token"}
      ensures Mask(all[i].value) in all[..i]
    {
      var j := i - |masks|;
      assert all[i] == rest[j];
      var k :| 0 <= k < j && rest[..j][k] == Mask(rest[j].value);
      assert all[..i][|masks| + k] == rest[k];
    }
  }

  /** The outputs of a successful update: each token's mask comes first. */
  lemma SuccessTailMasked(updates: Config)
    ensures TokenOutputsMasked(TokenOutputs(updates) + SuccessOutputs(updates))
  {
    var tail := TokenOutputs(updates) + SuccessOutputs(updates);
    var a := TokenOutputs(updates);
    forall i | 0 <= i < |tail| && tail[i].Output? && tail[i].name in {"access_token", "refresh_token"}
      ensures Mask(tail[i].value) in tail[..i]
    {
      if tail[i].name == "access_token" {
        assert TruthyAt(updates, AccessToken) && tail[i].value == updates[AccessToken];
        assert tail[..i][0] == Mask(updates[AccessToken]);
      } else {
        assert TruthyAt(updates, RefreshToken) && tail[i].value == updates[RefreshToken];
        var m := if TruthyAt(updates, AccessToken) then 2 else 0;
        assert a[m] == Mask(updates[RefreshToken]);
        assert tail[..i][m] == Mask(updates[RefreshToken]);
      }
    }
  }

  /** The run of a configuration that passed validation. */
  lemma ValidatedRun(env: Env, file: Option<Config>, network: seq<Attempt>, config: Config)
    requires DefaultRetries <= |network|
    requires GetConfig(env, file) == Ok(config)
    requires !IsMissing(config, RefreshToken)
    ensures RefreshTry(env, file, network) == RefreshWithConfig(env, file, config, network)
  {
    assert ValidateConfig(config, RefreshFields).Pass?;
  }

  /** The run once a response has arrived: the current-token masks, the
      extraction masks, then whatever the conclusion prints. */
  lemma AnsweredRun(env: Env, file: Option<Config>, config: Config, network: seq<Attempt>, response: Response)
    requires DefaultRetries <= |network|
    requires RetrySpec(network, DefaultRetries).result == Returned(response)
    ensures var done := Conclusion(env, file, config, Some(RefreshRequest(config)), RefreshUpdates(response.headers, response.data));
      RefreshWithConfig(env, file, config, network)
        == done.(commands := Emit(env, CurrentTokenMasks(config))
                             + Emit(env, HeaderMasks(response.headers) + BodyMasks(response.data))
                             + done.commands)
  {
    var done := Conclusion(env, file, config, Some(RefreshRequest(config)), RefreshUpdates(response.headers, response.data));
    LogAssoc(Emit(env, CurrentTokenMasks(config)), Emit(env, HeaderMasks(response.headers) + BodyMasks(response.data)), done.commands);
  }

  /** A new AccessToken arriving for a configuration that has none crashes
      the change log of github-refresh-token.js:182: the run ends in the
      catch block with the TypeError, config.json is untouched, and inside
      Actions the failure outputs close the log. */
  lemma AccessTokenHazard(env: Env, file: Option<Config>, network: seq<Attempt>, config: Config, response: Response)
    requires DefaultRetries <= |network|
    requires GetConfig(env, file) == Ok(config)
    requires !IsMissing(config, RefreshToken)
    requires RetrySpec(network, DefaultRetries).result == Returned(response)
    requires AccessToken !in config
    requires TruthyAt(RefreshUpdates(response.headers, response.data), AccessToken)
    ensures var run := GitHubRefreshRun(env, file, network);
      && run.end == RefreshFailed(SubstringTypeError)
      && ExitStatus(run.end) == 1
      && run.file == file
      && run.commands == Emit(env, CurrentTokenMasks(config))
                       + Emit(env, HeaderMasks(response.headers) + BodyMasks(response.data))
                       + Emit(env, FailureOutputs(SubstringTypeError))
  {
    var updates := RefreshUpdates(response.headers, response.data);
    var sent := Some(RefreshRequest(config));
    var printed := Emit(env, CurrentTokenMasks(config)) + Emit(env, HeaderMasks(response.headers) + BodyMasks(response.data));
    var crashed := RefreshRun(RefreshFailed(SubstringTypeError), sent, printed, file);
    assert RefreshWithConfig(env, file, config, network) == crashed by {
      CrashConclusion(env, file, config, sent, updates);
      AnsweredRun(env, file, config, network, response);
      assert printed + [] == printed;
    }
    ValidatedRun(env, file, network, config);
  }

  /** The conclusion when the change log crashes. */
  lemma CrashConclusion(env: Env, file: Option<Config>, config: Config, sent: Option<Request>, updates: Config)
    requires AccessTokenLogCrashes(config, updates)
    ensures Conclusion(env, file, config, sent, updates) == RefreshRun(RefreshFailed(SubstringTypeError), sent, [], file)
  {
    assert AccessToken in updates.Keys;
    assert |updates| != 0;
  }

  /** The hazard on the first run inside Actions, before any AccessToken
      secret exists: REFRESH_TOKEN alone is set and the server answers with
      an `x-access-token` header. */
  lemma FirstRunHazardExample(env: Env, reply: Attempt, network: seq<Attempt>)
    requires env == map["GITHUB_ACTIONS" := "true", "REFRESH_TOKEN" := "r0"]
    requires reply == Answered(Response(200, "OK", Headers([], map["x-access-token" := "a1"]), None))
    requires network == [reply, reply, reply]
    ensures var run := GitHubRefreshRun(env, None, network);
      && run.end == RefreshFailed(SubstringTypeError)
      && run.commands == [Mask("r0"), Mask("a1"), Output("tokens_updated", "false"), Output("error", SubstringTypeError)]
  {
    var config := map[RefreshToken := "r0"];
    ExampleEnvConfig(env);
    FirstAttemptSucceeds(network, DefaultRetries);
    ExampleResponse(reply.response);
    AccessTokenHazard(env, None, network, config, reply.response);
    ExampleLog(env, config, reply.response);
  }

  lemma ExampleEnvConfig(env: Env)
    requires env == map["GITHUB_ACTIONS" := "true", "REFRESH_TOKEN" := "r0"]
    ensures GetConfig(env, None) == Ok(map[RefreshToken := "r0"])
    ensures !IsMissing(map[RefreshToken := "r0"], RefreshToken)
    ensures InActions(env)
    ensures CurrentTokenMasks(map[RefreshToken := "r0"]) == [Mask("r0")]
  {
    var config := map[RefreshToken := "r0"];
    assert EnvMode(env);
    assert EnvConfig(env) == config by {
      assert "ACCESS_TOKEN" !in env && "AMOUNT" !in env && "MONEYCARD_ID" !in env;
      assert EnvConfig(env).Keys == config.Keys;
    }
    assert !IsJsSpace(config[RefreshToken][0]);
  }

  lemma ExampleResponse(response: Response)
    requires response == Response(200, "OK", Headers([], map["x-access-token" := "a1"]), None)
    ensures RefreshUpdates(response.headers, response.data) == map[AccessToken := "a1"]
    ensures HeaderMasks(response.headers) + BodyMasks(response.data) == [Mask("a1")]
  {
    var none: seq<string> := [];
    assert CookieTokens(none) == map[];
    assert CookieMasks(none) == [];
    assert HeaderTokens(response.headers) == map[AccessToken := "a1"];
    assert TokenHeaderMasks(response.headers.fields) == [Mask("a1")];
  }

  lemma ExampleLog(env: Env, config: Config, response: Response)
    requires InActions(env)
    requires CurrentTokenMasks(config) == [Mask("r0")]
    requires HeaderMasks(response.headers) + BodyMasks(response.data) == [Mask("a1")]
    ensures Emit(env, CurrentTokenMasks(config))
            + Emit(env, HeaderMasks(response.headers) + BodyMasks(response.data))
            + Emit(env, FailureOutputs(SubstringTypeError))
            == [Mask("r0"), Mask("a1"), Output("tokens_updated", "false"), Output("error", SubstringTypeError)]
  {
  }

  /** A log of masks shows no token output. */
  lemma MasksAreMasked(cmds: seq<Command>)
    requires AllMasks(cmds)
    ensures TokenOutputsMasked(cmds)
  {
  }

  /** What the conclusion of the try block does, for any updates. */
  lemma ConclusionFacts(env: Env, file: Option<Config>, config: Config, sent: Option<Request>, updates: Config)
    ensures var done := Conclusion(env, file, config, sent, updates);
      && done.sent == sent
      && (done.end == NoUpdates <==> |updates| == 0)
      && (done.end.RefreshFailed? <==> |updates| > 0 && AccessTokenLogCrashes(config, updates))
      && (done.end.RefreshFailed? ==> done.end.message == SubstringTypeError)
      && (!done.end.Refreshed? ==> done.file == file && done.commands == [])
      && (done.end.Refreshed? ==>
            && done.end.updates == updates
            && done.file == UpdatedFile(env, file, updates)
            && done.commands == Emit(env, TokenOutputs(updates) + SuccessOutputs(updates)))
      && (!InActions(env) ==> done.commands == [])
      && TokenOutputsMasked(done.commands)
  {
    SuccessTailMasked(updates);
  }

  /** The request is sent as soon as the configuration has passed
      validation, and a request that yields no response ends the try block
      with its error. */
  lemma WithConfigRequest(env: Env, file: Option<Config>, config: Config, network: seq<Attempt>)
    requires DefaultRetries <= |network|
    ensures var run := RefreshWithConfig(env, file, config, network);
      var result := RetrySpec(network, DefaultRetries).result;
      && run.sent == Some(RefreshRequest(config))
      && (!result.Returned? ==> run.end == RefreshFailed(RequestError(result)) && run.file == file)
  {
    var result := RetrySpec(network, DefaultRetries).result;
    if result.Returned? {
      var response := result.response;
      AnsweredRun(env, file, config, network, response);
      ConclusionFacts(env, file, config, Some(RefreshRequest(config)), RefreshUpdates(response.headers, response.data));
    }
  }

  /** Unless it refreshes, the try block prints only masks and leaves
      config.json alone; outside Actions it prints nothing. */
  lemma WithConfigQuiet(env: Env, file: Option<Config>, config: Config, network: seq<Attempt>)
    requires DefaultRetries <= |network|
    ensures var run := RefreshWithConfig(env, file, config, network);
      && (!run.end.Refreshed? ==> run.file == file && AllMasks(run.commands))
      && (!InActions(env) ==> run.commands == [])
  {
    var result := RetrySpec(network, DefaultRetries).result;
    CurrentTokenMasksAreMasks(config);
    if result.Returned? {
      var response := result.response;
      var updates := RefreshUpdates(response.headers, response.data);
      var done := Conclusion(env, file, config, Some(RefreshRequest(config)), updates);
      var printed := Emit(env, CurrentTokenMasks(config)) + Emit(env, HeaderMasks(response.headers) + BodyMasks(response.data));
      AnsweredRun(env, file, config, network, response);
      ConclusionFacts(env, file, config, Some(RefreshRequest(config)), updates);
      ExtractionPrintsMasks(env, config, response);
      if !done.end.Refreshed? || !InActions(env) {
        assert printed + done.commands == printed;
      }
    }
  }

  /** A refresh applies the merged updates of the response it got. */
  lemma WithConfigRefreshed(env: Env, file: Option<Config>, config: Config, network: seq<Attempt>)
    requires DefaultRetries <= |network|
    ensures var run := RefreshWithConfig(env, file, config, network);
      var result := RetrySpec(network, DefaultRetries).result;
      run.end.Refreshed? ==>
        && result.Returned?
        && run.end.updates == RefreshUpdates(result.response.headers, result.response.data)
        && |run.end.updates| > 0
        && run.file == UpdatedFile(env, file, run.end.updates)
        && (InActions(env) ==> |run.commands| > 0 && run.commands[|run.commands| - 1] == Output("tokens_updated", "true"))
  {
    var result := RetrySpec(network, DefaultRetries).result;
    if result.Returned? {
      var response := result.response;
      var updates := RefreshUpdates(response.headers, response.data);
      var done := Conclusion(env, file, config, Some(RefreshRequest(config)), updates);
      var printed := Emit(env, CurrentTokenMasks(config)) + Emit(env, HeaderMasks(response.headers) + BodyMasks(response.data));
      AnsweredRun(env, file, config, network, response);
      if done.end.Refreshed? {
        RefreshedConclusion(env, file, config, Some(RefreshRequest(config)), updates);
        if InActions(env) {
          EndsWithSuccess(env, printed, updates);
        }
      }
    }
  }

  /** A conclusion that refreshes applies exactly the non-empty updates and,
      inside Actions, ends with `tokens_updated` true. */
  lemma RefreshedConclusion(env: Env, file: Option<Config>, config: Config, sent: Option<Request>, updates: Config)
    requires Conclusion(env, file, config, sent, updates).end.Refreshed?
    ensures var done := Conclusion(env, file, config, sent, updates);
      && done.end.updates == updates
      && |updates| > 0
      && done.file == UpdatedFile(env, file, updates)
      && done.commands == Emit(env, TokenOutputs(updates) + SuccessOutputs(updates))
  {
  }

  /** Inside Actions a log closed by the success outputs ends with
      `tokens_updated` true. */
  lemma EndsWithSuccess(env: Env, printed: seq<Command>, updates: Config)
    requires InActions(env)
    ensures var log := printed + Emit(env, TokenOutputs(updates) + SuccessOutputs(updates));
      |log| > 0 && log[|log| - 1] == Output("tokens_updated", "true")
  {
    var tail := TokenOutputs(updates) + SuccessOutputs(updates);
    assert tail[|tail| - 1] == Output("tokens_updated", "true");
    LastOfAppend(printed, tail);
  }

  /** The last command of a log with a non-empty tail is the tail's last
      (a plain sequence fact, called by name to keep the caller's proof small). */
  lemma LastOfAppend(a: seq<Command>, b: seq<Command>)
    requires |b| > 0
    ensures (a + b)[|a + b| - 1] == b[|b| - 1]
  {
  }

  /** The try block never prints a token output before its mask. */
  lemma WithConfigMasked(env: Env, file: Option<Config>, config: Config, network: seq<Attempt>)
    requires DefaultRetries <= |network|
    ensures TokenOutputsMasked(RefreshWithConfig(env, file, config, network).commands)
  {
    var result := RetrySpec(network, DefaultRetries).result;
    CurrentTokenMasksAreMasks(config);
    if !result.Returned? {
      MasksAreMasked(Emit(env, CurrentTokenMasks(config)));
    } else {
      var response := result.response;
      var updates := RefreshUpdates(response.headers, response.data);
      var done := Conclusion(env, file, config, Some(RefreshRequest(config)), updates);
      var printed := Emit(env, CurrentTokenMasks(config)) + Emit(env, HeaderMasks(response.headers) + BodyMasks(response.data));
      AnsweredRun(env, file, config, network, response);
      ConclusionFacts(env, file, config, Some(RefreshRequest(config)), updates);
      ExtractionPrintsMasks(env, config, response);
      MaskedAfterMasks(printed, done.commands);
    }
  }

  /** The catch block's outputs name no token. */
  lemma FailureTailMasked(message: string)
    ensures TokenOutputsMasked(FailureOutputs(message))
  {
  }

  /** A run that throws is reported: config.json is untouched, the exit
      status is 1, and inside Actions everything before the last two
      outputs is a mask and the last two are `tokens_updated` false and the
      error message. */
  lemma FailureIsReported(env: Env, file: Option<Config>, network: seq<Attempt>)
    requires DefaultRetries <= |network|
    ensures var run := GitHubRefreshRun(env, file, network);
      run.end.RefreshFailed? ==>
        && run.file == file
        && ExitStatus(run.end) == 1
        && (InActions(env) ==>
              && |run.commands| >= 2
              && run.commands[|run.commands| - 2..] == FailureOutputs(run.end.message)
              && AllMasks(run.commands[..|run.commands| - 2]))
  {
    var tried := RefreshTry(env, file, network);
    if tried.end.RefreshFailed? {
      match GetConfig(env, file)
      case Err(_) =>
      case Ok(config) =>
        match ValidateConfig(config, RefreshFields)
        case Fail(_) =>
        case Pass => WithConfigQuiet(env, file, config, network);
      var tail := Emit(env, FailureOutputs(tried.end.message));
      assert (tried.commands + tail)[..|tried.commands|] == tried.commands;
      assert (tried.commands + tail)[|tried.commands|..] == tail;
    }
  }

  /** Outside Actions no workflow command is ever printed. */
  lemma SilentOutsideActions(env: Env, file: Option<Config>, network: seq<Attempt>)
    requires DefaultRetries <= |network|
    requires !InActions(env)
    ensures GitHubRefreshRun(env, file, network).commands == []
  {
    match GetConfig(env, file)
    case Err(_) =>
    case Ok(config) =>
      match ValidateConfig(config, RefreshFields)
      case Fail(_) =>
      case Pass => WithConfigQuiet(env, file, config, network);
  }

  /** A successful run applies the merged header and body updates of the
      response: inside Actions as outputs ending with `tokens_updated` true,
      elsewhere as a write of config.json merged with them. */
  lemma SuccessAppliesUpdates(env: Env, file: Option<Config>, network: seq<Attempt>)
    requires DefaultRetries <= |network|
    ensures var run := GitHubRefreshRun(env, file, network);
      var result := RetrySpec(network, DefaultRetries).result;
      run.end.Refreshed? ==>
        && result.Returned?
        && run.end.updates == RefreshUpdates(result.response.headers, result.response.data)
        && |run.end.updates| > 0
        && ExitStatus(run.end) == 0
        && (InActions(env) ==> run.file == file && |run.commands| > 0 && run.commands[|run.commands| - 1] == Output("tokens_updated", "true"))
        && (!InActions(env) ==> run.file == Some(Merge(file.GetOr(map[]), run.end.updates)))
  {
    if !RefreshTry(env, file, network).end.RefreshFailed? {
      UncaughtRun(env, file, network);
      var config := PassedConfig(env, file, network);
      WithConfigRefreshed(env, file, config, network);
    }
  }

  /** A try block that did not throw is the whole run. */
  lemma UncaughtRun(env: Env, file: Option<Config>, network: seq<Attempt>)
    requires DefaultRetries <= |network|
    requires !RefreshTry(env, file, network).end.RefreshFailed?
    ensures GitHubRefreshRun(env, file, network) == RefreshTry(env, file, network)
  {
  }

  /** A try block that did not throw read a configuration that passed
      validation. */
  lemma PassedConfig(env: Env, file: Option<Config>, network: seq<Attempt>) returns (config: Config)
    requires DefaultRetries <= |network|
    requires !RefreshTry(env, file, network).end.RefreshFailed?
    ensures GetConfig(env, file) == Ok(config)
    ensures RefreshTry(env, file, network) == RefreshWithConfig(env, file, config, network)
  {
    config := GetConfig(env, file).value;
  }

  /** An empty update set leaves config.json alone and prints only masks. */
  lemma NoUpdatesLeavesFile(env: Env, file: Option<Config>, network: seq<Attempt>)
    requires DefaultRetries <= |network|
    ensures var run := GitHubRefreshRun(env, file, network);
      run.end == NoUpdates ==> run.file == file && AllMasks(run.commands) && ExitStatus(run.end) == 0
  {
    match GetConfig(env, file)
    case Err(_) =>
    case Ok(config) =>
      match ValidateConfig(config, RefreshFields)
      case Fail(_) =>
      case Pass => WithConfigQuiet(env, file, config, network);
  }

  /** No token reaches a workflow output before its mask has been printed. */
  lemma TokensMaskedBeforeOutput(env: Env, file: Option<Config>, network: seq<Attempt>)
    requires DefaultRetries <= |network|
    ensures TokenOutputsMasked(GitHubRefreshRun(env, file, network).commands)
  {
    var tried := RefreshTry(env, file, network);
    match GetConfig(env, file)
    case Err(_) =>
    case Ok(config) =>
      match ValidateConfig(config, RefreshFields)
      case Fail(_) =>
      case Pass =>
        WithConfigQuiet(env, file, config, network);
        WithConfigMasked(env, file, config, network);
    if tried.end.RefreshFailed? {
      var tail := Emit(env, FailureOutputs(tried.end.message));
      FailureTailMasked(tried.end.message);
      MaskedAfterMasks(tried.commands, tail);
    }
  }

  /** A configuration without a usable RefreshToken stops the run before
      any request: the validation error is reported and nothing else. */
  lemma MissingRefreshTokenStops(env: Env, file: Option<Config>, network: seq<Attempt>, config: Config)
    requires DefaultRetries <= |network|
    requires GetConfig(env, file) == Ok(config)
    requires IsMissing(config, RefreshToken)
    ensures var run := GitHubRefreshRun(env, file, network);
      var message := MissingFieldsPrefix + "RefreshToken";
      && run.end == RefreshFailed(message)
      && run.sent == None
      && run.file == file
      && run.commands == Emit(env, FailureOutputs(message))
  {
    assert MissingFields(config, RefreshFields) == [RefreshToken] by {
      assert RefreshFields[1..] == [];
    }
    assert ValidateConfig(config, RefreshFields) == Fail(MissingFieldsPrefix + "RefreshToken");
  }

  /** The refresh request goes out exactly when a configuration was found
      and has a RefreshToken, and it is the request built from that
      configuration. */
  lemma RequestSentIffValid(env: Env, file: Option<Config>, network: seq<Attempt>)
    requires DefaultRetries <= |network|
    ensures var run := GitHubRefreshRun(env, file, network);
      var got := GetConfig(env, file);
      && (got.Err? ==> run.sent == None && run.end == RefreshFailed(got.error))
      && (got.Ok? && IsMissing(got.value, RefreshToken) ==> run.sent == None)
      && (got.Ok? && !IsMissing(got.value, RefreshToken) ==> run.sent == Some(RefreshRequest(got.value)))
  {
    match GetConfig(env, file)
    case Err(_) =>
    case Ok(config) =>
      if IsMissing(config, RefreshToken) {
        MissingRefreshTokenStops(env, file, network, config);
      } else {
        ValidatedRun(env, file, network, config);
        WithConfigRequest(env, file, config, network);
      }
  }

  /** When all three attempts fail, the run reports the retry loop's error,
      which names the attempt count and the last attempt's error. */
  lemma AllAttemptsFailReported(env: Env, file: Option<Config>, network: seq<Attempt>, config: Config)
    requires DefaultRetries <= |network|
    requires GetConfig(env, file) == Ok(config)
    requires !IsMissing(config, RefreshToken)
    requires forall j :: 0 <= j < DefaultRetries ==> !Succeeds(network[j])
    ensures var run := GitHubRefreshRun(env, file, network);
      && run.end == RefreshFailed(ExhaustedMessage(3, AttemptError(network[2])))
      && run.file == file
  {
    AllAttemptsFail(network, DefaultRetries);
    ValidatedRun(env, file, network, config);
    WithConfigRequest(env, file, config, network);
  }
}
