/** Where rotated tokens come from in a refresh response
    (github-refresh-token.js, 10bis-automation/refresh-token.js):
    the `Set-Cookie` values, the `authorization` header and the
    `x-access-token` / `x-refresh-token` headers, then the JSON body, merged
    so that header values win over body values.

    The two regular expressions of the source are modelled exactly:
    `/Authorization=([^;]+)/` (leftmost match, greedy capture up to the next
    `;`) and `/^Bearer\s+/i` (ASCII case-insensitive prefix, then every
    following whitespace character). */
module TokenExtraction {
  import opened Js
  import opened Config
  import opened Http

  const AuthCookieKey := "Authorization="
  const RefreshCookieKey := "RefreshToken="

  /** The Set-Cookie name that carries a token field. */
  function CookieKey(field: string): string {
    if field == AccessToken then AuthCookieKey else RefreshCookieKey
  }

  // ----- /<key>([^;]+)/ -----

  /** The pattern `<key>[^;]+` matches at index `i`: the key starts there and
      is followed by at least one character that is not `;`. */
  predicate MatchesAt(s: string, key: string, i: int) {
    0 <= i && i + |key| < |s| && s[i..i + |key|] == key && s[i + |key|] != ';'
  }

  /** The leftmost match at or after `from`. */
  function FirstMatchFrom(s: string, key: string, from: nat): (r: Option<nat>)
    ensures r.Some? ==> from <= r.value && MatchesAt(s, key, r.value)
    ensures forall j :: from <= j && (r.None? || j < r.value) ==> !MatchesAt(s, key, j)
    decreases |s| - from
  {
    if from + |key| >= |s| then None
    else if MatchesAt(s, key, from) then Some(from)
    else FirstMatchFrom(s, key, from + 1)
  }

  /** The greedy `[^;]+` run: the longest prefix of `t` without a `;`. */
  function TakeUntilSemicolon(t: string): (r: string)
    ensures |r| <= |t| && r == t[..|r|]
    ensures forall i :: 0 <= i < |r| ==> r[i] != ';'
    ensures |r| == |t| || t[|r|] == ';'
  {
    if t == [] || t[0] == ';' then [] else [t[0]] + TakeUntilSemicolon(t[1..])
  }

  /** `cookie.match(/<key>([^;]+)/)?.[1]`: the captured value of the leftmost
      match, which is never empty and never contains `;`. */
  function CookieCapture(cookie: string, key: string): (r: Option<string>)
    ensures r.Some? ==> r.value != "" && forall k :: 0 <= k < |r.value| ==> r.value[k] != ';'
  {
    match FirstMatchFrom(cookie, key, 0)
    case None => None
    case Some(i) => Some(TakeUntilSemicolon(cookie[i + |key|..]))
  }

  /** The pattern fails to match iff the key, followed by a character other
      than `;`, occurs nowhere in the cookie. */
  lemma CookieCaptureNone(cookie: string, key: string)
    ensures CookieCapture(cookie, key).None? <==> forall i :: !MatchesAt(cookie, key, i)
  {
  }

  /** Cookie `cookie` carries a value for token field `field`. */
  predicate Captures(cookie: string, field: string) {
    CookieCapture(cookie, CookieKey(field)).Some?
  }

  function CaptureOf(cookie: string, field: string): string
    requires Captures(cookie, field)
  {
    CookieCapture(cookie, CookieKey(field)).value
  }

  // ----- the Set-Cookie loop -----

  /** One turn of the `for (const cookie of setCookieHeaders)` loop: an
      `Authorization=` match sets AccessToken, then a `RefreshToken=` match
      sets RefreshToken. */
  function CookieStep(tokens: Config, cookie: string): Config {
    var afterAuth :=
      if Captures(cookie, AccessToken) then tokens[AccessToken := CaptureOf(cookie, AccessToken)] else tokens;
    if Captures(cookie, RefreshToken) then afterAuth[RefreshToken := CaptureOf(cookie, RefreshToken)] else afterAuth
  }

  /** The tokens after the loop has seen every cookie of `cookies`, in order. */
  function CookieTokens(cookies: seq<string>): (r: Config)
    ensures r.Keys <= {AccessToken, RefreshToken}
  {
    if cookies == [] then map[]
    else CookieStep(CookieTokens(cookies[..|cookies| - 1]), cookies[|cookies| - 1])
  }

  /** Cookie `i` is the last one that carries `field`. */
  predicate IsLastCapture(cookies: seq<string>, field: string, i: int) {
    && 0 <= i < |cookies|
    && Captures(cookies[i], field)
    && forall j :: i < j < |cookies| ==> !Captures(cookies[j], field)
  }

  /** One loop turn sets `field` iff the cookie carries it, and leaves it
      alone otherwise. */
  lemma CookieStepField(tokens: Config, cookie: string, field: string)
    requires field == AccessToken || field == RefreshToken
    ensures field in CookieStep(tokens, cookie) <==> field in tokens || Captures(cookie, field)
    ensures Captures(cookie, field) ==> CookieStep(tokens, cookie)[field] == CaptureOf(cookie, field)
    ensures !Captures(cookie, field) && field in tokens ==> CookieStep(tokens, cookie)[field] == tokens[field]
  {
  }

  /** Later cookies override earlier ones: a field is set iff some cookie
      carries it. */
  lemma CookieTokensDomain(cookies: seq<string>, field: string)
    requires field == AccessToken || field == RefreshToken
    ensures field in CookieTokens(cookies) <==> exists i :: 0 <= i < |cookies| && Captures(cookies[i], field)
  {
    if field in CookieTokens(cookies) {
      var i := CarrierOf(cookies, field);
    }
    forall i | 0 <= i < |cookies| && Captures(cookies[i], field) ensures field in CookieTokens(cookies) {
      CarrierSets(cookies, field, i);
    }
  }

  /** A cookie that carries `field` leaves it set. */
  lemma {:induction false} CarrierSets(cookies: seq<string>, field: string, i: int)
    requires field == AccessToken || field == RefreshToken
    requires 0 <= i < |cookies| && Captures(cookies[i], field)
    ensures field in CookieTokens(cookies)
  {
    var prefix := cookies[..|cookies| - 1];
    LastCookieDomain(cookies, field);
    if i < |cookies| - 1 {
      assert prefix[i] == cookies[i];
      CarrierSets(prefix, field, i);
    }
  }

  /** A set field was set by some cookie. */
  lemma {:induction false} CarrierOf(cookies: seq<string>, field: string) returns (i: int)
    requires field == AccessToken || field == RefreshToken
    requires field in CookieTokens(cookies)
    ensures 0 <= i < |cookies| && Captures(cookies[i], field)
  {
    var prefix := cookies[..|cookies| - 1];
    LastCookieDomain(cookies, field);
    if Captures(cookies[|cookies| - 1], field) {
      i := |cookies| - 1;
    } else {
      i := CarrierOf(prefix, field);
      assert prefix[i] == cookies[i];
    }
  }

  /** The final cookie adds `field` when it carries it. */
  lemma LastCookieDomain(cookies: seq<string>, field: string)
    requires field == AccessToken || field == RefreshToken
    requires cookies != []
    ensures field in CookieTokens(cookies) <==>
      field in CookieTokens(cookies[..|cookies| - 1]) || Captures(cookies[|cookies| - 1], field)
  {
    CookieTokensLast(cookies);
    CookieStepField(CookieTokens(cookies[..|cookies| - 1]), cookies[|cookies| - 1], field);
  }

  /** Later cookies override earlier ones: a set field holds the value of the
      last cookie that carries it. */
  lemma {:induction false} CookieTokensLastWins(cookies: seq<string>, field: string, i: int)
    requires field == AccessToken || field == RefreshToken
    requires IsLastCapture(cookies, field, i)
    ensures field in CookieTokens(cookies) && CookieTokens(cookies)[field] == CaptureOf(cookies[i], field)
  {
    var prefix := cookies[..|cookies| - 1];
    if i == |cookies| - 1 {
      LastCookieSets(cookies, field);
    } else {
      LastCaptureInPrefix(cookies, field, i);
      CookieTokensLastWins(prefix, field, i);
      LastCookieKeeps(cookies, field);
    }
  }

  /** The final cookie, when it carries `field`, sets it. */
  lemma LastCookieSets(cookies: seq<string>, field: string)
    requires field == AccessToken || field == RefreshToken
    requires cookies != [] && Captures(cookies[|cookies| - 1], field)
    ensures field in CookieTokens(cookies)
    ensures CookieTokens(cookies)[field] == CaptureOf(cookies[|cookies| - 1], field)
  {
    CookieTokensLast(cookies);
    CookieStepField(CookieTokens(cookies[..|cookies| - 1]), cookies[|cookies| - 1], field);
  }

  /** The final cookie, when it does not carry `field`, keeps its value. */
  lemma LastCookieKeeps(cookies: seq<string>, field: string)
    requires field == AccessToken || field == RefreshToken
    requires cookies != [] && !Captures(cookies[|cookies| - 1], field)
    requires field in CookieTokens(cookies[..|cookies| - 1])
    ensures field in CookieTokens(cookies)
    ensures CookieTokens(cookies)[field] == CookieTokens(cookies[..|cookies| - 1])[field]
  {
    CookieTokensLast(cookies);
    CookieStepField(CookieTokens(cookies[..|cookies| - 1]), cookies[|cookies| - 1], field);
  }

  /** The loop's last turn. */
  lemma CookieTokensLast(cookies: seq<string>)
    requires cookies != []
    ensures CookieTokens(cookies) == CookieStep(CookieTokens(cookies[..|cookies| - 1]), cookies[|cookies| - 1])
  {
  }

  /** The last capture before the final cookie is the last one of the
      cookies before it. */
  lemma LastCaptureInPrefix(cookies: seq<string>, field: string, i: int)
    requires IsLastCapture(cookies, field, i) && i < |cookies| - 1
    ensures IsLastCapture(cookies[..|cookies| - 1], field, i)
    ensures cookies[..|cookies| - 1][i] == cookies[i] && !Captures(cookies[|cookies| - 1], field)
  {
    var prefix := cookies[..|cookies| - 1];
    assert prefix[i] == cookies[i];
    forall j | i < j < |prefix| ensures !Captures(prefix[j], field) {
      assert prefix[j] == cookies[j];
    }
  }

  // ----- /^Bearer\s+/i -----

  function LowerAscii(c: char): char {
    if 'A' <= c <= 'Z' then (c as int + 32) as char else c
  }

  predicate EqualsIgnoreAsciiCase(a: string, b: string) {
    |a| == |b| && forall i :: 0 <= i < |a| ==> LowerAscii(a[i]) == LowerAscii(b[i])
  }

  /** `v` starts with "Bearer" in any letter case, then whitespace. */
  predicate HasBearerPrefix(v: string) {
    |v| >= 7 && EqualsIgnoreAsciiCase(v[..6], "Bearer") && IsJsSpace(v[6])
  }

  function DropLeadingSpace(t: string): (r: string)
    ensures |r| <= |t| && r == t[|t| - |r|..]
    ensures r == [] || !IsJsSpace(r[0])
    ensures forall i :: 0 <= i < |t| - |r| ==> IsJsSpace(t[i])
  {
    if t != [] && IsJsSpace(t[0]) then DropLeadingSpace(t[1..]) else t
  }

  /** `v.replace(/^Bearer\s+/i, '')`: with the prefix, the scheme and all the
      whitespace after it are removed; without it, `v` is unchanged. */
  function StripBearer(v: string): (r: string)
    ensures !HasBearerPrefix(v) ==> r == v
    ensures HasBearerPrefix(v) ==>
      && |r| <= |v| - 7
      && r == v[|v| - |r|..]
      && (r == [] || !IsJsSpace(r[0]))
      && forall i :: 6 <= i < |v| - |r| ==> IsJsSpace(v[i])
  {
    if HasBearerPrefix(v) then DropLeadingSpace(v[6..]) else v
  }

  // ----- header extraction -----

  /** The three single-header steps of `extractTokensFromHeaders`, applied
      to the tokens the Set-Cookie loop found: `authorization` (Bearer
      prefix stripped), then `x-access-token`, then `x-refresh-token`, each
      only when truthy and each overwriting what came before. */
  function ApplyTokenHeaders(tokens: Config, fields: map<string, string>): Config {
    var afterAuthorization :=
      if TruthyAt(fields, "authorization")
      then tokens[AccessToken := StripBearer(fields["authorization"])]
      else tokens;
    var afterAccess :=
      if TruthyAt(fields, "x-access-token")
      then afterAuthorization[AccessToken := fields["x-access-token"]]
      else afterAuthorization;
    if TruthyAt(fields, "x-refresh-token")
    then afterAccess[RefreshToken := fields["x-refresh-token"]]
    else afterAccess
  }

  /** `extractTokensFromHeaders(response)`: the Set-Cookie loop, then the
      single headers. */
  function HeaderTokens(h: Headers): (r: Config)
    ensures r.Keys <= {AccessToken, RefreshToken}
  {
    ApplyTokenHeaders(CookieTokens(h.setCookie), h.fields)
  }

  /** The header steps as seen from AccessToken. */
  lemma AccessHeaderSteps(tokens: Config, fields: map<string, string>)
    ensures var r := ApplyTokenHeaders(tokens, fields);
      && (TruthyAt(fields, "x-access-token") ==> AccessToken in r && r[AccessToken] == fields["x-access-token"])
      && (!TruthyAt(fields, "x-access-token") && TruthyAt(fields, "authorization") ==>
            AccessToken in r && r[AccessToken] == StripBearer(fields["authorization"]))
      && (!TruthyAt(fields, "x-access-token") && !TruthyAt(fields, "authorization") ==>
            (AccessToken in r <==> AccessToken in tokens)
            && (AccessToken in tokens ==> r[AccessToken] == tokens[AccessToken]))
  {
  }

  /** The header steps as seen from RefreshToken. */
  lemma RefreshHeaderStep(tokens: Config, fields: map<string, string>)
    ensures var r := ApplyTokenHeaders(tokens, fields);
      && (TruthyAt(fields, "x-refresh-token") ==> RefreshToken in r && r[RefreshToken] == fields["x-refresh-token"])
      && (!TruthyAt(fields, "x-refresh-token") ==>
            (RefreshToken in r <==> RefreshToken in tokens)
            && (RefreshToken in tokens ==> r[RefreshToken] == tokens[RefreshToken]))
  {
  }

  /** Which header supplies AccessToken: `x-access-token` if set, else the
      `authorization` header without its Bearer prefix, else the last
      Set-Cookie value that carries `Authorization=`, else none. */
  lemma AccessTokenPrecedence(h: Headers)
    ensures TruthyAt(h.fields, "x-access-token") ==>
      AccessToken in HeaderTokens(h) && HeaderTokens(h)[AccessToken] == h.fields["x-access-token"]
    ensures !TruthyAt(h.fields, "x-access-token") && TruthyAt(h.fields, "authorization") ==>
      AccessToken in HeaderTokens(h) && HeaderTokens(h)[AccessToken] == StripBearer(h.fields["authorization"])
    ensures !TruthyAt(h.fields, "x-access-token") && !TruthyAt(h.fields, "authorization") ==>
      && (AccessToken in HeaderTokens(h) <==>
            exists i :: 0 <= i < |h.setCookie| && Captures(h.setCookie[i], AccessToken))
      && forall i :: IsLastCapture(h.setCookie, AccessToken, i) ==>
            AccessToken in HeaderTokens(h) && HeaderTokens(h)[AccessToken] == CaptureOf(h.setCookie[i], AccessToken)
  {
    AccessHeaderSteps(CookieTokens(h.setCookie), h.fields);
    CookieTokensDomain(h.setCookie, AccessToken);
    forall i | IsLastCapture(h.setCookie, AccessToken, i)
      ensures AccessToken in CookieTokens(h.setCookie)
      ensures CookieTokens(h.setCookie)[AccessToken] == CaptureOf(h.setCookie[i], AccessToken)
    {
      CookieTokensLastWins(h.setCookie, AccessToken, i);
    }
  }

  /** Which header supplies RefreshToken: `x-refresh-token` if set, else the
      last Set-Cookie value that carries `RefreshToken=`, else none. */
  lemma RefreshTokenPrecedence(h: Headers)
    ensures TruthyAt(h.fields, "x-refresh-token") ==>
      RefreshToken in HeaderTokens(h) && HeaderTokens(h)[RefreshToken] == h.fields["x-refresh-token"]
    ensures !TruthyAt(h.fields, "x-refresh-token") ==>
      && (RefreshToken in HeaderTokens(h) <==>
            exists i :: 0 <= i < |h.setCookie| && Captures(h.setCookie[i], RefreshToken))
      && forall i :: IsLastCapture(h.setCookie, RefreshToken, i) ==>
            RefreshToken in HeaderTokens(h) && HeaderTokens(h)[RefreshToken] == CaptureOf(h.setCookie[i], RefreshToken)
  {
    RefreshHeaderStep(CookieTokens(h.setCookie), h.fields);
    CookieTokensDomain(h.setCookie, RefreshToken);
    forall i | IsLastCapture(h.setCookie, RefreshToken, i)
      ensures RefreshToken in CookieTokens(h.setCookie)
      ensures CookieTokens(h.setCookie)[RefreshToken] == CaptureOf(h.setCookie[i], RefreshToken)
    {
      CookieTokensLastWins(h.setCookie, RefreshToken, i);
    }
  }

  // ----- body tokens and the merged updates -----

  /** The tokens taken from the response body: each only when truthy. */
  function BodyTokens(data: Option<map<string, string>>): (r: Config)
    ensures r.Keys <= {AccessToken, RefreshToken}
    ensures forall f :: f == AccessToken || f == RefreshToken ==>
      (f in r <==> data.Some? && TruthyAt(data.value, f))
    ensures forall f :: f in r ==> data.Some? && f in data.value && r[f] == data.value[f]
  {
    if data.None? then map[]
    else
      var body := data.value;
      var withAccess := if TruthyAt(body, AccessToken) then map[AccessToken := body[AccessToken]] else map[];
      if TruthyAt(body, RefreshToken) then withAccess[RefreshToken := body[RefreshToken]] else withAccess
  }

  /** `updates.Amount = data.Amount` whenever the body defines Amount, falsy
      values included. */
  function WithAmount(updates: Config, data: Option<map<string, string>>): (r: Config)
    ensures Amount in r <==> Amount in updates || (data.Some? && Amount in data.value)
    ensures data.Some? && Amount in data.value ==> r[Amount] == data.value[Amount]
    ensures forall k :: k in updates && k != Amount ==> k in r && r[k] == updates[k]
    ensures forall k :: k in r && k != Amount ==> k in updates
  {
    if data.Some? && Amount in data.value then updates[Amount := data.value[Amount]] else updates
  }

  /** The updates of 10bis-automation/refresh-token.js: body tokens when
      truthy, Amount whenever defined. */
  function BodyUpdates(body: map<string, string>): (r: Config)
    ensures r.Keys <= {AccessToken, RefreshToken, Amount}
    ensures Amount in r <==> Amount in body
  {
    WithAmount(BodyTokens(Some(body)), Some(body))
  }

  /** The updates of github-refresh-token.js: `{...bodyTokens, ...headerTokens}`,
      then Amount from the body. */
  function RefreshUpdates(h: Headers, data: Option<map<string, string>>): (r: Config)
    ensures r.Keys <= {AccessToken, RefreshToken, Amount}
  {
    WithAmount(Merge(BodyTokens(data), HeaderTokens(h)), data)
  }

  /** Header tokens beat body tokens for the same key; a body token survives
      only where the headers have none; Amount comes from the body alone. */
  lemma HeaderBeatsBody(h: Headers, data: Option<map<string, string>>)
    ensures forall f :: f in HeaderTokens(h) ==> f in RefreshUpdates(h, data) && RefreshUpdates(h, data)[f] == HeaderTokens(h)[f]
    ensures forall f :: f in BodyTokens(data) && f !in HeaderTokens(h) ==>
      f in RefreshUpdates(h, data) && RefreshUpdates(h, data)[f] == BodyTokens(data)[f]
    ensures Amount in RefreshUpdates(h, data) <==> data.Some? && Amount in data.value
    ensures forall f :: f in RefreshUpdates(h, data) && f != Amount ==> f in HeaderTokens(h) || f in BodyTokens(data)
  {
  }

  /** With a body, the GitHub variant is the plain variant's updates with
      the header tokens laid over them. */
  lemma RefreshUpdatesExtendBodyUpdates(h: Headers, body: map<string, string>)
    ensures RefreshUpdates(h, Some(body)) == Merge(BodyUpdates(body), HeaderTokens(h))
  {
    var lhs := RefreshUpdates(h, Some(body));
    var rhs := Merge(BodyUpdates(body), HeaderTokens(h));
    assert Amount !in HeaderTokens(h);
    assert lhs.Keys == rhs.Keys;
    forall k | k in lhs ensures lhs[k] == rhs[k] {
    }
  }

  /** The example of a cookie carrying `Authorization=H1` and a body carrying
      `AccessToken: "B1"`: the cookie value wins. */
  lemma CookieBeatsBodyExample()
    ensures var h := Headers(["Authorization=H1"], map[]);
      RefreshUpdates(h, Some(map[AccessToken := "B1"])) == map[AccessToken := "H1"]
  {
    var cookie := "Authorization=H1";
    ExampleCookieCaptures(cookie);
    var h := Headers([cookie], map[]);
    var none: seq<string> := [];
    assert [cookie][..0] == none;
    assert CookieTokens([cookie]) == CookieStep(map[], cookie);
    assert HeaderTokens(h) == map[AccessToken := "H1"];
  }

  /** `Authorization=H1` yields H1 for AccessToken and nothing for RefreshToken. */
  lemma ExampleCookieCaptures(cookie: string)
    requires cookie == "Authorization=H1"
    ensures Captures(cookie, AccessToken) && CaptureOf(cookie, AccessToken) == "H1"
    ensures !Captures(cookie, RefreshToken)
  {
    assert MatchesAt(cookie, AuthCookieKey, 0);
    assert cookie[0 + |AuthCookieKey|..] == "H1";
    assert TakeUntilSemicolon("H1") == "H1";
    forall i ensures !MatchesAt(cookie, RefreshCookieKey, i) {
      if 0 <= i && i + |RefreshCookieKey| < |cookie| {
        assert cookie[i] != 'R';
        assert cookie[i..i + |RefreshCookieKey|][0] == cookie[i];
      }
    }
    CookieCaptureNone(cookie, RefreshCookieKey);
  }
}
