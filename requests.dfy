/** The two request objects the scheduled scripts build from the configuration:
    the token refresh POST (10bis-automation/refresh-token.js,
    github-refresh-token.js) and the credit load PATCH
    (10bis-automation/load-credit.js, github-load-credit.js). Each pair of
    scripts builds the same object. */
module Requests {
  import opened Js
  import opened Config
  import opened Http

  const RefreshUrl := "https://api.10bis.co.il/api/v1/Authentication/RefreshToken"
  const CreditUrl := "https://api.10bis.co.il/api/v1/Payments/LoadTenbisCredit"
  const AcceptValue := "application/json, text/plain, */*"
  const UserAgentValue := "Mozilla/5.0 (Macintosh; Intel Mac OS X 10_15_7) AppleWebKit/537.36 (KHTML, like Gecko) Chrome/135.0.0.0 Safari/537.36"
  const TrackingCookies := "_gcl_au=1.1.283592624.1745399880; _ga=GA1.1.901790421.1745399881; "

  /** A field interpolated into a template literal: an undefined field
      renders as "undefined". */
  function Interpolated(config: Config, field: string): string {
    if field in config then config[field] else "undefined"
  }

  /** A JSON body field taken from the configuration: `JSON.stringify` drops
      a field whose value is undefined. */
  function BodyField(name: string, config: Config, field: string): map<string, string> {
    if field in config then map[name := config[field]] else map[]
  }

  /** The session cookie the refresh request sends when both tokens are known. */
  function SessionCookie(accessToken: string, refreshToken: string): string {
    "Authorization=" + accessToken + "; RefreshToken=" + refreshToken
  }

  /** The refresh request: a POST of `{refreshToken}` to the refresh endpoint,
      with a Cookie header added iff both tokens are truthy. */
  function RefreshRequest(config: Config): (r: Request)
    ensures r.verb == "POST" && r.url == RefreshUrl
    ensures "Cookie" in r.headers <==> TruthyAt(config, AccessToken) && TruthyAt(config, RefreshToken)
    ensures "Cookie" in r.headers ==> r.headers["Cookie"] == SessionCookie(config[AccessToken], config[RefreshToken])
    ensures "Authorization" !in r.headers
    ensures r.data.Keys <= {"refreshToken"}
    ensures RefreshToken in config ==> r.data == map["refreshToken" := config[RefreshToken]]
  {
    var base := map[
      "Accept" := AcceptValue,
      "Language" := "he",
      "X-App-Type" := "web",
      "Content-Type" := "application/json",
      "User-Agent" := UserAgentValue];
    var headers :=
      if TruthyAt(config, AccessToken) && TruthyAt(config, RefreshToken)
      then base["Cookie" := SessionCookie(config[AccessToken], config[RefreshToken])]
      else base;
    Request("POST", RefreshUrl, headers, BodyField("refreshToken", config, RefreshToken))
  }

  /** The credit load request: a PATCH to the load endpoint that carries the
      access token as a bearer token and in the cookie, and the amount and
      card id as its body. */
  function CreditRequest(config: Config): (r: Request)
    ensures r.verb == "PATCH" && r.url == CreditUrl
    ensures "Authorization" in r.headers && r.headers["Authorization"] == "Bearer " + Interpolated(config, AccessToken)
    ensures "Cookie" in r.headers && r.headers["Cookie"] == TrackingCookies + SessionCookie(
      Interpolated(config, AccessToken), Interpolated(config, RefreshToken))
    ensures Amount in config && MoneycardId in config ==>
      r.data == map["amount" := config[Amount], "moneycardIdToCharge" := config[MoneycardId]]
  {
    var headers := map[
      "Content-Type" := "application/json",
      "Accept" := AcceptValue,
      "Language" := "he",
      "X-App-Type" := "web",
      "Authorization" := "Bearer " + Interpolated(config, AccessToken),
      "Origin" := "https://www.10bis.co.il",
      "User-Agent" := UserAgentValue,
      "Cookie" := TrackingCookies + SessionCookie(Interpolated(config, AccessToken), Interpolated(config, RefreshToken))];
    var data := BodyField("amount", config, Amount) + BodyField("moneycardIdToCharge", config, MoneycardId);
    Request("PATCH", CreditUrl, headers, data)
  }
}
