/** What the two credit scripts (10bis-automation/load-credit.js and
    github-load-credit.js) share: how a run ends, how the response to the
    credit request is classified, and the test that flags an error as an
    authentication problem. */
module CreditLoad {
  import opened Js
  import opened Http

  /** How `loadCredit` ends: skipped on a weekend, one of the three outcomes
      of a request that returned, or in the catch block with the error's
      message. */
  datatype CreditEnd =
    | SkippedWeekend
    | Loaded
    | UnexpectedStatus(status: nat)
    | NoResponseData
    | CreditFailed(message: string)

  /** What Node reports for `response.status` when `makeHttpRequest` returns
      nothing, which it does only when asked for no attempts at all. */
  const NoResultTypeError := "Cannot read properties of undefined (reading 'status')"

  /** `error.message.includes('401') || error.message.includes('Unauthorized')`. */
  predicate IsAuthError(message: string) {
    Contains(message, "401") || Contains(message, "Unauthorized")
  }

  /** `process.exit(1)` in the catch block, exit status 0 from `run()` otherwise. */
  function CreditExitStatus(end: CreditEnd): int {
    if end.CreditFailed? then 1 else 0
  }

  /** The classification of a response the retry loop returned: a body and
      status 200 or 201 is a load, a body with any other status is
      unexpected, no body is reported as such. */
  function ResponseEnd(response: Response): (end: CreditEnd)
    ensures end == Loaded <==> response.data.Some? && (response.status == 200 || response.status == 201)
    ensures end.UnexpectedStatus? <==> response.data.Some? && response.status != 200 && response.status != 201
    ensures end == NoResponseData <==> response.data.None?
    ensures end.UnexpectedStatus? ==> end.status == response.status
  {
    if response.data.None? then NoResponseData
    else if response.status == 200 || response.status == 201 then Loaded
    else UnexpectedStatus(response.status)
  }

  /** How the try block ends once the request has been made: a returned
      response is classified, a thrown or missing result fails the run. */
  function RequestEnd(result: RequestResult): (end: CreditEnd)
    ensures end.CreditFailed? <==> !result.Returned?
    ensures end != SkippedWeekend
    ensures result.Returned? ==> end == ResponseEnd(result.response)
    ensures result.Threw? ==> end == CreditFailed(result.message)
    ensures result.Undefined? ==> end == CreditFailed(NoResultTypeError)
  {
    match result
    case Returned(response) => ResponseEnd(response)
    case Threw(message) => CreditFailed(message)
    case Undefined => CreditFailed(NoResultTypeError)
  }

  /** An unexpected status is one the retry loop let through: below 400,
      and neither 200 nor 201. */
  lemma UnexpectedStatusRange(script: seq<Attempt>, retries: int)
    requires retries <= |script|
    ensures var end := RequestEnd(RetrySpec(script, retries).result);
      end.UnexpectedStatus? ==> end.status < 400 && end.status != 200 && end.status != 201
  {
  }

  /** The authentication check survives wrapping: a message that passes it
      still passes once other text is put around it, as when the retry
      loop quotes the last attempt's error. */
  lemma {:induction false} AuthErrorSurvivesWrapping(before: string, message: string, after: string)
    requires IsAuthError(message)
    ensures IsAuthError(before + message + after)
  {
    var whole := before + message + after;
    var sub := if Contains(message, "401") then "401" else "Unauthorized";
    var i :| 0 <= i <= |message| - |sub| && OccursAt(message, sub, i);
    assert whole[|before| + i..|before| + i + |sub|] == message[i..i + |sub|];
    assert OccursAt(whole, sub, |before| + i);
  }

  /** Status 401 renders as "401". */
  lemma Render401()
    ensures NatToString(401) == "401"
  {
    assert NatToString(40) == "40" by {
      assert NatToString(4) == "4";
    }
  }

  /** Three attempts that end with a 401 answer make the retry loop throw an
      error the catch block flags as an authentication error, whatever the
      earlier attempts were and whatever the status text says. */
  lemma Unauthorized401IsAuthError(script: seq<Attempt>)
    requires DefaultRetries <= |script|
    requires forall j :: 0 <= j < DefaultRetries ==> !Succeeds(script[j])
    requires script[2].Answered? && script[2].response.status == 401
    ensures RetrySpec(script, DefaultRetries).result.Threw?
    ensures IsAuthError(RetrySpec(script, DefaultRetries).result.message)
  {
    AllAttemptsFail(script, DefaultRetries);
    Render401();
    var message := RetrySpec(script, DefaultRetries).result.message;
    var front := "All " + NatToString(3) + " attempts failed. Last error: " + "HTTP ";
    var rest := ": " + script[2].response.statusText;
    assert message == front + "401" + rest;
    assert OccursAt(message, "401", |front|) by {
      assert message[|front|..|front| + 3] == "401";
    }
  }
}
