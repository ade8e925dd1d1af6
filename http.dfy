/** The HTTP vocabulary of the scripts and the retry loop `makeHttpRequest`
    that both utility objects share (10bis-automation/utils.js and
    10bis-automation/github-actions-utils.js carry the same loop).

    The network is not modelled: each attempt's outcome comes from a script
    supplied by the caller, and the waits between attempts are recorded
    instead of slept. */
module Http {
  import opened Js

  /** The request object handed to axios (method, url, headers, JSON body). */
  datatype Request = Request(
    verb: string,
    url: string,
    headers: map<string, string>,
    data: map<string, string>)

  /** Response headers as axios exposes them: `set-cookie` is a list, every
      other header a single lower-cased field. */
  datatype Headers = Headers(setCookie: seq<string>, fields: map<string, string>)

  /** A response axios resolved with. `data` is None when the body is falsy. */
  datatype Response = Response(
    status: nat,
    statusText: string,
    headers: Headers,
    data: Option<map<string, string>>)

  /** What one call to axios produced: the server's answer, or a thrown
      error (network failure, timeout). An answer with status 500 or more is
      one axios rejects, since the loop's `validateStatus` accepts only
      statuses below 500. */
  datatype Attempt = Answered(response: Response) | Raised(message: string)

  /** How `makeHttpRequest` ends: it returns a response, throws, or (when
      asked for no attempts at all) falls off the end and returns `undefined`. */
  datatype RequestResult = Returned(response: Response) | Threw(message: string) | Undefined

  /** The record of one run of the loop: its result, how many attempts it
      made, and the waits (in milliseconds) it asked for. */
  datatype Trace = Trace(result: RequestResult, attempts: nat, delays: seq<nat>)

  /** The retry count the scripts use (the parameter's default value). */
  const DefaultRetries: int := 3

  /** An attempt succeeds iff axios answered with a status below 400. */
  predicate Succeeds(a: Attempt) {
    a.Answered? && a.response.status < 400
  }

  const StatusFailurePrefix := "Request failed with status code "

  /** The message of the error axios rejects with for a status its
      `validateStatus` refuses. */
  function StatusFailure(status: nat): string {
    StatusFailurePrefix + NatToString(status)
  }

  /** The message of the error the loop catches for a failed attempt: the
      thrown error's own message, axios's rejection for a status of 500 or
      more, or the loop's own `HTTP <status>: <statusText>` for 4xx. */
  function AttemptError(a: Attempt): (m: string)
    ensures a.Raised? ==> m == a.message
    ensures a.Answered? && a.response.status >= 500 ==> m == StatusFailure(a.response.status)
    ensures a.Answered? && a.response.status < 500 ==>
      && 5 + |NatToString(a.response.status)| <= |m| && m[..5] == "HTTP "
      && m[5..5 + |NatToString(a.response.status)|] == NatToString(a.response.status)
  {
    match a
    case Raised(message) => message
    case Answered(response) =>
      if response.status >= 500 then StatusFailure(response.status)
      else
        var digits := NatToString(response.status);
        var head := "HTTP " + digits;
        var m := head + ": " + response.statusText;
        assert m[..|head|] == head;
        assert m[5..5 + |digits|] == head[5..] == digits;
        m
  }

  /** The error thrown once every attempt has failed. */
  function ExhaustedMessage(retries: nat, lastError: string): string {
    "All " + NatToString(retries) + " attempts failed. Last error: " + lastError
  }

  function Pow2(n: nat): (r: nat)
    ensures r >= 1
  {
    if n == 0 then 1 else 2 * Pow2(n - 1)
  }

  /** The wait after failed attempt `attempt` (counted from 1): 2^attempt seconds. */
  function WaitAfter(attempt: nat): nat {
    Pow2(attempt) * 1000
  }

  /** The waits taken after the first `n` attempts failed. */
  function Backoff(n: nat): (r: seq<nat>)
    ensures |r| == n
    ensures forall k :: 0 <= k < n ==> r[k] == WaitAfter(k + 1)
  {
    if n == 0 then [] else Backoff(n - 1) + [WaitAfter(n)]
  }

  /** The index of the first successful attempt among the first `n`, or `n`
      when none of them succeeds. */
  function FirstSuccess(script: seq<Attempt>, n: nat): (k: nat)
    requires n <= |script|
    ensures k <= n
    ensures forall j :: 0 <= j < k ==> !Succeeds(script[j])
    ensures k < n ==> Succeeds(script[k])
  {
    if n == 0 then 0
    else if FirstSuccess(script, n - 1) < n - 1 then FirstSuccess(script, n - 1)
    else if Succeeds(script[n - 1]) then n - 1
    else n
  }

  /** What the retry loop does with `retries` attempts against `script`,
      stated without the loop: it stops at the first success, otherwise it
      spends every attempt; it waits after each failed attempt but the last. */
  function RetrySpec(script: seq<Attempt>, retries: int): (t: Trace)
    requires retries <= |script|
    ensures t.attempts <= (if retries < 0 then 0 else retries)
    ensures t.result.Undefined? <==> retries <= 0
    ensures t.result.Undefined? ==> t.attempts == 0 && t.delays == []
    ensures t.result.Returned? ==>
      && 1 <= t.attempts
      && Succeeds(script[t.attempts - 1])
      && t.result.response == script[t.attempts - 1].response
    ensures t.result.Threw? ==>
      && t.attempts == retries
      && t.result.message == ExhaustedMessage(retries, AttemptError(script[retries - 1]))
    ensures forall j :: 0 <= j < t.attempts - 1 ==> !Succeeds(script[j])
    ensures t.result.Threw? ==> forall j :: 0 <= j < t.attempts ==> !Succeeds(script[j])
    ensures 1 <= t.attempts ==> t.delays == Backoff(t.attempts - 1)
  {
    if retries <= 0 then Trace(Undefined, 0, [])
    else
      var k := FirstSuccess(script, retries);
      if k < retries then Trace(Returned(script[k].response), k + 1, Backoff(k))
      else Trace(Threw(ExhaustedMessage(retries, AttemptError(script[retries - 1]))), retries, Backoff(retries - 1))
  }

  /** `makeHttpRequest(options, retries)`: the `for` loop over `attempt`,
      returning the first response below 400, throwing after the last failed
      attempt, and recording each backoff wait instead of sleeping. */
  method MakeHttpRequest(options: Request, retries: int, script: seq<Attempt>)
    returns (result: RequestResult, attempts: nat, delays: seq<nat>)
    requires retries <= |script|
    ensures Trace(result, attempts, delays) == RetrySpec(script, retries)
  {
    result, attempts, delays := Undefined, 0, [];
    var attempt := 1;
    while attempt <= retries
      invariant 1 <= attempt
      invariant attempt <= retries || attempt == 1
      invariant attempts == attempt - 1
      invariant forall j :: 0 <= j < attempt - 1 ==> !Succeeds(script[j])
      invariant delays == Backoff(attempt - 1)
      invariant result == Undefined
    {
      attempts := attempt;
      var outcome := script[attempt - 1];
      if outcome.Answered? && outcome.response.status < 400 {
        result := Returned(outcome.response);
        SucceedsAt(script, retries, attempt - 1);
        return;
      }
      if attempt == retries {
        result := Threw(ExhaustedMessage(retries, AttemptError(outcome)));
        AllAttemptsFail(script, retries);
        return;
      }
      BackoffGrows(attempt - 1);
      delays := delays + [WaitAfter(attempt)];
      attempt := attempt + 1;
    }
  }

  /** The loop returns the answer of attempt `k + 1` when it is the first
      success. */
  lemma SucceedsAt(script: seq<Attempt>, retries: int, k: nat)
    requires retries <= |script| && k < retries
    requires Succeeds(script[k])
    requires forall j :: 0 <= j < k ==> !Succeeds(script[j])
    ensures RetrySpec(script, retries) == Trace(Returned(script[k].response), k + 1, Backoff(k))
  {
    FirstSuccessIsFirst(script, retries, k);
  }

  /** One more failed attempt adds one wait. */
  lemma BackoffGrows(n: nat)
    ensures Backoff(n + 1) == Backoff(n) + [WaitAfter(n + 1)]
  {
  }

  /** An index that succeeds and has only failures before it is the first success. */
  lemma FirstSuccessIsFirst(script: seq<Attempt>, n: nat, k: nat)
    requires n <= |script| && k < n
    requires Succeeds(script[k])
    requires forall j :: 0 <= j < k ==> !Succeeds(script[j])
    ensures FirstSuccess(script, n) == k
  {
  }

  /** With no success among the first `n` attempts, FirstSuccess reports `n`. */
  lemma FirstSuccessNone(script: seq<Attempt>, n: nat)
    requires n <= |script|
    requires forall j :: 0 <= j < n ==> !Succeeds(script[j])
    ensures FirstSuccess(script, n) == n
  {
  }

  /** The waits start at 2000 ms and double each time. */
  lemma {:induction false} BackoffDoubles(n: nat)
    ensures n >= 1 ==> Backoff(n)[0] == 2000
    ensures forall k :: 0 <= k < n - 1 ==> Backoff(n)[k + 1] == 2 * Backoff(n)[k]
  {
  }

  /** A 4xx answer is retried like a network failure: a client error on the
      first attempt followed by a success on the second returns the second
      response after one 2000 ms wait. */
  lemma ClientErrorIsRetried(script: seq<Attempt>, retries: int)
    requires 2 <= retries <= |script|
    requires script[0].Answered? && 400 <= script[0].response.status < 500
    requires Succeeds(script[1])
    ensures RetrySpec(script, retries) == Trace(Returned(script[1].response), 2, [2000])
  {
    assert FirstSuccess(script, retries) == 1 by {
      FirstSuccessIsFirst(script, retries, 1);
    }
  }

  /** A 5xx answer is never returned: when the last attempt is one, the
      loop throws with axios's rejection message, not with the status text. */
  lemma ServerErrorIsRejected(script: seq<Attempt>, retries: nat)
    requires 1 <= retries <= |script|
    requires forall j :: 0 <= j < retries - 1 ==> !Succeeds(script[j])
    requires script[retries - 1].Answered? && script[retries - 1].response.status >= 500
    ensures RetrySpec(script, retries).result
      == Threw(ExhaustedMessage(retries, StatusFailure(script[retries - 1].response.status)))
  {
    AllAttemptsFail(script, retries);
  }

  /** A first attempt that succeeds is returned at once, without waiting. */
  lemma FirstAttemptSucceeds(script: seq<Attempt>, retries: int)
    requires 1 <= retries <= |script|
    requires Succeeds(script[0])
    ensures RetrySpec(script, retries) == Trace(Returned(script[0].response), 1, [])
  {
    FirstSuccessIsFirst(script, retries, 0);
  }

  /** When every attempt fails, exactly `retries` attempts are made, the waits
      are 2000, 4000, ..., 2^(retries-1)*1000 ms, and the error names the
      attempt count and the last attempt's error. */
  lemma AllAttemptsFail(script: seq<Attempt>, retries: nat)
    requires 1 <= retries <= |script|
    requires forall j :: 0 <= j < retries ==> !Succeeds(script[j])
    ensures RetrySpec(script, retries)
      == Trace(Threw(ExhaustedMessage(retries, AttemptError(script[retries - 1]))), retries, Backoff(retries - 1))
  {
    FirstSuccessNone(script, retries);
  }
}
