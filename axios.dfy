/** A single `axios.post` as the two Teams notifiers use it, with axios's
    default status check: an answer with a 2xx status resolves, any other
    answer rejects with axios's own message, and a failure of the transport
    rejects with its message. No retries. */
module Axios {
  import opened Js
  import opened Http

  /** axios's default `validateStatus`. */
  predicate IsSuccessStatus(status: nat) {
    200 <= status < 300
  }

  /** The outcome of one `axios.post` whose network attempt is `reply`. */
  function Post(reply: Attempt): (r: Result<Response, string>)
    ensures r.Ok? <==> reply.Answered? && IsSuccessStatus(reply.response.status)
    ensures r.Ok? ==> r.value == reply.response
    ensures reply.Raised? ==> r == Err(reply.message)
    ensures reply.Answered? && !r.Ok? ==> r == Err(StatusFailure(reply.response.status))
  {
    match reply
    case Raised(message) => Err(message)
    case Answered(response) =>
      if IsSuccessStatus(response.status) then Ok(response) else Err(StatusFailure(response.status))
  }

  /** The status can be read back from axios's message. */
  lemma StatusFailureReadsBack(status: nat)
    ensures var message := StatusFailure(status);
      && |StatusFailurePrefix| <= |message|
      && message[..|StatusFailurePrefix|] == StatusFailurePrefix
      && DigitsValue(message[|StatusFailurePrefix|..]) == status
  {
    var message := StatusFailure(status);
    assert message[|StatusFailurePrefix|..] == NatToString(status);
    NatToStringRoundTrip(status);
  }
}
