/**
 * The third-party question provider and `api_questions` (app/main.py:158-172).
 *
 * The network call is replaced by a `Provider`: a total function from the
 * call number (0 for the first request of an invocation, k for its k-th retry)
 * and the requested quantity to what the transport delivered.
 */
module Upstream {
  import opened Wrappers
  import opened QuestionStore

  /** One item of the provider's JSON reply. */
  datatype Candidate = Candidate(id: int, question: string, answer: string, createdAt: Timestamp)

  /** What `requests.get(url, timeout=5)` ends with: a timeout, or a reply with a status and a decoded body. */
  datatype Transport = TimedOut | Received(status: int, body: seq<Candidate>)

  type Provider = (nat, nat) -> Transport

  const StatusOk := 200
  const ServerError := 500
  const GatewayTimeout := 504

  /**
   * `api_questions(quantity)` as the `call`-th request: the decoded items on a
   * 200 reply, status 504 on a timeout, status 500 on any other reply.
   */
  function ApiQuestions(up: Provider, call: nat, quantity: nat): (r: Result<seq<Candidate>, int>)
    ensures r.Success? <==> up(call, quantity).Received? && up(call, quantity).status == StatusOk
    ensures r.Success? ==> r.value == up(call, quantity).body
    ensures r.Failure? ==> r.error == (if up(call, quantity).TimedOut? then GatewayTimeout else ServerError)
  {
    match up(call, quantity)
    case TimedOut => Failure(GatewayTimeout)
    case Received(status, body) =>
      if status != StatusOk then Failure(ServerError) else Success(body)
  }
}
