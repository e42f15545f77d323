/** Answering the selected HTTP-01 challenge and waiting for the certificate.

    The response is computed from the challenge and the account key, the CA is
    told the challenge is ready, and the library then polls the order and
    finalizes it until a deadline ten seconds after the clock reading taken
    once the challenge was answered. A timeout from polling becomes an
    application error of its own; every other error of the library goes
    through unchanged. The polling itself happens inside the library and is
    represented only by its outcome for a given deadline. */
module Http01Flow {

  import opened Wrappers
  import opened AcmeErrors
  import opened ChallengeSelection

  /** A clock reading, in microseconds (the resolution of Python's `datetime`). */
  type Instant = int

  const MicrosPerSecond: int := 1_000_000

  /** How long polling may take, in seconds. */
  const PollSeconds: int := 10

  /** The challenge response (the key authorization) as the library computes it. */
  datatype ChallengeResponse = ChallengeResponse(keyAuthorization: string)

  /** What poll_and_finalize ends with: the finalized order's full chain in PEM,
      a timeout, or another library error. */
  datatype PollOutcome =
    | Finalized(fullchainPem: string)
    | PollTimedOut
    | PollFailed(error: CaError)

  /** The calls made to the CA client, in order. */
  datatype CaCall =
    | AnswerChallenge(challenge: ChallengeBody, response: ChallengeResponse)
    | PollAndFinalize(order: OrderResource, deadline: Instant)

  /** The CA client as perform_http01 uses it. `respond` computes the response
      with the client's own account key. */
  datatype Http01Client = Http01Client(
    respond: ChallengeBody -> ChallengeResponse,
    answer: (ChallengeBody, ChallengeResponse) -> Outcome<CaError>,
    pollAndFinalize: (OrderResource, Instant) -> PollOutcome)

  /** The calls made and the result: the full chain PEM or an error. */
  datatype Http01Run = Http01Run(calls: seq<CaCall>, result: Result<string, ApiError>)

  function Deadline(now: Instant): Instant {
    now + PollSeconds * MicrosPerSecond
  }

  /** perform_http01; `now` is the clock reading taken after answering. */
  function PerformHttp01(client: Http01Client, challb: ChallengeBody, order: OrderResource, now: Instant): (run: Http01Run)
    ensures |run.calls| >= 1 && run.calls[0] == AnswerChallenge(challb, client.respond(challb))
    ensures forall i :: 0 <= i < |run.calls| && run.calls[i].PollAndFinalize? ==>
              run.calls[i] == PollAndFinalize(order, now + 10_000_000)
    ensures run.result == Failure(CertificateTimeout) <==>
              client.answer(challb, client.respond(challb)).Pass? &&
              client.pollAndFinalize(order, Deadline(now)) == PollTimedOut
    ensures run.result == Failure(CertificateTimeout) ==> RaisedMessage(run.result.error) == Some(TimeoutMessage)
    ensures run.result.Success? <==>
              client.answer(challb, client.respond(challb)).Pass? &&
              client.pollAndFinalize(order, Deadline(now)).Finalized?
    ensures run.result.Success? ==>
              client.pollAndFinalize(order, Deadline(now)) == Finalized(run.result.value)
    ensures forall e :: run.result == Failure(Ca(e)) <==>
              client.answer(challb, client.respond(challb)) == Fail(e) ||
              (client.answer(challb, client.respond(challb)).Pass? &&
               client.pollAndFinalize(order, Deadline(now)) == PollFailed(e))
  {
    var response := client.respond(challb);
    var answered := AnswerChallenge(challb, response);
    match client.answer(challb, response)
    case Fail(e) => Http01Run([answered], Failure(Ca(e)))
    case Pass =>
      var deadline := Deadline(now);
      var calls := [answered, PollAndFinalize(order, deadline)];
      match client.pollAndFinalize(order, deadline)
      case Finalized(pem) => Http01Run(calls, Success(pem))
      case PollTimedOut => Http01Run(calls, Failure(CertificateTimeout))
      case PollFailed(e) => Http01Run(calls, Failure(Ca(e)))
  }

  /** The CA is asked to answer the challenge first; polling and finalization
      then run once, with the ten-second deadline, exactly when the CA accepted
      the answer, and not at all otherwise. */
  lemma PollsOnceIffAnswered(client: Http01Client, challb: ChallengeBody, order: OrderResource, now: Instant)
    ensures var run := PerformHttp01(client, challb, order, now);
            var answered := AnswerChallenge(challb, client.respond(challb));
            run.calls == if client.answer(challb, client.respond(challb)).Pass?
                         then [answered, PollAndFinalize(order, now + 10_000_000)]
                         else [answered]
  {
  }
}
