/** The retry loop over ordered endpoints (unigateway-core/src/engine/execution/fallback.rs,
    engine/mod.rs:235-260, engine/reporting.rs:121-159, 480-491, 504-640). */
module Fallback {
  import opened Common

  datatype Status = Succeeded | Retried | Failed

  datatype Report = Report(endpoint: string, status: Status)

  datatype GatewayError =
    | PoolNotFound
    | EndpointNotFound
    | InvalidRequest
    | BuildError
    | AllEndpointsSaturated
    | NoAvailableEndpoint
    | AllAttemptsFailed(attempts: seq<Report>, lastError: GatewayError)
    | UpstreamHttp(status: nat)
    | Transport(message: string)
    | StreamAborted
    | NotImplemented

  datatype RetryCondition =
    | HttpStatus(status: nat)
    | HttpStatusRange(start: nat, end: nat)
    | Timeout
    | TransportError

  datatype Strategy = FallbackStrategy | OtherStrategy

  datatype Policy = Policy(strategy: Strategy, retryOn: seq<RetryCondition>)

  /** How a candidate turns out when it is its turn: no free slot, no driver, a whole response, a
      stream, or an error. */
  datatype Outcome = Saturated | NoDriver(error: GatewayError) | Completes | Streams | Fails(error: GatewayError)

  datatype Candidate = Candidate(endpoint: string, outcome: Outcome)

  /** What the loop does that others see: hooks, signals to the limiter, guards. */
  datatype Event =
    | RequestStarted
    | Skipped(index: nat)
    | Acquired(index: nat)
    | AttemptStarted(index: nat)
    | AttemptFinished(index: nat, success: bool)
    | SuccessSignal(index: nat)
    | SaturationSignal(index: nat)
    | Backoff(index: nat)
    | Released(index: nat)
    | HandedOver(index: nat)
    | RequestFinished(reports: seq<Report>)

  datatype Exit = Completed(reports: seq<Report>) | Streaming(index: nat, previous: seq<Report>)
    | Error(error: GatewayError)

  function MatchesCondition(condition: RetryCondition, error: GatewayError): bool {
    match condition
    case HttpStatus(status) => error.UpstreamHttp? && error.status == status
    case HttpStatusRange(start, end) => error.UpstreamHttp? && start <= error.status <= end
    case Timeout => error.Transport? && error.message == "attempt timed out"
    case TransportError => error.Transport? || error.StreamAborted?
  }

  predicate ShouldRetry(policy: Policy, error: GatewayError) {
    if policy.strategy.FallbackStrategy? then
      !error.PoolNotFound? && !error.NoAvailableEndpoint? && !error.AllEndpointsSaturated?
    else exists i :: 0 <= i < |policy.retryOn| && MatchesCondition(policy.retryOn[i], error)
  }

  function Terminal(error: GatewayError): GatewayError {
    if error.AllAttemptsFailed? then Terminal(error.lastError) else error
  }

  predicate IsSaturationError(error: GatewayError) {
    match Terminal(error)
    case UpstreamHttp(status) => status == 429 || 502 <= status <= 504
    case Transport(_) => true
    case StreamAborted => true
    case _ => false
  }

  /** Closing a failed request: nothing is said when nothing was attempted. */
  function FinishFailure(reports: seq<Report>, error: GatewayError): (seq<Event>, GatewayError) {
    if reports == [] then ([], error) else ([RequestFinished(reports)], AllAttemptsFailed(reports, error))
  }

  // ----- the loop -----

  datatype Loop = Loop(attempts: seq<Report>, skipped: nat, lastError: Option<GatewayError>,
                       lastContext: Option<string>, trace: seq<Event>, exit: Option<Exit>)

  const BEFORE := Loop([], 0, None, None, [RequestStarted], None)

  predicate Retries(policy: Policy, cs: seq<Candidate>, i: nat)
    requires i < |cs|
  {
    cs[i].outcome.Fails? && i + 1 < |cs| && ShouldRetry(policy, cs[i].outcome.error)
  }

  function Signal(error: GatewayError, i: nat): seq<Event> {
    if IsSaturationError(error) then [SaturationSignal(i)] else []
  }

  /** The loop's body for candidate `i`. */
  function Tried(policy: Policy, cs: seq<Candidate>, i: nat, s: Loop): Loop
    requires i < |cs|
  {
    var c := cs[i];
    var taken := s.(lastContext := Some(c.endpoint), trace := s.trace + [Acquired(i), AttemptStarted(i)]);
    match c.outcome
    case Saturated => s.(skipped := s.skipped + 1, trace := s.trace + [Skipped(i)])
    case NoDriver(error) =>
      GivenUp(taken, i, s.attempts + [Report(c.endpoint, Failed)], [AttemptFinished(i, false)], error)
    case Completes =>
      var reports := s.attempts + [Report(c.endpoint, Succeeded)];
      taken.(attempts := reports, exit := Some(Completed(reports)),
             trace := taken.trace + [AttemptFinished(i, true), RequestFinished(reports), SuccessSignal(i), Released(i)])
    case Streams =>
      taken.(trace := taken.trace + [HandedOver(i)], exit := Some(Streaming(i, s.attempts)))
    case Fails(error) =>
      if Retries(policy, cs, i) then
        taken.(attempts := s.attempts + [Report(c.endpoint, Retried)], lastError := Some(error),
               trace := taken.trace + (Signal(error, i) + [AttemptFinished(i, false)]) + [Backoff(i), Released(i)])
      else GivenUp(taken, i, s.attempts + [Report(c.endpoint, Failed)],
                   Signal(error, i) + [AttemptFinished(i, false)], error)
  }

  function GivenUp(taken: Loop, i: nat, reports: seq<Report>, said: seq<Event>, error: GatewayError): Loop {
    var (closing, wrapped) := FinishFailure(reports, error);
    taken.(attempts := reports, exit := Some(Error(wrapped)), trace := taken.trace + said + (closing + [Released(i)]))
  }

  /** The loop after the first `n` candidates; it stands still after an exit. */
  function After(policy: Policy, cs: seq<Candidate>, n: nat): Loop
    requires n <= |cs|
  {
    if n == 0 then BEFORE
    else
      var s := After(policy, cs, n - 1);
      if s.exit.Some? then s else Tried(policy, cs, n - 1, s)
  }

  /** Behind the loop. */
  function Concluded(s: Loop): Loop {
    if s.exit.Some? then s
    else
      match s.lastError
      case Some(error) =>
        var (closing, wrapped) := FinishFailure(s.attempts, error);
        s.(trace := s.trace + closing, exit := Some(Error(wrapped)))
      case None =>
        s.(exit := Some(Error(if s.attempts == [] && s.skipped > 0
                              then AllEndpointsSaturated else NoAvailableEndpoint)))
  }

  function Executed(policy: Policy, cs: seq<Candidate>): Loop {
    Concluded(After(policy, cs, |cs|))
  }

  method ExecuteWithFallback(policy: Policy, endpoints: seq<Candidate>)
    returns (exit: Exit, attempts: seq<Report>, trace: seq<Event>)
    ensures var s := Executed(policy, endpoints);
            Some(exit) == s.exit && attempts == s.attempts && trace == s.trace
  {
    attempts, trace := [], [RequestStarted];
    var skippedDueToAimd := 0;
    var lastError: Option<GatewayError> := None;
    var lastContext: Option<string> := None;
    var totalAttempts := |endpoints|;
    for i := 0 to totalAttempts
      invariant After(policy, endpoints, i) == Loop(attempts, skippedDueToAimd, lastError, lastContext, trace, None)
      invariant lastError.Some? ==> lastContext.Some?
    {
      StandsStill(policy, endpoints, i + 1);
      ghost var s := After(policy, endpoints, i);
      assert After(policy, endpoints, i + 1) == Tried(policy, endpoints, i, s);
      var endpoint := endpoints[i];
      if endpoint.outcome.Saturated? {
        skippedDueToAimd := skippedDueToAimd + 1;
        trace := trace + [Skipped(i)];
        continue;
      }
      lastContext := Some(endpoint.endpoint);
      trace := trace + [Acquired(i), AttemptStarted(i)];
      match endpoint.outcome {
        case NoDriver(error) =>
          attempts := attempts + [Report(endpoint.endpoint, Failed)];
          trace := trace + [AttemptFinished(i, false)];
          var closing, wrapped := FinalizeFailure(attempts, lastContext.value, error);
          trace := trace + (closing + [Released(i)]);
          return Error(wrapped), attempts, trace;
        case Completes =>
          attempts := attempts + [Report(endpoint.endpoint, Succeeded)];
          trace := trace + [AttemptFinished(i, true), RequestFinished(attempts), SuccessSignal(i), Released(i)];
          return Completed(attempts), attempts, trace;
        case Streams =>
          trace := trace + [HandedOver(i)];
          return Streaming(i, attempts), attempts, trace;
        case Fails(error) =>
          var said := [];
          if IsSaturationError(error) {
            said := [SaturationSignal(i)];
          }
          assert said == Signal(error, i);
          var shouldRetry := i + 1 < totalAttempts && ShouldRetry(policy, error);
          attempts := attempts + [Report(endpoint.endpoint, if shouldRetry then Retried else Failed)];
          said := said + [AttemptFinished(i, false)];
          trace := trace + said;
          if shouldRetry {
            trace := trace + [Backoff(i), Released(i)];
            lastError := Some(error);
            continue;
          }
          var closing, wrapped := FinalizeFailure(attempts, lastContext.value, error);
          trace := trace + (closing + [Released(i)]);
          return Error(wrapped), attempts, trace;
      }
    }
    if lastError.Some? {
      var closing, wrapped := FinalizeFailure(attempts, lastContext.value, lastError.value);
      trace := trace + closing;
      return Error(wrapped), attempts, trace;
    }
    exit := Error(if attempts == [] && skippedDueToAimd > 0 then AllEndpointsSaturated else NoAvailableEndpoint);
  }

  /** `endpoint` is the context of the report, which has no other use here. */
  method FinalizeFailure(attempts: seq<Report>, endpoint: string, error: GatewayError)
    returns (closing: seq<Event>, wrapped: GatewayError)
    ensures (closing, wrapped) == FinishFailure(attempts, error)
  {
    if attempts == [] { return [], error; }
    closing, wrapped := [RequestFinished(attempts)], AllAttemptsFailed(attempts, error);
  }

  lemma {:induction false} StandsStill(policy: Policy, cs: seq<Candidate>, n: nat)
    requires n <= |cs|
    ensures After(policy, cs, n).exit.Some? ==> After(policy, cs, |cs|) == After(policy, cs, n)
    decreases |cs| - n
  {
    if n < |cs| {
      StandsStill(policy, cs, n + 1);
    }
  }

  /** A failed request is closed with its reports, and its error wrapped with them, unless nothing was
      attempted: then nothing is said, and the error is passed on. */
  lemma FailureTold(reports: seq<Report>, error: GatewayError)
    ensures reports != [] ==>
              FinishFailure(reports, error) == ([RequestFinished(reports)], AllAttemptsFailed(reports, error))
    ensures FinishFailure([], error) == ([], error)
  {}
}
