/** Which failures are retried, and which tell the limiter of overload, in statuses and messages
    (unigateway-core/src/engine/reporting.rs:121-159, 480-491; error.rs:116-121). */
module RetryRules {
  import opened Common
  import opened Fallback
  import opened FallbackTheorems

  // ----- retries -----

  /** The policy names the status, or has it in a range. */
  predicate ListsStatus(policy: Policy, status: nat) {
    exists c <- policy.retryOn ::
      c == HttpStatus(status) || (c.HttpStatusRange? && c.start <= status <= c.end)
  }

  /** Under the fallback strategy all errors are retried but those of the pool itself; otherwise upstream
      statuses that are listed, time-outs if they are, and broken transports if they are. */
  predicate Retriable(policy: Policy, error: GatewayError) {
    if policy.strategy.FallbackStrategy? then
      error != PoolNotFound && error != NoAvailableEndpoint && error != AllEndpointsSaturated
    else
      || (error.UpstreamHttp? && ListsStatus(policy, error.status))
      || (error == Transport("attempt timed out") && Timeout in policy.retryOn)
      || ((error.Transport? || error.StreamAborted?) && TransportError in policy.retryOn)
  }

  lemma ShouldRetryIff(policy: Policy, error: GatewayError)
    ensures ShouldRetry(policy, error) <==> Retriable(policy, error)
  {
    if policy.strategy.OtherStrategy? {
      if i :| 0 <= i < |policy.retryOn| && MatchesCondition(policy.retryOn[i], error) {
        assert policy.retryOn[i] in policy.retryOn;
      }
      if Retriable(policy, error) {
        RetriableMatches(policy, error);
      }
    }
  }

  lemma RetriableMatches(policy: Policy, error: GatewayError)
    requires policy.strategy.OtherStrategy? && Retriable(policy, error)
    ensures exists i :: 0 <= i < |policy.retryOn| && MatchesCondition(policy.retryOn[i], error)
  {
    var c :| c in policy.retryOn && MatchesCondition(c, error);
    var i :| 0 <= i < |policy.retryOn| && policy.retryOn[i] == c;
  }

  /** A candidate is passed over exactly if it has no free slot, or fails before the last one with an
      error that is retried. */
  lemma DecidesIff(policy: Policy, cs: seq<Candidate>, i: nat)
    requires i < |cs|
    ensures Decides(policy, cs, i) <==>
            !(cs[i].outcome.Saturated?
              || (i + 1 < |cs| && cs[i].outcome.Fails? && Retriable(policy, cs[i].outcome.error)))
  {
    if cs[i].outcome.Fails? {
      ShouldRetryIff(policy, cs[i].outcome.error);
    }
  }

  /** Whatever the strategy: behind candidates without a slot and failures that are retried, the first one
      that answers, or fails in any other way, settles the run. */
  lemma FirstAnswerSettles(policy: Policy, cs: seq<Candidate>, d: nat)
    requires d < |cs|
    requires forall i: nat :: i < d ==>
               || cs[i].outcome.Saturated?
               || (cs[i].outcome.Fails? && Retriable(policy, cs[i].outcome.error))
    requires match cs[d].outcome
             case Saturated => false
             case Fails(error) => d + 1 == |cs| || !Retriable(policy, error)
             case _ => true
    ensures EndsWith(cs, d, Executed(policy, cs))
  {
    forall i: nat | i < d ensures !Decides(policy, cs, i) {
      DecidesIff(policy, cs, i);
    }
    DecidesIff(policy, cs, d);
    FirstDecisionSettles(policy, cs, d);
  }

  // ----- signals of overload -----

  /** Statuses and failures that look like overload, behind any number of wrapped attempts. */
  predicate Overload(error: GatewayError) {
    match error
    case AllAttemptsFailed(_, last) => Overload(last)
    case UpstreamHttp(status) => status in {429, 502, 503, 504}
    case Transport(_) => true
    case StreamAborted => true
    case _ => false
  }

  lemma {:induction false} SaturationIff(error: GatewayError)
    ensures IsSaturationError(error) <==> Overload(error)
  {
    if error.AllAttemptsFailed? {
      SaturationIff(error.lastError);
    }
  }

  /** The limiter is told of overload by candidate `i`, or of success, exactly if it failed like that, or
      gave a whole response. */
  lemma {:induction false} SignalsTold(cs: seq<Candidate>, n: nat, i: nat)
    requires n <= |cs| && i < |cs|
    ensures SaturationSignal(i) in ExpectedSignals(cs, n) <==>
            i < n && cs[i].outcome.Fails? && Overload(cs[i].outcome.error)
    ensures SuccessSignal(i) in ExpectedSignals(cs, n) <==> i < n && cs[i].outcome.Completes?
  {
    if n > 0 {
      SignalsTold(cs, n - 1, i);
      if cs[n - 1].outcome.Fails? {
        SaturationIff(cs[n - 1].outcome.error);
      }
    }
  }
}
