/** The per-key limiter: a token bucket, then a bounded queue for a limited number of slots
    (unigateway-config/src/runtime.rs). Every section under the lock is one method. */
module RuntimeLimit {
  import opened Common
  import opened TokenBucket

  const MAX_QUEUE_PER_KEY: nat := 100

  datatype LimitError = QpsWaitTooLong | QueueDepthExceeded | StateLost

  datatype Slots = Slots(inFlight: nat, inQueue: nat)

  datatype RateState = RateState(bucket: Bucket, slots: Slots)

  datatype Admission = Admitted | Queued | QueueFull

  // ----- the sections, as functions of what they find -----

  /** A caller that has a token asks for a slot. */
  function Entered(s: Slots, limit: Option<int>): (Slots, Admission) {
    match limit
    case Some(l) =>
      if l > 0 && s.inFlight >= l then
        if s.inQueue >= MAX_QUEUE_PER_KEY then (s, QueueFull)
        else (s.(inQueue := s.inQueue + 1), Queued)
      else (s.(inFlight := s.inFlight + 1), Admitted)
    case None => (s.(inFlight := s.inFlight + 1), Admitted)
  }

  function LessOne(n: nat): nat { if n > 0 then n - 1 else 0 }

  /** A woken caller asks again. */
  function Resumed(s: Slots, limit: Option<int>): (Slots, bool) {
    if limit.None? || s.inFlight < limit.value then (Slots(s.inFlight + 1, LessOne(s.inQueue)), true)
    else (s, false)
  }

  /** Somebody is to be notified when a slot is given back. */
  predicate SomebodyWaits(s: Slots) { s.inQueue > 0 }

  function Released(s: Slots): Slots { s.(inFlight := LessOne(s.inFlight)) }

  function Removed(s: Slots): Slots { s.(inQueue := LessOne(s.inQueue)) }

  function NewRateState(qps: real, now: real): RateState {
    RateState(Bucket(if qps > 0.0 then Burst(qps) else 0.0, now), Slots(0, 0))
  }

  function Found(runtime: map<string, RateState>, key: string): Option<RateState> {
    if key in runtime then Some(runtime[key]) else None
  }

  /** The first section: a new key is set up, and the call takes a token or is turned away. */
  function TokenTaken(runtime: map<string, RateState>, key: string, qpsLimit: Option<real>, now: real)
    : (map<string, RateState>, Result<real, LimitError>)
  {
    var qps := qpsLimit.GetOr(0.0);
    var entry := Found(runtime, key).GetOr(NewRateState(qps, now));
    if qps > 0.0 then
      var (bucket, verdict) := Shaped(entry.bucket, qps, now);
      (runtime[key := entry.(bucket := bucket)],
       match verdict case Pass(wait) => Ok(wait) case WaitTooLong => Err(QpsWaitTooLong))
    else (runtime[key := entry], Ok(0.0))
  }

  class GatewayState {
    var runtime: map<string, RateState>

    constructor ()
      ensures runtime == map[]
    {
      runtime := map[];
    }

    /** The first section: take a token, or find that the wait for one is too long. */
    method TakeToken(key: string, qpsLimit: Option<real>, now: real) returns (r: Result<real, LimitError>)
      modifies this
      ensures var (after, taken) := TokenTaken(old(runtime), key, qpsLimit, now); runtime == after && r == taken
    {
      var qps := qpsLimit.GetOr(0.0);
      if key !in runtime {
        runtime := runtime[key := NewRateState(qps, now)];
      }
      var entry := runtime[key];
      var wait := 0.0;
      if qps > 0.0 {
        var elapsed := if now < entry.bucket.lastUpdate then 0.0 else now - entry.bucket.lastUpdate;
        var tokens := MinReal(entry.bucket.tokens + elapsed * qps, Burst(qps));
        if tokens < 1.0 {
          wait := (1.0 - tokens) / qps;
        }
        if wait <= SHAPING_TIMEOUT {
          tokens := tokens - 1.0;
        }
        runtime := runtime[key := entry.(bucket := Bucket(tokens, now))];
        if wait > SHAPING_TIMEOUT {
          return Err(QpsWaitTooLong);
        }
      }
      r := Ok(wait);
    }

    /** The second section: get a slot, or a place in the queue. */
    method Enter(key: string, limit: Option<int>) returns (r: Result<Admission, LimitError>)
      modifies this
      ensures match Found(old(runtime), key)
              case None => r == Err(StateLost) && runtime == old(runtime)
              case Some(entry) =>
                var (slots, admission) := Entered(entry.slots, limit);
                && runtime == old(runtime)[key := entry.(slots := slots)]
                && r == if admission == QueueFull then Err(QueueDepthExceeded) else Ok(admission)
    {
      if key !in runtime { return Err(StateLost); }
      var entry := runtime[key];
      var slots := entry.slots;
      assert runtime == runtime[key := entry];
      if limit.Some? && limit.value > 0 && slots.inFlight >= limit.value {
        if slots.inQueue >= MAX_QUEUE_PER_KEY { return Err(QueueDepthExceeded); }
        runtime := runtime[key := entry.(slots := slots.(inQueue := slots.inQueue + 1))];
        return Ok(Queued);
      }
      runtime := runtime[key := entry.(slots := slots.(inFlight := slots.inFlight + 1))];
      r := Ok(Admitted);
    }

    /** The section of a woken caller. */
    method Resume(key: string, limit: Option<int>) returns (r: Result<bool, LimitError>)
      modifies this
      ensures match Found(old(runtime), key)
              case None => r == Err(StateLost) && runtime == old(runtime)
              case Some(entry) =>
                var (slots, admitted) := Resumed(entry.slots, limit);
                runtime == old(runtime)[key := entry.(slots := slots)] && r == Ok(admitted)
    {
      if key !in runtime { return Err(StateLost); }
      var entry := runtime[key];
      assert runtime == runtime[key := entry];
      if limit.Some? && entry.slots.inFlight >= limit.value { return Ok(false); }
      var inQueue := entry.slots.inQueue;
      if inQueue > 0 { inQueue := inQueue - 1; }
      runtime := runtime[key := entry.(slots := Slots(entry.slots.inFlight + 1, inQueue))];
      r := Ok(true);
    }

    /** Give a slot back; says whether somebody is to be notified. */
    method ReleaseInflight(key: string) returns (notify: bool)
      modifies this
      ensures match Found(old(runtime), key)
              case None => !notify && runtime == old(runtime)
              case Some(entry) =>
                runtime == old(runtime)[key := entry.(slots := Released(entry.slots))]
                  && notify == SomebodyWaits(entry.slots)
    {
      notify := false;
      if key in runtime {
        var entry := runtime[key];
        assert runtime == runtime[key := entry];
        if entry.slots.inFlight > 0 {
          runtime := runtime[key := entry.(slots := entry.slots.(inFlight := entry.slots.inFlight - 1))];
        }
        notify := entry.slots.inQueue > 0;
      }
    }

    /** Leave the queue after a timeout. */
    method RemoveQueuedRequest(key: string)
      modifies this
      ensures match Found(old(runtime), key)
              case None => runtime == old(runtime)
              case Some(entry) => runtime == old(runtime)[key := entry.(slots := Removed(entry.slots))]
    {
      if key in runtime {
        var entry := runtime[key];
        assert runtime == runtime[key := entry];
        if entry.slots.inQueue > 0 {
          runtime := runtime[key := entry.(slots := entry.slots.(inQueue := entry.slots.inQueue - 1))];
        }
      }
    }
  }
}
