/** Runs of the limiter's sections on all keys (unigateway-config/src/runtime.rs:18-165): what a key's
    calls find is the bucket of `TokenBucket`, full at its first call. */
module LimiterRuns {
  import opened Common
  import opened TokenBucket
  import opened RuntimeLimit

  type Runtime = map<string, RateState>

  /** The first call of a key that is not known passes at once, and leaves a burst less one token. */
  lemma FirstCallPasses(runtime: Runtime, key: string, qps: real, now: real)
    requires key !in runtime && qps > 0.0
    ensures var (after, r) := TokenTaken(runtime, key, Some(qps), now);
            && r == Ok(0.0)
            && after == runtime[key := after[key]]
            && after[key].bucket == Bucket((if 2.0 * qps >= 1.0 then 2.0 * qps else 1.0) - 1.0, now)
            && after[key].slots == Slots(0, 0)
  {}

  /** Without a rate limit every call passes, and the bucket of a key that is known stays as it is. */
  lemma UnlimitedPasses(runtime: Runtime, key: string, qpsLimit: Option<real>, now: real)
    requires qpsLimit.None? || qpsLimit.value <= 0.0
    ensures var (after, r) := TokenTaken(runtime, key, qpsLimit, now);
            && r == Ok(0.0)
            && key in after && after[key].slots == (if key in runtime then runtime[key].slots else Slots(0, 0))
            && (key in runtime ==> after == runtime)
            && forall k <- after :: k != key ==> k in runtime && after[k] == runtime[k]
  {}

  // ----- runs -----

  /** A call's first section, or any other section, which changes nothing but the slots of a known key. */
  datatype Section = Take(key: string, qpsLimit: Option<real>, now: real) | Change(key: string, slots: Slots)

  function Step(runtime: Runtime, section: Section): Runtime {
    match section
    case Take(key, qpsLimit, now) => TokenTaken(runtime, key, qpsLimit, now).0
    case Change(key, slots) =>
      if key in runtime then runtime[key := runtime[key].(slots := slots)] else runtime
  }

  function Run(runtime: Runtime, sections: seq<Section>): Runtime
    decreases |sections|
  {
    if sections == [] then runtime
    else Step(Run(runtime, sections[..|sections| - 1]), sections[|sections| - 1])
  }

  /** When the key's calls come. */
  function Times(sections: seq<Section>, key: string): seq<real> {
    if sections == [] then []
    else
      var last := sections[|sections| - 1];
      Times(sections[..|sections| - 1], key) + if last.Take? && last.key == key then [last.now] else []
  }

  function WakesOf(r: Result<real, LimitError>, now: real): seq<real> {
    match r case Ok(wait) => [now + wait] case Err(_) => []
  }

  /** When those of them that pass go on, by the waits they are told. */
  function Wakes(runtime: Runtime, sections: seq<Section>, key: string): seq<real>
    decreases |sections|
  {
    if sections == [] then []
    else
      var front, last := sections[..|sections| - 1], sections[|sections| - 1];
      Wakes(runtime, front, key) +
      if last.Take? && last.key == key then
        WakesOf(TokenTaken(Run(runtime, front), key, last.qpsLimit, last.now).1, last.now)
      else []
  }

  /** The key's calls are limited to `qps`. */
  ghost predicate Limited(sections: seq<Section>, key: string, qps: real) {
    forall s <- sections :: s.Take? && s.key == key ==> s.qpsLimit == Some(qps)
  }

  /** The key's bucket, and when its calls go on, are those of the history. */
  predicate Follows(runtime: Runtime, key: string, wakes: seq<real>, qps: real, times: seq<real>)
    requires qps > 0.0
  {
    if times == [] then key !in runtime && wakes == []
    else
      var h := Ran(qps, times[0], times);
      key in runtime && runtime[key].bucket == h.bucket && wakes == h.wakes
  }

  lemma TakeIsCall(runtime: Runtime, key: string, qps: real, now: real, h: History)
    requires qps > 0.0 && h.bucket == (if key in runtime then runtime[key].bucket else Bucket(Burst(qps), now))
    ensures var (after, r) := TokenTaken(runtime, key, Some(qps), now);
            && key in after && after[key].bucket == Called(qps, h, now).bucket
            && h.wakes + WakesOf(r, now) == Called(qps, h, now).wakes
  {
    assert h.wakes + [] == h.wakes;
  }

  lemma OneMoreCall(qps: real, t0: real, times: seq<real>, now: real)
    requires qps > 0.0
    ensures Ran(qps, t0, times + [now]) == Called(qps, Ran(qps, t0, times), now)
  {
    assert (times + [now])[..|times|] == times;
  }

  lemma TakeFollows(runtime: Runtime, key: string, wakes: seq<real>, qps: real, times: seq<real>, now: real)
    requires qps > 0.0 && Follows(runtime, key, wakes, qps, times)
    ensures var (after, r) := TokenTaken(runtime, key, Some(qps), now);
            Follows(after, key, wakes + WakesOf(r, now), qps, times + [now])
  {
    var t0 := if times == [] then now else times[0];
    var h := Ran(qps, t0, times);
    TakeIsCall(runtime, key, qps, now, h);
    OneMoreCall(qps, t0, times, now);
    assert (times + [now])[0] == t0;
  }

  lemma OtherFollows(runtime: Runtime, section: Section, key: string, wakes: seq<real>, qps: real, times: seq<real>)
    requires qps > 0.0 && Follows(runtime, key, wakes, qps, times)
    requires !(section.Take? && section.key == key)
    ensures Follows(Step(runtime, section), key, wakes, qps, times)
  {}

  /** In every run of sections on any keys, a key that is not known at the start has the bucket that
      `TokenBucket` gives it, full at its first call, and its calls pass and wait accordingly. */
  lemma {:induction false} LimiterIsTheBucket(runtime: Runtime, sections: seq<Section>, key: string, qps: real)
    requires key !in runtime && qps > 0.0 && Limited(sections, key, qps)
    ensures Follows(Run(runtime, sections), key, Wakes(runtime, sections, key), qps, Times(sections, key))
    decreases |sections|
  {
    if sections != [] {
      var front, last := sections[..|sections| - 1], sections[|sections| - 1];
      assert last in sections;
      LimiterIsTheBucket(runtime, front, key, qps);
      var before, wakes, times := Run(runtime, front), Wakes(runtime, front, key), Times(front, key);
      if last.Take? && last.key == key {
        TakeFollows(before, key, wakes, qps, times, last.now);
      } else {
        OtherFollows(before, last, key, wakes, qps, times);
        assert wakes + [] == wakes && times + [] == times;
      }
    }
  }

  /** Tokens stay between minus half a second and the burst, calls go on in order, and no more of them
      than burst and rate allow. */
  ghost predicate Bounded(qps: real, t0: real, tokens: real, wakes: seq<real>, deadline: real) {
    && -qps / 2.0 <= tokens <= Burst(qps)
    && Nondecreasing(wakes)
    && WokenBy(wakes, deadline) as real <= Burst(qps) + qps * (deadline - t0)
  }

  lemma RanBounded(qps: real, t0: real, times: seq<real>, deadline: real)
    requires qps > 0.0 && ClockFrom(t0, times) && t0 <= deadline
    ensures var h := Ran(qps, t0, times); Bounded(qps, t0, h.bucket.tokens, h.wakes, deadline)
  {
    Shaping(qps, t0, times, deadline);
  }

  /** So the limiter shapes, from the key's first call on. */
  lemma LimiterShapes(runtime: Runtime, sections: seq<Section>, key: string, qps: real, deadline: real)
    requires key !in runtime && qps > 0.0 && Limited(sections, key, qps)
    requires var times := Times(sections, key); times != [] && Nondecreasing(times) && times[0] <= deadline
    ensures var after, wakes := Run(runtime, sections), Wakes(runtime, sections, key);
            key in after && Bounded(qps, Times(sections, key)[0], after[key].bucket.tokens, wakes, deadline)
  {
    var times := Times(sections, key);
    assert ClockFrom(times[0], times);
    LimiterIsTheBucket(runtime, sections, key, qps);
    RanBounded(qps, times[0], times, deadline);
  }

  // ----- slots -----

  /** Who gets a slot, a place in the queue, or neither. */
  lemma AdmittedIff(s: Slots, limit: Option<int>)
    ensures var (after, admission) := Entered(s, limit);
            var full := limit.Some? && limit.value > 0 && s.inFlight >= limit.value;
            && (admission == Admitted <==> !full)
            && (admission == Queued <==> full && s.inQueue < 100)
            && after == (if admission == Admitted then Slots(s.inFlight + 1, s.inQueue)
                         else if admission == Queued then Slots(s.inFlight, s.inQueue + 1) else s)
  {}
}
