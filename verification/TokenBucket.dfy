/** The token bucket of a gateway key (unigateway-config/src/runtime.rs:18-55), with real numbers
    for seconds and tokens. Calls that find too few tokens go into debt and sleep it off. */
module TokenBucket {
  import opened Common

  /** The longest sleep a call is put through, in seconds. */
  const SHAPING_TIMEOUT := 0.5

  datatype Bucket = Bucket(tokens: real, lastUpdate: real)

  datatype Verdict = Pass(wait: real) | WaitTooLong

  function Burst(qps: real): real { if 2.0 * qps > 1.0 then 2.0 * qps else 1.0 }

  function MinReal(a: real, b: real): real { if a <= b then a else b }

  function Refilled(b: Bucket, qps: real, now: real): Bucket {
    var elapsed := if now < b.lastUpdate then 0.0 else now - b.lastUpdate;
    Bucket(MinReal(b.tokens + elapsed * qps, Burst(qps)), now)
  }

  /** One call: refill, then take a token if the wait for it is short enough. */
  function Shaped(b: Bucket, qps: real, now: real): (Bucket, Verdict)
    requires qps > 0.0
  {
    var r := Refilled(b, qps, now);
    var wait := Wait(qps, r.tokens);
    if wait <= SHAPING_TIMEOUT then (r.(tokens := r.tokens - 1.0), Pass(wait)) else (r, WaitTooLong)
  }

  // ----- runs of calls -----

  /** The bucket after some calls, and when each call that took a token goes on. */
  datatype History = History(bucket: Bucket, wakes: seq<real>)

  predicate Nondecreasing(times: seq<real>) {
    forall i, j :: 0 <= i < j < |times| ==> times[i] <= times[j]
  }

  /** Calls at the given times on a bucket that was set up at `t0`. */
  function Ran(qps: real, t0: real, times: seq<real>): History
    requires qps > 0.0
  {
    if times == [] then History(Bucket(Burst(qps), t0), [])
    else
      var h, now := Ran(qps, t0, times[..|times| - 1]), times[|times| - 1];
      Called(qps, h, now)
  }

  /** The history after one more call. */
  function Called(qps: real, h: History, now: real): History
    requires qps > 0.0
  {
    match Shaped(h.bucket, qps, now)
    case (b, Pass(wait)) => History(b, h.wakes + [now + wait])
    case (b, WaitTooLong) => History(b, h.wakes)
  }

  ghost predicate ClockFrom(t0: real, times: seq<real>) {
    Nondecreasing(times) && (times != [] ==> t0 <= times[0])
  }

  /** What has been refilled between two times. */
  function Supply(qps: real, since: real, now: real): real { qps * (now - since) }

  lemma SupplyAdds(qps: real, a: real, b: real, c: real)
    ensures Supply(qps, a, b) + Supply(qps, b, c) == Supply(qps, a, c)
    ensures Supply(qps, a, a) == 0.0
    ensures (b - a) * qps == Supply(qps, a, b)
  {
    assert qps * (b - a) + qps * (c - b) == qps * (c - a);
  }

  lemma SupplyOrder(qps: real, since: real, a: real, b: real)
    requires qps > 0.0
    ensures Supply(qps, since, a) <= Supply(qps, since, b) <==> a <= b
  {
    assert qps * (b - since) - qps * (a - since) == qps * (b - a);
  }

  /** Waiting until a debt is paid supplies exactly the debt. */
  lemma SupplyPays(qps: real, since: real, now: real, debt: real)
    requires qps > 0.0
    ensures Supply(qps, since, now + debt / qps) == Supply(qps, since, now) + debt
    ensures debt / qps <= 0.5 <==> debt <= qps / 2.0
  {
    var x := debt / qps;
    assert x * qps == debt;
    assert qps * (now + x - since) == qps * (now - since) + x * qps;
    if x <= 0.5 { assert x * qps <= 0.5 * qps; }
    if x > 0.5 { assert x * qps > 0.5 * qps; }
  }

  /** Times measured in tokens supplied since `t0`. */
  function Scale(qps: real, t0: real, times: seq<real>): (r: seq<real>)
    ensures |r| == |times| && forall k :: 0 <= k < |times| ==> r[k] == Supply(qps, t0, times[k])
  {
    if times == [] then [] else Scale(qps, t0, times[..|times| - 1]) + [Supply(qps, t0, times[|times| - 1])]
  }

  /** What every run keeps, with time measured in supplied tokens: `now` is that of the last call,
      `wakes` are those when callers go on. The last sleeper wakes when the debt is paid off, and
      tokens and passed calls together never outgrow burst and supply. */
  ghost predicate InBalance(qps: real, tokens: real, now: real, wakes: seq<real>) {
    && -qps / 2.0 <= tokens <= Burst(qps)
    && 0.0 <= now
    && Nondecreasing(wakes)
    && (wakes != [] ==> wakes[|wakes| - 1] <= now || wakes[|wakes| - 1] - now <= -tokens)
    && |wakes| as real + tokens <= Burst(qps) + now
    && (forall k :: 0 <= k < |wakes| ==> (k + 1) as real <= Burst(qps) + wakes[k])
  }

  lemma RefillKeepsBalance(qps: real, tokens: real, now: real, wakes: seq<real>, d: real)
    requires InBalance(qps, tokens, now, wakes) && d >= 0.0
    ensures InBalance(qps, MinReal(tokens + d, Burst(qps)), now + d, wakes)
  {}

  lemma TakeKeepsBalance(qps: real, tokens: real, now: real, wakes: seq<real>)
    requires qps > 0.0 && InBalance(qps, tokens, now, wakes)
    requires 1.0 - tokens <= qps / 2.0
    ensures InBalance(qps, tokens - 1.0, now, wakes + [if tokens >= 1.0 then now else now + (1.0 - tokens)])
  {}

  ghost predicate Balanced(qps: real, t0: real, h: History) {
    InBalance(qps, h.bucket.tokens, Supply(qps, t0, h.bucket.lastUpdate), Scale(qps, t0, h.wakes))
  }

  lemma {:induction false} BucketAlways(qps: real, t0: real, times: seq<real>)
    requires qps > 0.0 && ClockFrom(t0, times)
    ensures Balanced(qps, t0, Ran(qps, t0, times))
    ensures Ran(qps, t0, times).bucket.lastUpdate == if times == [] then t0 else times[|times| - 1]
  {
    if times == [] {
      SupplyAdds(qps, t0, t0, t0);
    } else {
      var front, now := times[..|times| - 1], times[|times| - 1];
      BucketAlways(qps, t0, front);
      CallKeepsBalance(qps, t0, Ran(qps, t0, front), now);
    }
  }

  /** A call is turned away exactly when taking the token would leave more than half a second of debt. */
  lemma TurnedAwayInDebt(b: Bucket, qps: real, now: real)
    requires qps > 0.0 && b.lastUpdate <= now
    ensures var tokens := MinReal(b.tokens + Supply(qps, b.lastUpdate, now), Burst(qps));
            Shaped(b, qps, now) == if tokens - 1.0 >= -qps / 2.0
              then (Bucket(tokens - 1.0, now), Pass(Wait(qps, tokens)))
                                   else (Bucket(tokens, now), WaitTooLong)
  {
    var tokens := Refilled(b, qps, now).tokens;
    SupplyAdds(qps, b.lastUpdate, now, now);
    SupplyPays(qps, now, now, 1.0 - tokens);
  }

  function Wait(qps: real, tokens: real): real
    requires qps > 0.0
  {
    if tokens >= 1.0 then 0.0 else (1.0 - tokens) / qps
  }

  lemma CallKeepsBalance(qps: real, t0: real, h: History, now: real)
    requires qps > 0.0 && Balanced(qps, t0, h) && h.bucket.lastUpdate <= now
    ensures Balanced(qps, t0, Called(qps, h, now))
  {
    RefillKeeps(qps, t0, h, now);
    var refilled := CalledAs(qps, h, now);
    if refilled.bucket.tokens - 1.0 >= -qps / 2.0 {
      PassKeeps(qps, t0, refilled);
    }
  }

  lemma CalledAs(qps: real, h: History, now: real) returns (refilled: History)
    requires qps > 0.0 && h.bucket.lastUpdate <= now
    ensures refilled == History(Bucket(MinReal(h.bucket.tokens + Supply(qps, h.bucket.lastUpdate, now), Burst(qps)),
                                       now), h.wakes)
    ensures var b := refilled.bucket;
            Called(qps, h, now) ==
            if b.tokens - 1.0 >= -qps / 2.0
            then History(Bucket(b.tokens - 1.0, b.lastUpdate), h.wakes + [b.lastUpdate + Wait(qps, b.tokens)])
            else refilled
  {
    TurnedAwayInDebt(h.bucket, qps, now);
    refilled := History(Bucket(MinReal(h.bucket.tokens + Supply(qps, h.bucket.lastUpdate, now), Burst(qps)), now),
                        h.wakes);
  }

  lemma RefillKeeps(qps: real, t0: real, h: History, now: real)
    requires qps > 0.0 && Balanced(qps, t0, h) && h.bucket.lastUpdate <= now
    ensures var tokens := MinReal(h.bucket.tokens + Supply(qps, h.bucket.lastUpdate, now), Burst(qps));
            Balanced(qps, t0, History(Bucket(tokens, now), h.wakes))
  {
    var last := h.bucket.lastUpdate;
    SupplyAdds(qps, t0, last, now);
    SupplyAdds(qps, last, last, now);
    SupplyOrder(qps, last, last, now);
    RefillKeepsBalance(qps, h.bucket.tokens, Supply(qps, t0, last), Scale(qps, t0, h.wakes), Supply(qps, last, now));
  }

  lemma PassKeeps(qps: real, t0: real, h: History)
    requires qps > 0.0 && Balanced(qps, t0, h) && h.bucket.tokens - 1.0 >= -qps / 2.0
    ensures var b := h.bucket;
            Balanced(qps, t0,
                     History(Bucket(b.tokens - 1.0, b.lastUpdate), h.wakes + [b.lastUpdate + Wait(qps, b.tokens)]))
  {
    var b := h.bucket;
    TakeKeepsBalance(qps, b.tokens, Supply(qps, t0, b.lastUpdate), Scale(qps, t0, h.wakes));
    WakeScaled(qps, t0, h.wakes, b.lastUpdate, b.tokens);
  }

  lemma WakeScaled(qps: real, t0: real, wakes: seq<real>, now: real, tokens: real)
    requires qps > 0.0
    ensures Scale(qps, t0, wakes + [now + Wait(qps, tokens)]) ==
            Scale(qps, t0, wakes) + [if tokens >= 1.0 then Supply(qps, t0, now)
                                     else Supply(qps, t0, now) + (1.0 - tokens)]
  {
    SupplyPays(qps, t0, now, 1.0 - tokens);
    assert (wakes + [now + Wait(qps, tokens)])[..|wakes|] == wakes;
  }

  lemma WakesInOrder(qps: real, t0: real, wakes: seq<real>)
    requires qps > 0.0 && Nondecreasing(Scale(qps, t0, wakes))
    ensures Nondecreasing(wakes)
  {
    var scaled := Scale(qps, t0, wakes);
    forall i, j | 0 <= i < j < |wakes| ensures wakes[i] <= wakes[j] {
      assert scaled[i] <= scaled[j];
      SupplyOrder(qps, t0, wakes[i], wakes[j]);
    }
  }

  /** How many of the calls wake up by time `by`. */
  function WokenBy(wakes: seq<real>, deadline: real): nat {
    if wakes == [] then 0
    else WokenBy(wakes[..|wakes| - 1], deadline) + if wakes[|wakes| - 1] <= deadline then 1 else 0
  }

  lemma {:induction false} WokenFirst(wakes: seq<real>, deadline: real)
    requires Nondecreasing(wakes)
    ensures WokenBy(wakes, deadline) <= |wakes|
    ensures WokenBy(wakes, deadline) > 0 ==> wakes[WokenBy(wakes, deadline) - 1] <= deadline
  {
    if wakes != [] {
      var front := wakes[..|wakes| - 1];
      WokenFirst(front, deadline);
      if wakes[|front|] <= deadline {
        WokenAll(front, deadline);
      }
    }
  }

  lemma {:induction false} WokenAll(wakes: seq<real>, deadline: real)
    requires forall k :: 0 <= k < |wakes| ==> wakes[k] <= deadline
    ensures WokenBy(wakes, deadline) == |wakes|
  {
    if wakes != [] {
      WokenAll(wakes[..|wakes| - 1], deadline);
    }
  }

  /** Shaping: in every run of calls the bucket stays between half a second of debt and the burst,
      callers go on in the order they came, and no more than the burst and the steady rate allow
      have gone on by any time. */
  lemma Shaping(qps: real, t0: real, times: seq<real>, deadline: real)
    requires qps > 0.0 && ClockFrom(t0, times) && t0 <= deadline
    ensures var h := Ran(qps, t0, times);
            && -qps / 2.0 <= h.bucket.tokens <= Burst(qps)
            && Nondecreasing(h.wakes)
            && WokenBy(h.wakes, deadline) as real <= Burst(qps) + qps * (deadline - t0)
  {
    BucketAlways(qps, t0, times);
    var wakes := Ran(qps, t0, times).wakes;
    WakesInOrder(qps, t0, wakes);
    WokenFirst(wakes, deadline);
    var n := WokenBy(wakes, deadline);
    if n > 0 {
      assert Scale(qps, t0, wakes)[n - 1] == Supply(qps, t0, wakes[n - 1]);
      SupplyOrder(qps, t0, wakes[n - 1], deadline);
    } else {
      SupplyAdds(qps, t0, t0, t0);
      SupplyOrder(qps, t0, t0, deadline);
    }
  }

  // ----- the bucket is as generous as the windows allow -----

  /** How many calls have taken a token. */
  function Passed(qps: real, t0: real, times: seq<real>): nat
    requires qps > 0.0
  {
    |Ran(qps, t0, times).wakes|
  }

  /** What a bucket that was full at call `i` would hold after all calls, the passed ones paid. */
  function Window(qps: real, t0: real, times: seq<real>, i: nat): real
    requires qps > 0.0 && i < |times|
  {
    Burst(qps)
      + Supply(qps, times[i], times[|times| - 1]) - (Passed(qps, t0, times) - Passed(qps, t0, times[..i])) as real
  }

  /** Is `tokens` the smallest window? */
  ghost predicate Tightest(qps: real, t0: real, times: seq<real>, tokens: real)
    requires qps > 0.0
  {
    && (forall i: nat :: i < |times| ==> tokens <= Window(qps, t0, times, i))
    && (exists i: nat :: i < |times| && tokens == Window(qps, t0, times, i))
  }

  lemma TokensStep(qps: real, t0: real, times: seq<real>)
    requires qps > 0.0 && ClockFrom(t0, times) && times != []
    ensures var front, now := times[..|times| - 1], times[|times| - 1];
            var before := Ran(qps, t0, front).bucket;
            Ran(qps, t0, times).bucket.tokens
            == MinReal(before.tokens + Supply(qps, before.lastUpdate, now), Burst(qps))
               - (Passed(qps, t0, times) - Passed(qps, t0, front)) as real
  {
    var front, now := times[..|times| - 1], times[|times| - 1];
    BucketAlways(qps, t0, front);
    TurnedAwayInDebt(Ran(qps, t0, front).bucket, qps, now);
  }

  lemma WindowGrows(qps: real, t0: real, times: seq<real>, i: nat)
    requires qps > 0.0 && i + 1 < |times|
    ensures var front := times[..|times| - 1];
            Window(qps, t0, times, i)
            == Window(qps, t0, front, i) + Supply(qps, front[|front| - 1], times[|times| - 1])
               - (Passed(qps, t0, times) - Passed(qps, t0, front)) as real
  {
    var front := times[..|times| - 1];
    assert front[..i] == times[..i];
    SupplyAdds(qps, times[i], front[|front| - 1], times[|times| - 1]);
  }

  /** The tokens are exactly the smallest window: no window of calls, from any call on, exceeds
      burst and rate, and some window reaches it, so no call is held up without need. */
  lemma {:induction false} TokensAreTheTightestWindow(qps: real, t0: real, times: seq<real>)
    requires qps > 0.0 && ClockFrom(t0, times) && times != []
    ensures Tightest(qps, t0, times, Ran(qps, t0, times).bucket.tokens)
  {
    var n := |times| - 1;
    var before := Ran(qps, t0, times[..n]).bucket;
    TokensStep(qps, t0, times);
    BucketAlways(qps, t0, times[..n]);
    if n > 0 {
      TokensAreTheTightestWindow(qps, t0, times[..n]);
      TightestStep(qps, t0, times, before.tokens);
    } else {
      FirstTightest(qps, t0, times, before.tokens);
    }
  }

  lemma FirstTightest(qps: real, t0: real, times: seq<real>, tokens: real)
    requires qps > 0.0 && |times| == 1 && t0 <= times[0] && tokens == Burst(qps)
    ensures var paid := (Passed(qps, t0, times) - Passed(qps, t0, times[..0])) as real;
            Tightest(qps, t0, times, MinReal(tokens + Supply(qps, t0, times[0]), Burst(qps)) - paid)
  {
    SupplyAdds(qps, t0, times[0], times[0]);
    SupplyAdds(qps, times[0], times[0], times[0]);
    var paid := (Passed(qps, t0, times) - Passed(qps, t0, times[..0])) as real;
    assert Window(qps, t0, times, 0) == Burst(qps) - paid;
  }

  lemma TightestStep(qps: real, t0: real, times: seq<real>, tokens: real)
    requires qps > 0.0 && |times| > 1
    requires Tightest(qps, t0, times[..|times| - 1], tokens)
    ensures var n := |times| - 1;
            var paid := (Passed(qps, t0, times) - Passed(qps, t0, times[..n])) as real;
            Tightest(qps, t0, times, MinReal(tokens + Supply(qps, times[n - 1], times[n]), Burst(qps)) - paid)
  {
    var n := |times| - 1;
    var front := times[..n];
    var paid, d := (Passed(qps, t0, times) - Passed(qps, t0, front)) as real, Supply(qps, times[n - 1], times[n]);
    SupplyAdds(qps, times[n], times[n], times[n]);
    assert Window(qps, t0, times, n) == Burst(qps) - paid;
    forall i: nat | i < n ensures Window(qps, t0, times, i) == Window(qps, t0, front, i) + d - paid {
      WindowGrows(qps, t0, times, i);
    }
    var i: nat :| i < n && tokens == Window(qps, t0, front, i);
    assert MinReal(tokens + d, Burst(qps)) - paid in {Window(qps, t0, times, n), Window(qps, t0, times, i)};
  }
}
