/** Adaptive concurrency of an endpoint (unigateway-core/src/engine/aimd.rs): additive increase,
    multiplicative decrease. The class runs one call at a time; `AimdInterleaved` has the atomics. */
module Aimd {
  import opened Common

  const USIZE_MAX: nat := 0xFFFF_FFFF_FFFF_FFFF

  datatype Config = Config(initial: nat, max: nat, min: nat, cooldownMs: nat)

  ghost predicate Usable(cfg: Config) {
    cfg.min <= cfg.initial <= cfg.max <= USIZE_MAX
  }

  /** The values of the atomics. */
  datatype Shared = Shared(limit: nat, ssthresh: nat, active: nat, cooldownUntil: nat)

  function New(cfg: Config): Shared { Shared(cfg.initial, cfg.max, 0, 0) }

  function SaturatingInc(n: nat): nat { if n >= USIZE_MAX then USIZE_MAX else n + 1 }

  /** The unchecked subtraction of the source wraps around. */
  function WrappingDec(n: nat): nat { if n == 0 then USIZE_MAX else n - 1 }

  function Effective(limit: nat, hard: Option<nat>): nat {
    match hard
    case Some(h) => Min(limit, h)
    case None => limit
  }

  /** The limit a success leads to. */
  function Raised(cfg: Config, limit: nat, ssthresh: nat): nat {
    if limit < ssthresh then Min(SaturatingInc(limit), ssthresh) else Min(SaturatingInc(limit), cfg.max)
  }

  /** The limit, and threshold, a saturation leads to. */
  function Lowered(cfg: Config, limit: nat): nat { Max(limit / 2, cfg.min) }

  // ----- whole calls -----

  function Acquired(s: Shared, hard: Option<nat>): (Shared, bool) {
    if s.active >= Effective(s.limit, hard) then (s, false) else (s.(active := s.active + 1), true)
  }

  function OnSuccess(cfg: Config, s: Shared, now: nat): Shared {
    if now < s.cooldownUntil then s else s.(limit := Raised(cfg, s.limit, s.ssthresh))
  }

  function OnSaturation(cfg: Config, s: Shared, now: nat): Shared {
    if now < s.cooldownUntil then s
    else Shared(Lowered(cfg, s.limit), Lowered(cfg, s.limit), s.active, now + cfg.cooldownMs)
  }

  class AdaptiveConcurrency {
    const config: Config
    var currentLimit: nat
    var ssthresh: nat
    var activeConnections: nat
    var cooldownUntil: nat

    constructor (cfg: Config)
      ensures config == cfg && State() == New(cfg)
    {
      config := cfg;
      currentLimit, ssthresh, activeConnections, cooldownUntil := cfg.initial, cfg.max, 0, 0;
    }

    function State(): Shared
      reads this
    {
      Shared(currentLimit, ssthresh, activeConnections, cooldownUntil)
    }

    /** `spurious` is how often the weak compare-and-exchange fails for no reason. */
    method Acquire(hard: Option<nat>, spurious: nat) returns (guarded: bool)
      modifies this
      ensures (State(), guarded) == Acquired(old(State()), hard)
    {
      var currentActive := activeConnections;
      var limit := currentLimit;
      if hard.Some? && hard.value < limit { limit := hard.value; }
      var failures := spurious;
      while true
        invariant State() == old(State())
        invariant currentActive == activeConnections && limit == Effective(currentLimit, hard)
        decreases failures
      {
        if currentActive >= limit { return false; }
        if failures == 0 {
          activeConnections := currentActive + 1;
          return true;
        }
        failures := failures - 1;
        currentActive := activeConnections;
      }
      guarded := false;
    }

    method Release()
      modifies this
      ensures State() == old(State()).(active := WrappingDec(old(activeConnections)))
    {
      activeConnections := if activeConnections == 0 then USIZE_MAX else activeConnections - 1;
    }

    method RecordSuccess(now: nat, spurious: nat)
      modifies this
      ensures State() == OnSuccess(config, old(State()), now)
    {
      if now < cooldownUntil { return; }
      var limit := currentLimit;
      var threshold := ssthresh;
      var failures := spurious;
      while true
        invariant State() == old(State()) && limit == currentLimit && threshold == ssthresh
        decreases failures
      {
        var nextLimit := if limit < threshold then Min(SaturatingInc(limit), threshold)
                         else Min(SaturatingInc(limit), config.max);
        if nextLimit == limit { return; }
        if failures == 0 {
          currentLimit := nextLimit;
          return;
        }
        failures := failures - 1;
        limit := currentLimit;
      }
    }

    method RecordSaturation(now: nat)
      modifies this
      ensures State() == OnSaturation(config, old(State()), now)
    {
      if now < cooldownUntil { return; }
      var limit := currentLimit;
      var newSsthresh := Max(limit / 2, config.min);
      var newLimit := Max(limit / 2, config.min);
      ssthresh := newSsthresh;
      if currentLimit == limit {
        currentLimit := newLimit;
      }
      cooldownUntil := now + config.cooldownMs;
    }
  }

  // ----- sequential runs -----

  datatype Signal = Success(now: nat) | Saturation(now: nat)

  function Signalled(cfg: Config, s: Shared, signal: Signal): Shared {
    match signal
    case Success(now) => OnSuccess(cfg, s, now)
    case Saturation(now) => OnSaturation(cfg, s, now)
  }

  function Run(cfg: Config, s: Shared, signals: seq<Signal>): Shared
    decreases |signals|
  {
    if signals == [] then s
    else Signalled(cfg, Run(cfg, s, signals[..|signals| - 1]), signals[|signals| - 1])
  }

  ghost predicate InRange(cfg: Config, s: Shared) {
    cfg.min <= s.limit <= cfg.max && cfg.min <= s.ssthresh <= cfg.max
  }

  function Pow2(k: nat): (p: nat)
    ensures p > 0
  {
    if k == 0 then 1 else 2 * Pow2(k - 1)
  }

  /** Every signal finds the cooldown over. */
  predicate AllEffective(cfg: Config, s: Shared, signals: seq<Signal>)
    decreases |signals|
  {
    signals == [] ||
    var front := signals[..|signals| - 1];
    AllEffective(cfg, s, front) && Run(cfg, s, front).cooldownUntil <= signals[|signals| - 1].now
  }

  lemma HalvedAgain(n: nat, p: nat)
    requires p > 0
    ensures n / p / 2 == n / (2 * p)
  {
    var q, r := n / p, n % p;
    assert n == p * q + r;
    var h, b := q / 2, q % 2;
    assert p * q == p * (2 * h) + p * b;
    assert n == (2 * p) * h + (p * b + r);
    assert 0 <= p * b + r < 2 * p by { assert b == 0 || b == 1; }
    DividedAs(n, 2 * p, h, p * b + r);
  }

  /** Half of the half ..., `k` times, rounding down each time. */
  function Halved(n: nat, k: nat): nat { if k == 0 then n else Halved(n, k - 1) / 2 }

  /** Rounding each time is rounding once. */
  lemma {:induction false} HalvedIsFloor(n: nat, k: nat)
    ensures Halved(n, k) == n / Pow2(k)
  {
    if k > 0 {
      HalvedIsFloor(n, k - 1);
      HalvedAgain(n, Pow2(k - 1));
    }
  }

  /** Effective saturations halve down to the minimum: after `k` of them, exactly the larger of
      the minimum and the `k`-fold half. */
  lemma {:induction false} SaturationsHalve(cfg: Config, s: Shared, signals: seq<Signal>)
    requires InRange(cfg, s)
    requires AllEffective(cfg, s, signals)
    requires forall x <- signals :: x.Saturation?
    ensures InRange(cfg, Run(cfg, s, signals))
    ensures Run(cfg, s, signals).limit == Max(cfg.min, Halved(s.limit, |signals|))
    decreases |signals|
  {
    if signals != [] {
      var n := |signals| - 1;
      var front := signals[..n];
      SaturationsHalve(cfg, s, front);
      assert signals[n].Saturation?;
    }
  }

  /** Effective successes add one each, up to the maximum, whatever the threshold is. */
  lemma {:induction false} SuccessesAdd(cfg: Config, s: Shared, signals: seq<Signal>)
    requires InRange(cfg, s) && cfg.max <= USIZE_MAX
    requires AllEffective(cfg, s, signals)
    requires forall x <- signals :: x.Success?
    ensures Run(cfg, s, signals) == s.(limit := Min(cfg.max, s.limit + |signals|))
    decreases |signals|
  {
    if signals != [] {
      var n := |signals| - 1;
      var front := signals[..n];
      SuccessesAdd(cfg, s, front);
      assert signals[n].Success?;
    }
  }

  lemma {:induction false} RunConcat(cfg: Config, s: Shared, a: seq<Signal>, b: seq<Signal>)
    ensures Run(cfg, s, a + b) == Run(cfg, Run(cfg, s, a), b)
    decreases |b|
  {
    if b == [] {
      assert a + b == a;
    } else {
      RunConcat(cfg, s, a, b[..|b| - 1]);
      assert (a + b)[..|a + b| - 1] == a + b[..|b| - 1];
    }
  }

  /** The saw tooth: `k` saturations, then `n` successes. */
  lemma {:induction false} SawTooth(cfg: Config, s: Shared, down: seq<Signal>, up: seq<Signal>)
    requires InRange(cfg, s) && cfg.max <= USIZE_MAX
    requires AllEffective(cfg, s, down) && AllEffective(cfg, Run(cfg, s, down), up)
    requires (forall x <- down :: x.Saturation?) && (forall x <- up :: x.Success?)
    ensures Run(cfg, s, down + up).limit
            == Min(cfg.max, Max(cfg.min, Halved(s.limit, |down|)) + |up|)
  {
    SaturationsHalve(cfg, s, down);
    RiseAfter(cfg, s, down, up);
  }

  lemma {:induction false} RiseAfter(cfg: Config, s: Shared, before: seq<Signal>, up: seq<Signal>)
    requires InRange(cfg, Run(cfg, s, before)) && cfg.max <= USIZE_MAX
    requires AllEffective(cfg, Run(cfg, s, before), up) && forall x <- up :: x.Success?
    ensures Run(cfg, s, before + up).limit == Min(cfg.max, Run(cfg, s, before).limit + |up|)
  {
    var mid := Run(cfg, s, before);
    SuccessesAdd(cfg, mid, up);
    RunConcat(cfg, s, before, up);
    assert Run(cfg, s, before + up) == mid.(limit := Min(cfg.max, mid.limit + |up|));
  }

  ghost predicate ClockForward(signals: seq<Signal>) {
    forall i, j :: 0 <= i < j < |signals| ==> signals[i].now <= signals[j].now
  }

  /** Within the cooldown of an effective saturation nothing changes, whatever is signalled. */
  lemma {:induction false} CooldownHolds(cfg: Config, s: Shared, signals: seq<Signal>, i: nat, j: nat)
    requires i < j <= |signals| && ClockForward(signals)
    requires signals[i].Saturation? && Run(cfg, s, signals[..i]).cooldownUntil <= signals[i].now
    requires forall x :: i < x < j ==> signals[x].now < signals[i].now + cfg.cooldownMs
    ensures Run(cfg, s, signals[..j]) == OnSaturation(cfg, Run(cfg, s, signals[..i]), signals[i].now)
    decreases j
  {
    assert signals[..j][..j - 1] == signals[..j - 1];
    if j > i + 1 {
      CooldownHolds(cfg, s, signals, i, j - 1);
    }
  }

  // ----- the edges -----

  /** A subtraction at zero wraps around to the largest number of 64 bits, where an addition stays; a limiter
      begins at its initial limit, free, with its largest limit as threshold and no cooldown. */
  lemma EdgesTold(cfg: Config)
    ensures WrappingDec(0) == 0x1_0000_0000_0000_0000 - 1 == SaturatingInc(0x1_0000_0000_0000_0000 - 1)
    ensures forall n: nat :: n > 0 ==> WrappingDec(n) == n - 1
    ensures forall n: nat :: n < 0x1_0000_0000_0000_0000 - 1 ==> SaturatingInc(n) == n + 1
    ensures New(cfg).limit == cfg.initial && New(cfg).ssthresh == cfg.max
    ensures New(cfg).active == 0 && New(cfg).cooldownUntil == 0
  {}

  /** Within the cooldown signals change nothing; after it a success raises the limit by one, below the
      threshold up to that, else up to the largest limit, and a saturation halves it down to the smallest. */
  lemma SignalsTold(cfg: Config, s: Shared, now: nat)
    requires s.limit < 0x1_0000_0000_0000_0000 - 1
    ensures now < s.cooldownUntil ==> OnSuccess(cfg, s, now) == s && OnSaturation(cfg, s, now) == s
    ensures now >= s.cooldownUntil ==>
              var most, half := if s.limit < s.ssthresh then s.ssthresh else cfg.max, s.limit / 2;
              var least := if half < cfg.min then cfg.min else half;
              && OnSuccess(cfg, s, now) == s.(limit := if s.limit + 1 <= most then s.limit + 1 else most)
              && OnSaturation(cfg, s, now) == Shared(least, least, s.active, now + cfg.cooldownMs)
  {}
}
