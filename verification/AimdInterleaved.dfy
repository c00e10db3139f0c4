/** Adaptive concurrency under every interleaving of its atomic loads, stores and
    compare-and-exchanges (unigateway-core/src/engine/aimd.rs:84-169). */
module AimdInterleaved {
  import opened Common
  import opened Aimd

  /** Where a thread is in a call, with the values it has read. */
  datatype Pc =
    | Idle
    | AcquireActive(hard: Option<nat>)
    | AcquireLimit(hard: Option<nat>, active: nat)
    | AcquireTry(active: nat, limit: nat)
    | SuccessCooldown(now: nat)
    | SuccessLimit
    | SuccessThreshold(limit: nat)
    | SuccessTry(limit: nat, ssthresh: nat)
    | SaturationCooldown(now: nat)
    | SaturationLimit(now: nat)
    | SaturationThreshold(now: nat, limit: nat)
    | SaturationTry(now: nat, limit: nat)
    | SaturationEnd(now: nat)

  /** A thread and the guards it holds. */
  datatype Thread = Thread(pc: Pc, guards: nat)

  datatype System = System(shared: Shared, threads: seq<Thread>)

  datatype Op = DoAcquire(hard: Option<nat>) | DoSuccess(now: nat) | DoSaturation(now: nat)

  /** `spurious` lets a weak compare-and-exchange fail for no reason. */
  datatype Step = Begin(thread: nat, op: Op) | Advance(thread: nat, spurious: bool) | DropGuard(thread: nat)

  function First(op: Op): Pc {
    match op
    case DoAcquire(hard) => AcquireActive(hard)
    case DoSuccess(now) => SuccessCooldown(now)
    case DoSaturation(now) => SaturationCooldown(now)
  }

  /** The next atomic access of a call. */
  function Advanced(cfg: Config, s: Shared, t: Thread, spurious: bool): (Shared, Thread) {
    match t.pc
    case Idle => (s, t)
    case AcquireActive(hard) => (s, t.(pc := AcquireLimit(hard, s.active)))
    case AcquireLimit(hard, active) => (s, t.(pc := AcquireTry(active, Effective(s.limit, hard))))
    case AcquireTry(active, limit) =>
      if active >= limit then (s, t.(pc := Idle))
      else if s.active == active && !spurious then (s.(active := active + 1), Thread(Idle, t.guards + 1))
      else (s, t.(pc := AcquireTry(s.active, limit)))
    case SuccessCooldown(now) => (s, t.(pc := if now < s.cooldownUntil then Idle else SuccessLimit))
    case SuccessLimit => (s, t.(pc := SuccessThreshold(s.limit)))
    case SuccessThreshold(limit) => (s, t.(pc := SuccessTry(limit, s.ssthresh)))
    case SuccessTry(limit, ssthresh) =>
      var next := Raised(cfg, limit, ssthresh);
      if next == limit then (s, t.(pc := Idle))
      else if s.limit == limit && !spurious then (s.(limit := next), t.(pc := Idle))
      else (s, t.(pc := SuccessTry(s.limit, ssthresh)))
    case SaturationCooldown(now) => (s, t.(pc := if now < s.cooldownUntil then Idle else SaturationLimit(now)))
    case SaturationLimit(now) => (s, t.(pc := SaturationThreshold(now, s.limit)))
    case SaturationThreshold(now, limit) => (s.(ssthresh := Lowered(cfg, limit)), t.(pc := SaturationTry(now, limit)))
    case SaturationTry(now, limit) =>
      (if s.limit == limit then s.(limit := Lowered(cfg, limit)) else s, t.(pc := SaturationEnd(now)))
    case SaturationEnd(now) => (s.(cooldownUntil := now + cfg.cooldownMs), t.(pc := Idle))
  }

  predicate Enabled(y: System, step: Step) {
    && step.thread < |y.threads|
    && match step
       case Begin(i, _) => y.threads[i].pc == Idle
       case Advance(i, _) => y.threads[i].pc != Idle
       case DropGuard(i) => y.threads[i].guards > 0
  }

  function Next(cfg: Config, y: System, step: Step): System
    requires Enabled(y, step)
  {
    var i := step.thread;
    match step
    case Begin(_, op) => y.(threads := y.threads[i := y.threads[i].(pc := First(op))])
    case Advance(_, spurious) =>
      var (s, t) := Advanced(cfg, y.shared, y.threads[i], spurious);
      System(s, y.threads[i := t])
    case DropGuard(_) =>
      System(y.shared.(active := WrappingDec(y.shared.active)),
             y.threads[i := y.threads[i].(guards := y.threads[i].guards - 1)])
  }

  function Run(cfg: Config, y: System, steps: seq<Step>): Option<System>
    decreases |steps|
  {
    if steps == [] then Some(y)
    else
      match Run(cfg, y, steps[..|steps| - 1])
      case None => None
      case Some(z) =>
        if Enabled(z, steps[|steps| - 1]) then Some(Next(cfg, z, steps[|steps| - 1])) else None
  }

  function Threads(n: nat): seq<Thread> { if n == 0 then [] else Threads(n - 1) + [Thread(Idle, 0)] }

  function Begun(cfg: Config, n: nat): System { System(New(cfg), Threads(n)) }

  function Guards(threads: seq<Thread>): nat {
    if threads == [] then 0 else Guards(threads[..|threads| - 1]) + threads[|threads| - 1].guards
  }

  // ----- the invariant -----

  /** Every acquire passes a hard limit of at most `h`, if there is such an `h`. */
  predicate RespectsHard(op: Op, h: Option<nat>) {
    op.DoAcquire? && h.Some? ==> op.hard.Some? && op.hard.value <= h.value
  }

  ghost predicate AllRespect(steps: seq<Step>, h: Option<nat>) {
    forall i :: 0 <= i < |steps| && steps[i].Begin? ==> RespectsHard(steps[i].op, h)
  }

  predicate InLimits(cfg: Config, n: nat) { cfg.min <= n <= cfg.max }

  /** The values a thread carries are within the limits. */
  predicate Sane(cfg: Config, h: Option<nat>, pc: Pc) {
    match pc
    case AcquireActive(hard) => RespectsHard(DoAcquire(hard), h)
    case AcquireLimit(hard, _) => RespectsHard(DoAcquire(hard), h)
    case AcquireTry(_, limit) => limit <= Effective(cfg.max, h)
    case SuccessThreshold(limit) => InLimits(cfg, limit)
    case SuccessTry(limit, ssthresh) => InLimits(cfg, limit) && InLimits(cfg, ssthresh)
    case SaturationThreshold(_, limit) => InLimits(cfg, limit)
    case SaturationTry(_, limit) => InLimits(cfg, limit)
    case _ => true
  }

  ghost predicate Sound(cfg: Config, h: Option<nat>, y: System) {
    && InLimits(cfg, y.shared.limit) && InLimits(cfg, y.shared.ssthresh)
    && y.shared.active == Guards(y.threads)
    && y.shared.active <= Effective(cfg.max, h)
    && forall i :: 0 <= i < |y.threads| ==> Sane(cfg, h, y.threads[i].pc)
  }

  lemma {:induction false} GuardsMoved(threads: seq<Thread>, i: nat, t: Thread)
    requires i < |threads|
    ensures Guards(threads[i := t]) == Guards(threads) - threads[i].guards + t.guards
  {
    var n := |threads| - 1;
    if i == n {
      assert threads[i := t][..n] == threads[..n];
    } else {
      GuardsMoved(threads[..n], i, t);
      assert threads[i := t][..n] == threads[..n][i := t];
    }
  }

  lemma {:induction false} GuardsCounted(threads: seq<Thread>, i: nat)
    requires i < |threads|
    ensures threads[i].guards <= Guards(threads)
  {
    if i < |threads| - 1 {
      GuardsCounted(threads[..|threads| - 1], i);
    }
  }

  lemma AdvanceKeeps(cfg: Config, h: Option<nat>, s: Shared, t: Thread, spurious: bool)
    requires Usable(cfg) && InLimits(cfg, s.limit) && InLimits(cfg, s.ssthresh)
    requires s.active <= Effective(cfg.max, h) && Sane(cfg, h, t.pc)
    ensures var (r, u) := Advanced(cfg, s, t, spurious);
            && InLimits(cfg, r.limit) && InLimits(cfg, r.ssthresh)
            && r.active <= Effective(cfg.max, h)
            && Sane(cfg, h, u.pc)
            && r.active - s.active == u.guards - t.guards
  {}

  lemma StepKeepsSound(cfg: Config, h: Option<nat>, y: System, step: Step)
    requires Usable(cfg) && Sound(cfg, h, y) && Enabled(y, step)
    requires step.Begin? ==> RespectsHard(step.op, h)
    ensures Sound(cfg, h, Next(cfg, y, step))
  {
    var i := step.thread;
    GuardsMoved(y.threads, i, Next(cfg, y, step).threads[i]);
    GuardsCounted(y.threads, i);
    if step.Advance? {
      AdvanceKeeps(cfg, h, y.shared, y.threads[i], step.spurious);
    }
  }

  lemma {:induction false} NoGuards(n: nat)
    ensures |Threads(n)| == n && Guards(Threads(n)) == 0
    ensures forall i :: 0 <= i < n ==> Threads(n)[i].pc == Idle
  {
    if n > 0 {
      NoGuards(n - 1);
      assert Threads(n)[..n - 1] == Threads(n - 1);
    }
  }

  /** Under every interleaving: limit and threshold stay between minimum and maximum, the active
      connections are exactly the guards held, so no release ever wraps around, and they stay
      within the maximum, and within a hard limit that every acquire passes. */
  lemma {:induction false} SoundAlways(cfg: Config, h: Option<nat>, n: nat, steps: seq<Step>)
    requires Usable(cfg) && AllRespect(steps, h)
    requires Run(cfg, Begun(cfg, n), steps).Some?
    ensures Sound(cfg, h, Run(cfg, Begun(cfg, n), steps).value)
    decreases |steps|
  {
    if steps == [] {
      NoGuards(n);
    } else {
      var front := steps[..|steps| - 1];
      SoundAlways(cfg, h, n, front);
      StepKeepsSound(cfg, h, Run(cfg, Begun(cfg, n), front).value, steps[|steps| - 1]);
    }
  }

  lemma ReleaseNeverWraps(cfg: Config, n: nat, steps: seq<Step>, i: nat)
    requires Usable(cfg)
    requires Run(cfg, Begun(cfg, n), steps).Some?
    requires Enabled(Run(cfg, Begun(cfg, n), steps).value, DropGuard(i))
    ensures var y := Run(cfg, Begun(cfg, n), steps).value;
            Next(cfg, y, DropGuard(i)).shared.active == y.shared.active - 1
  {
    SoundAlways(cfg, None, n, steps);
    GuardsCounted(Run(cfg, Begun(cfg, n), steps).value.threads, i);
  }

  /** Even under races the limit only ever moves up by one or down to its half, or the minimum. */
  lemma LimitMovesByTheRules(cfg: Config, n: nat, steps: seq<Step>, step: Step)
    requires Usable(cfg)
    requires Run(cfg, Begun(cfg, n), steps).Some?
    requires Enabled(Run(cfg, Begun(cfg, n), steps).value, step)
    ensures var y := Run(cfg, Begun(cfg, n), steps).value;
            var limit := Next(cfg, y, step).shared.limit;
            || limit == y.shared.limit
            || limit == y.shared.limit + 1
            || limit == Max(y.shared.limit / 2, cfg.min)
  {
    SoundAlways(cfg, None, n, steps);
  }

  // ----- a call that nothing interrupts is a call of the class -----

  /** What the whole calls of the class do, with the guard that an acquire returns. */
  function Whole(cfg: Config, s: Shared, guards: nat, op: Op): (Shared, nat) {
    match op
    case DoAcquire(hard) =>
      var (r, ok) := Acquired(s, hard);
      (r, if ok then guards + 1 else guards)
    case DoSuccess(now) => (OnSuccess(cfg, s, now), guards)
    case DoSaturation(now) => (OnSaturation(cfg, s, now), guards)
  }

  /** `n` accesses of one thread in a row, none of them failing spuriously. */
  function Advances(cfg: Config, s: Shared, t: Thread, n: nat): (Shared, Thread)
    decreases n
  {
    if n == 0 then (s, t)
    else
      var (r, u) := Advanced(cfg, s, t, false);
      Advances(cfg, r, u, n - 1)
  }

  /** Five accesses suffice for any call. */
  lemma UninterruptedIsWhole(cfg: Config, s: Shared, guards: nat, op: Op)
    ensures var (r, g) := Whole(cfg, s, guards, op);
            Advances(cfg, s, Thread(First(op), guards), 5) == (r, Thread(Idle, g))
  {}
}
