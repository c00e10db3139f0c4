/** All interleavings of the callers of one key (unigateway-config/src/runtime.rs:67-165).
    A caller is in one phase; every section under the lock, every poll of the notification and
    every timeout is one step. The notification holds at most one permit. */
module QueueTheorems {
  import opened Common
  import opened RuntimeLimit

  /** `Arriving` has its token and may be asleep for it; `Enqueued` counts in the queue but is not
      registered with the notification (any more); `Expiring` has timed out but is still counted;
      `Lost` was told that the key's state is gone. */
  datatype Phase = Fresh | Arriving | Enqueued | Registered | Woken | Holding | Expiring | Done | Lost

  datatype Key = Key(slots: Option<Slots>, permit: bool, callers: seq<Phase>)

  datatype Step =
    | Shape(caller: nat, passed: bool)
    | GiveUpSleeping(caller: nat)
    | Enter(caller: nat)
    | Poll(caller: nat)
    | TimeOut(caller: nat)
    | Resume(caller: nat)
    | Remove(caller: nat)
    | Release(caller: nat, notified: Option<nat>)

  predicate Enabled(k: Key, step: Step) {
    && step.caller < |k.callers|
    && match step
       case Shape(i, _) => k.callers[i] == Fresh
       case GiveUpSleeping(i) => k.callers[i] == Arriving
       case Enter(i) => k.callers[i] == Arriving
       case Poll(i) => k.callers[i] == Enqueued
       case TimeOut(i) => k.callers[i] == Enqueued || k.callers[i] == Registered
       case Resume(i) => k.callers[i] == Woken
       case Remove(i) => k.callers[i] == Expiring
       case Release(i, notified) =>
         && k.callers[i] == Holding
         && match notified
            case Some(j) => Notifies(k) && j < |k.callers| && k.callers[j] == Registered
            case None => Notifies(k) ==> Count(k.callers, Registered) == 0
  }

  predicate Notifies(k: Key) { k.slots.Some? && SomebodyWaits(k.slots.value) }

  function Moved(k: Key, caller: nat, phase: Phase): Key
    requires caller < |k.callers|
  {
    k.(callers := k.callers[caller := phase])
  }

  function Next(k: Key, limit: Option<int>, step: Step): Key
    requires Enabled(k, step)
  {
    match step
    case Shape(i, passed) =>
      Moved(k, i, if passed then Arriving else Done).(slots := Some(k.slots.GetOr(Slots(0, 0))))
    case GiveUpSleeping(i) => Moved(k, i, Done)
    case Enter(i) =>
      (match k.slots
       case None => Moved(k, i, Lost)
       case Some(s) =>
         var (slots, admission) := Entered(s, limit);
         var phase := match admission case Admitted => Holding case Queued => Enqueued case QueueFull => Done;
         Moved(k, i, phase).(slots := Some(slots)))
    case Poll(i) => if k.permit then Moved(k, i, Woken).(permit := false) else Moved(k, i, Registered)
    case TimeOut(i) => Moved(k, i, Expiring)
    case Resume(i) =>
      (match k.slots
       case None => Moved(k, i, Lost)
       case Some(s) =>
         var (slots, admitted) := Resumed(s, limit);
         Moved(k, i, if admitted then Holding else Enqueued).(slots := Some(slots)))
    case Remove(i) =>
      Moved(k, i, Done).(slots := if k.slots.None? then None else Some(Removed(k.slots.value)))
    case Release(i, notified) =>
      var released := Moved(k, i, Done).(slots := if k.slots.None? then None else Some(Released(k.slots.value)));
      if !Notifies(k) then released
      else (match notified
            case Some(j) => Moved(released, j, Woken)
            case None => released.(permit := true))
  }

  function Count(callers: seq<Phase>, phase: Phase): nat {
    if callers == [] then 0
    else Count(callers[..|callers| - 1], phase) + if callers[|callers| - 1] == phase then 1 else 0
  }

  function All(n: nat, phase: Phase): (callers: seq<Phase>)
    ensures |callers| == n && forall i :: 0 <= i < n ==> callers[i] == phase
  {
    if n == 0 then [] else All(n - 1, phase) + [phase]
  }

  /** A key nobody has called yet, with `n` callers to come. */
  function Untouched(n: nat): Key { Key(None, false, All(n, Fresh)) }

  /** The state after a run, if every step of it can be taken. */
  function Run(start: Key, limit: Option<int>, steps: seq<Step>): Option<Key> {
    if steps == [] then Some(start)
    else
      match Run(start, limit, steps[..|steps| - 1])
      case None => None
      case Some(k) => if Enabled(k, steps[|steps| - 1]) then Some(Next(k, limit, steps[|steps| - 1])) else None
  }

  // ----- counting callers -----

  lemma {:induction false} CountMoved(callers: seq<Phase>, i: nat, to: Phase, phase: Phase)
    requires i < |callers|
    ensures Count(callers[i := to], phase)
            == Count(callers, phase) - (if callers[i] == phase then 1 else 0) + (if to == phase then 1 else 0)
  {
    var n := |callers| - 1;
    if i == n {
      assert callers[i := to][..n] == callers[..n];
    } else {
      CountMoved(callers[..n], i, to, phase);
      assert callers[i := to][..n] == callers[..n][i := to];
    }
  }

  lemma {:induction false} CountAll(callers: seq<Phase>, phase: Phase)
    ensures Count(callers, phase) <= |callers|
    ensures Count(callers, phase) == |callers| <==> forall i :: 0 <= i < |callers| ==> callers[i] == phase
    ensures Count(callers, phase) > 0 <==> exists i :: 0 <= i < |callers| && callers[i] == phase
  {
    if callers != [] {
      var n := |callers| - 1;
      CountAll(callers[..n], phase);
      assert forall i :: 0 <= i < n ==> callers[..n][i] == callers[i];
    }
  }

  /** Somebody in a phase that is not empty. */
  lemma Someone(callers: seq<Phase>, phase: Phase) returns (i: nat)
    requires Count(callers, phase) > 0
    ensures i < |callers| && callers[i] == phase
  {
    CountAll(callers, phase);
    i :| i < |callers| && callers[i] == phase;
  }

  // ----- the invariant -----

  function Waiting(callers: seq<Phase>): nat {
    Count(callers, Enqueued) + Count(callers, Registered) + Count(callers, Woken)
  }

  /** Queue numbers match the callers, a permit is only stored while nobody is registered, and
      somebody will wake those who wait. */
  ghost predicate Sound(k: Key, limit: nat) {
    && Count(k.callers, Lost) == 0
    && (k.permit ==> Count(k.callers, Registered) == 0)
    && match k.slots
       case None => Count(k.callers, Fresh) == |k.callers|
       case Some(s) =>
         && s.inFlight == Count(k.callers, Holding) <= limit
         && s.inQueue == Waiting(k.callers) + Count(k.callers, Expiring) <= MAX_QUEUE_PER_KEY
         && (Waiting(k.callers) > 0 ==> Hope(k))
  }

  ghost predicate Hope(k: Key) {
    || Count(k.callers, Holding) > 0
    || Count(k.callers, Woken) > 0
    || (k.permit && Count(k.callers, Enqueued) > 0)
  }

  lemma {:induction false} MoveCounts(callers: seq<Phase>, i: nat, to: Phase)
    requires i < |callers|
    ensures forall phase :: Count(callers[i := to], phase)
                            == Count(callers, phase) - (if callers[i] == phase then 1 else 0)
                              + (if to == phase then 1 else 0)
  {
    forall phase ensures Count(callers[i := to], phase)
                         == Count(callers, phase) - (if callers[i] == phase then 1 else 0)
                           + (if to == phase then 1 else 0)
    {
      CountMoved(callers, i, to, phase);
    }
  }

  lemma Present(k: Key, i: nat)
    requires i < |k.callers|
    ensures Count(k.callers, k.callers[i]) > 0
    ensures k.callers[i] != Fresh ==> Count(k.callers, Fresh) < |k.callers|
  {
    CountAll(k.callers, k.callers[i]);
    CountAll(k.callers, Fresh);
  }

  lemma StepKeepsSound(k: Key, limit: nat, step: Step)
    requires limit > 0 && Sound(k, limit) && Enabled(k, step)
    ensures Sound(Next(k, Some(limit), step), limit)
  {
    Present(k, step.caller);
    if k.slots.None? {
      AllFresh(k.callers);
      FirstKeepsSound(k, limit, step);
    } else {
      match step {
        case Release(i, Some(j)) => ReleaseKeepsSound(k, limit, i, j);
        case Enter(_) => LockedKeepsSound(k, limit, step);
        case Resume(_) => LockedKeepsSound(k, limit, step);
        case Release(_, None) => StoringKeepsSound(k, limit, step);
        case _ => OtherKeepsSound(k, limit, step);
      }
    }
  }

  lemma FirstKeepsSound(k: Key, limit: nat, step: Step)
    requires limit > 0 && Sound(k, limit) && k.slots.None? && Enabled(k, step) && step.Shape?
    requires forall phase :: phase != Fresh ==> Count(k.callers, phase) == 0
    ensures Sound(Next(k, Some(limit), step), limit)
  {
    var i, next := step.caller, Next(k, Some(limit), step);
    MoveCounts(k.callers, i, next.callers[i]);
    assert next.callers == k.callers[i := next.callers[i]];
    assert Count(k.callers, Enqueued) == 0 && Count(k.callers, Registered) == 0 && Count(k.callers, Woken) == 0;
    assert Count(k.callers, Expiring) == 0 && Count(k.callers, Holding) == 0;
  }

  lemma LockedKeepsSound(k: Key, limit: nat, step: Step)
    requires limit > 0 && Sound(k, limit) && Enabled(k, step) && k.slots.Some?
    requires step.Enter? || step.Resume?
    requires Count(k.callers, k.callers[step.caller]) > 0
    ensures Sound(Next(k, Some(limit), step), limit)
  {
    var i, next := step.caller, Next(k, Some(limit), step);
    MoveCounts(k.callers, i, next.callers[i]);
    assert next.callers == k.callers[i := next.callers[i]];
  }

  lemma StoringKeepsSound(k: Key, limit: nat, step: Step)
    requires limit > 0 && Sound(k, limit) && Enabled(k, step) && k.slots.Some?
    requires step.Release? && step.notified.None?
    requires Count(k.callers, k.callers[step.caller]) > 0
    ensures Sound(Next(k, Some(limit), step), limit)
  {
    var i, next := step.caller, Next(k, Some(limit), step);
    MoveCounts(k.callers, i, Done);
    assert next.callers == k.callers[i := Done];
  }

  lemma OtherKeepsSound(k: Key, limit: nat, step: Step)
    requires limit > 0 && Sound(k, limit) && Enabled(k, step) && k.slots.Some?
    requires !step.Enter? && !step.Resume? && !step.Release?
    requires Count(k.callers, k.callers[step.caller]) > 0
    ensures Sound(Next(k, Some(limit), step), limit)
  {
    var i, next := step.caller, Next(k, Some(limit), step);
    MoveCounts(k.callers, i, next.callers[i]);
    assert next.callers == k.callers[i := next.callers[i]];
  }

  lemma {:induction false} AllFresh(callers: seq<Phase>)
    requires Count(callers, Fresh) == |callers|
    ensures forall phase :: phase != Fresh ==> Count(callers, phase) == 0
  {
    CountAll(callers, Fresh);
    forall phase | phase != Fresh ensures Count(callers, phase) == 0 {
      CountAll(callers, phase);
    }
  }

  lemma ReleaseKeepsSound(k: Key, limit: nat, i: nat, j: nat)
    requires limit > 0 && Sound(k, limit) && Enabled(k, Release(i, Some(j)))
    ensures Sound(Next(k, Some(limit), Release(i, Some(j))), limit)
  {
    Present(k, i);
    MoveCounts(k.callers, i, Done);
    MoveCounts(k.callers[i := Done], j, Woken);
  }

  lemma {:induction false} SoundAlways(n: nat, limit: nat, steps: seq<Step>)
    requires limit > 0
    requires Run(Untouched(n), Some(limit), steps).Some?
    ensures Sound(Run(Untouched(n), Some(limit), steps).value, limit)
    decreases |steps|
  {
    if steps == [] {
      var callers := All(n, Fresh);
      CountAll(callers, Fresh);
      CountAll(callers, Lost);
    } else {
      SoundAlways(n, limit, steps[..|steps| - 1]);
      var k := Run(Untouched(n), Some(limit), steps[..|steps| - 1]).value;
      StepKeepsSound(k, limit, steps[|steps| - 1]);
    }
  }

  // ----- what it means -----

  /** In every interleaving: `inFlight` counts the holders and stays within the limit, `inQueue`
      counts those who wait or are about to leave and stays within the queue's depth, nobody is
      ever told that the key's state is lost, and no decrement ever meets a zero. */
  lemma AccountingIsExact(n: nat, limit: nat, steps: seq<Step>, step: Step)
    requires limit > 0
    requires Run(Untouched(n), Some(limit), steps).Some?
    ensures var k := Run(Untouched(n), Some(limit), steps).value;
            && (k.slots.None? ==> forall i :: 0 <= i < |k.callers| ==> k.callers[i] == Fresh)
            && (k.slots.Some? ==>
                  && k.slots.value.inFlight == Count(k.callers, Holding) <= limit
                  && k.slots.value.inQueue == Waiting(k.callers) + Count(k.callers, Expiring) <= MAX_QUEUE_PER_KEY)
            && (forall i :: 0 <= i < |k.callers| ==> k.callers[i] != Lost)
            && (Enabled(k, step) ==>
                  && (step.Release? ==> k.slots.Some? && k.slots.value.inFlight > 0)
                  && (step.Remove? || step.Resume? ==> k.slots.Some? && k.slots.value.inQueue > 0))
  {
    SoundAlways(n, limit, steps);
    var k := Run(Untouched(n), Some(limit), steps).value;
    CountAll(k.callers, Fresh);
    CountAll(k.callers, Lost);
    if Enabled(k, step) {
      Present(k, step.caller);
    }
  }

  /** No queue is stranded: while anybody waits, a slot is held, a waiter is awake, or a stored
      permit will meet a waiter that has yet to register. */
  lemma NoStrandedWaiter(n: nat, limit: nat, steps: seq<Step>)
    requires limit > 0
    requires Run(Untouched(n), Some(limit), steps).Some?
    ensures var k := Run(Untouched(n), Some(limit), steps).value;
            Waiting(k.callers) > 0 ==> Hope(k)
  {
    SoundAlways(n, limit, steps);
    var k := Run(Untouched(n), Some(limit), steps).value;
    if k.slots.None? {
      AllFresh(k.callers);
    }
  }

  /** Said of the number in the queue rather than of the waiters, this holds exactly unless the
      queue is made up of callers that have timed out and a slot is held by nobody. */
  lemma QueueNumberStrandedIff(n: nat, limit: nat, steps: seq<Step>)
    requires limit > 0
    requires Run(Untouched(n), Some(limit), steps).Some?
    requires Run(Untouched(n), Some(limit), steps).value.slots.Some?
    ensures var k := Run(Untouched(n), Some(limit), steps).value;
            var s := k.slots.value;
            (s.inQueue > 0
             ==> s.inFlight > 0 || Count(k.callers, Woken) > 0 || (k.permit && Count(k.callers, Enqueued) > 0))
            <==> s.inQueue == 0 || s.inFlight > 0 || Count(k.callers, Expiring) < s.inQueue
  {
    SoundAlways(n, limit, steps);
  }

  lemma OneHolds() returns (steps: seq<Step>)
    ensures Run(Untouched(2), Some(1), steps) == Some(Key(Some(Slots(1, 0)), false, [Holding, Fresh]))
  {
    var k0 := Untouched(2);
    var k1 := Key(Some(Slots(0, 0)), false, [Arriving, Fresh]);
    assert All(1, Fresh) == [Fresh] && k0.callers == [Fresh, Fresh];
    assert Run(k0, Some(1), []) == Some(k0);
    steps := StepTo(k0, [], k0, Shape(0, true), k1);
    steps := StepTo(k0, steps, k1, Enter(0), Key(Some(Slots(1, 0)), false, [Holding, Fresh]));
  }

  lemma OneHoldsOneWaits() returns (steps: seq<Step>)
    ensures Run(Untouched(2), Some(1), steps) == Some(Key(Some(Slots(1, 1)), false, [Holding, Enqueued]))
  {
    steps := OneHolds();
    var k0, k2 := Untouched(2), Key(Some(Slots(1, 0)), false, [Holding, Fresh]);
    var k3 := Key(Some(Slots(1, 0)), false, [Holding, Arriving]);
    steps := StepTo(k0, steps, k2, Shape(1, true), k3);
    steps := StepTo(k0, steps, k3, Enter(1), Key(Some(Slots(1, 1)), false, [Holding, Enqueued]));
  }

  /** Such a run: the one in the queue times out, then the holder releases. */
  lemma QueueNumberStranded() returns (steps: seq<Step>)
    ensures Run(Untouched(2), Some(1), steps) == Some(Key(Some(Slots(0, 1)), true, [Done, Expiring]))
  {
    steps := OneHoldsOneWaits();
    var k0, k4 := Untouched(2), Key(Some(Slots(1, 1)), false, [Holding, Enqueued]);
    var k5 := Key(Some(Slots(1, 1)), false, [Holding, Expiring]);
    steps := StepTo(k0, steps, k4, TimeOut(1), k5);
    CountAll(k5.callers, Registered);
    steps := StepTo(k0, steps, k5, Release(0, None), Key(Some(Slots(0, 1)), true, [Done, Expiring]));
  }

  lemma StepTo(start: Key, steps: seq<Step>, k: Key, step: Step, next: Key) returns (more: seq<Step>)
    requires Run(start, Some(1), steps) == Some(k) && Enabled(k, step)
    requires Next(k, Some(1), step).callers == next.callers
    requires Next(k, Some(1), step).slots == next.slots && Next(k, Some(1), step).permit == next.permit
    ensures more == steps + [step] && Run(start, Some(1), more) == Some(next)
  {
    RunOne(start, Some(1), steps, k, step);
    more := steps + [step];
  }

  lemma RunOne(start: Key, limit: Option<int>, steps: seq<Step>, k: Key, step: Step)
    requires Run(start, limit, steps) == Some(k)
    ensures Run(start, limit, steps + [step]) == if Enabled(k, step) then Some(Next(k, limit, step)) else None
  {
    assert (steps + [step])[..|steps|] == steps;
  }

  // ----- nobody waits in vain -----

  /** Steps of waiters and holders only: no new caller, nobody times out. */
  predicate Inside(step: Step) { step.Poll? || step.Resume? || step.Release? }

  predicate IsWaiting(phase: Phase) { phase == Enqueued || phase == Registered || phase == Woken }

  /** These steps, all of callers already there, bring waiter `i` to a slot. */
  ghost predicate Serves(k: Key, limit: nat, steps: seq<Step>, i: nat) {
    && (forall j :: 0 <= j < |steps| ==> Inside(steps[j]))
    && i < |k.callers| && IsWaiting(k.callers[i])
    && Run(k, Some(limit), steps).Some?
    && i < |Run(k, Some(limit), steps).value.callers|
    && Run(k, Some(limit), steps).value.callers[i] == Holding
  }

  lemma {:induction false} RunFrom(k: Key, limit: Option<int>, step: Step, steps: seq<Step>)
    requires Enabled(k, step)
    ensures Run(k, limit, [step] + steps) == Run(Next(k, limit, step), limit, steps)
    decreases |steps|
  {
    if steps == [] {
      assert [step] + steps == [] + [step];
      RunOne(k, limit, [], k, step);
    } else {
      var n := |steps| - 1;
      RunFrom(k, limit, step, steps[..n]);
      assert ([step] + steps)[..n + 1] == [step] + steps[..n];
    }
  }

  /** A step that keeps `i` among the waiters goes before steps that serve it. */
  lemma ServesAfter(k: Key, limit: nat, step: Step, steps: seq<Step>, i: nat)
    requires Enabled(k, step) && Inside(step)
    requires i < |k.callers| && IsWaiting(k.callers[i])
    requires Serves(Next(k, Some(limit), step), limit, steps, i)
    ensures Serves(k, limit, [step] + steps, i)
  {
    RunFrom(k, Some(limit), step, steps);
  }

  lemma ResumeServes(k: Key, limit: nat, i: nat)
    requires Sound(k, limit) && i < |k.callers| && k.callers[i] == Woken
    requires k.slots.Some? && Count(k.callers, Holding) < limit
    ensures Serves(k, limit, [Resume(i)], i)
  {
    assert Resumed(k.slots.value, Some(limit)).1;
    assert Next(k, Some(limit), Resume(i)).callers == k.callers[i := Holding];
    RunOne(k, Some(limit), [], k, Resume(i));
    assert [] + [Resume(i)] == [Resume(i)];
  }

  /** A release while others hold all slots, which may wake one of the registered. */
  lemma ReleaseOne(k: Key, limit: nat) returns (step: Step)
    requires limit > 0 && Sound(k, limit) && k.slots.Some? && Waiting(k.callers) > 0 && Count(k.callers, Holding) > 0
    ensures Inside(step) && Enabled(k, step)
    ensures var next := Next(k, Some(limit), step);
            && Sound(next, limit)
            && Count(next.callers, Holding) == Count(k.callers, Holding) - 1
            && Waiting(next.callers) == Waiting(k.callers)
            && |next.callers| == |k.callers|
            && forall i: nat :: i < |k.callers| && IsWaiting(next.callers[i]) ==> IsWaiting(k.callers[i])
    ensures forall i: nat :: i < |k.callers| && k.callers[i] == Woken ==> Next(k, Some(limit), step).callers[i] == Woken
    ensures Count(k.callers, Registered) > 0 ==> Count(Next(k, Some(limit), step).callers, Woken) > 0
  {
    var h := Someone(k.callers, Holding);
    MoveCounts(k.callers, h, Done);
    if Count(k.callers, Registered) > 0 {
      var j := Someone(k.callers, Registered);
      step := Release(h, Some(j));
      MoveCounts(k.callers[h := Done], j, Woken);
    } else {
      step := Release(h, None);
    }
    StepKeepsSound(k, limit, step);
  }

  /** A woken waiter gets a slot, if need be after a release. */
  lemma ServeWoken(k: Key, limit: nat) returns (steps: seq<Step>, i: nat)
    requires limit > 0 && Sound(k, limit) && k.slots.Some? && Count(k.callers, Woken) > 0
    ensures Serves(k, limit, steps, i)
  {
    i := Someone(k.callers, Woken);
    if Count(k.callers, Holding) < limit {
      steps := [Resume(i)];
      ResumeServes(k, limit, i);
    } else {
      var step := ReleaseOne(k, limit);
      ResumeServes(Next(k, Some(limit), step), limit, i);
      ServesAfter(k, limit, step, [Resume(i)], i);
      steps := [step] + [Resume(i)];
    }
  }

  lemma PollOne(k: Key, limit: nat, i: nat)
    requires limit > 0 && Sound(k, limit) && i < |k.callers| && k.callers[i] == Enqueued
    ensures Enabled(k, Poll(i))
    ensures var next := Next(k, Some(limit), Poll(i));
            && Sound(next, limit)
            && next.slots == k.slots
            && next.callers == k.callers[i := if k.permit then Woken else Registered]
            && Count(next.callers, if k.permit then Woken else Registered) > 0
            && Count(next.callers, Holding) == Count(k.callers, Holding)
            && Waiting(next.callers) == Waiting(k.callers)
  {
    Present(k, i);
    StepKeepsSound(k, limit, Poll(i));
    MoveCounts(k.callers, i, if k.permit then Woken else Registered);
  }

  /** In every reachable state with waiters, the callers already there can bring one of the waiters
      to a slot: neither a lost wake-up nor a stale permit can block the key for good. */
  lemma NobodyWaitsInVain(n: nat, limit: nat, run: seq<Step>) returns (steps: seq<Step>, i: nat)
    requires limit > 0
    requires Run(Untouched(n), Some(limit), run).Some?
    requires Waiting(Run(Untouched(n), Some(limit), run).value.callers) > 0
    ensures Serves(Run(Untouched(n), Some(limit), run).value, limit, steps, i)
  {
    var k := Run(Untouched(n), Some(limit), run).value;
    SoundAlways(n, limit, run);
    if k.slots.None? {
      AllFresh(k.callers);
    }
    steps, i := Serve(k, limit);
  }

  lemma Serve(k: Key, limit: nat) returns (steps: seq<Step>, i: nat)
    requires limit > 0 && Sound(k, limit) && k.slots.Some? && Waiting(k.callers) > 0
    ensures Serves(k, limit, steps, i)
  {
    if Count(k.callers, Woken) > 0 {
      steps, i := ServeWoken(k, limit);
    } else if k.permit || Count(k.callers, Registered) == 0 {
      var e := Someone(k.callers, Enqueued);
      PollOne(k, limit, e);
      var next := Next(k, Some(limit), Poll(e));
      if k.permit {
        steps, i := ServeWoken(next, limit);
      } else {
        steps, i := ServeRegistered(next, limit);
      }
      ServesAfter(k, limit, Poll(e), steps, i);
      steps := [Poll(e)] + steps;
    } else {
      steps, i := ServeRegistered(k, limit);
    }
  }

  lemma ServeRegistered(k: Key, limit: nat) returns (steps: seq<Step>, i: nat)
    requires limit > 0 && Sound(k, limit) && k.slots.Some?
    requires Count(k.callers, Registered) > 0
    ensures Serves(k, limit, steps, i)
  {
    if Count(k.callers, Woken) > 0 {
      steps, i := ServeWoken(k, limit);
    } else {
      var step := ReleaseOne(k, limit);
      steps, i := ServeWoken(Next(k, Some(limit), step), limit);
      ServesAfter(k, limit, step, steps, i);
      steps := [step] + steps;
    }
  }
}
