/** The task that forwards a stream's chunks and the task that reports on the stream, which waits until
    the first has ended (unigateway-core/src/engine/reporting.rs:450-460, 528-648,
    execution/support.rs:84-115). Every access to what they share is one step. */
module StreamDrain {
  import opened Common

  datatype Forwarder = Forwarding | Storing | Notifying | Ended

  /** `Loading` has the stream's completion or its error; `Registering` has found the flag unset;
      `Drained` has found it set or was woken. */
  datatype Reporter = Completing | Loading | Registering | Waiting | Drained | Reported(chunks: nat)

  datatype State = State(forwarder: Forwarder, reporter: Reporter, recorded: nat, flag: bool)

  const START := State(Forwarding, Completing, 0, false)

  /** An item is forwarded, and recorded unless it is an error; the stream ends, or nobody reads it. */
  datatype Step = Forward(recorded: bool) | EndStream | StoreFlag | NotifyWaiters
                | Complete | LoadFlag | Register | Report

  predicate Enabled(s: State, step: Step) {
    match step
    case Forward(_) => s.forwarder == Forwarding
    case EndStream => s.forwarder == Forwarding
    case StoreFlag => s.forwarder == Storing
    case NotifyWaiters => s.forwarder == Notifying
    case Complete => s.reporter == Completing
    case LoadFlag => s.reporter == Loading
    case Register => s.reporter == Registering
    case Report => s.reporter == Drained
  }

  /** Only who is registered is woken, and no permit is kept for later. */
  function Next(s: State, step: Step): State
    requires Enabled(s, step)
  {
    match step
    case Forward(recorded) => if recorded then s.(recorded := s.recorded + 1) else s
    case EndStream => s.(forwarder := Storing)
    case StoreFlag => s.(forwarder := Notifying, flag := true)
    case NotifyWaiters => s.(forwarder := Ended, reporter := if s.reporter == Waiting then Drained else s.reporter)
    case Complete => s.(reporter := Loading)
    case LoadFlag => s.(reporter := if s.flag then Drained else Registering)
    case Register => s.(reporter := Waiting)
    case Report => s.(reporter := Reported(s.recorded))
  }

  /** The state after a run, if every step of it is possible. */
  function After(s: State, steps: seq<Step>): Option<State>
    decreases |steps|
  {
    if steps == [] then Some(s)
    else
      match After(s, steps[..|steps| - 1])
      case None => None
      case Some(t) => if Enabled(t, steps[|steps| - 1]) then Some(Next(t, steps[|steps| - 1])) else None
  }

  // ----- reports are complete -----

  predicate Sound(s: State) {
    && (s.flag <==> s.forwarder == Notifying || s.forwarder == Ended)
    && (s.reporter == Drained || s.reporter.Reported? ==> s.flag)
    && (s.reporter.Reported? ==> s.reporter.chunks == s.recorded)
  }

  /** Nothing is reported before all chunks have been forwarded, and a report counts all of them. */
  lemma {:induction false} ReportsAreComplete(steps: seq<Step>)
    requires After(START, steps).Some?
    ensures Sound(After(START, steps).value)
    ensures After(START, steps).value.recorded == Recorded(steps)
    decreases |steps|
  {
    if steps != [] {
      ReportsAreComplete(steps[..|steps| - 1]);
    }
  }

  function Recorded(steps: seq<Step>): nat {
    if steps == [] then 0
    else
      var last := steps[|steps| - 1];
      Recorded(steps[..|steps| - 1]) + if last.Forward? && last.recorded then 1 else 0
  }

  // ----- who waits for ever -----

  /** The forwarder has notified whoever was registered, and the reporter was not. */
  predicate Stranded(s: State) {
    s.forwarder == Ended && (s.reporter == Registering || s.reporter == Waiting)
  }

  lemma {:induction false} StaysStranded(s: State, steps: seq<Step>)
    requires Stranded(s) && After(s, steps).Some?
    ensures Stranded(After(s, steps).value)
    decreases |steps|
  {
    if steps != [] {
      StaysStranded(s, steps[..|steps| - 1]);
    }
  }

  lemma StepOn(s: State, steps: seq<Step>, step: Step)
    requires After(s, steps).Some? && Enabled(After(s, steps).value, step)
    ensures After(s, steps + [step]) == Some(Next(After(s, steps).value, step))
  {
    assert (steps + [step])[..|steps|] == steps;
  }

  /** What is left to do until the report. */
  function Distance(s: State): nat {
    (match s.forwarder case Forwarding => 3 case Storing => 2 case Notifying => 1 case Ended => 0) +
    (match s.reporter
     case Completing => 4 case Loading => 3 case Registering => 2 case Waiting => 1 case Drained => 1
     case Reported(_) => 0)
  }

  /** Register before the forwarder goes on, then let it end, then report. */
  function Onwards(s: State): Step
    requires !s.reporter.Reported?
  {
    match s.reporter
    case Completing => Complete
    case Loading => LoadFlag
    case Registering => Register
    case Waiting =>
      (match s.forwarder case Forwarding => EndStream case Storing => StoreFlag case _ => NotifyWaiters)
    case Drained => Report
    case Reported(_) => Report
  }

  lemma {:induction false} Reaches(s: State) returns (steps: seq<Step>)
    requires Sound(s) && !Stranded(s)
    ensures After(s, steps).Some? && After(s, steps).value.reporter.Reported?
    decreases Distance(s)
  {
    if s.reporter.Reported? {
      steps := [];
    } else {
      var step := Onwards(s);
      var rest := Reaches(Next(s, step));
      steps := [step] + rest;
      StepFirst(s, step, rest);
    }
  }

  lemma {:induction false} StepFirst(s: State, step: Step, rest: seq<Step>)
    requires Enabled(s, step)
    ensures After(s, [step] + rest) == After(Next(s, step), rest)
    decreases |rest|
  {
    var all := [step] + rest;
    if rest == [] {
      assert all[..0] == [] && all == [step];
    } else {
      StepFirst(s, step, rest[..|rest| - 1]);
      assert all[..|all| - 1] == [step] + rest[..|rest| - 1];
    }
  }

  /** In every run: the report can still be made if and only if the reporter is not stranded. */
  lemma CanReportIff(run: seq<Step>)
    requires After(START, run).Some?
    ensures var s := After(START, run).value;
            (exists more :: After(s, more).Some? && After(s, more).value.reporter.Reported?) <==> !Stranded(s)
  {
    var s := After(START, run).value;
    ReportsAreComplete(run);
    if Stranded(s) {
      forall more | After(s, more).Some? ensures !After(s, more).value.reporter.Reported? {
        StaysStranded(s, more);
      }
    } else {
      var more := Reaches(s);
    }
  }

  // ----- which runs strand it -----

  /** The flag is read before it is set. */
  predicate ReadTooEarly(steps: seq<Step>) {
    steps != [] &&
    var front, last := steps[..|steps| - 1], steps[|steps| - 1];
    ReadTooEarly(front) || (last == LoadFlag && StoreFlag !in front)
  }

  /** The notification is sent before anybody is registered for it. */
  predicate NotifiedTooEarly(steps: seq<Step>) {
    steps != [] &&
    var front, last := steps[..|steps| - 1], steps[|steps| - 1];
    NotifiedTooEarly(front) || (last == NotifyWaiters && Register !in front)
  }

  /** What a run tells of the state it leads to. */
  predicate Tells(steps: seq<Step>, s: State) {
    var early, late := ReadTooEarly(steps), NotifiedTooEarly(steps);
    && (StoreFlag in steps <==> s.flag)
    && (late ==> s.forwarder == Ended)
    && match s.reporter
       case Completing => !early && Register !in steps
       case Loading => !early && Register !in steps
       case Registering => early && Register !in steps && (s.forwarder == Ended ==> late)
       case Waiting => early && Register in steps && (s.forwarder == Ended ==> late)
       case _ => early ==> !late && s.forwarder == Ended
  }

  lemma TellsOn(steps: seq<Step>, s: State, step: Step)
    requires Sound(s) && Tells(steps, s) && Enabled(s, step)
    ensures Tells(steps + [step], Next(s, step))
  {
    var all := steps + [step];
    assert all[..|steps|] == steps;
    assert StoreFlag in all <==> StoreFlag in steps || step == StoreFlag;
    assert Register in all <==> Register in steps || step == Register;
  }

  lemma {:induction false} TellsAlways(steps: seq<Step>)
    requires After(START, steps).Some?
    ensures Tells(steps, After(START, steps).value)
    decreases |steps|
  {
    if steps != [] {
      var front, last := steps[..|steps| - 1], steps[|steps| - 1];
      TellsAlways(front);
      ReportsAreComplete(front);
      assert steps == front + [last];
      TellsOn(front, After(START, front).value, last);
    }
  }

  /** The reporter is stranded exactly by the runs that read the flag before it is set and send the
      notification before the reporter has registered for it. */
  lemma StrandedIff(steps: seq<Step>)
    requires After(START, steps).Some?
    ensures Stranded(After(START, steps).value) <==> ReadTooEarly(steps) && NotifiedTooEarly(steps)
  {
    TellsAlways(steps);
  }

  const LOST_WAKE_UP := [Complete, LoadFlag, EndStream, StoreFlag, NotifyWaiters]

  /** Such a run: the stream ends between the reporter's look at the flag and its registration. */
  lemma WakeUpIsLost()
    ensures After(START, LOST_WAKE_UP) == Some(State(Ended, Registering, 0, true))
  {
    var run := LOST_WAKE_UP;
    assert run[..4] + [run[4]] == run && run[..3] + [run[3]] == run[..4];
    assert run[..2] + [run[2]] == run[..3] && run[..1] + [run[1]] == run[..2] && [] + [run[0]] == run[..1];
    StepOn(START, [], run[0]);
    StepOn(START, run[..1], run[1]);
    StepOn(START, run[..2], run[2]);
    StepOn(START, run[..3], run[3]);
    StepOn(START, run[..4], run[4]);
  }
}
