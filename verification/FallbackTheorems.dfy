/** What every run of the retry loop does, judged by a protocol automaton over its trace and by
    the candidates alone. */
module FallbackTheorems {
  import opened Common
  import opened Fallback

  // ----- the protocol -----

  /** `Ready(k)`: candidates below `k` are dealt with. `streamed` marks an attempt whose guard went
      to the stream. */
  datatype Stage =
    | Start
    | Ready(next: nat)
    | Held(index: nat)
    | Trying(index: nat, signalled: bool)
    | Handed(index: nat)
    | Finished(index: nat, success: bool, streamed: bool)
    | Resting(index: nat)
    | Closing(index: nat, success: bool, streamed: bool)
    | Signed(index: nat)
    | Over
    | Wrong

  function Tell(stage: Stage, e: Event): Stage {
    match stage
    case Start => if e.RequestStarted? then Ready(0) else Wrong
    case Ready(k) =>
      if e == Skipped(k) then Ready(k + 1)
      else if e == Acquired(k) then Held(k)
      else if e.RequestFinished? then Over
      else Wrong
    case Held(k) => if e == AttemptStarted(k) then Trying(k, false) else Wrong
    case Trying(k, signalled) =>
      if e == SaturationSignal(k) && !signalled then Trying(k, true)
      else if e == AttemptFinished(k, false) || (e == AttemptFinished(k, true) && !signalled)
        then Finished(k, e.success, false)
      else if e == HandedOver(k) && !signalled then Handed(k)
      else Wrong
    case Handed(k) => if e.AttemptFinished? && e.index == k then Finished(k, e.success, true) else Wrong
    case Finished(k, success, streamed) =>
      if e == Backoff(k) && !success && !streamed then Resting(k)
      else if e.RequestFinished? then Closing(k, success, streamed)
      else Wrong
    case Resting(k) => if e == Released(k) then Ready(k + 1) else Wrong
    case Closing(k, success, streamed) =>
      if e == SuccessSignal(k) && success then Signed(k)
      else if e == SaturationSignal(k) && !success && streamed then Signed(k)
      else if e == Released(k) && !success then Over
      else Wrong
    case Signed(k) => if e == Released(k) then Over else Wrong
    case _ => Wrong
  }

  /** The stage a trace leads to, the signals to the limiter in it, and the reports it delivers. */
  datatype View = View(stage: Stage, signals: seq<Event>, reported: seq<seq<Report>>)

  function Seen(v: View, e: Event): View {
    View(Tell(v.stage, e),
         if e.SuccessSignal? || e.SaturationSignal? then v.signals + [e] else v.signals,
         if e.RequestFinished? then v.reported + [e.reports] else v.reported)
  }

  function Look(v: View, events: seq<Event>): View
    decreases |events|
  {
    if events == [] then v else Seen(Look(v, events[..|events| - 1]), events[|events| - 1])
  }

  const NOTHING := View(Start, [], [])

  lemma LookOne(v: View, events: seq<Event>, e: Event)
    ensures Look(v, events + [e]) == Seen(Look(v, events), e)
  {
    assert (events + [e])[..|events|] == events;
  }

  lemma {:induction false} LookConcat(v: View, a: seq<Event>, b: seq<Event>)
    ensures Look(v, a + b) == Look(Look(v, a), b)
    decreases |b|
  {
    if b == [] {
      assert a + b == a;
    } else {
      LookConcat(v, a, b[..|b| - 1]);
      assert (a + b)[..|a + b| - 1] == a + b[..|b| - 1];
    }
  }

  lemma LookTwo(v: View, x: Event, y: Event)
    ensures Look(v, [x]) == Seen(v, x)
    ensures Look(v, [x, y]) == Seen(Seen(v, x), y)
  {
    assert [x][..0] == [] && [x, y][..1] == [x];
  }

  lemma LookTwoMore(trace: seq<Event>, x: Event, y: Event)
    ensures Look(NOTHING, trace + [x, y]) == Seen(Seen(Look(NOTHING, trace), x), y)
  {
    LookConcat(NOTHING, trace, [x, y]);
    LookTwo(Look(NOTHING, trace), x, y);
  }

  // ----- what the protocol means -----

  /** Guards taken minus guards given back. */
  function Guards(events: seq<Event>): int {
    if events == [] then 0
    else
      var e := events[|events| - 1];
      Guards(events[..|events| - 1]) + if e.Acquired? then 1 else if e.Released? then -1 else 0
  }

  /** Attempts started minus attempts finished. */
  function Unfinished(events: seq<Event>): int {
    if events == [] then 0
    else
      var e := events[|events| - 1];
      Unfinished(events[..|events| - 1]) + if e.AttemptStarted? then 1 else if e.AttemptFinished? then -1 else 0
  }

  predicate Guarded(stage: Stage) {
    !stage.Start? && !stage.Ready? && !stage.Over?
  }

  /** A trace that keeps to the protocol never holds more than one guard, has one attempt under way
      at most, and has finished the request once exactly when it is closing or over. */
  lemma {:induction false} ProtocolBalances(events: seq<Event>)
    requires Look(NOTHING, events).stage != Wrong
    ensures var v := Look(NOTHING, events);
            && Guards(events) == (if Guarded(v.stage) then 1 else 0)
            && Unfinished(events) == (if v.stage.Trying? || v.stage.Handed? then 1 else 0)
            && |v.reported| == if v.stage.Closing? || v.stage.Signed? || v.stage.Over? then 1 else 0
  {
    if events != [] {
      ProtocolBalances(events[..|events| - 1]);
    }
  }

  // ----- what the candidates alone say -----

  /** Candidate `i` ends the loop if it is reached. */
  predicate Decides(policy: Policy, cs: seq<Candidate>, i: nat)
    requires i < |cs|
  {
    !cs[i].outcome.Saturated? && !Retries(policy, cs, i)
  }

  ghost predicate Undecided(policy: Policy, cs: seq<Candidate>, n: nat)
    requires n <= |cs|
  {
    forall i: nat :: i < n ==> !Decides(policy, cs, i)
  }

  /** One report for every candidate with a slot, in order. */
  function RetriedReports(cs: seq<Candidate>, n: nat): seq<Report>
    requires n <= |cs|
  {
    if n == 0 then []
    else
      RetriedReports(cs, n - 1) + if cs[n - 1].outcome.Saturated? then [] else [Report(cs[n - 1].endpoint, Retried)]
  }

  function OutcomeError(o: Outcome): Option<GatewayError> {
    match o
    case Fails(error) => Some(error)
    case NoDriver(error) => Some(error)
    case _ => None
  }

  function LastError(cs: seq<Candidate>, n: nat): Option<GatewayError>
    requires n <= |cs|
  {
    if n == 0 then None
    else if OutcomeError(cs[n - 1].outcome).Some? then OutcomeError(cs[n - 1].outcome)
    else LastError(cs, n - 1)
  }

  /** The limiter hears of a failure that looks like overload, and of a whole response. */
  function ExpectedSignals(cs: seq<Candidate>, n: nat): seq<Event>
    requires n <= |cs|
  {
    if n == 0 then []
    else
      ExpectedSignals(cs, n - 1)
      + match cs[n - 1].outcome
        case Fails(error) => Signal(error, n - 1)
        case Completes => [SuccessSignal(n - 1)]
        case _ => []
  }

  /** The loop before candidate `n`. */
  ghost predicate Looping(cs: seq<Candidate>, n: nat, s: Loop)
    requires n <= |cs|
  {
    && s.exit == None
    && s.attempts == RetriedReports(cs, n)
    && s.skipped + |s.attempts| == n
    && s.lastError == LastError(cs, n)
    && (s.lastError.Some? <==> s.attempts != [])
    && (s.lastError.Some? ==> s.lastContext.Some?)
    && Look(NOTHING, s.trace) == View(Ready(n), ExpectedSignals(cs, n), [])
  }

  lemma SkipLoops(policy: Policy, cs: seq<Candidate>, i: nat, s: Loop)
    requires i < |cs| && Looping(cs, i, s) && cs[i].outcome.Saturated?
    ensures Looping(cs, i + 1, Tried(policy, cs, i, s))
  {
    LookOne(NOTHING, s.trace, Skipped(i));
  }

  /** An attempt up to its driver's answer. */
  lemma AttemptUnderWay(cs: seq<Candidate>, i: nat, s: Loop)
    requires i < |cs| && Looping(cs, i, s)
    ensures Look(NOTHING, s.trace + [Acquired(i), AttemptStarted(i)])
            == View(Trying(i, false), ExpectedSignals(cs, i), [])
  {
    LookTwoMore(s.trace, Acquired(i), AttemptStarted(i));
  }

  lemma FailureSeen(error: GatewayError, i: nat, signals: seq<Event>)
    ensures Look(View(Trying(i, false), signals, []), Signal(error, i) + [AttemptFinished(i, false)])
            == View(Finished(i, false, false), signals + Signal(error, i), [])
  {
    var v := View(Trying(i, false), signals, []);
    LookTwo(v, SaturationSignal(i), AttemptFinished(i, false));
    LookTwo(v, AttemptFinished(i, false), AttemptFinished(i, false));
    if IsSaturationError(error) {
      assert Signal(error, i) + [AttemptFinished(i, false)] == [SaturationSignal(i), AttemptFinished(i, false)];
    } else {
      assert Signal(error, i) + [AttemptFinished(i, false)] == [AttemptFinished(i, false)];
      assert signals + [] == signals;
    }
  }

  lemma RetrySeen(started: seq<Event>, i: nat, error: GatewayError, signals: seq<Event>)
    requires Look(NOTHING, started) == View(Trying(i, false), signals, [])
    ensures Look(NOTHING, started + (Signal(error, i) + [AttemptFinished(i, false)]) + [Backoff(i), Released(i)])
            == View(Ready(i + 1), signals + Signal(error, i), [])
  {
    FailureSeen(error, i, signals);
    var said := Signal(error, i) + [AttemptFinished(i, false)];
    LookConcat(NOTHING, started, said);
    LookTwoMore(started + said, Backoff(i), Released(i));
    RestSeen(i, signals + Signal(error, i));
  }

  lemma RestSeen(i: nat, signals: seq<Event>)
    ensures Seen(Seen(View(Finished(i, false, false), signals, []), Backoff(i)), Released(i))
            == View(Ready(i + 1), signals, [])
  {}

  lemma RetryLoops(policy: Policy, cs: seq<Candidate>, i: nat, s: Loop)
    requires i < |cs| && Looping(cs, i, s) && Retries(policy, cs, i)
    ensures Looping(cs, i + 1, Tried(policy, cs, i, s))
  {
    AttemptUnderWay(cs, i, s);
    RetrySeen(s.trace + [Acquired(i), AttemptStarted(i)], i, cs[i].outcome.error, ExpectedSignals(cs, i));
  }

  lemma UndecidedLoops(policy: Policy, cs: seq<Candidate>, i: nat, s: Loop)
    requires i < |cs| && Looping(cs, i, s) && !Decides(policy, cs, i)
    ensures Looping(cs, i + 1, Tried(policy, cs, i, s))
  {
    if cs[i].outcome.Saturated? {
      SkipLoops(policy, cs, i, s);
    } else {
      RetryLoops(policy, cs, i, s);
    }
  }

  lemma LoopStarts(cs: seq<Candidate>)
    ensures Looping(cs, 0, BEFORE)
  {
    LookTwo(NOTHING, RequestStarted, RequestStarted);
  }

  lemma LoopsOn(policy: Policy, cs: seq<Candidate>, i: nat)
    requires i < |cs| && Looping(cs, i, After(policy, cs, i)) && !Decides(policy, cs, i)
    ensures Looping(cs, i + 1, After(policy, cs, i + 1))
  {
    UndecidedLoops(policy, cs, i, After(policy, cs, i));
  }

  lemma {:induction false} LoopsWhileUndecided(policy: Policy, cs: seq<Candidate>, n: nat)
    requires n <= |cs| && Undecided(policy, cs, n)
    ensures Looping(cs, n, After(policy, cs, n))
  {
    if n > 0 {
      LoopsWhileUndecided(policy, cs, n - 1);
      LoopsOn(policy, cs, n - 1);
    } else {
      LoopStarts(cs);
    }
  }

  // ----- the ways out -----

  function FinalReport(c: Candidate): seq<Report> {
    match c.outcome
    case Completes => [Report(c.endpoint, Succeeded)]
    case NoDriver(_) => [Report(c.endpoint, Failed)]
    case Fails(_) => [Report(c.endpoint, Failed)]
    case _ => []
  }

  /** What a run that ends with candidate `d` must come to. */
  ghost predicate EndsWith(cs: seq<Candidate>, d: nat, s: Loop)
    requires d < |cs|
  {
    && s.attempts == RetriedReports(cs, d) + FinalReport(cs[d])
    && s.exit == Some(match cs[d].outcome
                      case Completes => Completed(s.attempts)
                      case Streams => Streaming(d, s.attempts)
                      case _ => Error(AllAttemptsFailed(s.attempts, OutcomeError(cs[d].outcome).GetOr(NotImplemented))))
    && Look(NOTHING, s.trace) == if cs[d].outcome.Streams? then View(Handed(d), ExpectedSignals(cs, d + 1), [])
                                 else View(Over, ExpectedSignals(cs, d + 1), [s.attempts])
  }

  lemma CompletionSeen(started: seq<Event>, d: nat, reports: seq<Report>, signals: seq<Event>)
    requires Look(NOTHING, started) == View(Trying(d, false), signals, [])
    ensures Look(NOTHING, started + [AttemptFinished(d, true), RequestFinished(reports), SuccessSignal(d), Released(d)])
            == View(Over, signals + [SuccessSignal(d)], [reports])
  {
    var a, b := [AttemptFinished(d, true), RequestFinished(reports)], [SuccessSignal(d), Released(d)];
    LookTwoMore(started, AttemptFinished(d, true), RequestFinished(reports));
    LookTwoMore(started + a, SuccessSignal(d), Released(d));
    SuccessSeen(d, signals, reports);
    assert a + b == [AttemptFinished(d, true), RequestFinished(reports), SuccessSignal(d), Released(d)];
    Assoc(started, a, b);
  }

  lemma SuccessSeen(d: nat, signals: seq<Event>, reports: seq<Report>)
    ensures var closing := View(Closing(d, true, false), signals, [reports]);
            && Seen(Seen(View(Trying(d, false), signals, []), AttemptFinished(d, true)), RequestFinished(reports))
              == closing
            && Seen(Seen(closing, SuccessSignal(d)), Released(d)) == View(Over, signals + [SuccessSignal(d)], [reports])
  {
    assert [] + [reports] == [reports];
  }

  lemma CompletionEnds(policy: Policy, cs: seq<Candidate>, d: nat, s: Loop)
    requires d < |cs| && Looping(cs, d, s) && cs[d].outcome.Completes?
    ensures EndsWith(cs, d, Tried(policy, cs, d, s))
  {
    AttemptUnderWay(cs, d, s);
    CompletionSeen(s.trace + [Acquired(d), AttemptStarted(d)], d, s.attempts + [Report(cs[d].endpoint, Succeeded)],
                   ExpectedSignals(cs, d));
  }

  lemma StreamEnds(policy: Policy, cs: seq<Candidate>, d: nat, s: Loop)
    requires d < |cs| && Looping(cs, d, s) && cs[d].outcome.Streams?
    ensures EndsWith(cs, d, Tried(policy, cs, d, s))
  {
    AttemptUnderWay(cs, d, s);
    LookOne(NOTHING, s.trace + [Acquired(d), AttemptStarted(d)], HandedOver(d));
    assert s.attempts + [] == s.attempts && ExpectedSignals(cs, d) + [] == ExpectedSignals(cs, d);
  }

  /** Reports and release after an attempt that failed for good. */
  lemma GivenUpEnds(taken: Loop, i: nat, reports: seq<Report>, said: seq<Event>, error: GatewayError,
                    signals: seq<Event>)
    requires reports != []
    requires Look(Look(NOTHING, taken.trace), said) == View(Finished(i, false, false), signals, [])
    ensures Look(NOTHING, GivenUp(taken, i, reports, said, error).trace) == View(Over, signals, [reports])
  {
    LookConcat(NOTHING, taken.trace, said);
    assert FinishFailure(reports, error).0 + [Released(i)] == [RequestFinished(reports), Released(i)];
    LookTwoMore(taken.trace + said, RequestFinished(reports), Released(i));
    LastSeen(i, signals, reports);
  }

  lemma LastSeen(i: nat, signals: seq<Event>, reports: seq<Report>)
    ensures Seen(Seen(View(Finished(i, false, false), signals, []), RequestFinished(reports)), Released(i))
            == View(Over, signals, [reports])
  {
    assert [] + [reports] == [reports];
  }

  lemma FailureEnds(policy: Policy, cs: seq<Candidate>, d: nat, s: Loop)
    requires d < |cs| && Looping(cs, d, s) && Decides(policy, cs, d) && OutcomeError(cs[d].outcome).Some?
    ensures EndsWith(cs, d, Tried(policy, cs, d, s))
  {
    AttemptUnderWay(cs, d, s);
    var error, reports := OutcomeError(cs[d].outcome).value, s.attempts + [Report(cs[d].endpoint, Failed)];
    var taken := s.(lastContext := Some(cs[d].endpoint), trace := s.trace + [Acquired(d), AttemptStarted(d)]);
    var signals := ExpectedSignals(cs, d);
    if cs[d].outcome.Fails? {
      FailureSeen(error, d, signals);
      GivenUpEnds(taken, d, reports, Signal(error, d) + [AttemptFinished(d, false)], error, signals + Signal(error, d));
    } else {
      LookTwo(View(Trying(d, false), signals, []), AttemptFinished(d, false), AttemptFinished(d, false));
      assert signals + [] == signals;
      GivenUpEnds(taken, d, reports, [AttemptFinished(d, false)], error, signals);
    }
  }

  /** The first candidate that decides settles the run: who is reported and how, what is returned,
      which signals the limiter gets, and a trace that keeps to the protocol to its end. */
  lemma FirstDecisionSettles(policy: Policy, cs: seq<Candidate>, d: nat)
    requires d < |cs| && Undecided(policy, cs, d) && Decides(policy, cs, d)
    ensures EndsWith(cs, d, Executed(policy, cs))
  {
    LoopsWhileUndecided(policy, cs, d);
    var s := After(policy, cs, d);
    DecisionEnds(policy, cs, d, s);
    DecisionStands(policy, cs, d);
  }

  lemma DecisionStands(policy: Policy, cs: seq<Candidate>, d: nat)
    requires d < |cs| && After(policy, cs, d).exit.None?
    requires Tried(policy, cs, d, After(policy, cs, d)).exit.Some?
    ensures Executed(policy, cs) == Tried(policy, cs, d, After(policy, cs, d))
  {
    var e := Tried(policy, cs, d, After(policy, cs, d));
    assert After(policy, cs, d + 1) == e;
    StandsStill(policy, cs, d + 1);
    assert After(policy, cs, |cs|) == e;
  }

  lemma DecisionEnds(policy: Policy, cs: seq<Candidate>, d: nat, s: Loop)
    requires d < |cs| && Looping(cs, d, s) && Decides(policy, cs, d)
    ensures EndsWith(cs, d, Tried(policy, cs, d, s))
  {
    match cs[d].outcome {
      case Completes => CompletionEnds(policy, cs, d, s);
      case Streams => StreamEnds(policy, cs, d, s);
      case _ => FailureEnds(policy, cs, d, s);
    }
  }

  ghost predicate Exhausted(cs: seq<Candidate>, s: Loop) {
    && s.attempts == RetriedReports(cs, |cs|)
    && s.exit == Some(Error(match LastError(cs, |cs|)
                            case Some(error) => AllAttemptsFailed(s.attempts, error)
                            case None => if cs != [] then AllEndpointsSaturated else NoAvailableEndpoint))
    && (LastError(cs, |cs|).Some? <==> s.attempts != [])
    && Look(NOTHING, s.trace) == if s.attempts != [] then View(Over, ExpectedSignals(cs, |cs|), [s.attempts])
                                 else View(Ready(|cs|), ExpectedSignals(cs, |cs|), [])
  }

  /** Without such a candidate all that got a slot are reported as retried; the last error is
      returned, or that everything was saturated, or, only for the empty list, that there was none. */
  lemma NoDecisionExhausts(policy: Policy, cs: seq<Candidate>)
    requires Undecided(policy, cs, |cs|)
    ensures Exhausted(cs, Executed(policy, cs))
  {
    LoopsWhileUndecided(policy, cs, |cs|);
    LoopConcludes(cs, After(policy, cs, |cs|));
  }

  lemma LoopConcludes(cs: seq<Candidate>, s: Loop)
    requires Looping(cs, |cs|, s)
    ensures Exhausted(cs, Concluded(s))
  {}

  /** Either there is a first candidate that decides or there is none. */
  lemma {:induction false} FirstDecision(policy: Policy, cs: seq<Candidate>, n: nat) returns (d: Option<nat>)
    requires n <= |cs|
    ensures d.None? ==> Undecided(policy, cs, n)
    ensures d.Some? ==> d.value < n && Undecided(policy, cs, d.value) && Decides(policy, cs, d.value)
  {
    d := None;
    if n > 0 {
      d := FirstDecision(policy, cs, n - 1);
      if d.None? && Decides(policy, cs, n - 1) {
        d := Some(n - 1);
      }
    }
  }

  // ----- the promises -----

  /** Candidates with and without a slot. */
  predicate AllSaturated(cs: seq<Candidate>) {
    forall i :: 0 <= i < |cs| ==> cs[i].outcome.Saturated?
  }

  lemma {:induction false} NoReports(cs: seq<Candidate>, n: nat)
    requires n <= |cs|
    ensures RetriedReports(cs, n) == [] <==> forall i :: 0 <= i < n ==> cs[i].outcome.Saturated?
  {
    if n > 0 {
      NoReports(cs, n - 1);
    }
  }

  /** All reports but the last say `Retried`, and the reported endpoints are candidates in order. */
  ghost predicate InOrder(cs: seq<Candidate>, reports: seq<Report>, places: seq<nat>) {
    && |places| == |reports|
    && (forall i, j :: 0 <= i < j < |places| ==> places[i] < places[j])
    && (forall i :: 0 <= i < |places| ==> places[i] < |cs| && reports[i].endpoint == cs[places[i]].endpoint)
    && (forall i :: 0 <= i < |reports| - 1 ==> reports[i].status == Retried)
  }

  lemma {:induction false} RetriedInOrder(cs: seq<Candidate>, n: nat) returns (places: seq<nat>)
    requires n <= |cs|
    ensures InOrder(cs, RetriedReports(cs, n), places)
    ensures forall i :: 0 <= i < |places| ==> places[i] < n
    ensures forall r <- RetriedReports(cs, n) :: r.status == Retried
  {
    places := [];
    if n > 0 {
      places := RetriedInOrder(cs, n - 1);
      if !cs[n - 1].outcome.Saturated? {
        places := places + [n - 1];
      }
    }
  }

  /** Every run, whatever the candidates do:
      the reports are an in-order selection of the candidates and all but the last say `Retried`;
      a stream takes exactly the one guard with it and leaves its attempt to be finished, any other
      run holds no guard and has finished every attempt; a run without a stream finishes the request
      once, with these reports, unless every candidate was skipped;
      "all saturated" is returned exactly for a non-empty list of saturated candidates, and "none
      available" exactly for the empty list. */
  lemma EveryRun(policy: Policy, cs: seq<Candidate>) returns (places: seq<nat>)
    ensures Promises(cs, Executed(policy, cs), places)
  {
    var d := FirstDecision(policy, cs, |cs|);
    if d.Some? {
      FirstDecisionSettles(policy, cs, d.value);
      places := DecidedPromises(cs, d.value, Executed(policy, cs));
    } else {
      NoDecisionExhausts(policy, cs);
      places := ExhaustedPromises(cs, Executed(policy, cs));
    }
  }

  ghost predicate Promises(cs: seq<Candidate>, s: Loop, places: seq<nat>) {
    && s.exit.Some?
    && InOrder(cs, s.attempts, places)
    && Look(NOTHING, s.trace).stage != Wrong
    && Guards(s.trace) == (if s.exit.value.Streaming? then 1 else 0)
    && Unfinished(s.trace) == (if s.exit.value.Streaming? then 1 else 0)
    && Look(NOTHING, s.trace).reported == (if s.exit.value.Streaming? || AllSaturated(cs) then [] else [s.attempts])
    && (s.exit == Some(Error(AllEndpointsSaturated)) <==> cs != [] && AllSaturated(cs))
    && (s.exit == Some(Error(NoAvailableEndpoint)) <==> cs == [])
  }

  lemma DecidedPromises(cs: seq<Candidate>, d: nat, s: Loop) returns (places: seq<nat>)
    requires d < |cs| && EndsWith(cs, d, s) && !cs[d].outcome.Saturated?
    ensures Promises(cs, s, places)
  {
    ProtocolBalances(s.trace);
    places := RetriedInOrder(cs, d);
    if cs[d].outcome.Streams? {
      assert s.attempts == RetriedReports(cs, d);
    } else {
      places := places + [d];
    }
    assert !AllSaturated(cs);
  }

  lemma ExhaustedPromises(cs: seq<Candidate>, s: Loop) returns (places: seq<nat>)
    requires Exhausted(cs, s)
    ensures Promises(cs, s, places)
  {
    ProtocolBalances(s.trace);
    NoReports(cs, |cs|);
    places := RetriedInOrder(cs, |cs|);
  }

  /** Under the fallback strategy ordinary errors never end the loop early: the first candidate that
      answers settles it, however many fail or are full before. */
  lemma FallbackReachesTheFirstAnswer(policy: Policy, cs: seq<Candidate>, d: nat)
    requires policy.strategy.FallbackStrategy?
    requires d < |cs| && (cs[d].outcome.Completes? || cs[d].outcome.Streams?)
    requires forall i: nat :: i < d ==> Unanswered(cs[i].outcome)
    ensures EndsWith(cs, d, Executed(policy, cs))
  {
    forall i: nat | i < d ensures !Decides(policy, cs, i) {
      assert Unanswered(cs[i].outcome);
    }
    FirstDecisionSettles(policy, cs, d);
  }

  /** No slot, or an error that is the upstream's and not the pool's. */
  predicate Unanswered(o: Outcome) {
    o.Saturated?
    || (o.Fails? && !o.error.PoolNotFound? && !o.error.NoAvailableEndpoint? && !o.error.AllEndpointsSaturated?)
  }

  // ----- the end of a stream -----

  /** What the stream's own task adds when the completion arrives (`None` for success). */
  function StreamTask(s: Loop, i: nat, endpoint: string, error: Option<GatewayError>): Loop {
    var reports := s.attempts + [Report(endpoint, if error.None? then Succeeded else Failed)];
    var signals := if error.None? then [SuccessSignal(i)]
                   else if IsSaturationError(error.value) then [SaturationSignal(i)] else [];
    s.(attempts := reports,
       trace := s.trace + [AttemptFinished(i, error.None?), RequestFinished(reports)] + (signals + [Released(i)]))
  }

  /** A streaming run keeps to the protocol to its end too: its attempt is finished, the guard given
      back, and the request finished once with all reports. */
  lemma {:induction false} StreamIsFinished(policy: Policy, cs: seq<Candidate>, error: Option<GatewayError>)
    requires Executed(policy, cs).exit.Some? && Executed(policy, cs).exit.value.Streaming?
    ensures var s := Executed(policy, cs);
            var i := s.exit.value.index;
            i < |cs| &&
            var t := StreamTask(s, i, cs[i].endpoint, error);
            && Look(NOTHING, t.trace).stage == Over
            && Look(NOTHING, t.trace).reported == [t.attempts]
            && Guards(t.trace) == 0 && Unfinished(t.trace) == 0
            && t.attempts == RetriedReports(cs, i) + [Report(cs[i].endpoint, if error.None? then Succeeded else Failed)]
  {
    var s := Executed(policy, cs);
    var d := FirstDecision(policy, cs, |cs|);
    if d.Some? {
      FirstDecisionSettles(policy, cs, d.value);
    } else {
      NoDecisionExhausts(policy, cs);
    }
    var i := s.exit.value.index;
    StreamTaskSeen(s, i, cs[i].endpoint, error);
    ProtocolBalances(StreamTask(s, i, cs[i].endpoint, error).trace);
    assert RetriedReports(cs, i) + [] == RetriedReports(cs, i);
  }

  lemma StreamTaskSeen(s: Loop, i: nat, endpoint: string, error: Option<GatewayError>)
    requires Look(NOTHING, s.trace).stage == Handed(i) && Look(NOTHING, s.trace).reported == []
    ensures var t := StreamTask(s, i, endpoint, error);
            Look(NOTHING, t.trace).stage == Over && Look(NOTHING, t.trace).reported == [t.attempts]
  {
    var t := StreamTask(s, i, endpoint, error);
    var a := [AttemptFinished(i, error.None?), RequestFinished(t.attempts)];
    var signals := if error.None? then [SuccessSignal(i)]
                   else if IsSaturationError(error.value) then [SaturationSignal(i)] else [];
    var v := Look(NOTHING, s.trace);
    LookTwoMore(s.trace, a[0], a[1]);
    assert [] + [t.attempts] == [t.attempts];
    var closing := View(Closing(i, error.None?, true), v.signals, [t.attempts]);
    assert Look(NOTHING, s.trace + a) == closing;
    LookConcat(NOTHING, s.trace + a, signals + [Released(i)]);
    ClosingSeen(closing, i, signals);
  }

  lemma SignalSeen(v: View, i: nat, signal: Event)
    requires v.stage.Closing? && v.stage.index == i && v.stage.streamed
    requires signal == if v.stage.success then SuccessSignal(i) else SaturationSignal(i)
    ensures Seen(Seen(v, signal), Released(i)).stage == Over
    ensures Seen(Seen(v, signal), Released(i)).reported == v.reported
  {}

  lemma ClosingSeen(v: View, i: nat, signals: seq<Event>)
    requires v.stage.Closing? && v.stage.index == i && v.stage.streamed
    requires if v.stage.success
             then signals == [SuccessSignal(i)] else signals == [] || signals == [SaturationSignal(i)]
    ensures Look(v, signals + [Released(i)]).stage == Over
    ensures Look(v, signals + [Released(i)]).reported == v.reported
  {
    if signals == [] {
      assert signals + [Released(i)] == [Released(i)];
      LookTwo(v, Released(i), Released(i));
    } else {
      assert signals + [Released(i)] == [signals[0], Released(i)];
      LookTwo(v, signals[0], Released(i));
      SignalSeen(v, i, signals[0]);
    }
  }
}
