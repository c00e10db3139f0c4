/** What readers of an event stream may rely on, whoever sends it: a grammar looser than the
    translator's own. Pings and unknown events may come anywhere, thinking may go unsigned or be
    signed more than once, blocks may get deltas of unknown kinds, and several message_delta events
    may come. Blocks still begin empty, at fresh indexes, text and thinking one at a time and in
    ascending order, and all are stopped before message_stop. */
module WellFormed {
  import opened Common
  import opened AnthropicEvents

  /** The phases in use are `Fresh`, `Open`, `Ended` and `Broken`. */
  function Follow(g: Grammar, e: Event): Grammar {
    match g.phase
    case Fresh => if e.MessageStart? then g.(phase := Open) else Reject(g)
    case Open => FollowInside(g, e)
    case _ => Reject(g)
  }

  predicate IsOpen(g: Grammar, i: nat) {
    i in g.tools || (g.current.Some? && g.current.value.0 == i)
  }

  function FollowInside(g: Grammar, e: Event): Grammar {
    match e
    case Ping => g
    case UnknownEvent => g
    case MessageDelta(_) => g
    case BlockStart(Some(i), Some(block)) =>
      var kind := EmptyKind(block);
      if kind.None? || i in g.used || g.current.Some? then Reject(g)
      else if kind.value == ToolKind then g.(used := g.used + {i}, tools := g.tools + {i})
      else if i < g.bound then Reject(g)
      else g.(used := g.used + {i}, current := Some((i, kind.value)), bound := i + 1)
    case BlockDelta(Some(i), Some(delta)) =>
      var fits := match delta
                  case TextDelta(_) => g.current == Some((i, TextKind))
                  case ThinkingDelta(_) => g.current == Some((i, ThinkingKind))
                  case SignatureDelta(_) => g.current == Some((i, ThinkingKind))
                  case InputJsonDelta(_) => i in g.tools
                  case UnknownDelta => IsOpen(g, i);
      if fits then g else Reject(g)
    case BlockStop(Some(i)) =>
      if g.current.Some? && g.current.value.0 == i then g.(current := None)
      else if i in g.tools then g.(tools := g.tools - {i})
      else Reject(g)
    case MessageStop => if g.current.None? && g.tools == {} then g.(phase := Ended) else Reject(g)
    case _ => Reject(g)
  }

  function FollowAll(g: Grammar, events: seq<Event>): Grammar
    decreases |events|
  {
    if events == [] then g
    else Follow(FollowAll(g, events[..|events| - 1]), events[|events| - 1])
  }

  /** A stream that keeps the rules so far. */
  predicate Sound(events: seq<Event>) { FollowAll(START, events).phase != Broken }

  /** A whole stream. */
  predicate Complete(events: seq<Event>) { FollowAll(START, events).phase == Ended }

  lemma {:induction false} SoundPrefix(events: seq<Event>, n: nat)
    requires n <= |events| && Sound(events)
    ensures Sound(events[..n])
  {
    if n < |events| {
      var front := events[..|events| - 1];
      SoundPrefix(front, n);
      assert front[..n] == events[..n];
    } else {
      assert events[..n] == events;
    }
  }

  /** Everything the folds over a stream see of one more event. */
  lemma OneMoreFollowed(events: seq<Event>, e: Event)
    ensures FollowAll(START, events + [e]) == Follow(FollowAll(START, events), e)
  {
    assert (events + [e])[..|events|] == events;
  }

  ghost predicate Sane(g: Grammar) {
    && g.tools <= g.used
    && (g.current.Some? ==> g.current.value.0 in g.used && g.current.value.1 != ToolKind)
  }

  /** A block that was started began empty, and if it is open it began as what it is open as. */
  ghost predicate Begun(g: Grammar, p: seq<Event>, k: nat) {
    if k !in g.used then p == []
    else
      && p != [] && p[0].BlockStart? && p[0].block.Some? && EmptyKind(p[0].block.value).Some?
      && (g.current.Some? && g.current.value.0 == k ==> EmptyKind(p[0].block.value) == Some(g.current.value.1))
      && (k in g.tools ==> EmptyKind(p[0].block.value) == Some(ToolKind))
  }

  lemma BegunStep(g: Grammar, p: seq<Event>, k: nat, e: Event)
    requires Sane(g) && Begun(g, p, k) && Follow(g, e).phase != Broken
    ensures Sane(Follow(g, e))
    ensures Begun(Follow(g, e), if AddressOf(e) == Some(k) then p + [e] else p, k)
  {}

  lemma {:induction false} BegunAlways(events: seq<Event>, k: nat)
    requires Sound(events)
    ensures Sane(FollowAll(START, events)) && Begun(FollowAll(START, events), Project(events, k), k)
  {
    if events != [] {
      var front := events[..|events| - 1];
      SoundPrefix(events, |front|);
      BegunAlways(front, k);
      BegunStep(FollowAll(START, front), Project(front, k), k, events[|front|]);
    }
  }

  // ----- the translator's grammar is stricter -----

  function Loosened(g: Grammar): Grammar {
    g.(signed := false,
       phase := match g.phase case Greeted => Open case Summed => Open case phase => phase)
  }

  lemma ReadFollows(g: Grammar, e: Event)
    requires Read(g, e).phase != Broken && GrammarSane(g)
    ensures Follow(Loosened(g), e) == Loosened(Read(g, e))
  {}

  lemma {:induction false} AcceptedFollows(events: seq<Event>)
    requires ReadAll(START, events).phase != Broken
    ensures FollowAll(START, events) == Loosened(ReadAll(START, events))
  {
    if events != [] {
      var front := events[..|events| - 1];
      ReadPrefix(events, |front|);
      AcceptedFollows(front);
      BlockStates(front, 0);
      ReadFollows(ReadAll(START, front), events[|front|]);
    }
  }

  /** Every stream the translator's grammar accepts is well formed. */
  lemma AcceptedIsComplete(events: seq<Event>)
    requires Accepted(events)
    ensures Complete(events)
  {
    AcceptedFollows(events);
  }
}
