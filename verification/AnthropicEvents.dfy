/** Anthropic stream events, and the grammar a complete event stream has to follow.
    The grammar is an automaton independent of the code that prints or reads events;
    `AcceptedShape` says in plain terms what acceptance means. */
module AnthropicEvents {
  import opened Common

  datatype StartBlock =
    | StartText(text: string)
    | StartThinking(thinking: string, signature: string)
    | StartToolUse(id: string, name: string, inputJson: string)
    | StartUnknown
    | StartUntyped

  datatype Delta =
    | TextDelta(text: string)
    | ThinkingDelta(thinking: string)
    | SignatureDelta(signature: string)
    | InputJsonDelta(partialJson: string)
    | UnknownDelta

  /** A missing `index`, `content_block` or `delta` member is `None`. */
  datatype Event =
    | MessageStart(id: Option<string>, model: Option<string>, role: Option<string>)
    | Ping
    | BlockStart(index: Option<nat>, block: Option<StartBlock>)
    | BlockDelta(index: Option<nat>, delta: Option<Delta>)
    | BlockStop(index: Option<nat>)
    | MessageDelta(stopReason: Option<string>)
    | MessageStop
    | UnknownEvent

  function Start(index: nat, block: StartBlock): Event { BlockStart(Some(index), Some(block)) }

  function Send(index: nat, delta: Delta): Event { BlockDelta(Some(index), Some(delta)) }

  function Stop(index: nat): Event { BlockStop(Some(index)) }

  // ----- the grammar -----

  datatype Kind = TextKind | ThinkingKind | ToolKind

  datatype Phase = Fresh | Greeted | Open | Summed | Ended | Broken

  /** `used` holds every index started so far, `current` the open text or thinking block,
      `tools` the open tool blocks; `signed` says that `current` just got its signature,
      and `bound` lies above the index of every text or thinking block so far. */
  datatype Grammar = Grammar(phase: Phase, used: set<nat>, current: Option<(nat, Kind)>,
                             tools: set<nat>, bound: nat, signed: bool)

  const START := Grammar(Fresh, {}, None, {}, 0, false)

  function Reject(g: Grammar): Grammar { g.(phase := Broken) }

  /** The kind of a start block whose payload is still empty. */
  function EmptyKind(block: StartBlock): Option<Kind> {
    match block
    case StartText(text) => if text == "" then Some(TextKind) else None
    case StartThinking(thinking, signature) =>
      if thinking == "" && signature == "" then Some(ThinkingKind) else None
    case StartToolUse(_, _, input) => if input == "" then Some(ToolKind) else None
    case _ => None
  }

  predicate Greets(e: Event) { e.MessageStart? && e.role == Some("assistant") }

  function Read(g: Grammar, e: Event): Grammar {
    match g.phase
    case Fresh => if Greets(e) then g.(phase := Greeted) else Reject(g)
    case Greeted => if e.Ping? then g.(phase := Open) else Reject(g)
    case Open => ReadInside(g, e)
    case Summed => if e.MessageStop? then g.(phase := Ended) else Reject(g)
    case _ => Reject(g)
  }

  function ReadInside(g: Grammar, e: Event): Grammar {
    match e
    case BlockStart(Some(i), Some(block)) =>
      var kind := EmptyKind(block);
      if kind.None? || i in g.used || g.current.Some? then Reject(g)
      else if kind.value == ToolKind then g.(used := g.used + {i}, tools := g.tools + {i})
      else if i < g.bound then Reject(g)
      else g.(used := g.used + {i}, current := Some((i, kind.value)), bound := i + 1)
    case BlockDelta(Some(i), Some(delta)) =>
      if g.signed then Reject(g)
      else (match delta
            case TextDelta(_) => if g.current == Some((i, TextKind)) then g else Reject(g)
            case ThinkingDelta(_) => if g.current == Some((i, ThinkingKind)) then g else Reject(g)
            case SignatureDelta(signature) =>
              if g.current == Some((i, ThinkingKind)) && signature == "EXTENDED_THINKING_PLACEHOLDER_SIG"
              then g.(signed := true) else Reject(g)
            case InputJsonDelta(_) => if i in g.tools then g else Reject(g)
            case UnknownDelta => Reject(g))
    case BlockStop(Some(i)) =>
      if g.current.Some? && g.current.value.0 == i then
        if g.current.value.1 == ThinkingKind && !g.signed then Reject(g)
        else g.(current := None, signed := false)
      else if i in g.tools && !g.signed then g.(tools := g.tools - {i})
      else Reject(g)
    case MessageDelta(_) =>
      if g.current.None? && g.tools == {} then g.(phase := Summed) else Reject(g)
    case _ => Reject(g)
  }

  function ReadAll(g: Grammar, events: seq<Event>): Grammar
    decreases |events|
  {
    if events == [] then g
    else Read(ReadAll(g, events[..|events| - 1]), events[|events| - 1])
  }

  /** A complete, well-formed event stream. */
  predicate Accepted(events: seq<Event>) {
    ReadAll(START, events).phase == Ended
  }

  lemma ReadOne(g: Grammar, events: seq<Event>, e: Event)
    ensures ReadAll(g, events + [e]) == Read(ReadAll(g, events), e)
  {
    assert (events + [e])[..|events|] == events;
  }

  /** Everything the folds over a stream see of one more event. */
  lemma OneMore(events: seq<Event>, e: Event)
    ensures ReadAll(START, events + [e]) == Read(ReadAll(START, events), e)
    ensures TextSent(events + [e]) == TextSent(events) + TextPart(e)
    ensures ThinkingSent(events + [e]) == ThinkingSent(events) + ThinkingPart(e)
    ensures forall k: nat :: Project(events + [e], k) == if AddressOf(e) == Some(k)
            then Project(events, k) + [e] else Project(events, k)
  {
    assert (events + [e])[..|events|] == events;
  }

  lemma {:induction false} ReadPrefix(events: seq<Event>, n: nat)
    requires n <= |events|
    requires ReadAll(START, events).phase != Broken
    ensures ReadAll(START, events[..n]).phase != Broken
  {
    if n < |events| {
      var front := events[..|events| - 1];
      ReadPrefix(front, n);
      assert front[..n] == events[..n];
    } else {
      assert events[..n] == events;
    }
  }

  // ----- what the events carry -----

  function TextPart(e: Event): string {
    match e
    case BlockDelta(_, Some(TextDelta(text))) => text
    case _ => ""
  }

  function ThinkingPart(e: Event): string {
    match e
    case BlockDelta(_, Some(ThinkingDelta(thinking))) => thinking
    case _ => ""
  }

  /** The text deltas of a stream glued together in the order they were sent. */
  function TextSent(events: seq<Event>): string {
    if events == [] then "" else TextSent(events[..|events| - 1]) + TextPart(events[|events| - 1])
  }

  function ThinkingSent(events: seq<Event>): string {
    if events == [] then "" else ThinkingSent(events[..|events| - 1]) + ThinkingPart(events[|events| - 1])
  }

  // ----- what acceptance means, block by block -----

  function AddressOf(e: Event): Option<nat> {
    match e
    case BlockStart(i, _) => i
    case BlockDelta(i, _) => i
    case BlockStop(i) => i
    case _ => None
  }

  /** The events that address block `k`, in order. */
  function Project(events: seq<Event>, k: nat): seq<Event>
    decreases |events|
  {
    if events == [] then []
    else
      var rest, e := Project(events[..|events| - 1], k), events[|events| - 1];
      if AddressOf(e) == Some(k) then rest + [e] else rest
  }

  /** A delta carrying content of the given kind; a signature is not content. */
  predicate ContentOf(e: Event, kind: Kind) {
    && e.BlockDelta? && e.delta.Some?
    && match kind
       case TextKind => e.delta.value.TextDelta?
       case ThinkingKind => e.delta.value.ThinkingDelta?
       case ToolKind => e.delta.value.InputJsonDelta?
  }

  predicate IsSignature(e: Event) {
    e.BlockDelta? && e.delta.Some? && e.delta.value.SignatureDelta?
  }

  /** A block under way: one start with empty payload, then content of its own kind. */
  ghost predicate OpenBlock(p: seq<Event>, kind: Kind) {
    && |p| >= 1
    && p[0].BlockStart? && p[0].block.Some? && EmptyKind(p[0].block.value) == Some(kind)
    && forall j :: 1 <= j < |p| ==> ContentOf(p[j], kind)
  }

  /** A signed thinking block, only its stop is missing. */
  ghost predicate SignedBlock(p: seq<Event>) {
    && |p| >= 2 && IsSignature(p[|p| - 1])
    && OpenBlock(p[..|p| - 1], ThinkingKind)
  }

  /** A whole block: stopped once, as the last thing that happens to it, and when it is a
      thinking block signed once, just before that. */
  ghost predicate ClosedBlock(p: seq<Event>, kind: Kind) {
    && |p| >= 1 && p[|p| - 1].BlockStop?
    && if kind == ThinkingKind then SignedBlock(p[..|p| - 1]) else OpenBlock(p[..|p| - 1], kind)
  }

  /** Each block is untouched, under way or done, as the automaton has it. */
  ghost predicate BlockState(g: Grammar, p: seq<Event>, k: nat) {
    && (k in g.tools ==> k in g.used)
    && if k !in g.used then p == []
       else if g.current.Some? && g.current.value.0 == k then
         k !in g.tools && if g.signed then SignedBlock(p) else OpenBlock(p, g.current.value.1)
       else if k in g.tools then OpenBlock(p, ToolKind)
       else exists kind :: ClosedBlock(p, kind)
  }

  ghost predicate GrammarSane(g: Grammar) {
    && g.tools <= g.used
    && (g.current.Some? ==> g.current.value.0 in g.used && g.current.value.1 != ToolKind)
    && (g.signed ==> g.current.Some? && g.current.value.1 == ThinkingKind)
    && (g.phase in {Fresh, Greeted} ==> g == START.(phase := g.phase))
    && (g.phase in {Summed, Ended} ==> g.current.None? && g.tools == {})
  }

  lemma BlockStateStep(g: Grammar, p: seq<Event>, k: nat, e: Event)
    requires GrammarSane(g) && BlockState(g, p, k)
    requires Read(g, e).phase != Broken
    ensures GrammarSane(Read(g, e))
    ensures BlockState(Read(g, e), if AddressOf(e) == Some(k) then p + [e] else p, k)
  {
    if AddressOf(e) == Some(k) {
      var q := p + [e];
      assert q[..|q| - 1] == p;
      if e.BlockStop? {
        if k in g.tools {
          assert ClosedBlock(q, ToolKind);
        } else {
          assert ClosedBlock(q, g.current.value.1);
        }
      }
    }
  }

  lemma {:induction false} BlockStates(events: seq<Event>, k: nat)
    requires ReadAll(START, events).phase != Broken
    ensures GrammarSane(ReadAll(START, events))
    ensures BlockState(ReadAll(START, events), Project(events, k), k)
  {
    if events != [] {
      var front := events[..|events| - 1];
      ReadPrefix(events, |front|);
      BlockStates(front, k);
      BlockStateStep(ReadAll(START, front), Project(front, k), k, events[|front|]);
    }
  }

  /** Which events lie where, as far as the phase tells. */
  ghost predicate Framed(phase: Phase, events: seq<Event>) {
    var n := |events|;
    match phase
    case Fresh => n == 0
    case Greeted => n == 1 && Greets(events[0])
    case Open => Prelude(events) && Inner(events, n)
    case Summed => Prelude(events) && n >= 3 && Inner(events, n - 1) && events[n - 1].MessageDelta?
    case Ended =>
      Prelude(events) && n >= 4 && Inner(events, n - 2) && events[n - 2].MessageDelta? && events[n - 1].MessageStop?
    case Broken => true
  }

  ghost predicate Prelude(events: seq<Event>) {
    |events| >= 2 && Greets(events[0]) && events[1].Ping?
  }

  /** Between the prelude and position `last` every event addresses a block. */
  ghost predicate Inner(events: seq<Event>, last: int)
    requires last <= |events|
  {
    forall j :: 2 <= j < last ==> AddressOf(events[j]).Some?
  }

  lemma {:induction false} FramedAlways(events: seq<Event>)
    requires ReadAll(START, events).phase != Broken
    ensures Framed(ReadAll(START, events).phase, events)
  {
    if events != [] {
      var front := events[..|events| - 1];
      ReadPrefix(events, |front|);
      FramedAlways(front);
      FramedStep(ReadAll(START, front), front, events[|front|]);
      assert events == front + [events[|front|]];
    }
  }

  lemma FramedStep(g: Grammar, front: seq<Event>, e: Event)
    requires Framed(g.phase, front) && g.phase != Broken && Read(g, e).phase != Broken
    ensures Framed(Read(g, e).phase, front + [e])
  {}

  /** What acceptance gives a reader: `message_start` and `ping` come first, once each;
      every block is started once, gets only content of its own kind while it is open, is
      signed exactly once right before its stop when it is a thinking block, and is stopped
      exactly once; `message_delta` and `message_stop` come last, once each, after every stop. */
  lemma AcceptedShape(events: seq<Event>)
    requires Accepted(events)
    ensures var n := |events|;
            && n >= 4
            && Greets(events[0]) && events[1].Ping?
            && events[n - 2].MessageDelta? && events[n - 1].MessageStop?
            && forall j :: 2 <= j < n - 2 ==> AddressOf(events[j]).Some?
    ensures forall k :: Project(events, k) == [] || exists kind :: ClosedBlock(Project(events, k), kind)
  {
    FramedAlways(events);
    forall k ensures Project(events, k) == [] || exists kind :: ClosedBlock(Project(events, k), kind) {
      BlockStates(events, k);
    }
  }

  /** The only signature in use is the placeholder. */
  lemma {:induction false} SignedByPlaceholder(events: seq<Event>)
    requires ReadAll(START, events).phase != Broken
    ensures forall e <- events :: IsSignature(e) ==> e.delta.value.signature == "EXTENDED_THINKING_PLACEHOLDER_SIG"
  {
    if events != [] {
      SignedByPlaceholder(events[..|events| - 1]);
    }
  }

  predicate OpensContent(e: Event) {
    e.BlockStart? && e.block.Some? && (e.block.value.StartText? || e.block.value.StartThinking?)
  }

  /** Text and thinking blocks never overlap: between two of their starts lies the stop of the first. */
  lemma ContentBlocksDoNotOverlap(events: seq<Event>, i: nat, j: nat)
    requires ReadAll(START, events).phase != Broken
    requires i < j < |events| && OpensContent(events[i]) && OpensContent(events[j])
    ensures StoppedBetween(events, i, j)
  {
    ReadPrefix(events, j + 1);
    ReadPrefix(events, j);
    assert events[..j + 1][..j] == events[..j];
    CurrentUntilStopped(events, i, j);
  }

  ghost predicate StoppedBetween(events: seq<Event>, i: nat, j: nat)
    requires i < j <= |events| && OpensContent(events[i])
  {
    exists s :: i < s < j && events[s] == BlockStop(events[i].index)
  }

  predicate IsCurrent(g: Grammar, index: Option<nat>) {
    g.current.Some? && Some(g.current.value.0) == index
  }

  lemma {:induction false} CurrentUntilStopped(events: seq<Event>, i: nat, j: nat)
    requires i < j <= |events| && ReadAll(START, events[..j]).phase != Broken
    requires OpensContent(events[i])
    ensures StoppedBetween(events, i, j) || IsCurrent(ReadAll(START, events[..j]), events[i].index)
  {
    var g := ReadAll(START, events[..j - 1]);
    assert events[..j] == events[..j - 1] + [events[j - 1]];
    ReadOne(START, events[..j - 1], events[j - 1]);
    if i + 1 < j {
      CurrentUntilStopped(events, i, j - 1);
      if IsCurrent(g, events[i].index) && !IsCurrent(Read(g, events[j - 1]), events[i].index) {
        OnlyStopsEnd(g, events[j - 1]);
        assert i < j - 1 < j && events[j - 1] == BlockStop(events[i].index);
      }
    }
  }

  lemma OnlyStopsEnd(g: Grammar, e: Event)
    requires g.current.Some? && Read(g, e).phase != Broken
    requires !IsCurrent(Read(g, e), Some(g.current.value.0))
    ensures e == BlockStop(Some(g.current.value.0))
  {}
}
