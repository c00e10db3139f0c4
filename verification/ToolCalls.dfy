/** Merging and normalising streamed tool-call arguments, and turning tool-call deltas into
    block starts, argument fragments and stops (unigateway-core/src/conversion/tool_calls.rs). */
module ToolCalls {
  import opened Common
  import opened JsonStrings

  // ----- merging argument fragments -----

  predicate EndsWith(s: string, suffix: string) {
    |suffix| <= |s| && s[|s| - |suffix|..] == suffix
  }

  predicate Overlaps(existing: string, incoming: string, k: nat) {
    k <= |existing| && k <= |incoming| && existing[|existing| - k..] == incoming[..k]
  }

  /** The longest suffix of `existing`, no longer than `most`, that `incoming` starts with. */
  function LongestOverlap(existing: string, incoming: string, most: nat): (k: nat)
    requires most <= |existing| && most <= |incoming|
    ensures k <= most && Overlaps(existing, incoming, k)
    ensures forall j :: k < j <= most ==> !Overlaps(existing, incoming, j)
  {
    if most == 0 || Overlaps(existing, incoming, most) then most
    else LongestOverlap(existing, incoming, most - 1)
  }

  function Merge(existing: string, incoming: string): string {
    if incoming == "" then existing
    else if existing == "" || existing <= incoming then incoming
    else if incoming <= existing || EndsWith(existing, incoming) then existing
    else existing + incoming[LongestOverlap(existing, incoming, Min(|existing|, |incoming|))..]
  }

  method MergeArguments(existing: string, incoming: string) returns (merged: string)
    ensures merged == Merge(existing, incoming)
  {
    if incoming == "" { return existing; }
    if existing == "" { return incoming; }
    if existing <= incoming { return incoming; }
    if incoming <= existing || EndsWith(existing, incoming) { return existing; }
    var most := Min(|existing|, |incoming|);
    var overlap := most;
    while overlap > 0
      invariant 0 <= overlap <= most
      invariant LongestOverlap(existing, incoming, overlap) == LongestOverlap(existing, incoming, most)
    {
      if existing[|existing| - overlap..] == incoming[..overlap] {
        return existing + incoming[overlap..];
      }
      overlap := overlap - 1;
    }
    merged := existing + incoming;
  }

  /** Nothing already collected is ever lost or moved, and the incoming fragment is in the result. */
  lemma MergeKeepsBoth(existing: string, incoming: string)
    ensures existing <= Merge(existing, incoming)
    ensures incoming <= Merge(existing, incoming) || EndsWith(Merge(existing, incoming), incoming)
  {}

  /** A fragment delivered twice in a row changes nothing the second time. */
  lemma MergeRedelivery(existing: string, incoming: string)
    ensures Merge(Merge(existing, incoming), incoming) == Merge(existing, incoming)
  {
    MergeKeepsBoth(existing, incoming);
  }

  /** Nothing of the second text repeats the first: one is empty, or the first does not start with
      the second, and no end of the first is a beginning of the second. */
  predicate Apart(existing: string, incoming: string) {
    || existing == "" || incoming == ""
    || (!(incoming <= existing)
        && forall k :: 1 <= k <= |existing| && k <= |incoming| ==> !Overlaps(existing, incoming, k))
  }

  /** Plain appending happens exactly when nothing is repeated. Otherwise repeated text is dropped. */
  lemma MergeAppendsExactly(existing: string, incoming: string)
    ensures Merge(existing, incoming) == existing + incoming <==> Apart(existing, incoming)
    ensures !Apart(existing, incoming) ==> |Merge(existing, incoming)| < |existing| + |incoming|
  {
    if existing != "" && incoming != "" {
      if existing <= incoming {
        assert Overlaps(existing, incoming, |existing|);
      } else if EndsWith(existing, incoming) {
        assert Overlaps(existing, incoming, |incoming|);
      } else if !(incoming <= existing) {
        var k := LongestOverlap(existing, incoming, Min(|existing|, |incoming|));
        if k == 0 {
          assert incoming[0..] == incoming;
        }
      }
    }
  }

  function MergeAll(fragments: seq<string>): string {
    if fragments == [] then ""
    else Merge(MergeAll(fragments[..|fragments| - 1]), fragments[|fragments| - 1])
  }

  /** A provider that resends everything so far with each chunk is understood: the last snapshot wins. */
  lemma {:induction false} SnapshotsMerge(snapshots: seq<string>)
    requires forall i :: 0 < i < |snapshots| ==> snapshots[i - 1] <= snapshots[i]
    ensures MergeAll(snapshots) == if snapshots == [] then "" else snapshots[|snapshots| - 1]
  {
    if |snapshots| > 1 {
      SnapshotsMerge(snapshots[..|snapshots| - 1]);
    }
  }

  /** No fragment repeats anything of what came before it. */
  predicate AllApart(fragments: seq<string>) {
    forall k :: 0 <= k < |fragments| ==> Apart(Flatten(fragments[..k]), fragments[k])
  }

  lemma AllApartMore(fragments: seq<string>, last: string)
    ensures AllApart(fragments + [last]) <==> AllApart(fragments) && Apart(Flatten(fragments), last)
  {
    var more := fragments + [last];
    assert more[..|fragments|] == fragments;
    forall k | 0 <= k < |fragments| ensures more[..k] == fragments[..k] && more[k] == fragments[k] {}
    if AllApart(more) {
      forall k | 0 <= k < |fragments| ensures Apart(Flatten(fragments[..k]), fragments[k]) {
        assert Apart(Flatten(more[..k]), more[k]);
      }
      assert Apart(Flatten(more[..|fragments|]), more[|fragments|]);
    }
  }

  /** What the provider sent is what is collected exactly when no fragment repeats anything of what
      came before it; otherwise characters are missing. */
  lemma {:induction false} MergedIsSentIff(fragments: seq<string>)
    ensures MergeAll(fragments) == Flatten(fragments) <==> AllApart(fragments)
    ensures |MergeAll(fragments)| <= |Flatten(fragments)|
    ensures !AllApart(fragments) ==> |MergeAll(fragments)| < |Flatten(fragments)|
  {
    if fragments != [] {
      var front, last := fragments[..|fragments| - 1], fragments[|fragments| - 1];
      assert fragments == front + [last];
      MergedIsSentIff(front);
      AllApartMore(front, last);
      FlattenAppend(front, last);
      MergeAppendsExactly(MergeAll(front), last);
    }
  }

  /** Arguments `{"n":11}` that come as `{"n":1` and `1}` are collected as `{"n":1}`, which is plain
      and another number. */
  lemma RepeatedDigitIsLost()
    ensures MergeAll(["{\"n\":1", "1}"]) == "{\"n\":1}" && Plain("{\"n\":1}")
    ensures Flatten(["{\"n\":1", "1}"]) == "{\"n\":11}"
  {
    var x, y, merged := "{\"n\":1", "1}", "{\"n\":1}";
    assert merged[0] == '{' && merged[1] == '"' && EMPTY_OBJECT[1] == '}';
    assert [x, y][..1] == [x] && [x][..0] == [];
    assert MergeAll([x]) == Merge(MergeAll([]), x) == x;
    assert MergeAll([x, y]) == Merge(x, y);
    assert !Overlaps(x, y, 2) && Overlaps(x, y, 1);
    assert LongestOverlap(x, y, 2) == LongestOverlap(x, y, 1) == 1;
    assert [x, y][1..] == [y] && [y][1..] == [];
    assert Flatten([y]) == y + Flatten([]) == y;
    assert Flatten([x, y]) == x + Flatten([y]);
  }

  // ----- normalising the merged text -----

  const EMPTY_OBJECT := "{}"

  function StripEmptyObjects(s: string): (r: string)
    ensures |r| <= |s|
  {
    if EMPTY_OBJECT <= s && |s| > 2 then StripEmptyObjects(s[2..]) else s
  }

  predicate Quoted(s: string) { |s| > 0 && s[0] == '"' }

  function Settle(s: string, previous: string): string
    decreases |s|
  {
    var stripped := StripEmptyObjects(s);
    if stripped != s then assert |stripped| < |s| by { StripShortens(s); } Settle(stripped, previous)
    else if Quoted(s) then
      match DecodeLiteral(s)
      case Some(inner) => Settle(inner, previous)
      case None => previous
    else s
  }

  function Normalize(raw: string, previous: string): string {
    if raw == "" then previous else Settle(raw, previous)
  }

  method NormalizeArguments(raw: string, previous: string) returns (normalized: string)
    ensures normalized == Normalize(raw, previous)
  {
    if raw == "" { return previous; }
    normalized := raw;
    while true
      invariant Settle(normalized, previous) == Settle(raw, previous)
      decreases |normalized|
    {
      var repaired := StripEmptyObjectPrefix(normalized);
      if repaired != normalized {
        StripShortens(normalized);
        normalized := repaired;
        continue;
      }
      if Quoted(normalized) {
        match DecodeLiteral(normalized) {
          case Some(decoded) =>
            normalized := decoded;
            continue;
          case None =>
            return previous;
        }
      }
      return normalized;
    }
  }

  method StripEmptyObjectPrefix(value: string) returns (stripped: string)
    ensures stripped == StripEmptyObjects(value)
  {
    stripped := value;
    while EMPTY_OBJECT <= stripped && |stripped| > 2
      invariant StripEmptyObjects(stripped) == StripEmptyObjects(value)
    {
      stripped := stripped[2..];
    }
  }

  lemma {:induction false} StripShortens(s: string)
    ensures StripEmptyObjects(s) != s ==> |StripEmptyObjects(s)| < |s|
  {
    if EMPTY_OBJECT <= s && |s| > 2 {
      var r := StripEmptyObjects(s[2..]);
    }
  }

  /** Arguments that are forwarded as they stand: not a quoted string, not `{}` with more behind it. */
  predicate Plain(raw: string) {
    !Quoted(raw) && !(EMPTY_OBJECT <= raw && |raw| > 2)
  }

  lemma {:induction false} SettleShrinks(s: string, previous: string)
    ensures var r := Settle(s, previous); r == previous || |r| <= |s|
    ensures Plain(s) ==> Settle(s, previous) == s
    ensures !Plain(s) ==> var r := Settle(s, previous); r == previous || |r| < |s|
    decreases |s|
  {
    StripShortens(s);
    var stripped := StripEmptyObjects(s);
    if stripped != s {
      SettleShrinks(stripped, previous);
    } else if Quoted(s) && DecodeLiteral(s).Some? {
      SettleShrinks(DecodeLiteral(s).value, previous);
    } else if EMPTY_OBJECT <= s && |s| > 2 {
      StripsSomething(s);
    }
  }

  lemma {:induction false} StripsSomething(s: string)
    requires EMPTY_OBJECT <= s && |s| > 2
    ensures StripEmptyObjects(s) != s
  {
    assert |StripEmptyObjects(s[2..])| <= |s| - 2;
  }

  // ----- one tool call -----

  datatype Pending = Pending(id: string, name: string, rawArguments: string, arguments: string,
                             emittedLen: nat, anthropicIndex: Option<nat>, started: bool, stopped: bool)

  const NOTHING_PENDING := Pending("", "", "", "", 0, None, false, false)

  /** The members of a streamed tool call that are present and are strings. */
  datatype ToolDelta = ToolDelta(index: Option<nat>, id: Option<string>, name: Option<string>,
                                 arguments: Option<string>)

  const EMPTY_DELTA := ToolDelta(None, None, None, None)

  datatype ToolStart = ToolStart(index: nat, id: string, name: string)

  datatype Fragment = Fragment(index: nat, partialJson: string)

  datatype Update = Update(start: Option<ToolStart>, delta: Option<Fragment>)

  datatype StopUpdate = StopUpdate(start: Option<ToolStart>, delta: Option<Fragment>, stopIndex: Option<nat>)

  const NO_STOP := StopUpdate(None, None, None)

  /** The pending call after taking in what the delta says. */
  function Absorb(p: Pending, d: ToolDelta): Pending {
    var named := p.(id := d.id.GetOr(p.id), name := d.name.GetOr(p.name));
    match d.arguments
    case None => named
    case Some(incoming) =>
      var raw := Merge(p.rawArguments, incoming);
      named.(rawArguments := raw, arguments := Normalize(raw, p.arguments))
  }

  /** Start the block once id and name are known, and hand out what is new of the arguments. */
  function Emit(p: Pending, toolIndex: nat): (Pending, Update) {
    var index := p.anthropicIndex.GetOr(toolIndex);
    var canStart := !p.started && p.id != "" && p.name != "";
    var q := p.(started := p.started || canStart);
    var start := if canStart then Some(ToolStart(index, p.id, p.name)) else None;
    if q.started && q.emittedLen < |q.arguments| then
      (q.(emittedLen := |q.arguments|), Update(start, Some(Fragment(index, q.arguments[q.emittedLen..]))))
    else (q, Update(start, None))
  }

  /** The last word on a pending call. */
  function Flush(p: Pending, toolIndex: nat): (Pending, StopUpdate) {
    var index := p.anthropicIndex.GetOr(toolIndex);
    if p.stopped then (p, NO_STOP)
    else if p.started then (p.(stopped := true), StopUpdate(None, None, Some(index)))
    else if p.id == "" && p.name == "" && p.arguments == "" then (p.(started := true), NO_STOP)
    else
      var start := ToolStart(index, if p.id == "" then "toolu_unknown" else p.id,
                             if p.name == "" then "tool" else p.name);
      var q := p.(started := true, stopped := true);
      if p.emittedLen < |p.arguments| then
        (q.(emittedLen := |p.arguments|),
         StopUpdate(Some(start), Some(Fragment(index, p.arguments[p.emittedLen..])), Some(index)))
      else (q, StopUpdate(Some(start), None, Some(index)))
  }

  /** The pending tool calls by upstream index, and the counter that content blocks share. */
  datatype Table = Table(calls: map<nat, Pending>, next: nat)

  /** The entry of `toolIndex`, created and given a content index on first sight. */
  function Allocate(t: Table, toolIndex: nat): (Pending, nat) {
    var p := if toolIndex in t.calls then t.calls[toolIndex] else NOTHING_PENDING;
    if p.anthropicIndex.None? then (p.(anthropicIndex := Some(t.next)), t.next + 1) else (p, t.next)
  }

  function ApplyDelta(t: Table, toolIndex: nat, d: ToolDelta): (Table, Update) {
    var (p, next) := Allocate(t, toolIndex);
    var (q, update) := Emit(Absorb(p, d), toolIndex);
    (Table(t.calls[toolIndex := q], next), update)
  }

  function FlushStop(t: Table, toolIndex: nat): (Table, StopUpdate) {
    if toolIndex !in t.calls then (t, NO_STOP)
    else
      var (q, update) := Flush(t.calls[toolIndex], toolIndex);
      (t.(calls := t.calls[toolIndex := q]), update)
  }

  class PendingToolCalls {
    var calls: map<nat, Pending>
    var nextContentIndex: nat

    constructor ()
      ensures State() == Table(map[], 0)
    {
      calls, nextContentIndex := map[], 0;
    }

    function State(): Table
      reads this
    {
      Table(calls, nextContentIndex)
    }

    method ApplyDeltaUpdate(toolIndex: nat, toolCall: ToolDelta) returns (update: Update)
      modifies this
      ensures (State(), update) == ApplyDelta(old(State()), toolIndex, toolCall)
    {
      var pending := if toolIndex in calls then calls[toolIndex] else NOTHING_PENDING;
      if pending.anthropicIndex.None? {
        pending := pending.(anthropicIndex := Some(nextContentIndex));
        nextContentIndex := nextContentIndex + 1;
      }
      pending := TakeIn(pending, toolCall);
      pending, update := HandOut(pending, toolIndex);
      calls := calls[toolIndex := pending];
    }

    method TakeIn(before: Pending, toolCall: ToolDelta) returns (pending: Pending)
      ensures pending == Absorb(before, toolCall)
    {
      pending := before;
      if toolCall.id.Some? { pending := pending.(id := toolCall.id.value); }
      if toolCall.name.Some? { pending := pending.(name := toolCall.name.value); }
      if toolCall.arguments.Some? {
        var raw := MergeArguments(pending.rawArguments, toolCall.arguments.value);
        var normalized := NormalizeArguments(raw, pending.arguments);
        pending := pending.(rawArguments := raw, arguments := normalized);
      }
    }

    method HandOut(before: Pending, toolIndex: nat) returns (pending: Pending, update: Update)
      ensures (pending, update) == Emit(before, toolIndex)
    {
      pending, update := before, Update(None, None);
      var index := pending.anthropicIndex.GetOr(toolIndex);
      if !pending.started && pending.id != "" && pending.name != "" {
        pending := pending.(started := true);
        update := update.(start := Some(ToolStart(index, pending.id, pending.name)));
      }
      if pending.started && pending.emittedLen < |pending.arguments| {
        var fragment := pending.arguments[pending.emittedLen..];
        pending := pending.(emittedLen := |pending.arguments|);
        update := update.(delta := Some(Fragment(index, fragment)));
      }
    }

    method FlushStopUpdate(toolIndex: nat) returns (update: StopUpdate)
      modifies this
      ensures (State(), update) == FlushStop(old(State()), toolIndex)
    {
      if toolIndex !in calls { return NO_STOP; }
      var pending := calls[toolIndex];
      if pending.stopped {
        assert calls[toolIndex := pending] == calls;
        return NO_STOP;
      }
      var index := pending.anthropicIndex.GetOr(toolIndex);
      if !pending.started {
        pending := pending.(started := true);
        if pending.id == "" && pending.name == "" && pending.arguments == "" {
          calls := calls[toolIndex := pending];
          return NO_STOP;
        }
        var delta := None;
        if pending.emittedLen < |pending.arguments| {
          delta := Some(Fragment(index, pending.arguments[pending.emittedLen..]));
          pending := pending.(emittedLen := |pending.arguments|);
        }
        pending := pending.(stopped := true);
        calls := calls[toolIndex := pending];
        var id := if pending.id == "" then "toolu_unknown" else pending.id;
        var name := if pending.name == "" then "tool" else pending.name;
        return StopUpdate(Some(ToolStart(index, id, name)), delta, Some(index));
      }
      calls := calls[toolIndex := pending.(stopped := true)];
      return StopUpdate(None, None, Some(index));
    }
  }

  // ----- every argument byte goes out once -----

  /** `sent` is what has gone out of the call's arguments so far. While the raw text is plain
      it is a prefix of it; once the raw text is not, too little has gone out and always will. */
  ghost predicate Forwarded(p: Pending, sent: string) {
    && |sent| == p.emittedLen
    && (!p.started ==> p.emittedLen == 0)
    && if Plain(p.rawArguments) then
         p.arguments == p.rawArguments && sent <= p.rawArguments
         && (p.started ==> sent == p.rawArguments)
       else
         p.emittedLen < |p.rawArguments| && |p.arguments| < |p.rawArguments|
  }

  lemma PlainPrefix(before: string, after: string)
    requires before <= after
    ensures Plain(after) ==> Plain(before)
    ensures Plain(before) && !Plain(after) ==> |before| <= 2 && |before| < |after|
  {}

  lemma AbsorbForwards(p: Pending, sent: string, d: ToolDelta)
    requires Forwarded(p, sent)
    ensures var q := Absorb(p, d);
            && |sent| == q.emittedLen && q.started == p.started && q.stopped == p.stopped
            && if Plain(q.rawArguments) then q.arguments == q.rawArguments && sent <= q.rawArguments
               else q.emittedLen < |q.rawArguments| && |q.arguments| < |q.rawArguments|
  {
    if d.arguments.Some? {
      var raw := Merge(p.rawArguments, d.arguments.value);
      MergeKeepsBoth(p.rawArguments, d.arguments.value);
      PlainPrefix(p.rawArguments, raw);
      SettleShrinks(raw, p.arguments);
      NormalizeForwards(p, sent, raw, Normalize(raw, p.arguments));
    }
  }

  lemma NormalizeForwards(p: Pending, sent: string, raw: string, arguments: string)
    requires Forwarded(p, sent) && p.rawArguments <= raw
    requires Plain(raw) ==> Plain(p.rawArguments) && arguments == if raw == "" then p.arguments else raw
    requires !Plain(raw) ==> arguments == p.arguments || |arguments| < |raw|
    requires Plain(p.rawArguments) && !Plain(raw) ==> |p.rawArguments| < |raw|
    ensures if Plain(raw) then arguments == raw && sent <= raw else |sent| < |raw| && |arguments| < |raw|
  {}

  function SentBy(delta: Option<Fragment>): string {
    if delta.Some? then delta.value.partialJson else ""
  }

  lemma DeltaForwards(p: Pending, sent: string, d: ToolDelta, toolIndex: nat)
    requires Forwarded(p, sent)
    ensures var (q, update) := Emit(Absorb(p, d), toolIndex);
            && Forwarded(q, sent + SentBy(update.delta))
            && (update.start.Some? <==> !p.started && q.started)
            && (update.delta.Some? ==> q.started)
            && q.stopped == p.stopped
  {
    AbsorbForwards(p, sent, d);
  }

  datatype Out = Started(id: string, name: string) | Sent(partialJson: string) | Stopped

  function Outs(start: Option<ToolStart>, delta: Option<Fragment>): seq<Out> {
    (if start.Some? then [Started(start.value.id, start.value.name)] else [])
    + (if delta.Some? then [Sent(delta.value.partialJson)] else [])
  }

  /** One tool call seen alone: every delta in turn. */
  function AbsorbAll(toolIndex: nat, index: nat, ds: seq<ToolDelta>): (Pending, seq<Out>) {
    if ds == [] then (NOTHING_PENDING.(anthropicIndex := Some(index)), [])
    else
      var (p, outs) := AbsorbAll(toolIndex, index, ds[..|ds| - 1]);
      var (q, update) := Emit(Absorb(p, ds[|ds| - 1]), toolIndex);
      (q, outs + Outs(update.start, update.delta))
  }

  /** The whole life of one tool call: its deltas, the empty delta of the final flush, the flush. */
  function Lifetime(toolIndex: nat, index: nat, ds: seq<ToolDelta>): (Pending, seq<Out>) {
    var (p, outs) := AbsorbAll(toolIndex, index, ds + [EMPTY_DELTA]);
    var (q, stop) := Flush(p, toolIndex);
    (q, outs + Outs(stop.start, stop.delta) + (if stop.stopIndex.Some? then [Stopped] else []))
  }

  function SentText(outs: seq<Out>): string {
    if outs == [] then ""
    else SentText(outs[..|outs| - 1]) + (if outs[|outs| - 1].Sent? then outs[|outs| - 1].partialJson else "")
  }

  lemma SentTextAppend(outs: seq<Out>, out: Out)
    ensures SentText(outs + [out]) == SentText(outs) + (if out.Sent? then out.partialJson else "")
  {
    assert (outs + [out])[..|outs|] == outs;
  }

  lemma SentTextOuts(outs: seq<Out>, start: Option<ToolStart>, delta: Option<Fragment>)
    ensures SentText(outs + Outs(start, delta)) == SentText(outs) + SentBy(delta)
  {
    var first := if start.Some? then outs + [Started(start.value.id, start.value.name)] else outs;
    if start.Some? {
      SentTextAppend(outs, Started(start.value.id, start.value.name));
    }
    if delta.Some? {
      SentTextAppend(first, Sent(delta.value.partialJson));
      assert outs + Outs(start, delta) == first + [Sent(delta.value.partialJson)];
    } else {
      assert outs + Outs(start, delta) == first;
    }
  }

  /** One start, then fragments only. */
  ghost predicate UnderWay(outs: seq<Out>) {
    |outs| >= 1 && outs[0].Started? && forall j :: 1 <= j < |outs| ==> outs[j].Sent?
  }

  lemma {:induction false} AbsorbAllForwards(toolIndex: nat, index: nat, ds: seq<ToolDelta>)
    ensures var (p, outs) := AbsorbAll(toolIndex, index, ds);
            && Forwarded(p, SentText(outs)) && !p.stopped
            && if p.started then UnderWay(outs) else outs == []
  {
    if ds != [] {
      var front, d := ds[..|ds| - 1], ds[|ds| - 1];
      AbsorbAllForwards(toolIndex, index, front);
      var (p, outs) := AbsorbAll(toolIndex, index, front);
      DeltaForwards(p, SentText(outs), d, toolIndex);
      var (q, update) := Emit(Absorb(p, d), toolIndex);
      SentTextOuts(outs, update.start, update.delta);
    }
  }

  function ArgumentsOf(ds: seq<ToolDelta>): seq<string> {
    if ds == [] then []
    else ArgumentsOf(ds[..|ds| - 1])
         + (if ds[|ds| - 1].arguments.Some? then [ds[|ds| - 1].arguments.value] else [])
  }

  lemma MergeAllAppend(fragments: seq<string>, last: string)
    ensures MergeAll(fragments + [last]) == Merge(MergeAll(fragments), last)
  {
    assert (fragments + [last])[..|fragments|] == fragments;
  }

  lemma RawStep(p: Pending, d: ToolDelta, toolIndex: nat)
    ensures Emit(Absorb(p, d), toolIndex).0.rawArguments ==
            if d.arguments.Some? then Merge(p.rawArguments, d.arguments.value) else p.rawArguments
  {}

  lemma {:induction false} RawIsMerged(toolIndex: nat, index: nat, ds: seq<ToolDelta>)
    ensures AbsorbAll(toolIndex, index, ds).0.rawArguments == MergeAll(ArgumentsOf(ds))
  {
    if ds != [] {
      var front, d := ds[..|ds| - 1], ds[|ds| - 1];
      RawIsMerged(toolIndex, index, front);
      RawStep(AbsorbAll(toolIndex, index, front).0, d, toolIndex);
      if d.arguments.Some? {
        MergeAllAppend(ArgumentsOf(front), d.arguments.value);
      } else {
        assert ArgumentsOf(ds) == ArgumentsOf(front);
      }
    }
  }

  /** For every sequence of deltas of one tool call, closed by the final flush: a block is
      started before any fragment and stopped after the last one, and the fragments glue to
      exactly the merged raw arguments if and only if these are plain. In the other cases
      fewer characters go out than were collected. (What was collected is what was provided only if
      no fragment repeats anything, see `SentAsProvidedIff`.) */
  lemma ArgumentsSentOnce(toolIndex: nat, index: nat, ds: seq<ToolDelta>)
    ensures var raw, outs := MergeAll(ArgumentsOf(ds)), Lifetime(toolIndex, index, ds).1;
            && (SentText(outs) == raw <==> Plain(raw))
            && (!Plain(raw) ==> |SentText(outs)| < |raw|)
            && (outs == [] || (outs[|outs| - 1].Stopped? && UnderWay(outs[..|outs| - 1])))
  {
    var all := ds + [EMPTY_DELTA];
    assert all[..|ds|] == ds;
    AbsorbAllForwards(toolIndex, index, all);
    RawIsMerged(toolIndex, index, all);
    var (p, outs) := AbsorbAll(toolIndex, index, all);
    assert ArgumentsOf(all) == ArgumentsOf(ds);
    FlushForwards(p, outs, toolIndex);
  }

  /** Fragments that reach the client as the provider sent them: none repeats anything of what came
      before it, and glued together they are plain. */
  predicate Intact(fragments: seq<string>) {
    AllApart(fragments) && Plain(Flatten(fragments))
  }

  /** The arguments sent to the client are the provider's fragments glued together if and only if
      these are intact; in all other cases characters are missing. */
  lemma SentAsProvidedIff(toolIndex: nat, index: nat, ds: seq<ToolDelta>)
    ensures var provided, sent := Flatten(ArgumentsOf(ds)), SentText(Lifetime(toolIndex, index, ds).1);
            && (sent == provided <==> Intact(ArgumentsOf(ds)))
            && (!Intact(ArgumentsOf(ds)) ==> |sent| < |provided|)
  {
    ArgumentsSentOnce(toolIndex, index, ds);
    MergedIsSentIff(ArgumentsOf(ds));
  }

  lemma FlushForwards(p: Pending, outs: seq<Out>, toolIndex: nat)
    requires Forwarded(p, SentText(outs)) && !p.stopped
    requires if p.started then UnderWay(outs) else outs == []
    ensures var stop := Flush(p, toolIndex).1;
            var before := outs + Outs(stop.start, stop.delta);
            var all := before + (if stop.stopIndex.Some? then [Stopped] else []);
            && (SentText(all) == p.rawArguments <==> Plain(p.rawArguments))
            && (!Plain(p.rawArguments) ==> |SentText(all)| < |p.rawArguments|)
            && (all == [] || (all[|all| - 1].Stopped? && UnderWay(all[..|all| - 1])))
  {
    var stop := Flush(p, toolIndex).1;
    var before := outs + Outs(stop.start, stop.delta);
    FlushSends(p, outs, toolIndex);
    if stop.stopIndex.Some? {
      SentTextAppend(before, Stopped);
      assert (before + [Stopped])[..|before|] == before;
    } else {
      assert before + [] == [];
    }
  }

  lemma FlushSends(p: Pending, outs: seq<Out>, toolIndex: nat)
    requires Forwarded(p, SentText(outs)) && !p.stopped
    requires if p.started then UnderWay(outs) else outs == []
    ensures var stop := Flush(p, toolIndex).1;
            var before := outs + Outs(stop.start, stop.delta);
            && (if Plain(p.rawArguments) then SentText(before) == p.rawArguments
                else |SentText(before)| < |p.rawArguments|)
            && if stop.stopIndex.Some? then UnderWay(before) else before == []
  {
    var stop := Flush(p, toolIndex).1;
    SentTextOuts(outs, stop.start, stop.delta);
    if p.started {
      assert outs + Outs(None, None) == outs;
    } else {
      assert outs + Outs(stop.start, stop.delta) == Outs(stop.start, stop.delta);
    }
  }
}
