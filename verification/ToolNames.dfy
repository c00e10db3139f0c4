/** The id and name that a tool call is announced with, told by its deltas alone
    (unigateway-core/src/conversion/tool_calls.rs:63-97, 127-160). */
module ToolNames {
  import opened Common
  import opened JsonStrings
  import opened ToolCalls

  /** The last id given, empty if there is none. */
  function LastId(ds: seq<ToolDelta>): string {
    if ds == [] then "" else ds[|ds| - 1].id.GetOr(LastId(ds[..|ds| - 1]))
  }

  function LastName(ds: seq<ToolDelta>): string {
    if ds == [] then "" else ds[|ds| - 1].name.GetOr(LastName(ds[..|ds| - 1]))
  }

  /** Both are known. */
  predicate Named(ds: seq<ToolDelta>) { LastId(ds) != "" && LastName(ds) != "" }

  /** They are known after `k` deltas for the first time. */
  predicate NamedFirst(ds: seq<ToolDelta>, k: nat) {
    k <= |ds| && Named(ds[..k]) && forall j: nat :: j < k ==> !Named(ds[..j])
  }

  predicate NeverNamed(ds: seq<ToolDelta>) { forall k: nat :: k <= |ds| ==> !Named(ds[..k]) }

  /** The id and name known first, or in the end the last ones given, with substitutes for missing ones. */
  ghost predicate AnnouncedAs(ds: seq<ToolDelta>, id: string, name: string) {
    || (exists k: nat :: NamedFirst(ds, k) && id == LastId(ds[..k]) && name == LastName(ds[..k]))
    || (NeverNamed(ds)
        && id == (if LastId(ds) == "" then "toolu_unknown" else LastId(ds))
        && name == (if LastName(ds) == "" then "tool" else LastName(ds)))
  }

  /** What the repair of arguments has made of the fragments so far. */
  function Repaired(fragments: seq<string>): string {
    if fragments == [] then ""
    else Normalize(MergeAll(fragments), Repaired(fragments[..|fragments| - 1]))
  }

  /** Nothing is known of the call that could be told. */
  predicate Nameless(ds: seq<ToolDelta>) {
    NeverNamed(ds) && LastId(ds) == "" && LastName(ds) == "" && Repaired(ArgumentsOf(ds)) == ""
  }

  // ----- while deltas come in -----

  lemma OneMoreDelta(ds: seq<ToolDelta>, d: ToolDelta)
    ensures LastId(ds + [d]) == d.id.GetOr(LastId(ds)) && LastName(ds + [d]) == d.name.GetOr(LastName(ds))
    ensures forall k: nat :: k <= |ds| ==> (ds + [d])[..k] == ds[..k]
  {
    var all := ds + [d];
    assert all[..|ds|] == ds;
    forall k: nat | k <= |ds| ensures all[..k] == ds[..k] {}
  }

  lemma StaysFirst(ds: seq<ToolDelta>, d: ToolDelta, k: nat)
    requires NamedFirst(ds, k)
    ensures NamedFirst(ds + [d], k) && (ds + [d])[..k] == ds[..k]
  {
    OneMoreDelta(ds, d);
  }

  lemma StillUnnamed(ds: seq<ToolDelta>, d: ToolDelta)
    ensures NeverNamed(ds + [d]) <==> NeverNamed(ds) && !Named(ds + [d])
    ensures NeverNamed(ds) && Named(ds + [d]) ==> NamedFirst(ds + [d], |ds| + 1)
  {
    var all := ds + [d];
    OneMoreDelta(ds, d);
    assert all[..|ds| + 1] == all;
    if NeverNamed(all) {
      forall k: nat | k <= |ds| ensures !Named(ds[..k]) {
        assert !Named(all[..k]);
      }
    }
  }

  /** What is known of the call, and how it was announced. */
  ghost predicate Known(p: Pending, outs: seq<Out>, ds: seq<ToolDelta>) {
    && p.id == LastId(ds) && p.name == LastName(ds) && p.arguments == Repaired(ArgumentsOf(ds))
    && p.rawArguments == MergeAll(ArgumentsOf(ds))
    && (p.started <==> !NeverNamed(ds))
    && (if p.started then StartedFirst(outs, ds) else outs == [])
  }

  /** It was announced when both were known for the first time. */
  ghost predicate StartedFirst(outs: seq<Out>, ds: seq<ToolDelta>) {
    && outs != [] && outs[0].Started?
    && exists k: nat :: NamedFirst(ds, k) && outs[0] == Started(LastId(ds[..k]), LastName(ds[..k]))
  }

  lemma StartStays(outs: seq<Out>, more: seq<Out>, ds: seq<ToolDelta>, d: ToolDelta)
    requires StartedFirst(outs, ds) && more != [] && more[0] == outs[0]
    ensures StartedFirst(more, ds + [d])
  {
    var k: nat :| NamedFirst(ds, k) && outs[0] == Started(LastId(ds[..k]), LastName(ds[..k]));
    StaysFirst(ds, d, k);
  }

  lemma StartNow(outs: seq<Out>, ds: seq<ToolDelta>, d: ToolDelta)
    requires NeverNamed(ds) && Named(ds + [d])
    requires outs != [] && outs[0] == Started(LastId(ds + [d]), LastName(ds + [d]))
    ensures StartedFirst(outs, ds + [d])
  {
    StillUnnamed(ds, d);
    assert (ds + [d])[..|ds| + 1] == ds + [d];
  }

  lemma AbsorbKnows(p: Pending, ds: seq<ToolDelta>, d: ToolDelta)
    requires p.id == LastId(ds) && p.name == LastName(ds) && p.arguments == Repaired(ArgumentsOf(ds))
    requires p.rawArguments == MergeAll(ArgumentsOf(ds))
    ensures var q, all := Absorb(p, d), ds + [d];
            && q.id == LastId(all) && q.name == LastName(all) && q.arguments == Repaired(ArgumentsOf(all))
            && q.rawArguments == MergeAll(ArgumentsOf(all)) && q.started == p.started
  {
    OneMoreDelta(ds, d);
    var all := ds + [d];
    assert all[..|all| - 1] == ds;
    if d.arguments.Some? {
      var fragments := ArgumentsOf(ds) + [d.arguments.value];
      assert fragments[..|fragments| - 1] == ArgumentsOf(ds);
    } else {
      assert ArgumentsOf(all) == ArgumentsOf(ds);
    }
  }

  lemma EmitKnows(p: Pending, outs: seq<Out>, ds: seq<ToolDelta>, d: ToolDelta, toolIndex: nat)
    requires Known(p, outs, ds)
    ensures var (q, update) := Emit(Absorb(p, d), toolIndex);
            Known(q, outs + Outs(update.start, update.delta), ds + [d])
  {
    AbsorbKnows(p, ds, d);
    StillUnnamed(ds, d);
    var (q, update) := Emit(Absorb(p, d), toolIndex);
    var more := outs + Outs(update.start, update.delta);
    if p.started {
      StartStays(outs, more, ds, d);
    } else if q.started {
      StartNow(more, ds, d);
    } else {
      assert more == [];
    }
  }

  lemma {:induction false} KnownAlways(toolIndex: nat, index: nat, ds: seq<ToolDelta>)
    ensures Known(AbsorbAll(toolIndex, index, ds).0, AbsorbAll(toolIndex, index, ds).1, ds)
  {
    if ds == [] {
      assert NeverNamed(ds);
    } else {
      var front, d := ds[..|ds| - 1], ds[|ds| - 1];
      assert ds == front + [d];
      KnownAlways(toolIndex, index, front);
      var (p, outs) := AbsorbAll(toolIndex, index, front);
      EmitKnows(p, outs, front, d, toolIndex);
    }
  }

  // ----- the whole life -----

  lemma EmptyDeltaSaysNothing(ds: seq<ToolDelta>)
    ensures var all := ds + [EMPTY_DELTA];
            && LastId(all) == LastId(ds) && LastName(all) == LastName(ds) && ArgumentsOf(all) == ArgumentsOf(ds)
            && (NeverNamed(all) <==> NeverNamed(ds))
  {
    var all := ds + [EMPTY_DELTA];
    OneMoreDelta(ds, EMPTY_DELTA);
    StillUnnamed(ds, EMPTY_DELTA);
    assert all[..|ds|] == ds && ds[..|ds|] == ds;
    assert ArgumentsOf(all) == ArgumentsOf(ds) + [];
  }

  lemma NotByTheEmptyDelta(ds: seq<ToolDelta>, k: nat)
    requires NamedFirst(ds + [EMPTY_DELTA], k)
    ensures NamedFirst(ds, k) && (ds + [EMPTY_DELTA])[..k] == ds[..k]
  {
    var all := ds + [EMPTY_DELTA];
    OneMoreDelta(ds, EMPTY_DELTA);
    assert all[..|ds|] == ds && all[..|all|] == all;
    assert Named(all[..|all|]) <==> Named(all[..|ds|]);
    assert k <= |ds|;
    forall j: nat | j < k ensures !Named(ds[..j]) {
      assert all[..j] == ds[..j];
    }
  }

  /** For every sequence of deltas of one tool call, closed by the final flush: the call is announced
      exactly unless nothing is known of it, and then as the deltas tell. */
  lemma AnnouncedByTheDeltas(toolIndex: nat, index: nat, ds: seq<ToolDelta>)
    ensures var outs := Lifetime(toolIndex, index, ds).1;
            && (outs == [] <==> Nameless(ds))
            && (outs != [] ==> outs[0].Started? && AnnouncedAs(ds, outs[0].id, outs[0].name))
  {
    var all := ds + [EMPTY_DELTA];
    KnownAlways(toolIndex, index, all);
    EmptyDeltaSaysNothing(ds);
    AbsorbAllForwards(toolIndex, index, all);
    var (p, before) := AbsorbAll(toolIndex, index, all);
    var outs := Lifetime(toolIndex, index, ds).1;
    if p.started {
      assert outs[0] == before[0];
      var k: nat :| NamedFirst(all, k) && before[0] == Started(LastId(all[..k]), LastName(all[..k]));
      NotByTheEmptyDelta(ds, k);
    } else {
      assert before == [];
    }
  }

  // ----- what the repair undoes -----

  /** Arguments as providers garble them: printed as a string, or with an empty object in front. */
  datatype Garbling = AsString | BehindEmpty

  function Garbled(text: string, garblings: seq<Garbling>): string {
    if garblings == [] then text
    else
      var inner := Garbled(text, garblings[1..]);
      if garblings[0].AsString? then EncodeLiteral(inner) else "{}" + inner
  }

  lemma {:induction false} GarbledSomething(text: string, garblings: seq<Garbling>)
    requires text != ""
    ensures Garbled(text, garblings) != ""
  {
    if garblings != [] {
      GarbledSomething(text, garblings[1..]);
    }
  }

  lemma StripOnce(s: string, previous: string)
    requires s != ""
    ensures Settle("{}" + s, previous) == Settle(s, previous)
  {
    var t := "{}" + s;
    assert t[2..] == s;
    StripsSomething(t);
    StrippedTwice(s);
    StripShortens(s);
  }

  lemma {:induction false} StrippedTwice(s: string)
    ensures StripEmptyObjects(StripEmptyObjects(s)) == StripEmptyObjects(s)
  {
    if EMPTY_OBJECT <= s && |s| > 2 {
      StrippedTwice(s[2..]);
    }
  }

  /** The repair undoes every such garbling of plain arguments, however often and in whatever order. */
  lemma {:induction false} RepairUndoes(text: string, garblings: seq<Garbling>, previous: string)
    requires Plain(text) && text != ""
    ensures Settle(Garbled(text, garblings), previous) == text
  {
    if garblings == [] {
      SettleShrinks(text, previous);
    } else {
      var inner := Garbled(text, garblings[1..]);
      GarbledSomething(text, garblings[1..]);
      RepairUndoes(text, garblings[1..], previous);
      if garblings[0].AsString? {
        LiteralComesBack(inner);
        assert !(EMPTY_OBJECT <= EncodeLiteral(inner));
      } else {
        StripOnce(inner, previous);
      }
    }
  }

  /** A quoted text that is no literal cannot be repaired: the arguments stay what they were. */
  lemma BrokenLiteralStays(s: string, previous: string)
    requires s != "" && s[0] == '"' && DecodeLiteral(s).None?
    ensures Settle(s, previous) == previous
  {}

  /** Nothing collected is nothing repaired: the arguments stay what they were. */
  lemma NothingStays(previous: string)
    ensures Normalize("", previous) == previous
  {}
}
