/** Ordering the endpoints of a pool (unigateway-core/src/routing.rs:37-65, 249-321). */
module Routing {
  import opened Common

  datatype Endpoint = Endpoint(id: string, enabled: bool, config: string)

  /** A host's opinion of an endpoint; times are numbers. */
  datatype EndpointSignal = EndpointSignal(score: Option<real>, excluded: bool, cooldownUntil: Option<real>)

  type Signals = map<string, EndpointSignal>

  // ----- the order -----

  /** No score is below every score. */
  function Score(e: Endpoint, signals: Signals): Option<real> {
    if e.id in signals then signals[e.id].score else None
  }

  predicate Below(a: Option<real>, b: Option<real>) {
    b.Some? && (a.None? || a.value < b.value)
  }

  predicate IdLess(a: string, b: string) {
    b != "" && (a == "" || a[0] < b[0] || (a[0] == b[0] && IdLess(a[1..], b[1..])))
  }

  /** `a` goes strictly before `b`: higher score, or the same and smaller id. */
  predicate Before(a: Endpoint, b: Endpoint, signals: Signals) {
    var x, y := Score(a, signals), Score(b, signals);
    Below(y, x) || (x == y && IdLess(a.id, b.id))
  }

  lemma {:induction false} IdOrder(a: string, b: string, c: string)
    ensures !IdLess(a, a)
    ensures IdLess(a, b) ==> !IdLess(b, a)
    ensures !IdLess(a, b) && !IdLess(b, a) <==> a == b
    ensures IdLess(a, b) && IdLess(b, c) ==> IdLess(a, c)
  {
    if a != "" && b != "" {
      IdOrder(a[1..], b[1..], if c != "" then c[1..] else "");
      assert a == [a[0]] + a[1..] && b == [b[0]] + b[1..];
    } else if a != "" {
      IdOrder(a[1..], "", "");
    }
  }

  lemma OrderTotal(a: Endpoint, b: Endpoint, c: Endpoint, signals: Signals)
    ensures !Before(a, a, signals)
    ensures Before(a, b, signals) ==> !Before(b, a, signals)
    ensures !Before(a, b, signals) && !Before(b, a, signals) <==> a.id == b.id
    ensures Before(a, b, signals) && Before(b, c, signals) ==> Before(a, c, signals)
    ensures !Before(b, a, signals) && !Before(c, b, signals) ==> !Before(c, a, signals)
  {
    IdOrder(a.id, b.id, c.id);
    IdOrder(b.id, c.id, a.id);
    IdOrder(a.id, c.id, b.id);
    IdOrder(c.id, b.id, a.id);
    IdOrder(c.id, a.id, b.id);
  }

  ghost predicate Sorted(list: seq<Endpoint>, signals: Signals) {
    forall i, j :: 0 <= i < j < |list| ==> !Before(list[j], list[i], signals)
  }

  /** The endpoints of one id, in order; these are the ones that tie. */
  function WithId(list: seq<Endpoint>, id: string): seq<Endpoint> {
    if list == [] then []
    else (if list[0].id == id then [list[0]] else []) + WithId(list[1..], id)
  }

  /** What a stable sort promises. */
  ghost predicate IsStableSort(sorted: seq<Endpoint>, list: seq<Endpoint>, signals: Signals) {
    && Sorted(sorted, signals)
    && multiset(sorted) == multiset(list)
    && forall id :: WithId(sorted, id) == WithId(list, id)
  }

  function Insert(e: Endpoint, sorted: seq<Endpoint>, signals: Signals): seq<Endpoint> {
    if sorted == [] then [e]
    else if Before(sorted[0], e, signals) then [sorted[0]] + Insert(e, sorted[1..], signals)
    else [e] + sorted
  }

  function StableSort(list: seq<Endpoint>, signals: Signals): seq<Endpoint> {
    if list == [] then [] else Insert(list[0], StableSort(list[1..], signals), signals)
  }

  /** Nothing in the list goes before `e`. */
  ghost predicate Leads(e: Endpoint, list: seq<Endpoint>, signals: Signals) {
    forall x <- list :: !Before(x, e, signals)
  }

  lemma SortedCons(e: Endpoint, list: seq<Endpoint>, signals: Signals)
    ensures Sorted([e] + list, signals) <==> Sorted(list, signals) && Leads(e, list, signals)
  {
    var whole := [e] + list;
    assert forall i :: 0 <= i < |list| ==> whole[i + 1] == list[i];
    if Sorted(whole, signals) {
      forall i, j | 0 <= i < j < |list| ensures !Before(list[j], list[i], signals) {
        assert !Before(whole[j + 1], whole[i + 1], signals);
      }
      forall x | x in list ensures !Before(x, e, signals) {
        var i :| 0 <= i < |list| && list[i] == x;
        assert !Before(whole[i + 1], whole[0], signals);
      }
    }
  }

  lemma {:induction false} InsertElements(e: Endpoint, sorted: seq<Endpoint>, signals: Signals)
    ensures multiset(Insert(e, sorted, signals)) == multiset{e} + multiset(sorted)
    ensures forall x <- Insert(e, sorted, signals) :: x == e || x in sorted
  {
    if sorted != [] && Before(sorted[0], e, signals) {
      InsertElements(e, sorted[1..], signals);
      assert sorted == [sorted[0]] + sorted[1..];
    }
  }

  lemma {:induction false} InsertSorted(e: Endpoint, sorted: seq<Endpoint>, signals: Signals)
    requires Sorted(sorted, signals)
    ensures Sorted(Insert(e, sorted, signals), signals)
  {
    if sorted != [] {
      var head, tail := sorted[0], sorted[1..];
      assert sorted == [head] + tail;
      SortedCons(head, tail, signals);
      OrderTotal(head, e, e, signals);
      if Before(head, e, signals) {
        InsertSorted(e, tail, signals);
        InsertElements(e, tail, signals);
        SortedCons(head, Insert(e, tail, signals), signals);
      } else {
        forall x | x in sorted ensures !Before(x, e, signals) {
          OrderTotal(e, head, x, signals);
        }
        SortedCons(e, sorted, signals);
      }
    }
  }

  lemma {:induction false} InsertStable(e: Endpoint, sorted: seq<Endpoint>, signals: Signals, id: string)
    ensures WithId(Insert(e, sorted, signals), id) == (if e.id == id then [e] else []) + WithId(sorted, id)
  {
    WithIdCons(e, sorted, id);
    if sorted != [] && Before(sorted[0], e, signals) {
      var head, tail := sorted[0], sorted[1..];
      InsertStable(e, tail, signals, id);
      OrderTotal(head, e, e, signals);
      WithIdCons(head, tail, id);
      WithIdCons(head, Insert(e, tail, signals), id);
      assert sorted == [head] + tail;
      assert head.id != e.id;
    }
  }

  lemma WithIdCons(e: Endpoint, list: seq<Endpoint>, id: string)
    ensures WithId([e] + list, id) == (if e.id == id then [e] else []) + WithId(list, id)
  {
    assert ([e] + list)[1..] == list;
  }

  lemma {:induction false} StableSortSound(list: seq<Endpoint>, signals: Signals)
    ensures IsStableSort(StableSort(list, signals), list, signals)
  {
    if list != [] {
      var rest := StableSort(list[1..], signals);
      StableSortSound(list[1..], signals);
      InsertSorted(list[0], rest, signals);
      InsertElements(list[0], rest, signals);
      assert list == [list[0]] + list[1..];
      forall id ensures WithId(StableSort(list, signals), id) == WithId(list, id) {
        InsertStable(list[0], rest, signals, id);
      }
    }
  }

  /** A stable sort leaves no choice, so it does not matter which algorithm does it. */
  lemma {:induction false} StableSortUnique(a: seq<Endpoint>, b: seq<Endpoint>, signals: Signals)
    requires Sorted(a, signals) && Sorted(b, signals)
    requires multiset(a) == multiset(b)
    requires forall id :: WithId(a, id) == WithId(b, id)
    ensures a == b
  {
    if a == [] {
      assert |multiset(b)| == 0;
    } else {
      SameFirst(a, b, signals);
      assert a == [a[0]] + a[1..] && b == [b[0]] + b[1..];
      SortedCons(a[0], a[1..], signals);
      SortedCons(b[0], b[1..], signals);
      forall id ensures WithId(a[1..], id) == WithId(b[1..], id) {
        RestWithId(a, id);
        RestWithId(b, id);
      }
      RestElements(a);
      RestElements(b);
      StableSortUnique(a[1..], b[1..], signals);
    }
  }

  lemma RestElements(list: seq<Endpoint>)
    requires list != []
    ensures multiset(list[1..]) == multiset(list) - multiset{list[0]}
  {
    assert list == [list[0]] + list[1..];
  }

  lemma SameFirst(a: seq<Endpoint>, b: seq<Endpoint>, signals: Signals)
    requires a != [] && Sorted(a, signals) && Sorted(b, signals)
    requires multiset(a) == multiset(b)
    requires forall id :: WithId(a, id) == WithId(b, id)
    ensures b != [] && a[0] == b[0]
  {
    assert a[0] in multiset(b) by { assert a[0] in multiset(a); }
    assert b[0] in multiset(a) by { assert b[0] in multiset(b); }
    SameFirstId(a, b, signals);
    FirstWithId(a);
    FirstWithId(b);
  }

  lemma FirstWithId(list: seq<Endpoint>)
    requires list != []
    ensures WithId(list, list[0].id) != [] && WithId(list, list[0].id)[0] == list[0]
  {}

  lemma RestWithId(list: seq<Endpoint>, id: string)
    requires list != []
    ensures WithId(list[1..], id) == if list[0].id == id then WithId(list, id)[1..] else WithId(list, id)
  {
    assert [] + WithId(list[1..], id) == WithId(list[1..], id);
  }

  lemma SameFirstId(a: seq<Endpoint>, b: seq<Endpoint>, signals: Signals)
    requires a != [] && b != [] && Sorted(a, signals) && Sorted(b, signals)
    requires a[0] in multiset(b) && b[0] in multiset(a)
    ensures a[0].id == b[0].id
  {
    var i :| 0 <= i < |b| && b[i] == a[0];
    var j :| 0 <= j < |a| && a[j] == b[0];
    OrderTotal(a[0], b[0], b[0], signals);
    assert i > 0 ==> !Before(b[i], b[0], signals);
    assert j > 0 ==> !Before(a[j], a[0], signals);
  }

  // ----- feedback -----

  predicate ShouldSuppress(signals: Signals, id: string, now: real) {
    id in signals
    && (signals[id].excluded || (signals[id].cooldownUntil.Some? && signals[id].cooldownUntil.value > now))
  }

  function Enabled(endpoints: seq<Endpoint>): seq<Endpoint> {
    if endpoints == [] then []
    else Enabled(endpoints[..|endpoints| - 1]) + if endpoints[|endpoints| - 1].enabled
      then [endpoints[|endpoints| - 1]] else []
  }

  /** Those of a list that are suppressed, or not. */
  function Side(list: seq<Endpoint>, signals: Signals, now: real, suppressed: bool): seq<Endpoint> {
    if list == [] then []
    else
      var last := list[|list| - 1];
      Side(list[..|list| - 1], signals, now, suppressed)
      + if ShouldSuppress(signals, last.id, now) == suppressed then [last] else []
  }

  method ApplyRoutingFeedback(endpoints: seq<Endpoint>, feedback: Option<Signals>, now: real)
    returns (ordered: seq<Endpoint>)
    ensures ordered == WithFeedback(endpoints, feedback, now)
  {
    if feedback.None? || feedback.value == map[] { return endpoints; }
    var signals := feedback.value;
    var active, suppressed := [], [];
    for i := 0 to |endpoints|
      invariant active == Side(endpoints[..i], signals, now, false)
      invariant suppressed == Side(endpoints[..i], signals, now, true)
    {
      assert endpoints[..i + 1][..i] == endpoints[..i];
      if ShouldSuppress(signals, endpoints[i].id, now) {
        suppressed := suppressed + [endpoints[i]];
      } else {
        active := active + [endpoints[i]];
      }
    }
    assert endpoints[..|endpoints|] == endpoints;
    active, suppressed := StableSort(active, signals), StableSort(suppressed, signals);
    ordered := if active == [] then suppressed else active + suppressed;
  }

  function WithFeedback(endpoints: seq<Endpoint>, feedback: Option<Signals>, now: real): seq<Endpoint> {
    match feedback
    case None => endpoints
    case Some(signals) =>
      if signals == map[] then endpoints
      else
        var active := StableSort(Side(endpoints, signals, now, false), signals);
        var suppressed := StableSort(Side(endpoints, signals, now, true), signals);
        if active == [] then suppressed else active + suppressed
  }

  lemma {:induction false} SidesPartition(list: seq<Endpoint>, signals: Signals, now: real)
    ensures multiset(Side(list, signals, now, false)) + multiset(Side(list, signals, now, true)) == multiset(list)
  {
    if list != [] {
      SidesPartition(list[..|list| - 1], signals, now);
      assert list == list[..|list| - 1] + [list[|list| - 1]];
    }
  }

  lemma {:induction false} SideMembers(list: seq<Endpoint>, signals: Signals, now: real, suppressed: bool)
    ensures forall e <- Side(list, signals, now, suppressed) :: ShouldSuppress(signals, e.id, now) == suppressed
  {
    if list != [] {
      SideMembers(list[..|list| - 1], signals, now, suppressed);
    }
  }

  /** Feedback loses and invents no endpoint. Those not suppressed come first, the others last, and
      either group is sorted by score, highest first, then by id. */
  lemma {:induction false} FeedbackReorders(endpoints: seq<Endpoint>, signals: Signals, now: real) returns (active: nat)
    ensures var ordered := WithFeedback(Enabled(endpoints), Some(signals), now);
            && multiset(ordered) == multiset(Enabled(endpoints))
            && (signals != map[] ==>
                  && active <= |ordered|
                  && Sorted(ordered[..active], signals) && Sorted(ordered[active..], signals)
                  && (forall i :: 0 <= i < active ==> !ShouldSuppress(signals, ordered[i].id, now))
                  && (forall i :: active <= i < |ordered| ==> ShouldSuppress(signals, ordered[i].id, now)))
  {
    var list := Enabled(endpoints);
    var up, down := Side(list, signals, now, false), Side(list, signals, now, true);
    SidesPartition(list, signals, now);
    SideMembers(list, signals, now, false);
    SideMembers(list, signals, now, true);
    SortedSide(up, signals, now, false);
    SortedSide(down, signals, now, true);
    var first, second := StableSort(up, signals), StableSort(down, signals);
    active := |first|;
    assert first == [] ==> first + second == second;
    var ordered := first + second;
    assert ordered[..active] == first && ordered[active..] == second;
    if signals != map[] {
      assert WithFeedback(list, Some(signals), now) == ordered;
    }
  }

  lemma SortedSide(side: seq<Endpoint>, signals: Signals, now: real, suppressed: bool)
    requires forall e <- side :: ShouldSuppress(signals, e.id, now) == suppressed
    ensures var sorted := StableSort(side, signals);
            && Sorted(sorted, signals) && multiset(sorted) == multiset(side)
            && forall i :: 0 <= i < |sorted| ==> ShouldSuppress(signals, sorted[i].id, now) == suppressed
  {
    StableSortSound(side, signals);
    var sorted := StableSort(side, signals);
    forall i | 0 <= i < |sorted| ensures sorted[i] in side {
      assert sorted[i] in multiset(sorted);
    }
  }

  // ----- feedback in scores, ids and times -----

  /** `a` ends where `b` goes on, or they first differ in a smaller character. */
  ghost predicate Alphabetical(a: string, b: string) {
    a < b || exists k: nat :: k < |a| && k < |b| && a[..k] == b[..k] && a[k] < b[k]
  }

  lemma {:induction false} IdLessIff(a: string, b: string)
    ensures IdLess(a, b) <==> Alphabetical(a, b)
  {
    if a != "" && b != "" && a[0] == b[0] {
      var x, y := a[1..], b[1..];
      IdLessIff(x, y);
      assert a == [a[0]] + x && b == [a[0]] + y;
      assert a < b <==> x < y;
      if k: nat :| k < |x| && k < |y| && x[..k] == y[..k] && x[k] < y[k] {
        assert a[..k + 1] == [a[0]] + x[..k] && b[..k + 1] == [a[0]] + y[..k];
        assert a[k + 1] < b[k + 1];
      }
      if k: nat :| k < |a| && k < |b| && a[..k] == b[..k] && a[k] < b[k] {
        assert k > 0;
        assert x[..k - 1] == a[..k][1..] && y[..k - 1] == b[..k][1..];
        assert x[k - 1] < y[k - 1];
      }
    } else if a != "" && b != "" {
      assert a[..0] == b[..0];
      if k: nat :| k < |a| && k < |b| && a[..k] == b[..k] && a[k] < b[k] {
        assert k > 0 ==> a[..k][0] == b[..k][0];
      }
    }
  }

  /** Excluded, or not yet cooled down. */
  predicate Resting(signals: Signals, id: string, now: real) {
    id in signals &&
    var s := signals[id];
    s.excluded || match s.cooldownUntil case Some(deadline) => now < deadline case None => false
  }

  /** The score is no lower; having none is lowest. */
  predicate NoLower(signals: Signals, a: string, b: string) {
    !(b in signals && signals[b].score.Some?)
    || (a in signals && signals[a].score.Some? && signals[a].score.value >= signals[b].score.value)
  }

  /** Of two endpoints, the one that comes first does not rest unless the other does too; and if both or
      neither rest it has the higher score, or the same and an id that is not behind the other's. */
  lemma FeedbackTold(endpoints: seq<Endpoint>, signals: Signals, now: real, i: nat, j: nat)
    requires signals != map[]
    requires i < j < |WithFeedback(Enabled(endpoints), Some(signals), now)|
    ensures var ordered := WithFeedback(Enabled(endpoints), Some(signals), now);
            var a, b := ordered[i].id, ordered[j].id;
            && (Resting(signals, a, now) ==> Resting(signals, b, now))
            && (Resting(signals, a, now) == Resting(signals, b, now) ==>
                  NoLower(signals, a, b) && (NoLower(signals, b, a) ==> !Alphabetical(b, a)))
  {
    var ordered := WithFeedback(Enabled(endpoints), Some(signals), now);
    var active := FeedbackReorders(endpoints, signals, now);
    IdLessIff(ordered[j].id, ordered[i].id);
    if j < active {
      assert ordered[..active][i] == ordered[i] && ordered[..active][j] == ordered[j];
    } else if i >= active {
      assert ordered[active..][i - active] == ordered[i] && ordered[active..][j - active] == ordered[j];
    }
  }

  /** Without feedback the enabled endpoints stay as they are. */
  lemma NoFeedback(endpoints: seq<Endpoint>, now: real)
    ensures WithFeedback(endpoints, None, now) == endpoints == WithFeedback(endpoints, Some(map[]), now)
  {}

  lemma {:induction false} EnabledOnes(endpoints: seq<Endpoint>, e: Endpoint)
    ensures multiset(Enabled(endpoints))[e] == if e.enabled then multiset(endpoints)[e] else 0
  {
    if endpoints != [] {
      EnabledOnes(endpoints[..|endpoints| - 1], e);
      assert endpoints == endpoints[..|endpoints| - 1] + [endpoints[|endpoints| - 1]];
    }
  }
}
