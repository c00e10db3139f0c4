/** Choosing the attempt order of a snapshot (unigateway-core/src/routing.rs:37-65), and the
    fairness of its round robin. */
module RoundRobin {
  import opened Common
  import opened Routing

  datatype LoadBalancing = FallbackOrder | ScoreOrdered | Random | Rotating

  datatype OrderError = NoAvailableEndpoint

  function Rotated<T>(list: seq<T>, start: nat): seq<T>
    requires start <= |list|
  {
    list[start..] + list[..start]
  }

  function Kept(maxAttempts: nat, n: nat): nat { Min(Max(maxAttempts, 1), n) }

  /** As many endpoints as attempts are allowed, but one at least, and no more than there are. */
  lemma KeptTold(maxAttempts: nat, n: nat)
    ensures Kept(maxAttempts, n) ==
            if n == 0 then 0 else if maxAttempts == 0 then 1 else if maxAttempts < n then maxAttempts else n
  {}

  /** The rotation served and the counter left behind. */
  function Served<T>(list: seq<T>, counter: nat, maxAttempts: nat): (seq<T>, nat)
    requires list != []
  {
    (Rotated(list, counter % |list|)[..Kept(maxAttempts, |list|)], (counter + 1) % |list|)
  }

  class RoundRobinCounters {
    var counters: map<string, nat>

    constructor ()
      ensures counters == map[]
    {
      counters := map[];
    }

    /** `shuffled` is the outcome of shuffling, used by the random order only. */
    method OrderedEndpoints(selectionKey: string, list: seq<Endpoint>, balancing: LoadBalancing, maxAttempts: nat,
                            shuffled: seq<Endpoint>) returns (r: Result<seq<Endpoint>, OrderError>)
      requires |shuffled| == |list| && multiset(shuffled) == multiset(list)
      modifies this
      ensures list == [] ==> r == Err(NoAvailableEndpoint) && counters == old(counters)
      ensures list != [] && balancing.Rotating? ==>
                var counter := if selectionKey in old(counters) then old(counters)[selectionKey] else 0;
                var (served, next) := Served(list, counter, maxAttempts);
                r == Ok(served) && counters == old(counters)[selectionKey := next]
      ensures list != [] && !balancing.Rotating? ==>
                counters == old(counters)
                  && r == Ok((if balancing.Random? then shuffled else list)[..Kept(maxAttempts, |list|)])
    {
      if list == [] { return Err(NoAvailableEndpoint); }
      var endpoints := list;
      match balancing {
        case Random => endpoints := shuffled;
        case Rotating =>
          var idx := if selectionKey in counters then counters[selectionKey] else 0;
          var start := idx % |endpoints|;
          endpoints := endpoints[start..] + endpoints[..start];
          counters := counters[selectionKey := (idx + 1) % |endpoints|];
        case _ =>
      }
      r := Ok(endpoints[..Kept(maxAttempts, |endpoints|)]);
    }
  }

  /** `turns` calls in a row on one list, by themselves. */
  function Turns<T>(list: seq<T>, counter: nat, maxAttempts: nat, turns: nat): (seq<seq<T>>, nat)
    requires list != []
  {
    if turns == 0 then ([], counter)
    else
      var (lists, c) := Turns(list, counter, maxAttempts, turns - 1);
      var (served, next) := Served(list, c, maxAttempts);
      (lists + [served], next)
  }

  // ----- positions -----

  /** Where the `t`-th call starts. */
  function Start(n: nat, first: nat, t: nat): nat
    requires first < n
  {
    if t == 0 then first
    else
      var s := Start(n, first, t - 1);
      if s + 1 == n then 0 else s + 1
  }

  /** Which element of the list is served at position `p`. */
  function Placed(n: nat, start: nat, p: nat): nat { if start + p < n then start + p else start + p - n }

  lemma StartInside(n: nat, first: nat, t: nat)
    requires first < n
    ensures Start(n, first, t) < n
  {}

  lemma NextTurn(c: nat, n: nat)
    requires n > 0
    ensures ((c + 1) % n) % n == if c % n + 1 == n then 0 else c % n + 1
  {
    var q, r := c / n, c % n;
    DividedAs(r, n, 0, r);
    if r + 1 == n {
      Distribute(q, n);
      DividedAs(c + 1, n, q + 1, 0);
      DividedAs(0, n, 0, 0);
    } else {
      DividedAs(c + 1, n, q, r + 1);
      DividedAs(r + 1, n, 0, r + 1);
    }
  }

  lemma Distribute(q: nat, n: nat)
    ensures (q + 1) * n == q * n + n
  {}

  /** The `t`-th call serves the list from its start on, around the end. */
  lemma {:induction false} TurnServes<T>(list: seq<T>, counter: nat, maxAttempts: nat, turns: nat, t: nat, p: nat)
    requires list != [] && t < turns && p < Kept(maxAttempts, |list|)
    ensures var n := |list|;
            var lists := Turns(list, counter, maxAttempts, turns).0;
            var e := Placed(n, Start(n, counter % n, t), p);
            && |lists| == turns && |lists[t]| == Kept(maxAttempts, n)
            && 0 <= e < n && lists[t][p] == list[e]
  {
    TurnsLength(list, counter, maxAttempts, turns - 1);
    if t < turns - 1 {
      TurnServes(list, counter, maxAttempts, turns - 1, t, p);
    } else {
      CounterAt(list, counter, maxAttempts, t);
    }
  }

  lemma {:induction false} TurnsLength<T>(list: seq<T>, counter: nat, maxAttempts: nat, turns: nat)
    requires list != []
    ensures |Turns(list, counter, maxAttempts, turns).0| == turns
  {
    if turns > 0 {
      TurnsLength(list, counter, maxAttempts, turns - 1);
    }
  }

  lemma {:induction false} CounterAt<T>(list: seq<T>, counter: nat, maxAttempts: nat, t: nat)
    requires list != []
    ensures Turns(list, counter, maxAttempts, t).1 % |list| == Start(|list|, counter % |list|, t) < |list|
  {
    if t > 0 {
      CounterAt(list, counter, maxAttempts, t - 1);
      NextTurn(Turns(list, counter, maxAttempts, t - 1).1, |list|);
    }
  }

  // ----- fairness -----

  /** In how many of the first `turns` calls element `e` is at position `p`. */
  function CountAt(n: nat, first: nat, e: nat, p: nat, turns: nat): nat
    requires first < n
  {
    if turns == 0 then 0
    else CountAt(n, first, e, p, turns - 1) + if Placed(n, Start(n, first, turns - 1), p) == e then 1 else 0
  }

  /** ... and in how many it is among the first `m`. */
  function CountWithin(n: nat, first: nat, e: nat, m: nat, turns: nat): nat
    requires first < n
  {
    if turns == 0 then 0
    else CountWithin(n, first, e, m, turns - 1) + if Within(n, Start(n, first, turns - 1), e, m) then 1 else 0
  }

  predicate Within(n: nat, start: nat, e: nat, m: nat) {
    exists p: nat :: p < m && Placed(n, start, p) == e
  }

  lemma {:induction false} StartAfter(n: nat, first: nat, t: nat)
    requires first < n && t <= n
    ensures Start(n, first, t) == Placed(n, first, t)
  {
    if t > 0 {
      StartAfter(n, first, t - 1);
    }
  }

  /** The one call of a round that serves `e` at position `p`. */
  function TurnOf(n: nat, first: nat, e: nat, p: nat): int {
    var x := e - p - first;
    if x >= 0 then x else if x + n >= 0 then x + n else x + 2 * n
  }

  lemma {:induction false} CountUpTo(n: nat, first: nat, e: nat, p: nat, turns: nat)
    requires first < n && e < n && p < n && turns <= n
    ensures 0 <= TurnOf(n, first, e, p) < n
    ensures CountAt(n, first, e, p, turns) == if TurnOf(n, first, e, p) < turns then 1 else 0
  {
    if turns > 0 {
      CountUpTo(n, first, e, p, turns - 1);
      StartAfter(n, first, turns - 1);
    }
  }

  /** In any `n` consecutive calls every endpoint is served at every position exactly once. */
  lemma EachPositionOnce(n: nat, first: nat, e: nat, p: nat)
    requires first < n && e < n && p < n
    ensures CountAt(n, first, e, p, n) == 1
  {
    CountUpTo(n, first, e, p, n);
  }

  lemma PlacedOnce(n: nat, start: nat, p: nat, q: nat)
    requires start < n && p < n && q < n && Placed(n, start, p) == Placed(n, start, q)
    ensures p == q
  {}

  lemma {:induction false} OnePositionMore(n: nat, first: nat, e: nat, m: nat, turns: nat)
    requires first < n && m < n
    ensures CountWithin(n, first, e, m + 1, turns)
            == CountWithin(n, first, e, m, turns) + CountAt(n, first, e, m, turns)
  {
    if turns > 0 {
      OnePositionMore(n, first, e, m, turns - 1);
      var s := Start(n, first, turns - 1);
      StartInside(n, first, turns - 1);
      if Within(n, s, e, m) && Placed(n, s, m) == e {
        var p: nat :| p < m && Placed(n, s, p) == e;
        PlacedOnce(n, s, p, m);
      }
      assert Within(n, s, e, m + 1) <==> Within(n, s, e, m) || Placed(n, s, m) == e;
    }
  }

  lemma {:induction false} NoneWithinNothing(n: nat, first: nat, e: nat, turns: nat)
    requires first < n
    ensures CountWithin(n, first, e, 0, turns) == 0
  {
    if turns > 0 {
      NoneWithinNothing(n, first, e, turns - 1);
    }
  }

  /** Cut to its first `m`, every endpoint is in exactly `m` of any `n` consecutive lists. */
  lemma {:induction false} TruncationIsFair(n: nat, first: nat, e: nat, m: nat)
    requires first < n && e < n && m <= n
    ensures CountWithin(n, first, e, m, n) == m
  {
    if m == 0 {
      NoneWithinNothing(n, first, e, n);
    } else {
      TruncationIsFair(n, first, e, m - 1);
      OnePositionMore(n, first, e, m - 1, n);
      EachPositionOnce(n, first, e, m - 1);
    }
  }

  lemma {:induction false} StartSplit(n: nat, first: nat, a: nat, b: nat)
    requires first < n
    ensures Start(n, first, a) < n && Start(n, first, a + b) == Start(n, Start(n, first, a), b)
  {
    StartInside(n, first, a);
    if b > 0 {
      StartSplit(n, first, a, b - 1);
    }
  }

  lemma {:induction false} CountSplit(n: nat, first: nat, e: nat, p: nat, a: nat, b: nat)
    requires first < n
    ensures Start(n, first, a) < n
    ensures CountAt(n, first, e, p, a + b) == CountAt(n, first, e, p, a) + CountAt(n, Start(n, first, a), e, p, b)
  {
    StartInside(n, first, a);
    if b > 0 {
      CountSplit(n, first, e, p, a, b - 1);
      StartSplit(n, first, a, b - 1);
    }
  }

  /** In a run of any length, how often two endpoints are the first choice differs by one at most. */
  lemma {:induction false} FirstChoicesAreFair(n: nat, first: nat, turns: nat) returns (q: nat)
    requires first < n
    ensures forall e: nat :: e < n ==> q <= CountAt(n, first, e, 0, turns) <= q + 1
    decreases turns
  {
    if turns <= n {
      q := 0;
      forall e: nat | e < n ensures CountAt(n, first, e, 0, turns) <= 1 {
        CountUpTo(n, first, e, 0, turns);
      }
    } else {
      StartAfter(n, first, n);
      var r := FirstChoicesAreFair(n, first, turns - n);
      q := r + 1;
      forall e: nat | e < n ensures CountAt(n, first, e, 0, turns) == 1 + CountAt(n, first, e, 0, turns - n) {
        CountSplit(n, first, e, 0, n, turns - n);
        EachPositionOnce(n, first, e, 0);
      }
    }
  }

  // ----- the same about the lists served -----

  /** How many of the lists have `x` at position `p`. */
  function Hits<T(==)>(lists: seq<seq<T>>, p: nat, x: T): nat {
    if lists == [] then 0
    else
      var last := lists[|lists| - 1];
      Hits(lists[..|lists| - 1], p, x) + if p < |last| && last[p] == x then 1 else 0
  }

  /** The next call adds one list, which holds what is placed at the positions kept. */
  lemma OneMoreTurn<T>(list: seq<T>, counter: nat, maxAttempts: nat, t: nat) returns (served: seq<T>)
    requires list != []
    ensures Turns(list, counter, maxAttempts, t + 1).0 == Turns(list, counter, maxAttempts, t).0 + [served]
    ensures |served| == Kept(maxAttempts, |list|)
    ensures forall p: nat :: p < |served| ==>
              var f := Placed(|list|, Start(|list|, counter % |list|, t), p);
              f < |list| && served[p] == list[f]
  {
    TurnsLength(list, counter, maxAttempts, t);
    served := Turns(list, counter, maxAttempts, t + 1).0[t];
    forall p: nat | p < |served|
      ensures var f := Placed(|list|, Start(|list|, counter % |list|, t), p); f < |list| && served[p] == list[f]
    {
      TurnServes(list, counter, maxAttempts, t + 1, t, p);
    }
  }

  lemma SameElement<T>(list: seq<T>, f: nat, e: nat)
    requires f < |list| && e < |list| && forall i, j :: 0 <= i < j < |list| ==> list[i] != list[j]
    ensures list[f] == list[e] <==> f == e
  {}

  lemma {:induction false} HitsAreCounts<T>(list: seq<T>, counter: nat, maxAttempts: nat, turns: nat, e: nat, p: nat)
    requires list != [] && e < |list| && p < Kept(maxAttempts, |list|)
    requires forall i, j :: 0 <= i < j < |list| ==> list[i] != list[j]
    ensures Hits(Turns(list, counter, maxAttempts, turns).0, p, list[e])
            == CountAt(|list|, counter % |list|, e, p, turns)
  {
    if turns > 0 {
      HitsAreCounts(list, counter, maxAttempts, turns - 1, e, p);
      var served := OneMoreTurn(list, counter, maxAttempts, turns - 1);
      OneMoreHit(Turns(list, counter, maxAttempts, turns - 1).0, served, p, list[e]);
      SameElement(list, Placed(|list|, Start(|list|, counter % |list|, turns - 1), p), e);
    }
  }

  lemma OneMoreHit<T>(lists: seq<seq<T>>, served: seq<T>, p: nat, x: T)
    requires p < |served|
    ensures Hits(lists + [served], p, x) == Hits(lists, p, x) + if served[p] == x then 1 else 0
  {
    assert (lists + [served])[..|lists|] == lists;
  }

  /** For a list without repetitions and whatever counter was found: any `n` calls in a row serve
      every endpoint exactly once at every position that truncation leaves. */
  lemma RoundIsFair<T>(list: seq<T>, counter: nat, maxAttempts: nat, e: nat, p: nat)
    requires list != [] && e < |list| && p < Kept(maxAttempts, |list|)
    requires forall i, j :: 0 <= i < j < |list| ==> list[i] != list[j]
    ensures Hits(Turns(list, counter, maxAttempts, |list|).0, p, list[e]) == 1
  {
    HitsAreCounts(list, counter, maxAttempts, |list|, e, p);
    EachPositionOnce(|list|, counter % |list|, e, p);
  }

  /** In how many of the lists `x` is. */
  function Holding<T(==)>(lists: seq<seq<T>>, x: T): nat {
    if lists == [] then 0
    else Holding(lists[..|lists| - 1], x) + if x in lists[|lists| - 1] then 1 else 0
  }

  lemma OneMoreHolding<T>(lists: seq<seq<T>>, served: seq<T>, x: T)
    ensures Holding(lists + [served], x) == Holding(lists, x) + if x in served then 1 else 0
  {
    assert (lists + [served])[..|lists|] == lists;
  }

  lemma {:induction false} HoldingIsCounted<T>(list: seq<T>, counter: nat, maxAttempts: nat, turns: nat, e: nat)
    requires list != [] && e < |list|
    requires forall i, j :: 0 <= i < j < |list| ==> list[i] != list[j]
    ensures Holding(Turns(list, counter, maxAttempts, turns).0, list[e])
            == CountWithin(|list|, counter % |list|, e, Kept(maxAttempts, |list|), turns)
  {
    if turns > 0 {
      HoldingIsCounted(list, counter, maxAttempts, turns - 1, e);
      var served := OneMoreTurn(list, counter, maxAttempts, turns - 1);
      OneMoreHolding(Turns(list, counter, maxAttempts, turns - 1).0, served, list[e]);
      ServedWithin(list, served, Start(|list|, counter % |list|, turns - 1), e);
    }
  }

  lemma ServedWithin<T>(list: seq<T>, served: seq<T>, start: nat, e: nat)
    requires e < |list| && forall i, j :: 0 <= i < j < |list| ==> list[i] != list[j]
    requires forall p: nat :: p < |served| ==>
               Placed(|list|, start, p) < |list| && served[p] == list[Placed(|list|, start, p)]
    ensures list[e] in served <==> Within(|list|, start, e, |served|)
  {
    if list[e] in served {
      var p: nat :| p < |served| && served[p] == list[e];
      assert Placed(|list|, start, p) == e;
    }
  }

  /** ... and every endpoint is in exactly as many of the lists as truncation leaves positions. */
  lemma ServiceIsFair<T>(list: seq<T>, counter: nat, maxAttempts: nat, e: nat)
    requires list != [] && e < |list|
    requires forall i, j :: 0 <= i < j < |list| ==> list[i] != list[j]
    ensures Holding(Turns(list, counter, maxAttempts, |list|).0, list[e]) == Kept(maxAttempts, |list|)
  {
    HoldingIsCounted(list, counter, maxAttempts, |list|, e);
    TruncationIsFair(|list|, counter % |list|, e, Kept(maxAttempts, |list|));
  }

  /** In a run of any length, in how many of the lists served two endpoints come first differs by one
      at most. */
  lemma FirstsServedAreFair<T>(list: seq<T>, counter: nat, maxAttempts: nat, turns: nat) returns (q: nat)
    requires list != []
    requires forall i, j :: 0 <= i < j < |list| ==> list[i] != list[j]
    ensures forall x <- list :: q <= Hits(Turns(list, counter, maxAttempts, turns).0, 0, x) <= q + 1
  {
    q := FirstChoicesAreFair(|list|, counter % |list|, turns);
    forall x | x in list ensures q <= Hits(Turns(list, counter, maxAttempts, turns).0, 0, x) <= q + 1 {
      var e: nat :| e < |list| && list[e] == x;
      HitsAreCounts(list, counter, maxAttempts, turns, e, 0);
    }
  }
}
