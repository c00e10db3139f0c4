/** Option and Result, and the few sequence helpers that several components share. */
module Common {

  datatype Option<+T> = None | Some(value: T) {
    function GetOr(default: T): T {
      match this
      case Some(v) => v
      case None => default
    }
  }

  datatype Result<+T, +E> = Ok(value: T) | Err(error: E)

  function Min(a: nat, b: nat): nat { if a <= b then a else b }

  function Max(a: nat, b: nat): nat { if a >= b then a else b }

  /** The pieces glued together in order. */
  function Flatten<T>(pieces: seq<seq<T>>): (whole: seq<T>) {
    if pieces == [] then [] else pieces[0] + Flatten(pieces[1..])
  }

  lemma Assoc<T>(a: seq<T>, b: seq<T>, c: seq<T>)
    ensures (a + b) + c == a + (b + c)
  {}

  lemma {:induction false} FlattenAppend<T>(pieces: seq<seq<T>>, last: seq<T>)
    ensures Flatten(pieces + [last]) == Flatten(pieces) + last
  {
    if pieces == [] {
      assert [last][1..] == [];
      assert Flatten([last]) == last + [] == last;
    } else {
      FlattenAppend(pieces[1..], last);
      assert (pieces + [last])[1..] == pieces[1..] + [last];
      Assoc(pieces[0], Flatten(pieces[1..]), last);
    }
  }

  lemma {:induction false} FlattenConcat<T>(left: seq<seq<T>>, right: seq<seq<T>>)
    ensures Flatten(left + right) == Flatten(left) + Flatten(right)
  {
    if left == [] {
      assert left + right == right;
    } else {
      FlattenConcat(left[1..], right);
      assert (left + right)[1..] == left[1..] + right;
      Assoc(left[0], Flatten(left[1..]), Flatten(right));
    }
  }

  /** The smallest element of a non-empty set. */
  function Least(s: set<nat>): (m: nat)
    requires s != {}
    ensures m in s && forall k | k in s :: m <= k
  {
    LeastExists(s);
    var m :| m in s && forall k | k in s :: m <= k;
    m
  }

  lemma {:induction false} LeastExists(s: set<nat>)
    requires s != {}
    ensures exists m :: m in s && forall k | k in s :: m <= k
  {
    var x :| x in s;
    var rest := s - {x};
    if rest == {} {
      assert x in s && forall k | k in s :: x <= k by {
        assert forall k | k in s :: k == x || k in rest;
      }
    } else {
      LeastExists(rest);
      var m :| m in rest && forall k | k in rest :: m <= k;
      assert forall k | k in s :: k == x || k in rest;
      LeastWith(s, x, m);
    }
  }

  lemma LeastWith(s: set<nat>, x: nat, m: nat)
    requires x in s && m in s && forall k | k in s :: k == x || m <= k
    ensures exists b :: b in s && forall k | k in s :: b <= k
  {
    var b := if x <= m then x else m;
    assert b in s && forall k | k in s :: b <= k;
  }

  /** The elements of a set in ascending order. */
  function Ascending(s: set<nat>): seq<nat>
    decreases |s|
  {
    if s == {} then [] else [Least(s)] + Ascending(s - {Least(s)})
  }

  lemma {:induction false} AscendingSound(s: set<nat>)
    ensures forall k :: k in Ascending(s) <==> k in s
    ensures forall i, j :: 0 <= i < j < |Ascending(s)| ==> Ascending(s)[i] < Ascending(s)[j]
    decreases |s|
  {
    if s != {} {
      var m := Least(s);
      var rest := Ascending(s - {m});
      AscendingSound(s - {m});
      assert Ascending(s) == [m] + rest;
      forall k ensures k in Ascending(s) <==> k in s {
        assert k in [m] + rest <==> k == m || k in rest;
      }
      forall i | 0 <= i < |rest| ensures m < rest[i] {
        assert rest[i] in rest;
      }
    }
  }

  /** Quotient and remainder are what they have to be. */
  lemma DividedAs(x: nat, d: nat, q: nat, r: nat)
    requires x == d * q + r && r < d
    ensures x / d == q && x % d == r
  {
    var e := x / d - q;
    assert d * e == r - x % d by {
      assert d * (x / d) + x % d == x;
      assert d * e == d * (x / d) - d * q;
    }
    if e >= 1 { Scaled(d, e); }
    if e <= -1 { Scaled(d, -e); }
    assert d * -e == -(d * e);
  }

  lemma Scaled(d: nat, e: int)
    requires e >= 1
    ensures d * e >= d
  {}
}
