/** UTF-8, as strings are kept and printed. */
module Utf8 {
  import opened Common

  type byte = x: int | 0 <= x < 256

  function EncodeChar(c: char): (bytes: seq<byte>)
    ensures bytes != []
    ensures if c as int < 128 then bytes == [c as int] else forall b <- bytes :: b >= 128
  {
    var n := c as int;
    if n < 0x80 then [n]
    else if n < 0x800 then [0xC0 + n / 64, 0x80 + n % 64]
    else if n < 0x10000 then [0xE0 + n / 4096, 0x80 + n / 64 % 64, 0x80 + n % 64]
    else [0xF0 + n / 262144, 0x80 + n / 4096 % 64, 0x80 + n / 64 % 64, 0x80 + n % 64]
  }

  function Encode(s: string): seq<byte> {
    if s == "" then [] else EncodeChar(s[0]) + Encode(s[1..])
  }

  lemma {:induction false} EncodeConcat(a: string, b: string)
    ensures Encode(a + b) == Encode(a) + Encode(b)
  {
    if a == "" {
      assert a + b == b;
    } else {
      EncodeConcat(a[1..], b);
      assert (a + b)[1..] == a[1..] + b;
      Assoc(EncodeChar(a[0]), Encode(a[1..]), Encode(b));
    }
  }

  /** A character from the front of its encoding and anything behind. */
  lemma FirstCharTold(c: char, d: char, x: seq<byte>, y: seq<byte>)
    requires EncodeChar(c) + x == EncodeChar(d) + y
    ensures c == d && x == y
  {
    var a, b := EncodeChar(c) + x, EncodeChar(d) + y;
    var n, m := c as int, d as int;
    assert a[0] == EncodeChar(c)[0] && b[0] == EncodeChar(d)[0];
    assert |EncodeChar(c)| == |EncodeChar(d)|;
    assert EncodeChar(c) == a[..|EncodeChar(c)|] == b[..|EncodeChar(d)|] == EncodeChar(d);
    assert x == a[|EncodeChar(c)|..] && y == b[|EncodeChar(d)|..];
    SameDigits(n, m);
  }

  lemma SameDigits(n: nat, m: nat)
    requires n % 64 == m % 64
    requires n / 64 == m / 64 || (n / 64 % 64 == m / 64 % 64 && (n / 4096 == m / 4096 ||
             (n / 4096 % 64 == m / 4096 % 64 && n / 262144 == m / 262144)))
    ensures n == m
  {}

  /** Different strings are encoded differently, so a decoder that is right on all of them exists. */
  lemma {:induction false} EncodeTellsApart(a: string, b: string)
    requires Encode(a) == Encode(b)
    ensures a == b
  {
    if a != "" && b != "" {
      FirstCharTold(a[0], b[0], Encode(a[1..]), Encode(b[1..]));
      EncodeTellsApart(a[1..], b[1..]);
      assert a == [a[0]] + a[1..] && b == [b[0]] + b[1..];
    }
  }

  lemma {:induction false} EncodedPrefix(a: string, b: string)
    ensures Encode(a) <= Encode(b) <==> a <= b
  {
    if a == "" {
    } else if b == "" {
      assert Encode(a) != [];
    } else {
      var x, y := EncodeChar(a[0]) + Encode(a[1..]), EncodeChar(b[0]) + Encode(b[1..]);
      EncodedPrefix(a[1..], b[1..]);
      if x <= y {
        var rest := y[|x|..];
        assert y == x + rest;
        Assoc(EncodeChar(a[0]), Encode(a[1..]), rest);
        FirstCharTold(a[0], b[0], Encode(a[1..]) + rest, Encode(b[1..]));
      } else if a <= b {
        assert a[1..] <= b[1..] && a[0] == b[0];
      }
    }
  }

  // ----- where characters begin -----

  predicate Continues(x: byte) { 0x80 <= x < 0xC0 }

  /** A text may be cut at `k`. */
  predicate Boundary(b: seq<byte>, k: nat) { k == 0 || k == |b| || (k < |b| && !Continues(b[k])) }

  lemma CharShape(c: char)
    ensures var b := EncodeChar(c);
            !Continues(b[0]) && (forall k :: 0 < k < |b| ==> Continues(b[k])) && (|b| == 1 <==> b[0] < 0x80)
  {}

  /** A byte beyond ASCII either continues a character or begins one that is continued. */
  predicate ShapedAt(b: seq<byte>, k: nat)
    requires k < |b|
  {
    && (Continues(b[k]) ==> k > 0 && b[k - 1] >= 0x80)
    && (b[k] >= 0xC0 ==> k + 1 < |b| && Continues(b[k + 1]))
  }

  ghost predicate Shaped(b: seq<byte>) {
    forall k: nat :: k < |b| ==> ShapedAt(b, k)
  }

  lemma ShapedConcat(a: seq<byte>, b: seq<byte>)
    requires Shaped(a) && Shaped(b)
    ensures Shaped(a + b)
  {
    forall k: nat | k < |a + b| ensures ShapedAt(a + b, k) {
      if k < |a| {
        assert ShapedAt(a, k);
      } else {
        assert ShapedAt(b, k - |a|);
      }
    }
  }

  lemma CharIsShaped(c: char)
    ensures Shaped(EncodeChar(c))
  {
    CharShape(c);
    var b := EncodeChar(c);
    assert b[0] >= 0x80 ==> b[0] >= 0xC0 && |b| > 1;
    forall k: nat | k < |b| ensures ShapedAt(b, k) {}
  }

  lemma {:induction false} EncodedIsShaped(s: string)
    ensures Shaped(Encode(s))
  {
    if s != "" {
      CharIsShaped(s[0]);
      EncodedIsShaped(s[1..]);
      ShapedConcat(EncodeChar(s[0]), Encode(s[1..]));
    }
  }

  lemma NotInsideFirst(s: string, k: nat)
    requires s != "" && 0 < k <= |Encode(s)| && Boundary(Encode(s), k)
    ensures |EncodeChar(s[0])| <= k
    ensures Boundary(Encode(s[1..]), k - |EncodeChar(s[0])|)
  {
    var first, rest := EncodeChar(s[0]), Encode(s[1..]);
    CharShape(s[0]);
    assert Encode(s) == first + rest;
    if |first| <= k < |Encode(s)| {
      assert Encode(s)[k] == rest[k - |first|];
    }
  }

  /** Where the encoding may be cut, the text may. */
  lemma {:induction false} CutBetween(s: string, k: nat) returns (i: nat)
    requires k <= |Encode(s)| && Boundary(Encode(s), k)
    ensures i <= |s| && Encode(s[..i]) == Encode(s)[..k] && Encode(s[i..]) == Encode(s)[k..]
  {
    if k == 0 {
      i := 0;
      assert s[0..] == s;
    } else {
      NotInsideFirst(s, k);
      var j := CutBetween(s[1..], k - |EncodeChar(s[0])|);
      i := j + 1;
      assert s[..i][1..] == s[1..][..j] && s[i..] == s[1..][j..];
    }
  }

  /** ... and where the text may be cut, the encoding may. */
  lemma CutEncoded(s: string, i: nat)
    requires i <= |s|
    ensures Encode(s) == Encode(s[..i]) + Encode(s[i..])
    ensures Boundary(Encode(s), |Encode(s[..i])|)
  {
    EncodeConcat(s[..i], s[i..]);
    assert s == s[..i] + s[i..];
    if i < |s| {
      CharShape(s[i]);
      var rest := s[i..];
      assert Encode(rest) == EncodeChar(rest[0]) + Encode(rest[1..]);
      assert Encode(s)[|Encode(s[..i])|] == Encode(rest)[0] == EncodeChar(s[i])[0];
    }
  }
}
