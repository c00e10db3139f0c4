/** Merging argument fragments on the bytes of their UTF-8 (unigateway-core/src/conversion/tool_calls.rs:
    202-224): the overlaps tried are numbers of bytes, and a slice that cuts a character panics. */
module MergeBytes {
  import opened Common
  import opened Utf8
  import opened ToolCalls

  /** The overlaps from `k` downwards; nothing if one of them cuts a character. */
  function Overlapped(existing: seq<byte>, incoming: seq<byte>, k: nat): Option<seq<byte>>
    requires k <= |existing| && k <= |incoming|
  {
    if k == 0 then Some(existing + incoming)
    else if !Boundary(existing, |existing| - k) || !Boundary(incoming, k) then None
    else if existing[|existing| - k..] == incoming[..k] then Some(existing + incoming[k..])
    else Overlapped(existing, incoming, k - 1)
  }

  predicate BytesEndWith(s: seq<byte>, suffix: seq<byte>) {
    |suffix| <= |s| && s[|s| - |suffix|..] == suffix
  }

  function Merged(existing: seq<byte>, incoming: seq<byte>): Option<seq<byte>> {
    if incoming == [] then Some(existing)
    else if existing == [] || existing <= incoming then Some(incoming)
    else if incoming <= existing || BytesEndWith(existing, incoming) then Some(existing)
    else Overlapped(existing, incoming, Min(|existing|, |incoming|))
  }

  /** Nothing is returned when the code panics. */
  method MergeArgumentBytes(existing: seq<byte>, incoming: seq<byte>) returns (merged: Option<seq<byte>>)
    ensures merged == Merged(existing, incoming)
  {
    if incoming == [] { return Some(existing); }
    if existing == [] { return Some(incoming); }
    if existing <= incoming { return Some(incoming); }
    if incoming <= existing || BytesEndWith(existing, incoming) { return Some(existing); }
    var overlap: nat := Min(|existing|, |incoming|);
    while overlap > 0
      invariant 0 <= overlap <= |existing| && overlap <= |incoming|
      invariant Overlapped(existing, incoming, overlap) == Merged(existing, incoming)
    {
      if !Boundary(existing, |existing| - overlap) || !Boundary(incoming, overlap) { return None; }
      if existing[|existing| - overlap..] == incoming[..overlap] {
        return Some(existing + incoming[overlap..]);
      }
      overlap := overlap - 1;
    }
    merged := Some(existing + incoming);
  }

  // ----- the tests before the loop -----

  lemma SuffixEncoded(a: string, b: string)
    requires b != ""
    ensures BytesEndWith(Encode(a), Encode(b)) <==> EndsWith(a, b)
  {
    var x, y := Encode(a), Encode(b);
    CharShape(b[0]);
    if BytesEndWith(x, y) {
      var k := |x| - |y|;
      assert x[k] == x[k..][0] == y[0];
      var i := CutBetween(a, k);
      EncodeTellsApart(a[i..], b);
    }
    if EndsWith(a, b) {
      CutEncoded(a, |a| - |b|);
    }
  }

  /** The loop is reached. */
  predicate Compared(a: string, b: string) {
    a != "" && b != "" && !(a <= b) && !(b <= a) && !EndsWith(a, b)
  }

  lemma ComparedEncoded(a: string, b: string)
    ensures !Compared(a, b) ==> Merged(Encode(a), Encode(b)) == Some(Encode(Merge(a, b)))
    ensures Compared(a, b) ==>
              Merged(Encode(a), Encode(b)) == Overlapped(Encode(a), Encode(b), Min(|Encode(a)|, |Encode(b)|))
  {
    EncodedPrefix(a, b);
    EncodedPrefix(b, a);
    if b != "" {
      SuffixEncoded(a, b);
    }
  }

  // ----- the loop -----

  /** Comparing `k` bytes cuts a character. */
  predicate CutAt(x: seq<byte>, y: seq<byte>, k: nat)
    requires k <= |x| && k <= |y|
  {
    !Boundary(x, |x| - k) || !Boundary(y, k)
  }

  predicate BytesOverlap(x: seq<byte>, y: seq<byte>, k: nat)
    requires k <= |x| && k <= |y|
  {
    x[|x| - k..] == y[..k]
  }

  predicate AnyCut(x: seq<byte>, y: seq<byte>, o: nat, most: nat)
    requires most <= |x| && most <= |y|
  {
    exists k: nat :: o < k <= most && CutAt(x, y, k)
  }

  /** The loop ends at `o` bytes, the longest overlap without a cut, or before that at a cut. */
  lemma {:induction false} LoopFinds(x: seq<byte>, y: seq<byte>, o: nat, k: nat)
    requires o <= k <= |x| && k <= |y| && !CutAt(x, y, o) && BytesOverlap(x, y, o)
    requires forall j: nat :: o < j <= k && BytesOverlap(x, y, j) ==> CutAt(x, y, j)
    ensures Overlapped(x, y, k) == if AnyCut(x, y, o, k) then None else Some(x + y[o..])
  {
    if k > o {
      LoopFinds(x, y, o, k - 1);
      if CutAt(x, y, k) {
        assert AnyCut(x, y, o, k) && Overlapped(x, y, k) == None;
      } else {
        assert !BytesOverlap(x, y, k);
        assert Overlapped(x, y, k) == Overlapped(x, y, k - 1);
        assert AnyCut(x, y, o, k) <==> AnyCut(x, y, o, k - 1);
      }
    } else {
      assert !AnyCut(x, y, o, o);
      assert k == 0 ==> y[0..] == y;
      assert Overlapped(x, y, k) == Some(x + y[k..]);
    }
  }

  /** The bytes of the characters that overlap. */
  function ByteOverlap(a: string, b: string): nat { |Encode(b[..LongestOverlap(a, b, Min(|a|, |b|))])| }

  /** Characters that overlap are bytes that overlap, without a cut. */
  lemma CharsAreBytes(a: string, b: string, k: nat)
    requires Overlaps(a, b, k)
    ensures var x, y, o := Encode(a), Encode(b), |Encode(b[..k])|;
            o <= |x| && o <= |y| && !CutAt(x, y, o) && BytesOverlap(x, y, o) && y[o..] == Encode(b[k..])
  {
    CutEncoded(a, |a| - k);
    CutEncoded(b, k);
  }

  lemma OverlapBytes(a: string, b: string)
    ensures var x, y, o := Encode(a), Encode(b), ByteOverlap(a, b);
            && o <= |x| && o <= |y| && !CutAt(x, y, o) && BytesOverlap(x, y, o)
            && (Compared(a, b) ==> Encode(Merge(a, b)) == x + y[o..])
  {
    var k := LongestOverlap(a, b, Min(|a|, |b|));
    CharsAreBytes(a, b, k);
    EncodeConcat(a, b[k..]);
  }

  /** Bytes that overlap without a cut are characters that overlap. */
  lemma NoLongerOverlap(a: string, b: string, k: nat)
    requires k <= |Encode(a)| && k <= |Encode(b)|
    requires !CutAt(Encode(a), Encode(b), k) && BytesOverlap(Encode(a), Encode(b), k)
    ensures k <= ByteOverlap(a, b)
  {
    var i := CutBetween(a, |Encode(a)| - k);
    var j := CutBetween(b, k);
    EncodeTellsApart(a[i..], b[..j]);
    OverlapIsShorter(a, b, i, j);
  }

  lemma OverlapIsShorter(a: string, b: string, i: nat, j: nat)
    requires i <= |a| && j <= |b| && a[i..] == b[..j]
    ensures |Encode(b[..j])| <= ByteOverlap(a, b)
  {
    assert |a[i..]| == |b[..j]|;
    assert Overlaps(a, b, j);
    Longer(b, j, LongestOverlap(a, b, Min(|a|, |b|)));
  }

  lemma Longer(b: string, j: nat, k: nat)
    requires j <= k <= |b|
    ensures |Encode(b[..j])| <= |Encode(b[..k])|
  {
    assert b[..k][..j] == b[..j];
    CutEncoded(b[..k], j);
  }

  // ----- which merges panic -----

  /** A byte outside ASCII, `k` bytes from the end of the one text or from the beginning of the other. */
  predicate Wide(x: seq<byte>, y: seq<byte>, k: nat)
    requires k < |x| && k < |y|
  {
    x[|x| - 1 - k] >= 0x80 || y[k] >= 0x80
  }

  /** There is one beyond the overlap, within the bytes that the shorter text has. */
  predicate WideBeyond(x: seq<byte>, y: seq<byte>, o: nat, most: nat)
    requires most <= |x| && most <= |y|
  {
    exists k: nat :: o <= k < most && Wide(x, y, k)
  }

  lemma CutIsWide(x: seq<byte>, y: seq<byte>, k: nat)
    requires Shaped(x) && Shaped(y) && 0 < k <= |x| && k <= |y| && CutAt(x, y, k)
    ensures Wide(x, y, k - 1)
  {
    if k < |y| {
      assert ShapedAt(y, k);
    }
  }

  lemma WideIsCut(x: seq<byte>, y: seq<byte>, o: nat, k: nat) returns (j: nat)
    requires Shaped(x) && Shaped(y) && o <= k < |x| && k < |y| && !CutAt(x, y, o) && Wide(x, y, k)
    ensures o < j <= k + 1 && j <= |x| && j <= |y| && CutAt(x, y, j)
  {
    if y[k] >= 0x80 {
      assert ShapedAt(y, k);
      j := if Continues(y[k]) then k else k + 1;
    } else {
      assert ShapedAt(x, |x| - 1 - k);
      j := if Continues(x[|x| - 1 - k]) then k + 1 else k;
    }
  }

  lemma AnyCutIff(x: seq<byte>, y: seq<byte>, o: nat, most: nat)
    requires Shaped(x) && Shaped(y) && o <= most <= |x| && most <= |y| && !CutAt(x, y, o)
    ensures AnyCut(x, y, o, most) <==> WideBeyond(x, y, o, most)
  {
    if k: nat :| o < k <= most && CutAt(x, y, k) {
      CutIsWide(x, y, k);
    }
    if k: nat :| o <= k < most && Wide(x, y, k) {
      var j := WideIsCut(x, y, o, k);
    }
  }

  /** The loop is reached, and some byte beyond the overlap is outside ASCII. */
  predicate Cuts(a: string, b: string) {
    Compared(a, b) && WideBeyond(Encode(a), Encode(b), ByteOverlap(a, b), Min(|Encode(a)|, |Encode(b)|))
  }

  /** On texts, merging panics exactly if it cuts a character, and otherwise gives the merged text. */
  lemma MergePanicsIff(a: string, b: string)
    ensures Merged(Encode(a), Encode(b)) == if Cuts(a, b) then None else Some(Encode(Merge(a, b)))
  {
    ComparedEncoded(a, b);
    if Compared(a, b) {
      LoopOnTexts(a, b);
    }
  }

  lemma LoopOnTexts(a: string, b: string)
    requires Compared(a, b)
    ensures Overlapped(Encode(a), Encode(b), Min(|Encode(a)|, |Encode(b)|))
            == if Cuts(a, b) then None else Some(Encode(Merge(a, b)))
  {
    var x, y, o := Encode(a), Encode(b), ByteOverlap(a, b);
    var most := Min(|x|, |y|);
    OverlapBytes(a, b);
    EncodedIsShaped(a);
    EncodedIsShaped(b);
    forall j: nat | o < j <= most && BytesOverlap(x, y, j) ensures CutAt(x, y, j) {
      if !CutAt(x, y, j) {
        NoLongerOverlap(a, b, j);
        assert false;
      }
    }
    LoopFinds(x, y, o, most);
    AnyCutIff(x, y, o, most);
  }

  // ----- all fragments -----

  /** What is collected from the fragments; nothing if a merge panics. */
  function Collected(fragments: seq<string>): Option<seq<byte>> {
    if fragments == [] then Some([])
    else
      match Collected(fragments[..|fragments| - 1])
      case None => None
      case Some(existing) => Merged(existing, Encode(fragments[|fragments| - 1]))
  }

  /** A fragment makes a merge cut a character. */
  predicate CutsAt(fragments: seq<string>, k: nat)
    requires k < |fragments|
  {
    Cuts(MergeAll(fragments[..k]), fragments[k])
  }

  predicate AnyCuts(fragments: seq<string>) {
    exists k: nat :: k < |fragments| && CutsAt(fragments, k)
  }

  lemma AnyCutsMore(front: seq<string>, last: string)
    ensures AnyCuts(front + [last]) <==> AnyCuts(front) || Cuts(MergeAll(front), last)
  {
    var all := front + [last];
    forall k: nat | k <= |front| ensures all[..k] == front[..k] {}
    assert all[..|front|] == front && CutsAt(all, |front|) == Cuts(MergeAll(front), last);
    if k: nat :| k < |front| && CutsAt(front, k) {
      assert CutsAt(all, k);
    }
    if k: nat :| k < |all| && CutsAt(all, k) {
      assert k < |front| ==> CutsAt(front, k);
    }
  }

  /** For all fragments: the merged text is collected, exactly unless a fragment makes a merge cut a
      character. */
  lemma {:induction false} CollectedIff(fragments: seq<string>)
    ensures Collected(fragments) ==
            if AnyCuts(fragments) then None else Some(Encode(MergeAll(fragments)))
  {
    if fragments != [] {
      var n := |fragments| - 1;
      var front := fragments[..n];
      assert fragments == front + [fragments[n]];
      CollectedIff(front);
      AnyCutsMore(front, fragments[n]);
      MergePanicsIff(MergeAll(front), fragments[n]);
    }
  }

  predicate Ascii(s: string) { forall c <- s :: c as int < 0x80 }

  lemma {:induction false} AsciiBytes(s: string)
    requires Ascii(s)
    ensures forall k: nat :: k < |Encode(s)| ==> Encode(s)[k] < 0x80
  {
    if s != "" {
      assert forall c <- s[1..] :: c in s;
      assert s[0] in s;
      AsciiBytes(s[1..]);
      assert Encode(s) == [s[0] as int] + Encode(s[1..]);
    }
  }

  /** ASCII never panics. */
  lemma AsciiNeverCuts(a: string, b: string)
    requires Ascii(a) && Ascii(b)
    ensures !Cuts(a, b)
  {
    AsciiBytes(a);
    AsciiBytes(b);
  }

  /** The two bytes of a u with umlaut, and one more letter. */
  lemma UmlautPanics()
    ensures Merged(Encode("\U{FC}"), Encode("r")) == None
  {
    assert Encode("\U{FC}") == EncodeChar('\U{FC}') + Encode("\U{FC}"[1..]) == [0xC3, 0xBC];
    assert Encode("r") == EncodeChar('r') + Encode("r"[1..]) == [114];
  }
}
