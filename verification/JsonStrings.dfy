/** Reading and writing a text that is one JSON string literal, as serde_json does. */
module JsonStrings {
  import opened Common

  function HexDigit(c: char): Option<nat> {
    if '0' <= c <= '9' then Some(c as int - '0' as int)
    else if 'a' <= c <= 'f' then Some(c as int - 'a' as int + 10)
    else if 'A' <= c <= 'F' then Some(c as int - 'A' as int + 10)
    else None
  }

  /** The number written in the first `n` characters. */
  function Hex(s: string, n: nat): (r: Option<nat>)
    requires n <= |s|
  {
    if n == 0 then Some(0)
    else
      match (Hex(s, n - 1), HexDigit(s[n - 1]))
      case (Some(high), Some(low)) => Some(16 * high + low)
      case _ => None
  }

  /** The UTF-16 unit written as `\uXXXX` at position `at`. */
  function Unit(s: string, at: nat): Option<nat> {
    if at + 6 <= |s| && s[at] == '\\' && s[at + 1] == 'u' then Hex(s[at + 2..], 4) else None
  }

  /** The character that the escape at the start of `s` stands for, and how much of `s` it takes. */
  function Escape(s: string): (r: Option<(char, nat)>)
    requires |s| >= 2
    ensures r.Some? ==> 1 <= r.value.1 <= |s|
  {
    match s[1]
    case '"' => Some(('"', 2))
    case '\\' => Some(('\\', 2))
    case '/' => Some(('/', 2))
    case 'b' => Some((8 as char, 2))
    case 'f' => Some((12 as char, 2))
    case 'n' => Some(('\n', 2))
    case 'r' => Some(('\r', 2))
    case 't' => Some(('\t', 2))
    case 'u' =>
      (match Unit(s, 0)
       case None => None
       case Some(high) =>
         if 0xD800 <= high < 0xDC00 then
           (match Unit(s, 6)
            case None => None
            case Some(low) =>
              if 0xDC00 <= low < 0xE000 then
                Some(((0x10000 + (high - 0xD800) * 0x400 + (low - 0xDC00)) as char, 12))
              else None)
         else if high < 0xD800 || 0xE000 <= high < 0x10000 then Some((high as char, 6))
         else None)
    case _ => None
  }

  predicate IsBlank(c: char) { c == ' ' || c == '\n' || c == '\t' || c == '\r' }

  function DecodeBody(s: string): (r: Option<string>)
    ensures r.Some? ==> |r.value| < |s|
  {
    if s == "" then None
    else if s[0] == '"' then (if forall c <- s[1..] :: IsBlank(c) then Some("") else None)
    else if s[0] == '\\' then
      if |s| < 2 then None
      else
        match Escape(s)
        case None => None
        case Some((c, taken)) => Prepend(c, DecodeBody(s[taken..]))
    else if s[0] as int < 0x20 then None
    else Prepend(s[0], DecodeBody(s[1..]))
  }

  function Prepend(c: char, rest: Option<string>): Option<string> {
    match rest
    case None => None
    case Some(text) => Some([c] + text)
  }

  /** A literal is longer than what it denotes, by its quotes at least. */
  function DecodeLiteral(s: string): (r: Option<string>)
    ensures r.Some? ==> |r.value| + 2 <= |s|
  {
    if s == "" || s[0] != '"' then None else DecodeBody(s[1..])
  }

  // ----- writing literals -----

  function HexChar(d: nat): char
    requires d < 16
  {
    if d < 10 then '0' + d as char else 'a' + (d - 10) as char
  }

  /** How serde_json writes a character. */
  function Escaped(c: char): (r: string)
    ensures r != ""
  {
    match c
    case '"' => "\\\""
    case '\\' => "\\\\"
    case '\n' => "\\n"
    case '\r' => "\\r"
    case '\t' => "\\t"
    case _ =>
      if c == 8 as char then "\\b"
      else if c == 12 as char then "\\f"
      else if c as int < 0x20 then "\\u00" + [HexChar(c as int / 16), HexChar(c as int % 16)]
      else [c]
  }

  function EncodeBody(s: string): string {
    if s == "" then "\"" else Escaped(s[0]) + EncodeBody(s[1..])
  }

  function EncodeLiteral(s: string): string { "\"" + EncodeBody(s) }

  lemma ControlComesBack(c: char, rest: string)
    requires c as int < 0x20
    ensures var s := "\\u00" + [HexChar(c as int / 16), HexChar(c as int % 16)] + rest;
            Unit(s, 0) == Some(c as int)
  {
    var s := "\\u00" + [HexChar(c as int / 16), HexChar(c as int % 16)] + rest;
    var digits := s[2..];
    assert digits[0] == '0' && digits[1] == '0';
    assert digits[2] == HexChar(c as int / 16) && digits[3] == HexChar(c as int % 16);
    assert Hex(digits, 1) == Some(0);
    assert Hex(digits, 2) == Some(0);
    assert Hex(digits, 3) == Some(c as int / 16);
  }

  /** An escape that stands for `c` is read as `c`. */
  lemma EscapeComesBack(escape: string, c: char, rest: string)
    requires |escape| >= 2 && escape[0] == '\\' && Escape(escape + rest) == Some((c, |escape|))
    ensures DecodeBody(escape + rest) == Prepend(c, DecodeBody(rest))
  {
    assert (escape + rest)[|escape|..] == rest;
  }

  lemma ShortComesBack(c: char, rest: string)
    requires |Escaped(c)| == 2
    ensures Escaped(c)[0] == '\\' && Escape(Escaped(c) + rest) == Some((c, 2))
  {
    assert (Escaped(c) + rest)[1] == Escaped(c)[1];
  }

  lemma CharComesBack(c: char, rest: string)
    ensures DecodeBody(Escaped(c) + rest) == Prepend(c, DecodeBody(rest))
  {
    if |Escaped(c)| == 6 {
      ControlComesBack(c, rest);
      EscapeComesBack(Escaped(c), c, rest);
    } else if |Escaped(c)| == 2 {
      ShortComesBack(c, rest);
      EscapeComesBack(Escaped(c), c, rest);
    } else {
      assert ([c] + rest)[1..] == rest;
    }
  }

  lemma {:induction false} BodyComesBack(s: string)
    ensures DecodeBody(EncodeBody(s)) == Some(s)
  {
    if s != "" {
      BodyComesBack(s[1..]);
      CharComesBack(s[0], EncodeBody(s[1..]));
      assert [s[0]] + s[1..] == s;
    }
  }

  /** What is written as a literal is read as it was. */
  lemma LiteralComesBack(s: string)
    ensures DecodeLiteral(EncodeLiteral(s)) == Some(s)
  {
    BodyComesBack(s);
  }

  // ----- other ways of writing them -----

  function HexDigitChar(d: nat, upper: bool): char
    requires d < 16
  {
    if d < 10 then '0' + d as char else (if upper then 'A' else 'a') + (d - 10) as char
  }

  /** A UTF-16 unit as `\uXXXX`. */
  function UnitEscape(n: nat, upper: bool): string
    requires n < 0x10000
  {
    "\\u" + [HexDigitChar(n / 4096, upper), HexDigitChar(n / 256 % 16, upper),
             HexDigitChar(n / 16 % 16, upper), HexDigitChar(n % 16, upper)]
  }

  lemma DigitIsRead(d: nat, upper: bool)
    requires d < 16
    ensures HexDigit(HexDigitChar(d, upper)) == Some(d)
  {}

  lemma FourDigits(s: string, a: nat, b: nat, c: nat, d: nat)
    requires |s| >= 4 && HexDigit(s[0]) == Some(a) && HexDigit(s[1]) == Some(b)
    requires HexDigit(s[2]) == Some(c) && HexDigit(s[3]) == Some(d)
    ensures Hex(s, 4) == Some(4096 * a + 256 * b + 16 * c + d)
  {
    assert Hex(s, 1) == Some(a);
    assert Hex(s, 2) == Some(16 * a + b);
    assert Hex(s, 3) == Some(16 * (16 * a + b) + c);
  }

  lemma FourHexDigits(n: nat)
    requires n < 0x10000
    ensures n / 4096 < 16 && 4096 * (n / 4096) + 256 * (n / 256 % 16) + 16 * (n / 16 % 16) + n % 16 == n
  {}

  lemma DigitsAreRead(digits: string, n: nat, upper: bool)
    requires n < 0x10000 && |digits| >= 4 && digits[..4] == UnitEscape(n, upper)[2..]
    ensures Hex(digits, 4) == Some(n)
  {
    FourHexDigits(n);
    var d := digits[..4];
    assert digits[0] == d[0] && digits[1] == d[1] && digits[2] == d[2] && digits[3] == d[3];
    DigitIsRead(n / 4096, upper);
    DigitIsRead(n / 256 % 16, upper);
    DigitIsRead(n / 16 % 16, upper);
    DigitIsRead(n % 16, upper);
    FourDigits(digits, n / 4096, n / 256 % 16, n / 16 % 16, n % 16);
  }

  lemma UnitIsRead(s: string, at: nat, n: nat, upper: bool)
    requires n < 0x10000 && at + 6 <= |s| && s[at..at + 6] == UnitEscape(n, upper)
    ensures Unit(s, at) == Some(n)
  {
    var unit, digits := s[at..at + 6], s[at + 2..];
    assert s[at] == unit[0] && s[at + 1] == unit[1];
    assert digits[..4] == unit[2..];
    DigitsAreRead(digits, n, upper);
  }

  /** A character as `\uXXXX`, or as a pair of them. */
  function UnicodeEscape(c: char, upper: bool): string {
    var n := c as int;
    if n < 0x10000 then UnitEscape(n, upper)
    else UnitEscape(0xD800 + (n - 0x10000) / 0x400, upper) + UnitEscape(0xDC00 + (n - 0x10000) % 0x400, upper)
  }

  lemma PairIsRead(s: string, high: nat, low: nat)
    requires |s| >= 12 && s[0] == '\\' && s[1] == 'u'
    requires 0xD800 <= high < 0xDC00 && 0xDC00 <= low < 0xE000
    requires Unit(s, 0) == Some(high) && Unit(s, 6) == Some(low)
    ensures Escape(s) == Some(((0x10000 + (high - 0xD800) * 0x400 + (low - 0xDC00)) as char, 12))
  {}

  lemma UnicodeIsRead(c: char, upper: bool, rest: string)
    ensures var e := UnicodeEscape(c, upper); Escape(e + rest) == Some((c, |e|))
  {
    var n, e := c as int, UnicodeEscape(c, upper);
    var s := e + rest;
    if n < 0x10000 {
      assert s[0..6] == e;
      UnitIsRead(s, 0, n, upper);
    } else {
      var high, low := 0xD800 + (n - 0x10000) / 0x400, 0xDC00 + (n - 0x10000) % 0x400;
      assert s[0..6] == UnitEscape(high, upper) && s[6..12] == UnitEscape(low, upper);
      UnitIsRead(s, 0, high, upper);
      UnitIsRead(s, 6, low, upper);
      assert s[0] == UnitEscape(high, upper)[0] && s[1] == UnitEscape(high, upper)[1];
      PairIsRead(s, high, low);
    }
  }

  /** Every character may be written so, with digits of either case. */
  lemma UnicodeComesBack(c: char, upper: bool, rest: string)
    ensures DecodeBody(UnicodeEscape(c, upper) + rest) == Prepend(c, DecodeBody(rest))
  {
    UnicodeIsRead(c, upper, rest);
    EscapeComesBack(UnicodeEscape(c, upper), c, rest);
  }

  /** The escapes of one letter. */
  lemma LettersTold(rest: string)
    ensures Escape("\\\"" + rest) == Some(('"', 2)) && Escape("\\\\" + rest) == Some(('\\', 2))
    ensures Escape("\\/" + rest) == Some(('/', 2)) && Escape("\\b" + rest) == Some((8 as char, 2))
    ensures Escape("\\f" + rest) == Some((12 as char, 2)) && Escape("\\n" + rest) == Some(('\n', 2))
    ensures Escape("\\r" + rest) == Some(('\r', 2)) && Escape("\\t" + rest) == Some(('\t', 2))
  {}

  /** Behind the closing quote there may be JSON blanks and nothing else; control characters are no part of
      a literal. */
  lemma {:induction false} LiteralEnds(s: string, rest: string)
    ensures DecodeBody(EncodeBody(s) + rest) ==
            if forall c <- rest :: c in {' ', '\n', '\t', '\r'} then Some(s) else None
    decreases |s|
  {
    if s == "" {
      assert (EncodeBody(s) + rest)[1..] == rest;
    } else {
      LiteralEnds(s[1..], rest);
      CharComesBack(s[0], EncodeBody(s[1..]) + rest);
      Assoc(Escaped(s[0]), EncodeBody(s[1..]), rest);
      assert [s[0]] + s[1..] == s;
    }
  }

  lemma ControlRefused(c: char, rest: string)
    requires c as int < 0x20
    ensures DecodeBody([c] + rest) == None
  {}
}
