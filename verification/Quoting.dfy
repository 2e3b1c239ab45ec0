/** Go's `%q` (strconv.Quote), whose output is a double-quoted scalar in the sense of section 7.3.1 of
    YAML 1.2.2, and its inverse. */
module Quoting {
  import opened Types
  import opened Text

  // ---------------------------------------------------------------- fixed-width hexadecimal

  function HexDigit(n: nat): char
    requires n < 16
  {
    "0123456789abcdef"[n]
  }

  function HexValue(c: char): Option<nat> {
    if '0' <= c <= '9' then Some((c as int) - ('0' as int))
    else if 'a' <= c <= 'f' then Some((c as int) - ('a' as int) + 10)
    else None
  }

  function Pow16(w: nat): nat {
    if w == 0 then 1 else 16 * Pow16(w - 1)
  }

  function Hex(n: nat, w: nat): (s: string)
    ensures |s| == w
  {
    if w == 0 then "" else Hex(n / 16, w - 1) + [HexDigit(n % 16)]
  }

  function Unhex(s: string): Option<nat> {
    if s == "" then Some(0)
    else
      var high, low := Unhex(s[..|s| - 1]), HexValue(s[|s| - 1]);
      if high.Some? && low.Some? then Some(16 * high.value + low.value) else None
  }

  lemma HexDigitValue(n: nat)
    requires n < 16
    ensures HexValue(HexDigit(n)) == Some(n)
  {
  }

  lemma UnhexSnoc(s: string, c: char)
    requires Unhex(s).Some? && HexValue(c).Some?
    ensures Unhex(s + [c]) == Some(16 * Unhex(s).value + HexValue(c).value)
  {
    assert (s + [c])[..|s|] == s;
  }

  lemma {:induction false} UnhexHex(n: nat, w: nat)
    requires n < Pow16(w)
    ensures Unhex(Hex(n, w)) == Some(n)
  {
    if w > 0 {
      UnhexHex(n / 16, w - 1);
      HexDigitValue(n % 16);
      UnhexSnoc(Hex(n / 16, w - 1), HexDigit(n % 16));
    }
  }

  lemma {:induction false} HexOneLine(n: nat, w: nat)
    ensures OneLine(Hex(n, w))
  {
    if w > 0 {
      HexOneLine(n / 16, w - 1);
    }
  }

  // ---------------------------------------------------------------- quoting

  /** strconv.IsPrint; the Unicode table above ASCII is a parameter. */
  predicate Printable(table: char -> bool, c: char) {
    0x20 <= c as int < 0x7f || (c as int > 0x7f && table(c))
  }

  /** Single-letter escapes. */
  function Letter(c: char): Option<char> {
    match c as int
    case 0x07 => Some('a')
    case 0x08 => Some('b')
    case 0x0c => Some('f')
    case 0x0a => Some('n')
    case 0x0d => Some('r')
    case 0x09 => Some('t')
    case 0x0b => Some('v')
    case _ => if c == '\\' || c == '\"' then Some(c) else None
  }

  function Unletter(c: char): Option<char> {
    match c
    case 'a' => Some(0x07 as char)
    case 'b' => Some(0x08 as char)
    case 'f' => Some(0x0c as char)
    case 'n' => Some(0x0a as char)
    case 'r' => Some(0x0d as char)
    case 't' => Some(0x09 as char)
    case 'v' => Some(0x0b as char)
    case _ => if c == '\\' || c == '\"' then Some(c) else None
  }

  /** The width of a numeric escape, by its letter. */
  function Width(c: char): nat {
    match c
    case 'x' => 2
    case 'u' => 4
    case 'U' => 8
    case _ => 0
  }

  function NumericLetter(c: char): char {
    if c as int < 0x80 then 'x' else if c as int < 0x1_0000 then 'u' else 'U'
  }

  function Escape(table: char -> bool, c: char): string {
    if Letter(c).Some? then ['\\', Letter(c).value]
    else if Printable(table, c) then [c]
    else ['\\', NumericLetter(c)] + Hex(c as int, Width(NumericLetter(c)))
  }

  function Body(table: char -> bool, s: string): string {
    if s == "" then "" else Escape(table, s[0]) + Body(table, s[1..])
  }

  function Quote(table: char -> bool, s: string): string {
    "\"" + Body(table, s) + "\""
  }

  // ---------------------------------------------------------------- unquoting

  predicate IsScalar(n: nat) {
    n < 0xD800 || 0xE000 <= n < 0x11_0000
  }

  /** One (possibly escaped) character off the front: the character and how much it took. */
  function Unescape(t: string): Option<(char, nat)> {
    if t == "" then None
    else if t[0] != '\\' then Some((t[0], 1))
    else if |t| < 2 then None
    else if Unletter(t[1]).Some? then Some((Unletter(t[1]).value, 2))
    else
      var w := Width(t[1]);
      if w == 0 || |t| < 2 + w then None
      else
        var n := Unhex(t[2..2 + w]);
        if n.Some? && IsScalar(n.value) then Some((n.value as char, 2 + w)) else None
  }

  function UnquoteBody(t: string): Option<string>
    decreases |t|
  {
    if t == "\"" then Some("")
    else if t == "" || t[0] == '\"' then None
    else
      var u := Unescape(t);
      if u.None? || u.value.1 == 0 || u.value.1 > |t| then None
      else
        var rest := UnquoteBody(t[u.value.1..]);
        if rest.None? then None else Some([u.value.0] + rest.value)
  }

  function Unquote(t: string): Option<string> {
    if t == "" || t[0] != '\"' then None else UnquoteBody(t[1..])
  }

  // ---------------------------------------------------------------- round trip

  lemma UnletterLetter(c: char)
    requires Letter(c).Some?
    ensures Unletter(Letter(c).value) == Some(c)
  {
  }

  /** Every character fits the numeric escape chosen for it. */
  lemma WidthFits(c: char)
    ensures c as int < Pow16(Width(NumericLetter(c))) && Width(NumericLetter(c)) > 0
    ensures Unletter(NumericLetter(c)) == None
  {
    assert Pow16(2) == 0x100 && Pow16(4) == 0x1_0000;
    assert Pow16(8) == 0x1_0000 * Pow16(4);
  }

  lemma UnescapeNumeric(x: char, n: nat, r: string)
    requires Unletter(x) == None && Width(x) > 0 && n < Pow16(Width(x)) && IsScalar(n)
    ensures Unescape(['\\', x] + Hex(n, Width(x)) + r) == Some((n as char, 2 + Width(x)))
  {
    var t := ['\\', x] + Hex(n, Width(x)) + r;
    UnhexHex(n, Width(x));
    assert t[2..2 + Width(x)] == Hex(n, Width(x));
  }

  lemma UnescapeEscape(table: char -> bool, c: char, r: string)
    ensures Unescape(Escape(table, c) + r) == Some((c, |Escape(table, c)|))
    ensures |Escape(table, c)| > 0 && Escape(table, c)[0] != '\"'
  {
    if Letter(c).Some? {
      UnletterLetter(c);
    } else if !Printable(table, c) {
      WidthFits(c);
      UnescapeNumeric(NumericLetter(c), c as int, r);
    }
  }

  lemma UnquoteOne(table: char -> bool, c: char, rest: string, s: string)
    requires rest != "" && UnquoteBody(rest) == Some(s)
    ensures UnquoteBody(Escape(table, c) + rest) == Some([c] + s)
  {
    var e := Escape(table, c);
    UnescapeEscape(table, c, rest);
    assert (e + rest)[0] == e[0] && (e + rest)[|e|..] == rest;
  }

  lemma {:induction false} UnquoteBodyBody(table: char -> bool, s: string)
    ensures UnquoteBody(Body(table, s) + "\"") == Some(s)
  {
    if s == "" {
      assert Body(table, s) + "\"" == "\"";
    } else {
      var rest := Body(table, s[1..]) + "\"";
      assert Body(table, s) + "\"" == Escape(table, s[0]) + rest;
      UnquoteBodyBody(table, s[1..]);
      UnquoteOne(table, s[0], rest, s[1..]);
      assert s == [s[0]] + s[1..];
    }
  }

  /** Unquoting gives back any string, whatever it holds. */
  lemma UnquoteQuote(table: char -> bool, s: string)
    ensures Unquote(Quote(table, s)) == Some(s)
  {
    assert Quote(table, s)[1..] == Body(table, s) + "\"";
    UnquoteBodyBody(table, s);
  }

  lemma {:induction false} BodyOneLine(table: char -> bool, s: string)
    ensures OneLine(Body(table, s))
  {
    if s != "" {
      BodyOneLine(table, s[1..]);
      HexOneLine(s[0] as int, Width(NumericLetter(s[0])));
    }
  }

  /** A quoted string never spans lines. */
  lemma QuoteOneLine(table: char -> bool, s: string)
    ensures OneLine(Quote(table, s))
  {
    BodyOneLine(table, s);
  }
}
