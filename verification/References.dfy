/** References to history messages: no two ids are written alike as JSON text
    (domain/history/source.py, domain/context/compiler.py). */
module References {
  import opened Basics
  import opened Rendering

  // ---- escapes -----------------------------------------------------------

  lemma DigitApart(a: nat, b: nat)
    requires a < 16 && b < 16 && "0123456789abcdef"[a] == "0123456789abcdef"[b]
    ensures a == b
  {
    var digits := "0123456789abcdef";
    assert forall i: nat, j: nat | i < j < 16 :: digits[i] != digits[j];
  }

  lemma SixteenTwice(n: nat)
    ensures n == 0x10 * (n / 0x10) + n % 0x10 && n / 0x10 / 0x10 == n / 0x100
  {
    var q := n / 0x10;
    assert n == 0x100 * (q / 0x10) + (0x10 * (q % 0x10) + n % 0x10);
    Quotient(n, q / 0x10, 0x10 * (q % 0x10) + n % 0x10);
  }

  lemma Quotient(n: nat, q: nat, r: nat)
    requires n == 0x100 * q + r && r < 0x100
    ensures n / 0x100 == q
  {}

  lemma SixteenMore(n: nat)
    ensures n / 0x100 == 0x10 * (n / 0x1000) + n / 0x100 % 0x10
  {
    SixteenTwice(n / 0x10);
    SixteenTwice(n);
    assert n / 0x10 / 0x100 == n / 0x1000;
  }

  lemma DigitsOf(n: nat)
    requires n < 0x10000
    ensures n == 0x1000 * (n / 0x1000) + 0x100 * (n / 0x100 % 0x10) + 0x10 * (n / 0x10 % 0x10) + n % 0x10
  {
    SixteenTwice(n);
    SixteenMore(n);
  }

  lemma HexApart(m: nat, n: nat)
    requires m < 0x10000 && n < 0x10000 && Hex(m) == Hex(n)
    ensures m == n
  {
    DigitsOf(m);
    DigitsOf(n);
    assert Hex(m)[0] == Hex(n)[0] && Hex(m)[1] == Hex(n)[1] && Hex(m)[2] == Hex(n)[2] && Hex(m)[3] == Hex(n)[3];
    DigitApart(m / 0x1000, n / 0x1000);
    DigitApart(m / 0x100 % 0x10, n / 0x100 % 0x10);
    DigitApart(m / 0x10 % 0x10, n / 0x10 % 0x10);
    DigitApart(m % 0x10, n % 0x10);
  }

  function Escaped(c: char, ascii: bool): string { if ascii then EscapeAscii(c) else Escape(c) }

  /** The text of a `\u` escape. */
  function Unicode(n: nat): string
    requires n < 0x10000
  {
    "\\u" + Hex(n)
  }

  predicate IsPlain(c: char, ascii: bool) {
    c != '"' && c != '\\' && 0x20 <= c as int && (ascii ==> c as int < 0x7f)
  }

  /** The characters with an escape of two characters. */
  predicate IsShort(c: char) {
    c == '"' || c == '\\' || c == '\n' || c == '\r' || c == '\t' || c as int == 8 || c as int == 12
  }

  predicate IsAstral(c: char, ascii: bool) { ascii && c as int >= 0x10000 }

  lemma PlainForm(c: char, ascii: bool)
    requires IsPlain(c, ascii)
    ensures Escaped(c, ascii) == [c] && c != '\\'
  {}

  lemma ShortForm(c: char, ascii: bool)
    requires IsShort(c)
    ensures |Escaped(c, ascii)| == 2 && Escaped(c, ascii)[0] == '\\' && Escaped(c, ascii)[1] != 'u'
  {}

  lemma AstralForm(c: char, ascii: bool)
    requires IsAstral(c, ascii)
    ensures
      var v := c as int - 0x10000;
      && 0 <= v / 0x400 < 0x400
      && Escaped(c, ascii) == Unicode(0xd800 + v / 0x400) + Unicode(0xdc00 + v % 0x400)
  {
    var v := c as int - 0x10000;
    HighPart(v);
    Assoc(Unicode(0xd800 + v / 0x400), "\\u", Hex(0xdc00 + v % 0x400));
  }

  lemma HighPart(v: nat)
    requires v < 0x100000
    ensures v / 0x400 < 0x400 && v / 0x400 % 0x400 == v / 0x400
  {}

  lemma UnicodeForm(c: char, ascii: bool)
    requires !IsPlain(c, ascii) && !IsShort(c) && !IsAstral(c, ascii)
    ensures c as int < 0x10000 && Escaped(c, ascii) == Unicode(c as int)
  {}

  /** What follows the first of two texts that begin alike. */
  lemma BeginAlike(a: string, x: string, b: string, y: string)
    requires a + x == b + y
    ensures |a| > 0 && |b| > 0 ==> a[0] == b[0]
    ensures |a| > 1 && |b| > 1 ==> a[1] == b[1]
    ensures |a| == |b| ==> a == b && x == y
  {
    var s := a + x;
    assert |a| > 0 && |b| > 0 ==> s[0] == a[0] && (b + y)[0] == b[0];
    assert |a| > 1 && |b| > 1 ==> s[1] == a[1] && (b + y)[1] == b[1];
    if |a| == |b| {
      assert s[..|a|] == a && (b + y)[..|b|] == b && s[|a|..] == x && (b + y)[|b|..] == y;
    }
  }

  lemma ShortApart(c: char, d: char, ascii: bool)
    requires IsShort(c) && IsShort(d) && Escaped(c, ascii)[1..] == Escaped(d, ascii)[1..]
    ensures c == d
  {
    assert Escaped(c, ascii)[1..][0] == Escaped(d, ascii)[1..][0];
  }

  lemma UnicodeApart(m: nat, x: string, n: nat, y: string)
    requires m < 0x10000 && n < 0x10000 && Unicode(m) + x == Unicode(n) + y
    ensures m == n && x == y
  {
    BeginAlike(Unicode(m), x, Unicode(n), y);
    assert Unicode(m)[2..] == Hex(m) && Unicode(n)[2..] == Hex(n);
    HexApart(m, n);
  }

  /** The first `\u` escape of a character that has one, and what follows it. */
  lemma FirstUnicode(c: char, ascii: bool, x: string) returns (n: nat, rest: string)
    requires !IsPlain(c, ascii) && !IsShort(c)
    ensures n < 0x10000 && Escaped(c, ascii) + x == Unicode(n) + rest
    ensures if IsAstral(c, ascii) then n == 0xd800 + (c as int - 0x10000) / 0x400 && 0xd800 <= n < 0xdc00
            else n == c as int && rest == x
    ensures IsAstral(c, ascii) ==> rest == Unicode(0xdc00 + (c as int - 0x10000) % 0x400) + x
  {
    if IsAstral(c, ascii) {
      var v := c as int - 0x10000;
      AstralForm(c, ascii);
      n, rest := 0xd800 + v / 0x400, Unicode(0xdc00 + v % 0x400) + x;
      assert Escaped(c, ascii) + x == Unicode(n) + rest;
    } else {
      UnicodeForm(c, ascii);
      n, rest := c as int, x;
    }
  }

  lemma NoSurrogates(c: char)
    ensures c as int < 0xd800 || c as int >= 0xe000
  {}

  lemma SplitApart(v: nat, w: nat)
    requires v / 0x400 == w / 0x400 && v % 0x400 == w % 0x400
    ensures v == w
  {}

  lemma AstralsApart(c: char, x: string, d: char, y: string)
    requires IsAstral(c, true) && IsAstral(d, true)
    requires EscapeAscii(c) + x == EscapeAscii(d) + y
    ensures c == d
  {
    var m, p := FirstUnicode(c, true, x);
    var n, q := FirstUnicode(d, true, y);
    UnicodeApart(m, p, n, q);
    UnicodeApart(0xdc00 + (c as int - 0x10000) % 0x400, x, 0xdc00 + (d as int - 0x10000) % 0x400, y);
    SplitApart(c as int - 0x10000, d as int - 0x10000);
  }

  lemma UnicodesApart(c: char, x: string, d: char, y: string, ascii: bool)
    requires !IsPlain(c, ascii) && !IsShort(c) && !IsPlain(d, ascii) && !IsShort(d)
    requires Escaped(c, ascii) + x == Escaped(d, ascii) + y
    ensures c == d
  {
    if IsAstral(c, ascii) && IsAstral(d, ascii) {
      AstralsApart(c, x, d, y);
    } else {
      var m, p := FirstUnicode(c, ascii, x);
      var n, q := FirstUnicode(d, ascii, y);
      UnicodeApart(m, p, n, q);
      NoSurrogates(c);
      NoSurrogates(d);
    }
  }

  lemma EscapeStarts(c: char, ascii: bool)
    ensures |Escaped(c, ascii)| > 0
    ensures IsPlain(c, ascii) ==> Escaped(c, ascii)[0] == c != '\\'
    ensures !IsPlain(c, ascii) ==> |Escaped(c, ascii)| > 1 && Escaped(c, ascii)[0] == '\\'
    ensures !IsPlain(c, ascii) ==> (Escaped(c, ascii)[1] == 'u' <==> !IsShort(c))
  {
    if IsPlain(c, ascii) {
      PlainForm(c, ascii);
    } else if IsShort(c) {
      ShortForm(c, ascii);
    } else {
      var n, rest := FirstUnicode(c, ascii, "");
      assert Escaped(c, ascii) + "" == Escaped(c, ascii);
    }
  }

  /** No escape begins another: the first character is read off the text. */
  lemma EscapesApart(c: char, x: string, d: char, y: string, ascii: bool)
    requires Escaped(c, ascii) + x == Escaped(d, ascii) + y
    ensures c == d && x == y
  {
    EscapeStarts(c, ascii);
    EscapeStarts(d, ascii);
    BeginAlike(Escaped(c, ascii), x, Escaped(d, ascii), y);
    if IsShort(c) {
      ShortForm(c, ascii);
      ShortForm(d, ascii);
      ShortApart(c, d, ascii);
    } else if !IsPlain(c, ascii) {
      UnicodesApart(c, x, d, y, ascii);
    }
  }

  // ---- whole texts -------------------------------------------------------

  /** A text spelled character by character. */
  function Spelled(s: string, f: char -> string): string {
    if s == "" then "" else Spelled(s[..|s| - 1], f) + f(s[|s| - 1])
  }

  /** No character's spelling begins another's. */
  ghost predicate PrefixFree(f: char -> string) {
    forall c, d, x, y | f(c) + x == f(d) + y :: c == d && x == y
  }

  lemma SpelledSnoc(s: string, c: char, f: char -> string)
    ensures Spelled(s + [c], f) == Spelled(s, f) + f(c)
  {
    assert (s + [c])[..|s|] == s;
  }

  lemma {:induction false} SpelledFront(c: char, s: string, f: char -> string)
    ensures Spelled([c] + s, f) == f(c) + Spelled(s, f)
  {
    if s == "" {
      assert [c] + s == "" + [c];
      SpelledSnoc("", c, f);
    } else {
      var front, last := s[..|s| - 1], s[|s| - 1];
      SpelledFront(c, front, f);
      SpelledSnoc([c] + front, last, f);
      SpelledSnoc(front, last, f);
      assert [c] + s == [c] + front + [last] && s == front + [last];
      Assoc(f(c), Spelled(front, f), f(last));
    }
  }

  lemma {:induction false} SpellingsDiffer(s: string, t: string, f: char -> string)
    requires PrefixFree(f) && (forall c :: f(c) != "") && Spelled(s, f) == Spelled(t, f)
    ensures s == t
  {
    if s != "" && t != "" {
      assert s == [s[0]] + s[1..] && t == [t[0]] + t[1..];
      SpelledFront(s[0], s[1..], f);
      SpelledFront(t[0], t[1..], f);
      assert f(s[0]) + Spelled(s[1..], f) == f(t[0]) + Spelled(t[1..], f);
      SpellingsDiffer(s[1..], t[1..], f);
    }
  }

  function Speller(ascii: bool): char -> string { c => Escaped(c, ascii) }

  lemma {:induction false} EscapeIsSpelled(s: string, ascii: bool)
    ensures EscapeAll(s, ascii) == Spelled(s, Speller(ascii))
  {
    if s != "" { EscapeIsSpelled(s[..|s| - 1], ascii); }
  }

  lemma EscapesDiffer(s: string, t: string, ascii: bool)
    requires EscapeAll(s, ascii) == EscapeAll(t, ascii)
    ensures s == t
  {
    var f := Speller(ascii);
    forall c, d, x, y | f(c) + x == f(d) + y ensures c == d && x == y { EscapesApart(c, x, d, y, ascii); }
    forall c ensures f(c) != "" { EscapeStarts(c, ascii); }
    EscapeIsSpelled(s, ascii);
    EscapeIsSpelled(t, ascii);
    SpellingsDiffer(s, t, f);
  }

  /** A reference names one message: different ids are never written alike, in the block or
      in the binding. */
  lemma ReferencesDiffer(a: string, b: string, ascii: bool)
    requires Quote(a, ascii) == Quote(b, ascii)
    ensures a == b
  {
    assert Quote(a, ascii)[1..|Quote(a, ascii)| - 1] == EscapeAll(a, ascii);
    assert Quote(b, ascii)[1..|Quote(b, ascii)| - 1] == EscapeAll(b, ascii);
    EscapesDiffer(a, b, ascii);
  }
}
