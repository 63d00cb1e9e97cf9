/**
 The three encodings of the canonical text: quoted strings, lists joined with NUL,
 and lines of three columns.  Each can be read back in one way only.
 */
module Quoting {

  // --------------------------------------------------------------------------- cuts

  function First(s: string, c: char): nat {
    if s == "" || s[0] == c then 0 else 1 + First(s[1..], c)
  }

  lemma {:induction false} FirstAfter(a: string, c: char, x: string)
    requires c !in a
    ensures First(a + ([c] + x), c) == |a|
  {
    if a != "" {
      assert (a + ([c] + x))[1..] == a[1..] + ([c] + x);
      FirstAfter(a[1..], c, x);
    }
  }

  /** A text cut at the first `c` is cut in one way only. */
  lemma CutUnique(a: string, x: string, b: string, y: string, c: char)
    requires c !in a && c !in b && a + ([c] + x) == b + ([c] + y)
    ensures a == b && x == y
  {
    FirstAfter(a, c, x);
    FirstAfter(b, c, y);
    SamePrefix(a, [c] + x, b, [c] + y);
    SamePrefix([c], x, [c], y);
  }

  lemma SamePrefix(a: string, x: string, b: string, y: string)
    requires |a| == |b| && a + x == b + y
    ensures a == b && x == y
  {
    assert a == (a + x)[..|a|] && b == (b + y)[..|b|];
    assert x == (a + x)[|a|..] && y == (b + y)[|b|..];
  }

  // ------------------------------------------------------------------ quoted strings

  /** Whether a character is printed as it is.  Beyond Latin-1, `wide` stands for the
      Unicode tables. */
  predicate Printable(c: char, wide: set<char>) {
    if c < '\U{100}' then ' ' <= c <= '~' || ('\U{A1}' <= c && c != '\U{AD}') else c in wide
  }

  function HexDigit(n: nat): char
    requires n < 16
  {
    if n < 10 then '0' + n as char else 'a' + (n - 10) as char
  }

  /** The last `width` hexadecimal digits. */
  function Hex(n: nat, width: nat): (s: string)
    ensures |s| == width
    ensures forall i | 0 <= i < width :: '0' <= s[i] <= '9' || 'a' <= s[i] <= 'f'
  {
    if width == 0 then "" else Hex(n / 16, width - 1) + [HexDigit(n % 16)]
  }

  function Power16(width: nat): nat {
    if width == 0 then 1 else 16 * Power16(width - 1)
  }

  lemma {:induction false} HexUnique(m: nat, n: nat, width: nat)
    requires m < Power16(width) && n < Power16(width) && Hex(m, width) == Hex(n, width)
    ensures m == n
  {
    if width > 0 {
      SamePrefix(Hex(m / 16, width - 1), [HexDigit(m % 16)], Hex(n / 16, width - 1), [HexDigit(n % 16)]);
      assert [HexDigit(m % 16)][0] == [HexDigit(n % 16)][0];
      HexUnique(m / 16, n / 16, width - 1);
    }
  }

  /** The letter after the backslash, and how many digits follow it. */
  function Letter(c: char): (char, nat) {
    if c == '\U{07}' then ('a', 0)
    else if c == '\U{08}' then ('b', 0)
    else if c == '\U{0C}' then ('f', 0)
    else if c == '\n' then ('n', 0)
    else if c == '\r' then ('r', 0)
    else if c == '\t' then ('t', 0)
    else if c == '\U{0B}' then ('v', 0)
    else if c == '"' || c == '\\' then (c, 0)
    else if c < ' ' || c == '\U{7F}' then ('x', 2)
    else if c < '\U{10000}' then ('u', 4)
    else ('U', 8)
  }

  predicate Plain(c: char, wide: set<char>) {
    c != '"' && c != '\\' && Printable(c, wide)
  }

  function QuoteChar(c: char, wide: set<char>): (s: string)
    ensures s != "" && '\n' !in s && s[0] != '"'
    ensures Plain(c, wide) <==> s[0] != '\\'
  {
    if Plain(c, wide) then [c]
    else ['\\', Letter(c).0] + Hex(c as int, Letter(c).1)
  }

  /** The number that a run of lower-case hexadecimal digits stands for. */
  function HexValue(s: string): int {
    if s == "" then 0
    else
      var d := s[|s| - 1];
      16 * HexValue(s[..|s| - 1]) + if '0' <= d <= '9' then d as int - '0' as int else d as int - 'a' as int + 10
  }

  lemma {:induction false} HexIsRead(n: nat, width: nat)
    requires n < Power16(width)
    ensures HexValue(Hex(n, width)) == n
  {
    if width > 0 {
      var s := Hex(n, width);
      HexIsRead(n / 16, width - 1);
      assert s[..|s| - 1] == Hex(n / 16, width - 1);
    }
  }

  /** `q` is a way to write `c` inside a quoted string of Go: the character itself, a
      letter escape, or two, four or eight hexadecimal digits. */
  ghost predicate Spells(q: string, c: char) {
    || (q == [c] && c != '"' && c != '\\')
    || (q != "" && q == match c as int
             case 7 => "\\a" case 8 => "\\b" case 9 => "\\t" case 10 => "\\n" case 11 => "\\v" case 12 => "\\f"
             case 13 => "\\r" case 34 => "\\\"" case 92 => "\\\\" case _ => "")
    || (|q| == 4 && q[..2] == "\\x" && HexValue(q[2..]) == c as int)
    || (|q| == 6 && q[..2] == "\\u" && HexValue(q[2..]) == c as int)
    || (|q| == 10 && q[..2] == "\\U" && HexValue(q[2..]) == c as int)
  }

  lemma NoDigits(n: nat)
    ensures Hex(n, 0) == ""
  {
  }

  lemma QuotedCharacterSpells(c: char, wide: set<char>)
    ensures Spells(QuoteChar(c, wide), c)
  {
    hide Printable, Hex, HexValue;
    WideEnough();
    if !Plain(c, wide) {
      var letter, width := Letter(c).0, Letter(c).1;
      var q := QuoteChar(c, wide);
      if width > 0 {
        HexIsRead(c as int, width);
      }
      assert q == ['\\', letter] + Hex(c as int, width);
      assert q[..2] == ['\\', letter] && q[2..] == Hex(c as int, width);
      NoDigits(c as int);
    }
  }

  /** Graphic characters, other than the quote and the backslash, are written as they are:
      these are known for Latin-1, and given beyond. */
  lemma GraphicCharactersStay(c: char, wide: set<char>)
    ensures QuoteChar(c, wide) == [c] <==>
              var n := c as int;
              if n < 256 then (32 <= n < 127 && n != 34 && n != 92) || (160 < n && n != 173) else c in wide
  {
  }

  function QuoteBody(text: string, wide: set<char>): (s: string)
    ensures '\n' !in s
  {
    if text == "" then "" else QuoteChar(text[0], wide) + QuoteBody(text[1..], wide)
  }

  function Quote(text: string, wide: set<char>): (s: string)
    ensures '\n' !in s
  {
    "\"" + QuoteBody(text, wide) + "\""
  }

  function Chain(pieces: seq<string>): string {
    if pieces == [] then "" else pieces[0] + Chain(pieces[1..])
  }

  lemma {:induction false} BodySpells(text: string, wide: set<char>) returns (pieces: seq<string>)
    ensures |pieces| == |text| && QuoteBody(text, wide) == Chain(pieces)
    ensures forall i | 0 <= i < |text| :: Spells(pieces[i], text[i])
  {
    pieces := [];
    if text != "" {
      var rest := BodySpells(text[1..], wide);
      pieces := [QuoteChar(text[0], wide)] + rest;
      assert pieces[1..] == rest;
      QuotedCharacterSpells(text[0], wide);
    }
  }

  /** A quoted string is the characters of the text, one after the other in some spelling,
      between two quotes. */
  lemma QuoteSpells(text: string, wide: set<char>) returns (pieces: seq<string>)
    ensures |pieces| == |text| && Quote(text, wide) == "\"" + Chain(pieces) + "\""
    ensures forall i | 0 <= i < |text| :: Spells(pieces[i], text[i])
  {
    pieces := BodySpells(text, wide);
  }

  lemma WideEnough()
    ensures Power16(0) == 1 && Power16(2) == 0x100 && Power16(4) == 0x10000 && Power16(8) == 0x1_0000_0000
  {
  }

  /** Escapes with the same letter stand for the same character. */
  lemma EscapeUnique(c: char, d: char)
    requires Letter(c) == Letter(d) && Hex(c as int, Letter(c).1) == Hex(d as int, Letter(d).1)
    ensures c == d
  {
    WideEnough();
    if Letter(c).1 > 0 {
      HexUnique(c as int, d as int, Letter(c).1);
    }
  }

  /** No quoted character is the beginning of another one. */
  lemma QuoteCharUnique(c: char, x: string, d: char, y: string, wide: set<char>)
    requires QuoteChar(c, wide) + x == QuoteChar(d, wide) + y
    ensures c == d && x == y
  {
    hide Printable, Hex;
    var p, q := QuoteChar(c, wide), QuoteChar(d, wide);
    assert (p + x)[0] == p[0] && (q + y)[0] == q[0];
    if Plain(c, wide) {
      SamePrefix(p, x, q, y);
    } else {
      assert (p + x)[1] == Letter(c).0 && (q + y)[1] == Letter(d).0;
      assert Letter(c) == Letter(d);
      SamePrefix(p, x, q, y);
      assert p[2..] == Hex(c as int, Letter(c).1) && q[2..] == Hex(d as int, Letter(d).1);
      EscapeUnique(c, d);
    }
  }

  lemma QuoteStep(a: string, wide: set<char>)
    ensures (QuoteBody(a, wide) + "\"")[0] == '"' <==> a == ""
    ensures a != "" ==>
              QuoteBody(a, wide) + "\"" == QuoteChar(a[0], wide) + (QuoteBody(a[1..], wide) + "\"")
  {
  }

  lemma {:induction false} QuoteBodyUnique(a: string, b: string, wide: set<char>)
    requires QuoteBody(a, wide) + "\"" == QuoteBody(b, wide) + "\""
    ensures a == b
  {
    hide QuoteBody, QuoteChar;
    QuoteStep(a, wide);
    QuoteStep(b, wide);
    if a != "" {
      QuoteCharUnique(a[0], QuoteBody(a[1..], wide) + "\"", b[0], QuoteBody(b[1..], wide) + "\"", wide);
      QuoteBodyUnique(a[1..], b[1..], wide);
      assert a == [a[0]] + a[1..] && b == [b[0]] + b[1..];
    }
  }

  lemma QuoteUnique(a: string, b: string, wide: set<char>)
    requires Quote(a, wide) == Quote(b, wide)
    ensures a == b
  {
    hide QuoteBody;
    assert Quote(a, wide)[1..] == QuoteBody(a, wide) + "\"";
    assert Quote(b, wide)[1..] == QuoteBody(b, wide) + "\"";
    QuoteBodyUnique(a, b, wide);
  }

  // -------------------------------------------------------------------- joined lists

  const NUL: char := '\0'

  function Join(list: seq<string>): string {
    if list == [] then "" else if |list| == 1 then list[0] else list[0] + ([NUL] + Join(list[1..]))
  }

  ghost predicate Free(list: seq<string>, c: char) {
    forall i | 0 <= i < |list| :: c !in list[i]
  }

  /** A list with one empty string joins like the empty list. */
  function Norm(list: seq<string>): seq<string> {
    if list == [""] then [] else list
  }

  lemma {:induction false} JoinFree(list: seq<string>, c: char)
    requires Free(list, c) && c != NUL
    ensures c !in Join(list)
  {
    if |list| > 1 {
      JoinFree(list[1..], c);
    }
  }

  lemma NulSeparates(list: seq<string>)
    requires list != [] && Free(list, NUL)
    ensures NUL in Join(list) <==> |list| > 1
  {
  }

  lemma {:induction false} JoinUnique(a: seq<string>, b: seq<string>)
    requires a != [] && b != [] && Free(a, NUL) && Free(b, NUL) && Join(a) == Join(b)
    ensures a == b
  {
    NulSeparates(a);
    NulSeparates(b);
    if |a| > 1 {
      CutUnique(a[0], Join(a[1..]), b[0], Join(b[1..]), NUL);
      JoinUnique(a[1..], b[1..]);
      assert a == [a[0]] + a[1..] && b == [b[0]] + b[1..];
    }
  }

  /** Lists without NUL join to the same text exactly when they are the same up to the
      list with one empty string. */
  lemma JoinSameExactly(a: seq<string>, b: seq<string>)
    requires Free(a, NUL) && Free(b, NUL)
    ensures Join(a) == Join(b) <==> Norm(a) == Norm(b)
  {
    if Join(a) == Join(b) {
      JoinUnique(if a == [] then [""] else a, if b == [] then [""] else b);
    }
  }

  /** With a NUL inside an element, two different lists join to the same text. */
  lemma NulIsAmbiguous()
    ensures exists a: seq<string>, b: seq<string> :: Norm(a) != Norm(b) && Join(a) == Join(b)
  {
    var a, b := ["x", "y"], ["x\0y"];
    assert a[1..] == ["y"];
    assert Join(["y"]) == "y";
    assert Join(a) == "x" + ([NUL] + "y");
    assert Join(b) == "x\0y";
  }
}
