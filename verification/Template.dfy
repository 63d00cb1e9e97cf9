/**
 Template expressions ${...} in commands, arguments and environment values.
 */
module Template {
  import opened Wrappers

  datatype Error = ConfigInvalid | EnvMissing

  /** The values of the template variables.  `env` is absent when the caller offers no
      environment. */
  datatype Context = Context(
    projectDir: string,
    serviceDir: string,
    home: string,
    ports: map<string, int>,
    defaultPort: string,
    env: Option<map<string, string>>)

  // ------------------------------------------------------------------------ strings

  /** The characters that Unicode calls white space. */
  predicate IsSpace(c: char) {
    || '\t' <= c <= '\r' || c == ' ' || c == '\U{85}' || c == '\U{A0}' || c == '\U{1680}'
    || '\U{2000}' <= c <= '\U{200A}' || c == '\U{2028}' || c == '\U{2029}' || c == '\U{202F}'
    || c == '\U{205F}' || c == '\U{3000}'
  }

  /** One by one, these are HT, LF, VT, FF, CR, space, NEL, NBSP and the space and line
      separators. */
  lemma WhiteSpaceIsListed(c: char)
    ensures IsSpace(c) <==>
              c as int in {9, 10, 11, 12, 13, 32, 0x85, 0xA0, 0x1680, 0x2000, 0x2001, 0x2002, 0x2003, 0x2004, 0x2005,
                           0x2006, 0x2007, 0x2008, 0x2009, 0x200A, 0x2028, 0x2029, 0x202F, 0x205F, 0x3000}
  {
  }

  function TrimSpace(s: string): (r: string)
    ensures r == "" || (!IsSpace(r[0]) && !IsSpace(r[|r| - 1]))
    ensures s == "" || IsSpace(s[0]) || IsSpace(s[|s| - 1]) || r == s
    decreases |s|
  {
    if s == "" then ""
    else if IsSpace(s[0]) then TrimSpace(s[1..])
    else if IsSpace(s[|s| - 1]) then TrimSpace(s[..|s| - 1])
    else s
  }

  /** The position of the first `c`, or -1. */
  function IndexOf(s: string, c: char): (i: int)
    ensures -1 <= i < |s|
    ensures i == -1 ==> c !in s
    ensures i >= 0 ==> s[i] == c && c !in s[..i]
  {
    if s == "" then -1
    else if s[0] == c then 0
    else
      var rest := IndexOf(s[1..], c);
      assert s == [s[0]] + s[1..];
      assert rest >= 0 ==> s[..rest + 1] == [s[0]] + s[1..][..rest];
      if rest < 0 then -1 else rest + 1
  }

  predicate Contains(s: string, part: string)
  {
    part <= s || (s != "" && Contains(s[1..], part))
  }

  /** A reference split at its first colon, both parts trimmed. */
  datatype Reference = Reference(name: string, arg: string, hasArg: bool)

  function Cut(text: string): Reference {
    var i := IndexOf(text, ':');
    if i < 0 then Reference(TrimSpace(text), "", false)
    else Reference(TrimSpace(text[..i]), TrimSpace(text[i + 1..]), true)
  }

  function Digits(n: nat): (r: string)
    ensures r != "" && forall i | 0 <= i < |r| :: '0' <= r[i] <= '9'
  {
    var digit := ['0' + (n % 10) as char];
    if n < 10 then digit else Digits(n / 10) + digit
  }

  function Itoa(n: int): string {
    if n < 0 then "-" + Digits(-n) else Digits(n)
  }

  // ------------------------------------------------------------------------- lookup

  predicate IsDirectory(name: string) {
    name == "PROJECT_DIR" || name == "SERVICE_DIR" || name == "HOME"
  }

  function Directory(c: Context, name: string): string {
    if name == "PROJECT_DIR" then c.projectDir
    else if name == "SERVICE_DIR" then c.serviceDir
    else c.home
  }

  function Lookup(c: Context, text: string): Result<string, Error> {
    var ref := Cut(text);
    if ref.name == "PORT" then
      var port := if !ref.hasArg || ref.arg == "" then c.defaultPort else ref.arg;
      if port == "" || port !in c.ports then Err(ConfigInvalid) else Ok(Itoa(c.ports[port]))
    else if IsDirectory(ref.name) then Ok(Directory(c, ref.name))
    else if ref.name == "ENV" then
      if ref.arg == "" then Err(ConfigInvalid)
      else if c.env.None? || ref.arg !in c.env.value then Err(EnvMissing)
      else Ok(c.env.value[ref.arg])
    else Err(ConfigInvalid)
  }

  // ------------------------------------------------------------------------- tokens

  datatype Token = Literal(c: char) | Ref(text: string) | Unterminated

  /** The first token of a text and how many characters it takes.  A doubled dollar sign
      is a literal one, and so is a dollar sign before anything but a brace. */
  function Next(s: string): (r: (Token, nat))
    requires s != ""
    ensures 0 < r.1 <= |s|
  {
    if s[0] != '$' then (Literal(s[0]), 1)
    else if |s| > 1 && s[1] == '$' then (Literal('$'), 2)
    else if |s| == 1 || s[1] != '{' then (Literal('$'), 1)
    else
      var end := IndexOf(s[2..], '}');
      if end < 0 then (Unterminated, |s|) else (Ref(s[2..2 + end]), end + 3)
  }

  function Tokens(s: string): seq<Token> {
    if s == "" then [] else [Next(s).0] + Tokens(s[Next(s).1..])
  }

  /** A template with the given tokens. */
  function Print(tokens: seq<Token>): string {
    if tokens == [] then ""
    else
      match tokens[0]
      case Literal(c) => (if c == '$' then "$$" else [c]) + Print(tokens[1..])
      case Ref(text) => "${" + text + "}" + Print(tokens[1..])
      case Unterminated => "${"
  }

  function Prepend(text: string, rest: Result<string, Error>): Result<string, Error> {
    if rest.Ok? then Ok(text + rest.value) else rest
  }

  /** What a list of tokens stands for: literals and looked-up values side by side, or
      the first error. */
  function Render(c: Context, tokens: seq<Token>): Result<string, Error> {
    if tokens == [] then Ok("")
    else
      match tokens[0]
      case Literal(ch) => Prepend([ch], Render(c, tokens[1..]))
      case Unterminated => Err(ConfigInvalid)
      case Ref(text) =>
        var value := Lookup(c, text);
        if value.Err? then value else Prepend(value.value, Render(c, tokens[1..]))
  }

  function Refs(tokens: seq<Token>): seq<string> {
    if tokens == [] then []
    else (if tokens[0].Ref? then [tokens[0].text] else []) + Refs(tokens[1..])
  }

  /** Expressions end at their first closing brace, and only the last one can be
      without an end. */
  predicate WellFormed(tokens: seq<Token>) {
    forall i | 0 <= i < |tokens| ::
      && (tokens[i].Ref? ==> '}' !in tokens[i].text)
      && (tokens[i].Unterminated? ==> i == |tokens| - 1)
  }

  lemma {:induction false} TokensWellFormed(s: string)
    ensures WellFormed(Tokens(s))
  {
    if s != "" {
      var (token, width) := Next(s);
      TokensWellFormed(s[width..]);
      if token.Ref? {
        assert token.text == s[2..][..width - 3];
      }
      if token.Unterminated? {
        assert s[width..] == "";
      }
    }
  }

  lemma {:induction false} IndexOfFirst(text: string, c: char, rest: string)
    requires c !in text
    ensures IndexOf(text + [c] + rest, c) == |text|
  {
    if text != "" {
      assert (text + [c] + rest)[1..] == text[1..] + [c] + rest;
      IndexOfFirst(text[1..], c, rest);
    }
  }

  lemma PrintedReference(text: string, rest: string)
    requires '}' !in text
    ensures var s := "${" + text + "}" + rest;
            Next(s) == (Ref(text), |text| + 3) && s[|text| + 3..] == rest
  {
    var s := "${" + text + "}" + rest;
    assert s[2..] == text + "}" + rest;
    IndexOfFirst(text, '}', rest);
    assert s[2..2 + |text|] == text;
  }

  lemma PrintedLiteral(c: char, rest: string)
    ensures var s := (if c == '$' then "$$" else [c]) + rest;
            Next(s).0 == Literal(c) && s[Next(s).1..] == rest
  {
  }

  lemma PrintedStep(token: Token, rest: seq<Token>)
    requires token.Ref? ==> '}' !in token.text
    requires token.Unterminated? ==> rest == []
    ensures var s := Print([token] + rest);
            s != "" && Next(s).0 == token && s[Next(s).1..] == Print(rest)
  {
    var s := Print([token] + rest);
    assert ([token] + rest)[1..] == rest;
    match token
    case Literal(c) => PrintedLiteral(c, Print(rest));
    case Ref(text) => PrintedReference(text, Print(rest));
    case Unterminated => assert s[2..] == "";
  }

  /** Reading back a printed template gives the same tokens. */
  lemma {:induction false} PrintRoundTrip(tokens: seq<Token>)
    requires WellFormed(tokens)
    ensures Tokens(Print(tokens)) == tokens
  {
    if tokens != [] {
      assert tokens == [tokens[0]] + tokens[1..];
      PrintedStep(tokens[0], tokens[1..]);
      PrintRoundTrip(tokens[1..]);
    }
  }

  function Literals(text: string): seq<Token> {
    seq(|text|, i requires 0 <= i < |text| => Literal(text[i]))
  }

  /** Doubling every dollar sign. */
  function Escape(text: string): string {
    if text == "" then "" else (if text[0] == '$' then "$$" else [text[0]]) + Escape(text[1..])
  }

  /** An escaped text expands to itself in every context. */
  lemma {:induction false} EscapeIsUndone(c: Context, text: string)
    ensures Render(c, Tokens(Escape(text))) == Ok(text)
  {
    EscapePrints(text);
    PrintRoundTrip(Literals(text));
    LiteralsRender(c, text);
  }

  lemma {:induction false} EscapePrints(text: string)
    ensures Escape(text) == Print(Literals(text))
  {
    if text != "" {
      assert Literals(text)[1..] == Literals(text[1..]);
      EscapePrints(text[1..]);
    }
  }

  lemma {:induction false} LiteralsRender(c: Context, text: string)
    ensures Render(c, Literals(text)) == Ok(text)
  {
    if text != "" {
      assert Literals(text)[1..] == Literals(text[1..]);
      LiteralsRender(c, text[1..]);
      assert text == [text[0]] + text[1..];
    }
  }

  /** Tokens with every reference replaced by the literal characters of its value. */
  function Substitute(c: Context, tokens: seq<Token>): seq<Token> {
    if tokens == [] then []
    else
      (if tokens[0].Ref? && Lookup(c, tokens[0].text).Ok? then Literals(Lookup(c, tokens[0].text).value)
       else [tokens[0]])
      + Substitute(c, tokens[1..])
  }

  lemma {:induction false} RenderConcat(c: Context, a: seq<Token>, b: seq<Token>)
    ensures Render(c, a + b) == if Render(c, a).Ok? then Prepend(Render(c, a).value, Render(c, b)) else Render(c, a)
  {
    if a == [] {
      assert a + b == b;
      assert Render(c, b).Ok? ==> "" + Render(c, b).value == Render(c, b).value;
    } else {
      assert a == [a[0]] + a[1..] && a + b == [a[0]] + (a[1..] + b);
      RenderConcat(c, a[1..], b);
      ConsLaws(c, a[0], a[1..]);
      ConsLaws(c, a[0], a[1..] + b);
      if Render(c, a).Ok? {
        var head := if a[0].Literal? then [a[0].c] else Lookup(c, a[0].text).value;
        PrependTwice(head, Render(c, a[1..]).value, Render(c, b));
      }
    }
  }

  /** Values are not scanned again: a template whose expressions are replaced by
      their escaped values expands to the same text in any other context. */
  lemma {:induction false} ValuesAreNotRescanned(c: Context, other: Context, tokens: seq<Token>)
    requires Render(c, tokens).Ok?
    ensures Render(other, Substitute(c, tokens)) == Render(c, tokens)
    ensures Tokens(Print(Substitute(c, tokens))) == Substitute(c, tokens)
  {
    SubstituteIsLiteral(c, tokens);
    SubstituteRenders(c, other, tokens);
    var literal := Substitute(c, tokens);
    assert WellFormed(literal) by {
      forall i | 0 <= i < |literal| ensures literal[i].Literal? {
        assert literal[i] in literal;
      }
    }
    PrintRoundTrip(literal);
  }

  lemma {:induction false} SubstituteRenders(c: Context, other: Context, tokens: seq<Token>)
    requires Render(c, tokens).Ok?
    ensures Render(other, Substitute(c, tokens)) == Render(c, tokens)
  {
    if tokens != [] {
      hide Render, Lookup;
      var rest := Substitute(c, tokens[1..]);
      assert tokens == [tokens[0]] + tokens[1..];
      ConsLaws(c, tokens[0], tokens[1..]);
      SubstituteRenders(c, other, tokens[1..]);
      if tokens[0].Ref? {
        var value := Lookup(c, tokens[0].text).value;
        LiteralsRender(other, value);
        RenderConcat(other, Literals(value), rest);
      } else {
        ConsLaws(other, tokens[0], rest);
      }
    }
  }

  lemma {:induction false} SubstituteIsLiteral(c: Context, tokens: seq<Token>)
    requires Render(c, tokens).Ok?
    ensures forall t | t in Substitute(c, tokens) :: t.Literal?
  {
    if tokens != [] {
      SubstituteIsLiteral(c, tokens[1..]);
    }
  }

  // ---------------------------------------------------------------------- expansion

  /** What a scanner sees at position `i`. */
  lemma TokenAt(s: string, i: nat)
    requires i < |s|
    ensures var (token, width) := Next(s[i..]);
            && i + width <= |s|
            && Tokens(s[i..]) == [token] + Tokens(s[i + width..])
            && (s[i] != '$' ==> token == Literal(s[i]) && width == 1)
            && (s[i] == '$' && i + 1 < |s| && s[i + 1] == '$' ==> token == Literal('$') && width == 2)
            && (s[i] == '$' && (i + 1 >= |s| || (s[i + 1] != '$' && s[i + 1] != '{')) ==>
                  token == Literal('$') && width == 1)
            && (s[i] == '$' && i + 1 < |s| && s[i + 1] == '{' ==>
                  var end := IndexOf(s[i + 2..], '}');
                  if end < 0 then token == Unterminated && i + width == |s|
                  else token == Ref(s[i + 2..i + 2 + end]) && width == end + 3)
  {
    var rest := s[i..];
    var width := Next(rest).1;
    assert rest[width..] == s[i + width..];
    if s[i] == '$' && i + 1 < |s| && s[i + 1] == '{' {
      assert rest[2..] == s[i + 2..];
      var end := IndexOf(s[i + 2..], '}');
      if end >= 0 {
        assert rest[2..2 + end] == s[i + 2..i + 2 + end];
      }
    }
  }

  /** What the scanners keep: the text before position `i` is dealt with. */
  ghost predicate Rendered(c: Context, s: string, i: nat, out: string) {
    i <= |s| && Render(c, Tokens(s)) == Prepend(out, Render(c, Tokens(s[i..])))
  }

  ghost predicate Listed(s: string, i: nat, refs: seq<string>) {
    i <= |s| && Refs(Tokens(s)) == refs + Refs(Tokens(s[i..]))
  }

  lemma Start(c: Context, s: string)
    ensures Rendered(c, s, 0, "") && Listed(s, 0, [])
  {
    assert s[0..] == s;
    assert Render(c, Tokens(s)).Ok? ==> "" + Render(c, Tokens(s)).value == Render(c, Tokens(s)).value;
  }

  lemma Finish(c: Context, s: string, out: string, refs: seq<string>)
    ensures Rendered(c, s, |s|, out) ==> Render(c, Tokens(s)) == Ok(out)
    ensures Listed(s, |s|, refs) ==> Refs(Tokens(s)) == refs
  {
    assert s[|s|..] == "";
    assert out + "" == out;
  }

  predicate Opens(s: string, i: nat)
    requires i < |s|
  {
    s[i] == '$' && i + 1 < |s| && s[i + 1] == '{'
  }

  predicate Doubled(s: string, i: nat)
    requires i < |s|
  {
    s[i] == '$' && i + 1 < |s| && s[i + 1] == '$'
  }

  lemma ConsLaws(c: Context, token: Token, rest: seq<Token>)
    ensures Refs([token] + rest) == (if token.Ref? then [token.text] else []) + Refs(rest)
    ensures token.Literal? ==> Render(c, [token] + rest) == Prepend([token.c], Render(c, rest))
    ensures token.Unterminated? ==> Render(c, [token] + rest) == Err(ConfigInvalid)
    ensures token.Ref? && Lookup(c, token.text).Err? ==> Render(c, [token] + rest) == Lookup(c, token.text)
    ensures token.Ref? && Lookup(c, token.text).Ok? ==>
              Render(c, [token] + rest) == Prepend(Lookup(c, token.text).value, Render(c, rest))
  {
  }

  lemma PrependTwice(a: string, b: string, r: Result<string, Error>)
    ensures Prepend(a, Prepend(b, r)) == Prepend(a + b, r)
  {
    if r.Ok? {
      assert a + (b + r.value) == a + b + r.value;
    }
  }

  lemma LiteralStep(c: Context, s: string, i: nat, out: string, refs: seq<string>)
    requires i < |s| && !Opens(s, i)
    ensures var next := i + if Doubled(s, i) then 2 else 1;
            && (Rendered(c, s, i, out) ==> Rendered(c, s, next, out + [s[i]]))
            && (Listed(s, i, refs) ==> Listed(s, next, refs))
  {
    hide Render, Refs, Tokens, Next, Prepend;
    TokenAt(s, i);
    var next := i + if Doubled(s, i) then 2 else 1;
    ConsLaws(c, Literal(s[i]), Tokens(s[next..]));
    PrependTwice(out, [s[i]], Render(c, Tokens(s[next..])));
    assert [] + Refs(Tokens(s[next..])) == Refs(Tokens(s[next..]));
  }

  lemma RefStep(c: Context, s: string, i: nat, end: nat, out: string, refs: seq<string>)
    requires i < |s| && Opens(s, i) && end == IndexOf(s[i + 2..], '}')
    ensures var text := s[i + 2..i + 2 + end];
            && (Rendered(c, s, i, out) && Lookup(c, text).Err? ==> Render(c, Tokens(s)) == Lookup(c, text))
            && (Rendered(c, s, i, out) && Lookup(c, text).Ok? ==>
                  Rendered(c, s, i + end + 3, out + Lookup(c, text).value))
            && (Listed(s, i, refs) ==> Listed(s, i + end + 3, refs + [text]))
  {
    hide Render, Refs, Tokens, Next, IndexOf, Lookup;
    TokenAt(s, i);
    var text, rest := s[i + 2..i + 2 + end], Tokens(s[i + end + 3..]);
    ConsLaws(c, Ref(text), rest);
    if Lookup(c, text).Ok? {
      PrependTwice(out, Lookup(c, text).value, Render(c, rest));
    }
    assert refs + ([text] + Refs(rest)) == refs + [text] + Refs(rest);
  }

  lemma OpenStep(c: Context, s: string, i: nat, out: string, refs: seq<string>)
    requires i < |s| && Opens(s, i) && IndexOf(s[i + 2..], '}') < 0
    ensures Rendered(c, s, i, out) ==> Render(c, Tokens(s)) == Err(ConfigInvalid)
    ensures Listed(s, i, refs) ==> Refs(Tokens(s)) == refs
  {
    TokenAt(s, i);
    assert s[|s|..] == "";
    ConsLaws(c, Unterminated, []);
    assert [Unterminated] + [] == [Unterminated];
    assert refs + Refs([Unterminated]) == refs;
  }

  /** Scans the template once.  `asked` lists the references that were looked up. */
  method Expand(c: Context, s: string) returns (result: Result<string, Error>, ghost asked: seq<string>)
    ensures result == Render(c, Tokens(s))
    ensures asked <= Refs(Tokens(s))
    ensures result.Ok? ==> asked == Refs(Tokens(s))
  {
    hide Render, Refs, Tokens, Rendered, IndexOf, Lookup;
    var out := "";
    asked := [];
    var i := 0;
    Start(c, s);
    while i < |s|
      invariant 0 <= i <= |s| && Rendered(c, s, i, out) && Listed(s, i, asked)
    {
      if s[i] != '$' {
        LiteralStep(c, s, i, out, asked);
        out := out + [s[i]];
        i := i + 1;
        continue;
      }
      if i + 1 < |s| && s[i + 1] == '$' {
        LiteralStep(c, s, i, out, asked);
        out := out + ['$'];
        i := i + 2;
        continue;
      }
      if i + 1 >= |s| || s[i + 1] != '{' {
        LiteralStep(c, s, i, out, asked);
        out := out + [s[i]];
        i := i + 1;
        continue;
      }
      var end := IndexOf(s[i + 2..], '}');
      if end < 0 {
        OpenStep(c, s, i, out, asked);
        return Err(ConfigInvalid), asked;
      }
      RefStep(c, s, i, end, out, asked);
      var text := s[i + 2..i + 2 + end];
      asked := asked + [text];
      var value := Lookup(c, text);
      if value.Err? {
        return value, asked;
      }
      out := out + value.value;
      i := i + 2 + end + 1;
    }
    Finish(c, s, out, asked);
    result := Ok(out);
  }

  ghost predicate FirstFailure(c: Context, values: seq<string>, i: nat) {
    && i < |values| && Render(c, Tokens(values[i])).Err?
    && forall k | 0 <= k < i :: Render(c, Tokens(values[k])).Ok?
  }

  method ExpandAll(c: Context, values: seq<string>) returns (result: Result<seq<string>, Error>)
    ensures result.Ok? <==> forall i | 0 <= i < |values| :: Render(c, Tokens(values[i])).Ok?
    ensures result.Ok? ==> |result.value| == |values|
    ensures result.Ok? ==> forall i | 0 <= i < |values| :: Render(c, Tokens(values[i])) == Ok(result.value[i])
    ensures result.Err? ==> exists i: nat :: FirstFailure(c, values, i) && Render(c, Tokens(values[i])) == Err(result.error)
  {
    hide Render, Tokens;
    var out: seq<string> := [];
    for i := 0 to |values|
      invariant |out| == i && forall k | 0 <= k < i :: Render(c, Tokens(values[k])) == Ok(out[k])
    {
      var value, _ := Expand(c, values[i]);
      if value.Err? {
        assert FirstFailure(c, values, i);
        return Err(value.error);
      }
      out := out + [value.value];
    }
    result := Ok(out);
  }

  method TemplateRefs(s: string) returns (refs: seq<string>)
    ensures refs == Refs(Tokens(s))
  {
    hide Render, Refs, Tokens, Rendered, Listed, IndexOf;
    refs := [];
    var i := 0;
    ghost var c := Context("", "", "", map[], "", None);
    Start(c, s);
    while i < |s|
      invariant 0 <= i <= |s| && Listed(s, i, refs)
    {
      if s[i] != '$' {
        LiteralStep(c, s, i, "", refs);
        i := i + 1;
        continue;
      }
      if i + 1 < |s| && s[i + 1] == '$' {
        LiteralStep(c, s, i, "", refs);
        i := i + 2;
        continue;
      }
      if i + 1 >= |s| || s[i + 1] != '{' {
        LiteralStep(c, s, i, "", refs);
        i := i + 1;
        continue;
      }
      var end := IndexOf(s[i + 2..], '}');
      if end < 0 {
        OpenStep(c, s, i, "", refs);
        return;
      }
      RefStep(c, s, i, end, "", refs);
      refs := refs + [s[i + 2..i + 2 + end]];
      i := i + 2 + end + 1;
    }
    Finish(c, s, "", refs);
  }

  // ------------------------------------------------------ what each variable stands for

  /** A template that is one expression stands for what that expression looks up. */
  lemma OneReference(c: Context, text: string)
    requires '}' !in text
    ensures Render(c, Tokens("${" + text + "}")) == Lookup(c, text)
  {
    PrintedReference(text, "");
    assert "${" + text + "}" + "" == "${" + text + "}";
    assert Tokens("${" + text + "}") == [Ref(text)] + [];
    ConsLaws(c, Ref(text), []);
    if Lookup(c, text).Ok? {
      assert Lookup(c, text).value + "" == Lookup(c, text).value;
    }
  }

  /** No white space at either end. */
  predicate Trimmed(s: string) {
    s == "" || (!IsSpace(s[0]) && !IsSpace(s[|s| - 1]))
  }

  lemma CutPlain(name: string)
    requires ':' !in name && Trimmed(name)
    ensures Cut(name) == Reference(name, "", false)
  {
  }

  lemma CutNamed(name: string, arg: string)
    requires ':' !in name && Trimmed(name) && Trimmed(arg)
    ensures Cut(name + ":" + arg) == Reference(name, arg, true)
  {
    IndexOfFirst(name, ':', arg);
    var text := name + ":" + arg;
    assert text[..|name|] == name && text[|name| + 1..] == arg;
  }

  /** Nothing but white space. */
  ghost predicate Blank(s: string) {
    forall i | 0 <= i < |s| :: IsSpace(s[i])
  }

  lemma BlankConcat(a: string, b: string)
    requires Blank(a) && Blank(b)
    ensures Blank(a + b)
  {
    hide IsSpace;
  }

  lemma BlankOne(s: string, i: nat)
    requires i < |s| && IsSpace(s[i])
    ensures Blank([s[i]])
  {
    hide IsSpace;
  }

  lemma TrimStep(s: string)
    ensures s != "" && IsSpace(s[0]) ==> TrimSpace(s) == TrimSpace(s[1..])
    ensures s != "" && !IsSpace(s[0]) && IsSpace(s[|s| - 1]) ==> TrimSpace(s) == TrimSpace(s[..|s| - 1])
    ensures s == "" || (!IsSpace(s[0]) && !IsSpace(s[|s| - 1])) ==> TrimSpace(s) == s
  {
    hide IsSpace;
  }

  lemma Around(s: string, before: string, middle: string, after: string)
    ensures s != "" && s[1..] == before + middle + after ==> s == ([s[0]] + before) + middle + after
    ensures s != "" && s[..|s| - 1] == before + middle + after ==> s == before + middle + (after + [s[|s| - 1]])
    ensures s == "" + s + ""
  {
    if s != "" {
      assert s == [s[0]] + s[1..];
      assert s == s[..|s| - 1] + [s[|s| - 1]];
    }
  }

  /** Only white space is trimmed, and all of it at both ends. */
  lemma {:induction false} TrimsWhiteSpace(s: string) returns (before: string, after: string)
    ensures s == before + TrimSpace(s) + after && Blank(before) && Blank(after)
    decreases |s|
  {
    before, after := "", "";
    assert Blank("");
    hide IsSpace, TrimSpace, Blank;
    TrimStep(s);
    if s != "" && IsSpace(s[0]) {
      before, after := TrimsWhiteSpace(s[1..]);
      Around(s, before, TrimSpace(s), after);
      BlankOne(s, 0);
      BlankConcat([s[0]], before);
      before := [s[0]] + before;
    } else if s != "" && IsSpace(s[|s| - 1]) {
      before, after := TrimsWhiteSpace(s[..|s| - 1]);
      Around(s, before, TrimSpace(s), after);
      BlankOne(s, |s| - 1);
      BlankConcat(after, [s[|s| - 1]]);
      after := after + [s[|s| - 1]];
    } else {
      Around(s, "", s, "");
    }
  }

  lemma Spelling()
    ensures ':' !in "PROJECT_DIR" && ':' !in "SERVICE_DIR" && ':' !in "HOME" && ':' !in "PORT" && ':' !in "ENV"
    ensures '}' !in "PROJECT_DIR" && '}' !in "SERVICE_DIR" && '}' !in "HOME" && '}' !in "PORT" && '}' !in "ENV"
    ensures |"PROJECT_DIR"| == 11 && |"SERVICE_DIR"| == 11 && "PROJECT_DIR"[0] == 'P' && "SERVICE_DIR"[0] == 'S'
    ensures |"HOME"| == 4 && |"PORT"| == 4 && "HOME"[0] == 'H' && "PORT"[0] == 'P' && |"ENV"| == 3
  {
  }

  lemma SpellingIsTrimmed()
    ensures Trimmed("PROJECT_DIR") && Trimmed("SERVICE_DIR") && Trimmed("HOME") && Trimmed("PORT") && Trimmed("ENV")
  {
  }

  lemma PlainReference(c: Context, name: string)
    requires ':' !in name && '}' !in name && Trimmed(name)
    ensures Render(c, Tokens("${" + name + "}")) == Lookup(c, name) && Cut(name) == Reference(name, "", false)
  {
    OneReference(c, name);
    CutPlain(name);
  }

  lemma NoBrace(name: string, arg: string)
    requires '}' !in name && '}' !in arg
    ensures '}' !in name + ":" + arg
  {
  }

  lemma Regroup(name: string, arg: string)
    ensures "${" + (name + ":" + arg) + "}" == "${" + name + ":" + arg + "}"
  {
  }

  lemma NamedReference(c: Context, name: string, arg: string)
    requires ':' !in name && '}' !in name && Trimmed(name) && '}' !in arg && Trimmed(arg)
    ensures Render(c, Tokens("${" + name + ":" + arg + "}")) == Lookup(c, name + ":" + arg)
    ensures Cut(name + ":" + arg) == Reference(name, arg, true)
  {
    hide *;
    NoBrace(name, arg);
    OneReference(c, name + ":" + arg);
    CutNamed(name, arg);
    Regroup(name, arg);
  }

  lemma DirectoriesExpand(c: Context)
    ensures Render(c, Tokens("${PROJECT_DIR}")) == Ok(c.projectDir)
    ensures Render(c, Tokens("${SERVICE_DIR}")) == Ok(c.serviceDir)
    ensures Render(c, Tokens("${HOME}")) == Ok(c.home)
  {
    Spelling();
    SpellingIsTrimmed();
    hide Cut, Trimmed, Tokens, Render;
    PlainReference(c, "PROJECT_DIR");
    PlainReference(c, "SERVICE_DIR");
    PlainReference(c, "HOME");
    assert "${" + "PROJECT_DIR" + "}" == "${PROJECT_DIR}";
    assert "${" + "SERVICE_DIR" + "}" == "${SERVICE_DIR}";
    assert "${" + "HOME" + "}" == "${HOME}";
  }

  /** The number that a run of decimal digits stands for. */
  function Decimal(s: string): int {
    if s == "" then 0 else 10 * Decimal(s[..|s| - 1]) + (s[|s| - 1] as int - '0' as int)
  }

  /** A text is the decimal notation of a number: digits without a leading zero, after a
      minus sign if it is negative. */
  ghost predicate Denotes(text: string, n: int) {
    var digits := if n < 0 && text != "" then text[1..] else text;
    && (n < 0 ==> text != "" && text[0] == '-')
    && digits != "" && (forall i | 0 <= i < |digits| :: '0' <= digits[i] <= '9')
    && Decimal(digits) == (if n < 0 then -n else n)
    && (digits[0] == '0' ==> |digits| == 1)
  }

  lemma {:induction false} DigitsDenote(n: nat)
    ensures Denotes(Digits(n), n) && (Digits(n)[0] == '0' ==> n == 0)
  {
    if n < 10 {
      assert Digits(n)[..0] == "";
    } else {
      DigitsDenote(n / 10);
      assert Digits(n)[..|Digits(n)| - 1] == Digits(n / 10);
    }
  }

  lemma NumberIsWritten(n: int)
    ensures Denotes(Itoa(n), n)
  {
    DigitsDenote(if n < 0 then -n else n);
    if n < 0 {
      assert Itoa(n)[1..] == Digits(-n);
    }
  }

  /** PORT stands for the number of the default port, and with a name for that of the
      named one. */
  lemma PortsExpand(c: Context, name: string)
    requires '}' !in name && Trimmed(name)
    ensures StandsForPort(c, c.defaultPort, Render(c, Tokens("${PORT}")))
    ensures StandsForPort(c, if name == "" then c.defaultPort else name, Render(c, Tokens("${PORT:" + name + "}")))
  {
    Spelling();
    SpellingIsTrimmed();
    hide Cut, Trimmed, Tokens, Render, Denotes;
    PlainReference(c, "PORT");
    assert "${" + "PORT" + "}" == "${PORT}";
    NamedReference(c, "PORT", name);
    assert "${" + "PORT" + ":" == "${PORT:";
    forall port <- c.ports ensures Denotes(Itoa(c.ports[port]), c.ports[port]) {
      NumberIsWritten(c.ports[port]);
    }
  }

  ghost predicate StandsForPort(c: Context, port: string, result: Result<string, Error>) {
    if port != "" && port in c.ports then result.Ok? && Denotes(result.value, c.ports[port])
    else result == Err(ConfigInvalid)
  }

  /** ENV stands for the named environment variable, and needs a name. */
  lemma VariablesExpand(c: Context, name: string)
    requires '}' !in name && Trimmed(name)
    ensures Render(c, Tokens("${ENV}")) == Err(ConfigInvalid)
    ensures Render(c, Tokens("${ENV:" + name + "}")) ==
            if name == "" then Err(ConfigInvalid)
            else if c.env.Some? && name in c.env.value then Ok(c.env.value[name]) else Err(EnvMissing)
  {
    Spelling();
    SpellingIsTrimmed();
    hide Cut, Trimmed, Tokens, Render;
    PlainReference(c, "ENV");
    assert "${" + "ENV" + "}" == "${ENV}";
    NamedReference(c, "ENV", name);
    assert "${" + "ENV" + ":" == "${ENV:";
  }

  /** No other name stands for anything. */
  lemma OtherNamesFail(c: Context, text: string)
    requires '}' !in text && Cut(text).name !in {"PORT", "PROJECT_DIR", "SERVICE_DIR", "HOME", "ENV"}
    ensures Render(c, Tokens("${" + text + "}")) == Err(ConfigInvalid)
  {
    OneReference(c, text);
  }

  // ----------------------------------------------------------- checking without values

  /** What the check demands of one reference. */
  predicate Acceptable(text: string, declared: seq<string>, hasDefault: bool) {
    var ref := Cut(text);
    if ref.name == "PORT" then if !ref.hasArg || ref.arg == "" then hasDefault else ref.arg in declared
    else if IsDirectory(ref.name) then !ref.hasArg || ref.arg == ""
    else ref.name == "ENV" && ref.arg != "" && ref.arg != "PORT"
  }

  /** References the check rejects although they can be looked up. */
  predicate Discouraged(text: string) {
    var ref := Cut(text);
    || (IsDirectory(ref.name) && ref.hasArg && ref.arg != "")
    || (ref.name == "ENV" && ref.arg == "PORT")
  }

  /** Whether the cheap test for a missing brace fires. */
  predicate LacksBrace(s: string) {
    Contains(s, "${") && '}' !in s
  }

  /** The check lets a template pass. */
  predicate Passes(s: string, declared: seq<string>, hasDefault: bool) {
    !LacksBrace(s) && forall text | text in Refs(Tokens(s)) :: Acceptable(text, declared, hasDefault)
  }

  lemma WhatIsAcceptable(text: string, declared: seq<string>, hasDefault: bool)
    ensures var ref := Cut(text);
            Acceptable(text, declared, hasDefault) ==
              if ref.name == "PORT" then if !ref.hasArg || ref.arg == "" then hasDefault else ref.arg in declared
              else if IsDirectory(ref.name) then !ref.hasArg || ref.arg == ""
              else ref.name == "ENV" && ref.arg != "" && ref.arg != "PORT"
  {
  }

  /** The check of one reference. */
  method CheckReference(text: string, declared: seq<string>, hasDefault: bool) returns (ok: bool)
    ensures ok == Acceptable(text, declared, hasDefault)
  {
    WhatIsAcceptable(text, declared, hasDefault);
    hide Cut, Acceptable, IsDirectory;
    var ref := Cut(text);
    if ref.name == "PORT" {
      if !ref.hasArg || ref.arg == "" {
        return hasDefault;
      }
      if ref.arg !in declared {
        return false;
      }
    } else if IsDirectory(ref.name) {
      if ref.hasArg && ref.arg != "" {
        return false;
      }
    } else if ref.name == "ENV" {
      if ref.arg == "" {
        return false;
      }
      if ref.arg == "PORT" {
        return false;
      }
    } else {
      return false;
    }
    ok := true;
  }

  method CheckTemplateSyntax(s: string, declared: seq<string>, hasDefault: bool) returns (error: Option<Error>)
    ensures error.None? <==> Passes(s, declared, hasDefault)
    ensures error.Some? ==> error.value == ConfigInvalid
  {
    hide Acceptable, Refs, Tokens, LacksBrace, Render;
    if LacksBrace(s) {
      return Some(ConfigInvalid);
    }
    var refs := TemplateRefs(s);
    for i := 0 to |refs|
      invariant forall k | 0 <= k < i :: Acceptable(refs[k], declared, hasDefault)
    {
      assert refs[i] in refs;
      var ok := CheckReference(refs[i], declared, hasDefault);
      if !ok {
        return Some(ConfigInvalid);
      }
    }
    error := None;
  }

  /** All declared ports, and the default one if there is one, are allocated. */
  ghost predicate Allocated(c: Context, declared: seq<string>, hasDefault: bool) {
    && (forall p :: p in c.ports <==> p in declared)
    && (hasDefault <==> c.defaultPort != "")
    && (hasDefault ==> c.defaultPort in c.ports)
  }

  /** With the ports allocated, looking a reference up fails for a reason other than a
      missing variable exactly when the check rejects it and not merely discourages it. */
  lemma LookupFailsExactly(c: Context, text: string, declared: seq<string>, hasDefault: bool)
    requires Allocated(c, declared, hasDefault)
    ensures Lookup(c, text) == Err(ConfigInvalid)
       <==> !Acceptable(text, declared, hasDefault) && !Discouraged(text)
  {
  }

  predicate Terminated(s: string) {
    Unterminated !in Tokens(s)
  }

  lemma {:induction false} RenderFailsExactly(c: Context, tokens: seq<Token>)
    requires WellFormed(tokens)
    requires forall text | text in Refs(tokens) :: Lookup(c, text) != Err(ConfigInvalid)
    ensures Render(c, tokens) == Err(ConfigInvalid)
       <==> Unterminated in tokens && forall text | text in Refs(tokens) :: Lookup(c, text).Ok?
  {
    if tokens != [] {
      var rest := tokens[1..];
      assert tokens == [tokens[0]] + rest;
      assert Unterminated in tokens <==> tokens[0] == Unterminated || Unterminated in rest;
      if tokens[0].Ref? {
        assert Refs(tokens) == [tokens[0].text] + Refs(rest);
        assert Refs(tokens)[0] in Refs(tokens);
        forall text | text in Refs(rest) ensures text in Refs(tokens) {
        }
      } else {
        assert Refs(tokens) == Refs(rest);
      }
      if tokens[0].Unterminated? {
        assert rest == [];
      } else {
        RenderFailsExactly(c, rest);
      }
    }
  }

  /** A template that passed the check fails for another reason than a missing variable
      exactly when an expression is unterminated and no variable is missing before it. */
  lemma CheckedTemplateFailsExactly(c: Context, s: string, declared: seq<string>, hasDefault: bool)
    requires Allocated(c, declared, hasDefault)
    requires forall text | text in Refs(Tokens(s)) :: Acceptable(text, declared, hasDefault)
    ensures Render(c, Tokens(s)) == Err(ConfigInvalid)
       <==> !Terminated(s) && forall text | text in Refs(Tokens(s)) :: Lookup(c, text).Ok?
  {
    TokensWellFormed(s);
    forall text | text in Refs(Tokens(s)) ensures Lookup(c, text) != Err(ConfigInvalid) {
      LookupFailsExactly(c, text, declared, hasDefault);
    }
    RenderFailsExactly(c, Tokens(s));
  }

  /** The check misses an open expression that follows a closing brace. */
  lemma CheckMissesOpenExpression(c: Context)
    ensures var s := "}${PORT";
            !LacksBrace(s) && Refs(Tokens(s)) == [] && !Terminated(s) && Render(c, Tokens(s)) == Err(ConfigInvalid)
  {
    var s, open := "}${PORT", "${PORT";
    assert s[0] == '}' && s[1..] == open && open[2..] == "PORT";
    assert open[|open|..] == "";
    assert Tokens(open) == [Unterminated];
    assert Tokens(s) == [Literal('}')] + Tokens(open);
    ConsLaws(c, Literal('}'), Tokens(open));
    ConsLaws(c, Unterminated, []);
    assert [Unterminated] + [] == [Unterminated];
    assert Tokens(s)[1] == Unterminated;
  }

  /** Whether a template expands, for all contexts. */
  lemma {:induction false} ExpandsExactly(c: Context, tokens: seq<Token>)
    ensures Render(c, tokens).Ok? <==> Unterminated !in tokens && forall text | text in Refs(tokens) :: Lookup(c, text).Ok?
  {
    if tokens != [] {
      hide Lookup, Render;
      var rest := tokens[1..];
      assert tokens == [tokens[0]] + rest;
      ConsLaws(c, tokens[0], rest);
      assert forall text :: text in Refs(tokens) <==> text in Refs(rest) || (tokens[0].Ref? && text == tokens[0].text);
      ExpandsExactly(c, rest);
    }
  }

  /** Without a closing brace no expression is ever complete. */
  lemma {:induction false} NoBraceNoReference(s: string)
    requires '}' !in s
    ensures Refs(Tokens(s)) == []
  {
    if s != "" {
      var (token, width) := Next(s);
      assert !token.Ref?;
      assert '}' !in s[width..];
      NoBraceNoReference(s[width..]);
      assert [token] + Tokens(s[width..]) == Tokens(s);
      assert Tokens(s)[1..] == Tokens(s[width..]);
    }
  }

  /** The cheap test is right exactly about templates with an open expression: any other
      template that it rejects expands, in every context. */
  lemma BraceTestExactly(c: Context, s: string)
    requires LacksBrace(s)
    ensures Render(c, Tokens(s)).Ok? <==> Terminated(s)
  {
    NoBraceNoReference(s);
    ExpandsExactly(c, Tokens(s));
  }

  /** The reference names an environment variable that is not there. */
  predicate VariableMissing(c: Context, text: string) {
    var ref := Cut(text);
    ref.name == "ENV" && ref.arg != "" && (c.env.None? || ref.arg !in c.env.value)
  }

  lemma NamesDiffer()
    ensures "ENV" != "PORT" && !IsDirectory("ENV") && !IsDirectory("PORT")
  {
    assert |"ENV"| == 3 && |"PORT"| == 4;
  }

  lemma LookupMissesExactly(c: Context, text: string)
    ensures Lookup(c, text) == Err(EnvMissing) <==> VariableMissing(c, text)
  {
    NamesDiffer();
    hide Cut, IsDirectory, Directory, Itoa;
  }

  lemma DiscouragedIsRejected(text: string, declared: seq<string>, hasDefault: bool)
    requires Discouraged(text)
    ensures !Acceptable(text, declared, hasDefault)
  {
    NamesDiffer();
    hide Cut, IsDirectory;
  }

  lemma LookupSucceedsExactly(c: Context, text: string, declared: seq<string>, hasDefault: bool)
    requires Allocated(c, declared, hasDefault)
    ensures Lookup(c, text).Ok?
       <==> (Acceptable(text, declared, hasDefault) || Discouraged(text)) && !VariableMissing(c, text)
  {
    hide *;
    LookupFailsExactly(c, text, declared, hasDefault);
    LookupMissesExactly(c, text);
    var result := Lookup(c, text);
    assert result.Ok? || result.error == ConfigInvalid || result.error == EnvMissing;
  }

  /** What the check rejects although it expands, with the ports allocated: every
      expression is closed, every reference is acceptable or merely discouraged and finds
      its variable, and the cheap test fires or some reference is discouraged. */
  lemma RejectedTemplateExpandsExactly(c: Context, s: string, declared: seq<string>, hasDefault: bool)
    requires Allocated(c, declared, hasDefault)
    ensures Render(c, Tokens(s)).Ok? && !Passes(s, declared, hasDefault)
       <==> && Terminated(s)
            && (LacksBrace(s) || exists text :: text in Refs(Tokens(s)) && Discouraged(text))
            && (forall text | text in Refs(Tokens(s)) ::
                  (Acceptable(text, declared, hasDefault) || Discouraged(text)) && !VariableMissing(c, text))
  {
    hide Render, Acceptable, Discouraged, VariableMissing, Lookup, Refs, Tokens;
    ExpandsExactly(c, Tokens(s));
    forall text ensures Lookup(c, text).Ok?
                   <==> (Acceptable(text, declared, hasDefault) || Discouraged(text)) && !VariableMissing(c, text)
                ensures Discouraged(text) ==> !Acceptable(text, declared, hasDefault)
    {
      LookupSucceedsExactly(c, text, declared, hasDefault);
      if Discouraged(text) {
        DiscouragedIsRejected(text, declared, hasDefault);
      }
    }
  }

  /** The check rejects an escaped brace that would expand. */
  lemma CheckRejectsEscapedBrace(c: Context)
    ensures LacksBrace("$${") && Render(c, Tokens("$${")) == Ok("${")
  {
    var s, open := "$${", "${";
    assert s[1..] == open && s[2..] == "{";
    assert Contains(s[1..], open);
    assert Contains(s, open);
    assert Escape("{") == "{" by {
      assert "{"[1..] == "";
    }
    assert Escape(open) == s by {
      assert open[1..] == "{";
    }
    EscapeIsUndone(c, open);
    assert '}' !in s;
  }
}
