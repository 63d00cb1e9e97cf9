/**
 Turning the byte stream of a process into log lines.  The stream arrives in
 arbitrary chunks; text is a string of bytes.
 */
module LineWriter {
  import opened Text

  /** Lines emitted so far, before trimming, and the bytes still waiting. */
  datatype State = State(lines: seq<string>, partial: string)

  const EMPTY := State([], "")

  // ------------------------------------------------------------------------ text

  function FirstNewline(p: string): (i: int)
    ensures -1 <= i < |p|
    ensures i == -1 ==> '\n' !in p
    ensures i >= 0 ==> p[i] == '\n' && '\n' !in p[..i]
  {
    if p == "" then -1
    else if p[0] == '\n' then 0
    else
      var rest := FirstNewline(p[1..]);
      assert p == [p[0]] + p[1..];
      assert rest >= 0 ==> p[..rest + 1] == [p[0]] + p[1..][..rest];
      if rest < 0 then -1 else rest + 1
  }

  /** The text without its trailing carriage returns. */
  function TrimRight(s: string): (r: string)
    ensures r <= s && (r == "" || r[|r| - 1] != '\r')
    ensures forall i | |r| <= i < |s| :: s[i] == '\r'
  {
    if s != "" && s[|s| - 1] == '\r' then TrimRight(s[..|s| - 1]) else s
  }

  function Trimmed(lines: seq<string>): seq<string> {
    seq(|lines|, i requires 0 <= i < |lines| => TrimRight(lines[i]))
  }

  function Concat(lines: seq<string>): string {
    if lines == [] then "" else Concat(lines[..|lines| - 1]) + lines[|lines| - 1]
  }

  function WithoutNewlines(s: string): string {
    if s == "" then ""
    else WithoutNewlines(s[..|s| - 1]) + if s[|s| - 1] == '\n' then "" else [s[|s| - 1]]
  }

  // ------------------------------------------------------------- what one Write does

  /** Cutting `s` into lines of `max` bytes and a shorter remainder. */
  function Chop(s: string, max: nat): (r: State)
    requires max > 0
    ensures |r.partial| < max
  {
    if |s| < max then State([], s)
    else
      var rest := Chop(s[max..], max);
      State([s[..max]] + rest.lines, rest.partial)
  }

  /** A newline ends the waiting line whatever its length; without one the waiting
      bytes are cut at the limit. */
  function Feed(w: State, p: string, max: nat): State
    requires max > 0
    decreases |p|
  {
    var i := FirstNewline(p);
    if i >= 0 then Feed(State(w.lines + [w.partial + p[..i]], ""), p[i + 1..], max)
    else
      var cut := Chop(w.partial + p, max);
      State(w.lines + cut.lines, cut.partial)
  }

  /** The state of a fresh writer after a list of chunks. */
  function FeedAll(chunks: seq<string>, max: nat): State
    requires max > 0
  {
    if chunks == [] then EMPTY
    else Feed(FeedAll(chunks[..|chunks| - 1], max), chunks[|chunks| - 1], max)
  }

  // ----------------------------------------------------------------- independent view

  /** The lines of a text and what follows its last newline. */
  function Split(s: string): State {
    if s == "" then EMPTY
    else
      var before, c := Split(s[..|s| - 1]), s[|s| - 1];
      if c == '\n' then State(before.lines + [before.partial], "")
      else State(before.lines, before.partial + [c])
  }

  /** The lines of a text, with only the unfinished one cut at the limit. */
  function Ideal(s: string, max: nat): State
    requires max > 0
  {
    var cut := Chop(Split(s).partial, max);
    State(Split(s).lines + cut.lines, cut.partial)
  }

  /** Every finished line is below the limit. */
  ghost predicate Short(s: string, max: nat) {
    forall i | 0 <= i < |Split(s).lines| :: |Split(s).lines[i]| < max
  }

  // -------------------------------------------------------------------------- lemmas

  lemma {:induction false} ConcatAppend(a: seq<string>, b: seq<string>)
    ensures Concat(a + b) == Concat(a) + Concat(b)
  {
    if b == [] {
      assert a + b == a;
    } else {
      assert (a + b)[..|a + b| - 1] == a + b[..|b| - 1];
      ConcatAppend(a, b[..|b| - 1]);
      Associate(Concat(a), Concat(b[..|b| - 1]), b[|b| - 1]);
    }
  }

  lemma ConcatOne(line: string)
    ensures Concat([line]) == line
  {
  }

  lemma {:induction false} WithoutNewlinesAppend(a: string, b: string)
    ensures WithoutNewlines(a + b) == WithoutNewlines(a) + WithoutNewlines(b)
  {
    if b == "" {
      assert a + b == a;
    } else {
      assert (a + b)[..|a + b| - 1] == a + b[..|b| - 1];
      WithoutNewlinesAppend(a, b[..|b| - 1]);
    }
  }

  lemma {:induction false} NothingRemoved(s: string)
    requires '\n' !in s
    ensures WithoutNewlines(s) == s
  {
    if s != "" {
      assert s == s[..|s| - 1] + [s[|s| - 1]];
      NothingRemoved(s[..|s| - 1]);
    }
  }

  lemma CutAt(s: string, n: nat)
    requires n <= |s|
    ensures s[..n] + s[n..] == s
  {
  }

  lemma {:induction false} ChopConserves(s: string, max: nat)
    requires max > 0
    ensures Concat(Chop(s, max).lines) + Chop(s, max).partial == s
  {
    if |s| >= max {
      var rest := Chop(s[max..], max);
      hide Concat;
      ChopConserves(s[max..], max);
      ConcatAppend([s[..max]], rest.lines);
      ConcatOne(s[..max]);
      Associate(s[..max], Concat(rest.lines), rest.partial);
      CutAt(s, max);
    }
  }

  lemma NewlineIsRemoved(a: string, b: string)
    requires '\n' !in a
    ensures WithoutNewlines(a + ("\n" + b)) == a + WithoutNewlines(b)
  {
    assert WithoutNewlines("\n") == "";
    hide WithoutNewlines;
    NothingRemoved(a);
    WithoutNewlinesAppend("\n", b);
    assert "" + WithoutNewlines(b) == WithoutNewlines(b);
    WithoutNewlinesAppend(a, "\n" + b);
  }

  lemma Regroup(a: string, b: string, c: string, d: string)
    ensures (a + (b + c)) + d == a + b + (c + d)
  {
  }

  /** One write neither loses nor invents a byte. */
  lemma {:induction false} FeedConserves(w: State, p: string, max: nat)
    requires max > 0
    ensures var after := Feed(w, p, max);
            && Concat(after.lines) + after.partial == Concat(w.lines) + w.partial + WithoutNewlines(p)
            && |after.partial| < max
    decreases |p|
  {
    hide Concat, WithoutNewlines, Chop;
    var i := FirstNewline(p);
    if i >= 0 {
      FeedConserves(State(w.lines + [w.partial + p[..i]], ""), p[i + 1..], max);
      LineConserves(w, p, i);
    } else {
      CutConserves(w, p, max);
    }
  }

  lemma LineConserves(w: State, p: string, i: nat)
    requires i < |p| && p[i] == '\n' && '\n' !in p[..i]
    ensures Concat(w.lines + [w.partial + p[..i]]) + "" + WithoutNewlines(p[i + 1..])
         == Concat(w.lines) + w.partial + WithoutNewlines(p)
  {
    hide *;
    var line, rest := w.partial + p[..i], p[i + 1..];
    ConcatAppend(w.lines, [line]);
    ConcatOne(line);
    CutAtNewline(p, i);
    NewlineIsRemoved(p[..i], rest);
    Regroup(Concat(w.lines), w.partial, p[..i], WithoutNewlines(rest));
    assert Concat(w.lines) + line + "" == Concat(w.lines) + line;
  }

  lemma CutAtNewline(p: string, i: nat)
    requires i < |p| && p[i] == '\n'
    ensures p == p[..i] + ("\n" + p[i + 1..])
  {
  }

  lemma CutConserves(w: State, p: string, max: nat)
    requires max > 0 && '\n' !in p
    ensures var cut := Chop(w.partial + p, max);
            Concat(w.lines + cut.lines) + cut.partial == Concat(w.lines) + w.partial + WithoutNewlines(p)
  {
    hide Concat, WithoutNewlines, Chop;
    var cut := Chop(w.partial + p, max);
    ChopConserves(w.partial + p, max);
    ConcatAppend(w.lines, cut.lines);
    NothingRemoved(p);
    Regroup(Concat(w.lines), "", Concat(cut.lines), cut.partial);
    assert "" + Concat(cut.lines) == Concat(cut.lines);
    assert Concat(w.lines) + "" == Concat(w.lines);
    assert Concat(w.lines) + (w.partial + p) == Concat(w.lines) + w.partial + p;
  }

  /** However the stream is chunked, the lines followed by the waiting bytes are the
      stream without its newlines, and fewer than the limit are waiting. */
  lemma {:induction false} BytesAreConserved(chunks: seq<string>, max: nat)
    requires max > 0
    ensures var w := FeedAll(chunks, max);
            && Concat(w.lines) + w.partial == WithoutNewlines(Concat(chunks))
            && |w.partial| < max
  {
    if chunks != [] {
      var front, last := chunks[..|chunks| - 1], chunks[|chunks| - 1];
      BytesAreConserved(front, max);
      FeedConserves(FeedAll(front, max), last, max);
      WithoutNewlinesAppend(Concat(front), last);
    }
  }

  lemma {:induction false} ChopAppend(a: string, b: string, max: nat)
    requires max > 0
    ensures var first := Chop(a, max); var second := Chop(first.partial + b, max);
            Chop(a + b, max) == State(first.lines + second.lines, second.partial)
  {
    if |a| >= max {
      ChopAppend(a[max..], b, max);
      assert (a + b)[..max] == a[..max];
      assert (a + b)[max..] == a[max..] + b;
    }
  }

  lemma {:induction false} SplitAppend(s: string, p: string)
    requires '\n' !in p
    ensures Split(s + p) == State(Split(s).lines, Split(s).partial + p)
  {
    if p == "" {
      assert s + p == s;
    } else {
      var front, last := p[..|p| - 1], p[|p| - 1];
      assert (s + p)[..|s + p| - 1] == s + front;
      SplitAppend(s, front);
      assert front + [last] == p;
    }
  }

  lemma SplitLine(s: string, p: string)
    requires '\n' !in p
    ensures Split(s + p + "\n") == State(Split(s).lines + [Split(s).partial + p], "")
  {
    var t := s + p + "\n";
    assert t[..|t| - 1] == s + p;
    SplitAppend(s, p);
  }

  lemma {:induction false} SplitKeepsLines(s: string, t: string)
    ensures Split(s).lines <= Split(s + t).lines
  {
    if t == "" {
      assert s + t == s;
    } else {
      assert (s + t)[..|s + t| - 1] == s + t[..|t| - 1];
      SplitKeepsLines(s, t[..|t| - 1]);
    }
  }

  /** A newline ends the ideal state's waiting line when it has not been cut. */
  lemma IdealLine(s: string, p: string, max: nat)
    requires |Split(s).partial| < max && '\n' !in p
    ensures Ideal(s + p + "\n", max) == State(Ideal(s, max).lines + [Ideal(s, max).partial + p], "")
  {
    SplitLine(s, p);
    assert forall lines: seq<string> :: lines + [] == lines;
  }

  /** Without a newline the waiting bytes may have been cut already. */
  lemma IdealCut(s: string, p: string, max: nat)
    requires max > 0 && '\n' !in p
    ensures Feed(Ideal(s, max), p, max) == Ideal(s + p, max)
  {
    hide Split, Chop;
    var open := Split(s).partial;
    SplitAppend(s, p);
    ChopAppend(open, p, max);
    var first := Chop(open, max);
    Associate(Split(s).lines, first.lines, Chop(first.partial + p, max).lines);
  }

  /** From the ideal state, one write of a text whose finished lines are short leads
      to the ideal state.  A line that begins with the write may be of any length. */
  lemma {:induction false} IdealStep(s: string, p: string, max: nat)
    requires max > 0
    requires Short(s + p, max) || Split(s).partial == ""
    ensures Feed(Ideal(s, max), p, max) == Ideal(s + p, max)
    decreases |p|
  {
    var i := FirstNewline(p);
    if i >= 0 {
      var upTo := s + p[..i] + "\n";
      assert s + p == upTo + p[i + 1..];
      OpenLineIsShort(s, p[..i], p[i + 1..], max);
      IdealLine(s, p[..i], max);
      SplitLine(s, p[..i]);
      IdealStep(upTo, p[i + 1..], max);
    } else {
      IdealCut(s, p, max);
    }
  }

  lemma OpenLineIsShort(s: string, a: string, b: string, max: nat)
    requires max > 0 && '\n' !in a
    requires Short(s + a + "\n" + b, max) || Split(s).partial == ""
    ensures |Split(s).partial| < max
  {
    var k := |Split(s).lines|;
    SplitLine(s, a);
    SplitKeepsLines(s + a + "\n", b);
    assert Split(s + a + "\n" + b).lines[k] == Split(s).partial + a;
  }

  lemma ShortPrefix(s: string, t: string, max: nat)
    requires Short(s + t, max)
    ensures Short(s, max)
  {
    SplitKeepsLines(s, t);
    forall i | 0 <= i < |Split(s).lines|
      ensures |Split(s).lines[i]| < max
    {
      assert Split(s).lines[i] == Split(s + t).lines[i];
    }
  }

  /** With short lines, the result does not depend on the chunks. */
  lemma {:induction false} ShortLinesAreIdeal(chunks: seq<string>, max: nat)
    requires max > 0 && Short(Concat(chunks), max)
    ensures FeedAll(chunks, max) == Ideal(Concat(chunks), max)
  {
    if chunks != [] {
      var front, last := chunks[..|chunks| - 1], chunks[|chunks| - 1];
      ShortPrefix(Concat(front), last, max);
      ShortLinesAreIdeal(front, max);
      IdealStep(Concat(front), last, max);
    }
  }

  /** Written at once, a text always gives the ideal result. */
  lemma WrittenAtOnceIsIdeal(s: string, max: nat)
    requires max > 0
    ensures FeedAll([s], max) == Ideal(s, max) && Concat([s]) == s
  {
    assert [s][..0] == [];
    ConcatOne(s);
    IdealStep("", s, max);
    assert Split("") == EMPTY && Ideal("", max) == EMPTY;
    assert "" + s == s;
  }

  /** One byte per write. */
  function Bytes(s: string): seq<string> {
    seq(|s|, i requires 0 <= i < |s| => [s[i]])
  }

  /** Byte by byte, every finished line over the limit is cut. */
  ghost predicate Cuts(s: string, w: State, max: nat)
    requires max > 0
  {
    && w.partial == Chop(Split(s).partial, max).partial
    && |w.lines| >= |Ideal(s, max).lines|
    && (!Short(s, max) ==> |w.lines| > |Ideal(s, max).lines|)
  }

  lemma {:induction false} BytewiseCuts(s: string, max: nat)
    requires max > 0
    ensures Concat(Bytes(s)) == s && Cuts(s, FeedAll(Bytes(s), max), max)
  {
    if s != "" {
      var front, c := s[..|s| - 1], s[|s| - 1];
      assert Bytes(s)[..|Bytes(s)| - 1] == Bytes(front);
      assert s == front + [c];
      BytewiseCuts(front, max);
      if c == '\n' {
        NewlineCuts(front, FeedAll(Bytes(front), max), max);
      } else {
        ByteCuts(front, c, FeedAll(Bytes(front), max), max);
      }
    }
  }

  lemma ByteCuts(s: string, c: char, w: State, max: nat)
    requires max > 0 && c != '\n' && Cuts(s, w, max)
    ensures Cuts(s + [c], Feed(w, [c], max), max)
  {
    hide Short, Chop;
    assert FirstNewline([c]) == -1;
    assert (s + [c])[..|s|] == s;
    ChopAppend(Split(s).partial, [c], max);
    SameLines(s, c, max);
  }

  lemma SameLines(s: string, c: char, max: nat)
    requires c != '\n'
    ensures Short(s + [c], max) == Short(s, max)
  {
    assert (s + [c])[..|s|] == s;
    assert Split(s + [c]).lines == Split(s).lines;
  }

  lemma NewlineCuts(s: string, w: State, max: nat)
    requires max > 0 && Cuts(s, w, max)
    ensures Cuts(s + "\n", Feed(w, "\n", max), max)
  {
  }

  /** The lines do not depend on how the stream was chunked exactly when every
      finished line is below the limit. */
  lemma ChunkingIrrelevantExactly(s: string, max: nat)
    requires max > 0
    ensures (forall chunks | Concat(chunks) == s :: FeedAll(chunks, max) == Ideal(s, max))
       <==> Short(s, max)
  {
    if Short(s, max) {
      forall chunks | Concat(chunks) == s
        ensures FeedAll(chunks, max) == Ideal(s, max)
      {
        ShortLinesAreIdeal(chunks, max);
      }
    } else {
      BytewiseCuts(s, max);
      assert Concat(Bytes(s)) == s && FeedAll(Bytes(s), max) != Ideal(s, max);
    }
  }

  /** The limit bounds the waiting bytes but not a line: one that arrives together
      with its newline is emitted whole. */
  lemma LineOverTheLimit(line: string, max: nat)
    requires max > 0 && '\n' !in line
    ensures FeedAll([line + "\n"], max) == State([line], "")
  {
    assert Chop("", max) == EMPTY;
    hide FeedAll, Chop;
    WrittenAtOnceIsIdeal(line + "\n", max);
    SplitLine("", line);
    assert "" + line + "\n" == line + "\n";
    assert "" + line == line;
    assert [line] + [] == [line];
  }

  ghost predicate Within(lines: seq<string>, max: nat) {
    forall i | 0 <= i < |lines| :: |lines[i]| <= max
  }

  /** Without a newline, lines are cut at the limit and nowhere else. */
  lemma {:induction false} ChopIsExact(s: string, max: nat)
    requires max > 0
    ensures forall line <- Chop(s, max).lines :: |line| == max
  {
    if |s| >= max {
      ChopIsExact(s[max..], max);
    }
  }

  lemma {:induction false} ChopWithin(s: string, max: nat)
    requires max > 0
    ensures Within(Chop(s, max).lines, max) && |Chop(s, max).partial| <= |s|
  {
    if |s| >= max {
      ChopWithin(s[max..], max);
    }
  }

  /** The waiting bytes never exceed the unfinished line of the text, so a line is longer
      than the limit only if the text has such a line. */
  lemma {:induction false} FeedWithin(s: string, w: State, p: string, max: nat)
    requires max > 0 && Within(w.lines, max) && |w.partial| <= |Split(s).partial|
    requires Within(Split(s + p).lines, max)
    ensures var after := Feed(w, p, max);
            Within(after.lines, max) && |after.partial| <= |Split(s + p).partial|
    decreases |p|
  {
    hide Split, Chop;
    var i := FirstNewline(p);
    if i >= 0 {
      var upTo, line := s + p[..i] + "\n", w.partial + p[..i];
      assert s + p == upTo + p[i + 1..];
      SplitLine(s, p[..i]);
      SplitKeepsLines(upTo, p[i + 1..]);
      var k := |Split(s).lines|;
      assert Split(s + p).lines[k] == Split(s).partial + p[..i];
      FeedWithin(upTo, State(w.lines + [line], ""), p[i + 1..], max);
    } else {
      SplitAppend(s, p);
      ChopWithin(w.partial + p, max);
    }
  }

  lemma {:induction false} FeedAllWithin(chunks: seq<string>, max: nat)
    requires max > 0 && Within(Split(Concat(chunks)).lines, max)
    ensures var w := FeedAll(chunks, max);
            Within(w.lines, max) && |w.partial| <= |Split(Concat(chunks)).partial|
  {
    hide Split, Chop, Feed;
    if chunks != [] {
      var front, last := chunks[..|chunks| - 1], chunks[|chunks| - 1];
      SplitKeepsLines(Concat(front), last);
      assert forall i | 0 <= i < |Split(Concat(front)).lines| ::
          Split(Concat(front)).lines[i] == Split(Concat(chunks)).lines[i];
      FeedAllWithin(front, max);
      FeedWithin(Concat(front), FeedAll(front, max), last, max);
    }
  }

  /** Whatever the chunks, no line emitted is longer than the limit, exactly when no
      finished line of the text is. */
  lemma LineLimitExactly(s: string, max: nat)
    requires max > 0
    ensures (forall chunks | Concat(chunks) == s :: Within(FeedAll(chunks, max).lines, max))
       <==> Within(Split(s).lines, max)
  {
    hide FeedAll, Split, Chop;
    if Within(Split(s).lines, max) {
      forall chunks | Concat(chunks) == s
        ensures Within(FeedAll(chunks, max).lines, max)
      {
        FeedAllWithin(chunks, max);
      }
    } else {
      WrittenAtOnceIsIdeal(s, max);
      var i :| 0 <= i < |Split(s).lines| && |Split(s).lines[i]| > max;
      assert FeedAll([s], max).lines[i] == Split(s).lines[i];
    }
  }

  /** The cutting is over. */
  lemma CutEnds(before: seq<string>, cut: State, lines: seq<string>, partial: string, s: string, max: nat)
    requires max > 0 && cut == Chop(s, max) && |partial| < max
    requires lines + Chop(partial, max).lines == before + cut.lines
    ensures lines == before + cut.lines && before <= lines && forall line <- lines[|before|..] :: |line| == max
  {
    ChopIsExact(s, max);
    assert Chop(partial, max).lines == [];
    assert lines + [] == lines;
    assert lines[|before|..] == cut.lines;
  }

  // -------------------------------------------------------------------------- writer

  class LineWriter {
    const max: nat
    var partial: string
    /** The messages appended to the service log. */
    var messages: seq<string>
    ghost var lines: seq<string>

    ghost predicate Recorded()
      reads this
    {
      max > 0 && messages == Trimmed(lines)
    }

    ghost predicate Valid()
      reads this
    {
      Recorded() && |partial| < max
    }

    ghost function Now(): State
      reads this
    {
      State(lines, partial)
    }

    constructor (max: nat)
      requires max > 0
      ensures Valid() && this.max == max && Now() == EMPTY
    {
      this.max, partial, messages, lines := max, "", [], [];
    }

    method Write(chunk: string) returns (consumed: nat)
      requires Valid()
      modifies this
      ensures Valid() && consumed == |chunk|
      ensures Now() == Feed(old(Now()), chunk, max)
    {
      consumed := |chunk|;
      var p := chunk;
      while |p| > 0
        invariant Valid()
        invariant Feed(Now(), p, max) == Feed(old(Now()), chunk, max)
        invariant p == "" ==> Now() == Feed(old(Now()), chunk, max)
        decreases |p|
      {
        var i := FirstNewline(p);
        if i < 0 {
          CutPartial(p);
          break;
        }
        var line := partial + p[..i];
        partial := "";
        Emit(line);
        p := p[i + 1..];
      }
    }

    /** Adds bytes without a newline to the waiting ones and cuts at the limit. */
    method CutPartial(p: string)
      requires Valid()
      modifies this
      ensures Valid()
      ensures var cut := Chop(old(partial) + p, max);
              Now() == State(old(lines) + cut.lines, cut.partial)
      ensures old(lines) <= lines && forall line <- lines[|old(lines)|..] :: |line| == max
    {
      ghost var cut := Chop(partial + p, max);
      partial := partial + p;
      while |partial| >= max
        invariant Recorded()
        invariant var done := Chop(partial, max);
                  lines + done.lines == old(lines) + cut.lines && done.partial == cut.partial
        decreases |partial|
      {
        ghost var before, rest := lines, Chop(partial[max..], max);
        Emit(partial[..max]);
        partial := partial[max..];
        assert lines + rest.lines == before + ([lines[|before|]] + rest.lines);
      }
      CutEnds(old(lines), cut, lines, partial, old(partial) + p, max);
    }

    /** Emits the unfinished line of a process that has exited. */
    method Flush()
      requires Valid()
      modifies this
      ensures Valid()
      ensures Now() == State(old(lines) + if old(partial) == "" then [] else [old(partial)], "")
    {
      if |partial| > 0 {
        var line := partial;
        partial := "";
        Emit(line);
      }
    }

    method Emit(line: string)
      requires Recorded()
      modifies this`lines, this`messages
      ensures Recorded() && lines == old(lines) + [line]
    {
      lines := lines + [line];
      messages := messages + [TrimRight(line)];
    }
  }
}
