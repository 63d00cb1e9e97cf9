/**
 The lines of the canonical text: a service, the name of a field, a value.
 */
module CanonicalLines {
  import opened Quoting

  const PLATFORMS: set<string> := {"windows", "macos", "linux"}

  // -------------------------------------------------------------------- field names

  datatype Field =
    | Runtime | WorkingDir | Command | Arguments | Shell | EnvFile | Env(key: string)
    | ComposeFile | ComposeService | ComposeProject
    | OverlayCommand(platform: string) | OverlayArguments(platform: string) | OverlayDir(platform: string)
    | OverlayEnv(platform: string, key: string)

  function FieldName(f: Field): string {
    match f
    case Runtime => "runtime"
    case WorkingDir => "cwd"
    case Command => "command"
    case Arguments => "args"
    case Shell => "shell"
    case EnvFile => "env_file"
    case Env(key) => "env." + key
    case ComposeFile => "compose.file"
    case ComposeService => "compose.service"
    case ComposeProject => "compose.project"
    case OverlayCommand(p) => "platform." + p + ".command"
    case OverlayArguments(p) => "platform." + p + ".args"
    case OverlayDir(p) => "platform." + p + ".cwd"
    case OverlayEnv(p, key) => "platform." + p + ".env." + key
  }

  predicate Overlaid(f: Field) {
    f.OverlayCommand? || f.OverlayArguments? || f.OverlayDir? || f.OverlayEnv?
  }

  predicate Known(f: Field) {
    Overlaid(f) ==> f.platform in PLATFORMS
  }

  /** The characters that tell the plain fields apart. */
  lemma PlainShape(f: Field)
    requires !Overlaid(f)
    ensures var s := FieldName(f);
            && |s| >= 3 && s[0] != 'p'
            && (f.Runtime? <==> s[0] == 'r') && (f.Arguments? <==> s[0] == 'a') && (f.Shell? <==> s[0] == 's')
            && (f.WorkingDir? <==> s[0] == 'c' && s[1] == 'w')
            && (f.EnvFile? <==> s[0] == 'e' && s[3] == '_')
            && (f.Env? <==> s[0] == 'e' && s[3] == '.')
            && (f.Env? ==> f.key == s[4..])
            && (f.Command? <==> s[0] == 'c' && s[1] == 'o' && s[3] == 'm')
            && (f.ComposeFile? <==> s[0] == 'c' && s[1] == 'o' && s[3] == 'p' && s[8] == 'f')
            && (f.ComposeService? <==> s[0] == 'c' && s[1] == 'o' && s[3] == 'p' && s[8] == 's')
            && (f.ComposeProject? <==> s[0] == 'c' && s[1] == 'o' && s[3] == 'p' && s[8] == 'p')
  {
  }

  /** The part of an overlay field's name after the platform. */
  function Rest(f: Field): string
    requires Overlaid(f)
  {
    match f
    case OverlayCommand(_) => ".command"
    case OverlayArguments(_) => ".args"
    case OverlayDir(_) => ".cwd"
    case OverlayEnv(_, key) => ".env." + key
  }

  lemma RestUnique(f: Field, g: Field)
    requires Overlaid(f) && Overlaid(g) && f.platform == g.platform && Rest(f) == Rest(g)
    ensures f == g
  {
    var s := Rest(f);
    assert f.OverlayCommand? <==> s[1] == 'c' && s[2] == 'o';
    assert f.OverlayDir? <==> s[1] == 'c' && s[2] == 'w';
    assert f.OverlayArguments? <==> s[1] == 'a';
    assert g.OverlayCommand? <==> s[1] == 'c' && s[2] == 'o';
    assert g.OverlayDir? <==> s[1] == 'c' && s[2] == 'w';
    assert g.OverlayArguments? <==> s[1] == 'a';
    if f.OverlayEnv? {
      assert f.key == s[5..] == g.key;
    }
  }

  lemma OverlaidShape(f: Field)
    requires Overlaid(f) && Known(f)
    ensures var s, p := FieldName(f), f.platform;
            && s == "platform." + (p + Rest(f))
            && s[0] == 'p' && |s| > 9
            && (p == "windows" <==> s[9] == 'w') && (p == "macos" <==> s[9] == 'm') && (p == "linux" <==> s[9] == 'l')
  {
  }

  /** Different fields have different names. */
  lemma FieldNameUnique(f: Field, g: Field)
    requires Known(f) && Known(g) && FieldName(f) == FieldName(g)
    ensures f == g
  {
    hide FieldName;
    if Overlaid(f) {
      OverlaidShape(f);
    } else {
      PlainShape(f);
    }
    if Overlaid(g) {
      OverlaidShape(g);
    } else {
      PlainShape(g);
    }
    if Overlaid(f) {
      assert f.platform == g.platform;
      SamePrefix("platform.", f.platform + Rest(f), "platform.", g.platform + Rest(g));
      SamePrefix(f.platform, Rest(f), g.platform, Rest(g));
      RestUnique(f, g);
    }
  }

  // -------------------------------------------------------------------------- lines

  datatype Line = Line(service: string, field: Field, value: string)

  function LineText(l: Line): string {
    l.service + (['\t'] + (FieldName(l.field) + (['\t'] + (l.value + ['\n']))))
  }

  function Render(lines: seq<Line>): string {
    if lines == [] then "" else Render(lines[..|lines| - 1]) + LineText(lines[|lines| - 1])
  }

  predicate CleanLine(l: Line) {
    '\t' !in l.service && '\t' !in FieldName(l.field) && '\n' !in l.value && Known(l.field)
  }

  lemma {:induction false} RenderAppend(a: seq<Line>, b: seq<Line>)
    ensures Render(a + b) == Render(a) + Render(b)
  {
    hide LineText;
    if b == [] {
      assert a + b == a;
    } else {
      assert (a + b)[..|a + b| - 1] == a + b[..|b| - 1];
      RenderAppend(a, b[..|b| - 1]);
    }
  }

  lemma RenderOne(l: Line)
    ensures Render([l]) == LineText(l)
  {
  }

  lemma LineEnds(l: Line, rest: string)
    ensures LineText(l) + rest
         == l.service + (['\t'] + (FieldName(l.field) + (['\t'] + (l.value + (['\n'] + rest)))))
  {
  }

  lemma LineUnique(l: Line, x: string, m: Line, y: string)
    requires CleanLine(l) && CleanLine(m) && LineText(l) + x == LineText(m) + y
    ensures l == m && x == y
  {
    hide FieldName, LineText;
    LineEnds(l, x);
    LineEnds(m, y);
    var afterL, afterM := l.value + (['\n'] + x), m.value + (['\n'] + y);
    CutUnique(l.service, FieldName(l.field) + (['\t'] + afterL), m.service, FieldName(m.field) + (['\t'] + afterM), '\t');
    CutUnique(FieldName(l.field), afterL, FieldName(m.field), afterM, '\t');
    CutUnique(l.value, x, m.value, y, '\n');
    FieldNameUnique(l.field, m.field);
  }

  lemma RenderCons(lines: seq<Line>)
    ensures lines != [] ==> Render(lines) == LineText(lines[0]) + Render(lines[1..])
    ensures Render(lines) == "" <==> lines == []
  {
    if lines != [] {
      RenderAppend([lines[0]], lines[1..]);
      RenderOne(lines[0]);
      assert lines == [lines[0]] + lines[1..];
    }
  }

  /** A text can be read back into clean lines in one way only. */
  lemma {:induction false} RenderUnique(a: seq<Line>, b: seq<Line>)
    requires forall l | l in a :: CleanLine(l)
    requires forall l | l in b :: CleanLine(l)
    requires Render(a) == Render(b)
    ensures a == b
  {
    hide Render, CleanLine, LineText;
    RenderCons(a);
    RenderCons(b);
    if a != [] {
      LineUnique(a[0], Render(a[1..]), b[0], Render(b[1..]));
      RenderUnique(a[1..], b[1..]);
      assert a == [a[0]] + a[1..] && b == [b[0]] + b[1..];
    }
  }
}
