/**
 The canonical text of everything a configuration lets DevMan execute.  Approval of a
 project is bound to it.
 */
module Fingerprint {
  import opened Wrappers
  import opened Text
  import opened Quoting
  import opened CanonicalLines

  datatype Overlay = Overlay(command: string, args: Option<seq<string>>, cwd: string, env: map<string, string>)

  datatype Compose = Compose(file: string, service: string, project: string)

  datatype Service = Service(
    runtime: string,
    cwd: string,
    command: string,
    args: seq<string>,
    shellEnabled: bool,
    shellType: string,
    envFile: seq<string>,
    env: map<string, string>,
    compose: Option<Compose>,
    platform: map<string, Option<Overlay>>)

  /** Services by name; an entry may be empty. */
  type Services = map<string, Option<Service>>

  const HEADER := "devman-exec-fingerprint/1\n"

  ghost function Present<T>(m: map<string, Option<T>>): set<string> {
    set k | k in m && m[k].Some?
  }

  function Value(m: map<string, string>, key: string): string {
    if key in m then m[key] else ""
  }

  function Args(o: Overlay): seq<string> {
    if o.args.Some? then o.args.value else []
  }

  // ------------------------------------------------------------- the canonical text

  function ShellText(svc: Service): string {
    (if svc.shellEnabled then "true/" else "false/") + svc.shellType
  }

  /** An environment variable of the service itself or of its overlay for a platform. */
  function EnvField(owner: Option<string>, key: string): Field {
    if owner.None? then Env(key) else OverlayEnv(owner.value, key)
  }

  function EnvLines(name: string, owner: Option<string>, env: map<string, string>, keys: seq<string>): seq<Line> {
    if keys == [] then []
    else
      var key := keys[|keys| - 1];
      EnvLines(name, owner, env, keys[..|keys| - 1]) + [Line(name, EnvField(owner, key), Value(env, key))]
  }

  function BaseLines(name: string, svc: Service, wide: set<char>): seq<Line> {
    [ Line(name, Runtime, svc.runtime),
      Line(name, WorkingDir, svc.cwd),
      Line(name, Command, svc.command),
      Line(name, Arguments, Quote(Join(svc.args), wide)),
      Line(name, Shell, ShellText(svc)),
      Line(name, EnvFile, Join(svc.envFile)) ]
  }

  function ComposeLines(name: string, compose: Option<Compose>): seq<Line> {
    if compose.None? then []
    else
      [ Line(name, ComposeFile, compose.value.file),
        Line(name, ComposeService, compose.value.service),
        Line(name, ComposeProject, compose.value.project) ]
  }

  function OverlayBase(name: string, p: string, o: Overlay, wide: set<char>): seq<Line> {
    [ Line(name, OverlayCommand(p), o.command),
      Line(name, OverlayArguments(p), Quote(Join(Args(o)), wide)),
      Line(name, OverlayDir(p), o.cwd) ]
  }

  ghost function OverlayLines(name: string, p: string, o: Option<Overlay>, wide: set<char>): seq<Line> {
    if o.None? then []
    else OverlayBase(name, p, o.value, wide) + EnvLines(name, Some(p), o.value.env, Sort(o.value.env.Keys))
  }

  function Entry<T>(m: map<string, Option<T>>, key: string): Option<T> {
    if key in m then m[key] else None
  }

  ghost function PlatformLines(name: string, platform: map<string, Option<Overlay>>, keys: seq<string>,
                               wide: set<char>): seq<Line>
  {
    if keys == [] then []
    else
      var p := keys[|keys| - 1];
      PlatformLines(name, platform, keys[..|keys| - 1], wide) + OverlayLines(name, p, Entry(platform, p), wide)
  }

  ghost function ServiceLines(name: string, entry: Option<Service>, wide: set<char>): seq<Line> {
    if entry.None? then []
    else
      var svc := entry.value;
      BaseLines(name, svc, wide)
      + EnvLines(name, None, svc.env, Sort(svc.env.Keys))
      + ComposeLines(name, svc.compose)
      + PlatformLines(name, svc.platform, Sort(svc.platform.Keys), wide)
  }

  ghost function AllLines(services: Services, names: seq<string>, wide: set<char>): seq<Line> {
    if names == [] then []
    else
      var name := names[|names| - 1];
      AllLines(services, names[..|names| - 1], wide) + ServiceLines(name, Entry(services, name), wide)
  }

  ghost function CanonicalText(services: Services, wide: set<char>): string {
    HEADER + Render(AllLines(services, Sort(services.Keys), wide))
  }

  // ------------------------------------------------------------------- covered fields

  function OverlayValue(o: Overlay, f: Field, wide: set<char>): Option<string>
    requires Overlaid(f)
  {
    match f
    case OverlayCommand(_) => Some(o.command)
    case OverlayArguments(_) => Some(Quote(Join(Args(o)), wide))
    case OverlayDir(_) => Some(o.cwd)
    case OverlayEnv(_, key) => if key in o.env then Some(o.env[key]) else None
  }

  function PlainValue(svc: Service, f: Field, wide: set<char>): Option<string>
    requires !Overlaid(f)
  {
    match f
    case Runtime => Some(svc.runtime)
    case WorkingDir => Some(svc.cwd)
    case Command => Some(svc.command)
    case Arguments => Some(Quote(Join(svc.args), wide))
    case Shell => Some(ShellText(svc))
    case EnvFile => Some(Join(svc.envFile))
    case Env(key) => if key in svc.env then Some(svc.env[key]) else None
    case ComposeFile => if svc.compose.Some? then Some(svc.compose.value.file) else None
    case ComposeService => if svc.compose.Some? then Some(svc.compose.value.service) else None
    case ComposeProject => if svc.compose.Some? then Some(svc.compose.value.project) else None
  }

  /** What a configuration says about a field of a service, if anything. */
  function FieldValue(svc: Service, f: Field, wide: set<char>): Option<string> {
    if !Overlaid(f) then PlainValue(svc, f, wide)
    else
      var o := Entry(svc.platform, f.platform);
      if o.None? then None else OverlayValue(o.value, f, wide)
  }

  function EnvKey(owner: Option<string>, f: Field): Option<string> {
    if owner.None? && f.Env? then Some(f.key)
    else if owner.Some? && f.OverlayEnv? && f.platform == owner.value then Some(f.key)
    else None
  }

  lemma {:induction false} EnvMember(name: string, owner: Option<string>, env: map<string, string>,
                                     keys: seq<string>, l: Line)
    ensures l in EnvLines(name, owner, env, keys)
       <==> l.service == name && EnvKey(owner, l.field).Some? && EnvKey(owner, l.field).value in keys
            && l.value == Value(env, EnvKey(owner, l.field).value)
  {
    if keys != [] {
      var front, key := keys[..|keys| - 1], keys[|keys| - 1];
      assert keys == front + [key];
      EnvMember(name, owner, env, front, l);
      assert l == Line(name, EnvField(owner, key), Value(env, key))
        <==> l.service == name && EnvKey(owner, l.field) == Some(key) && l.value == Value(env, key);
    }
  }

  lemma OverlayMember(name: string, p: string, o: Option<Overlay>, wide: set<char>, l: Line)
    ensures l in OverlayLines(name, p, o, wide)
       <==> l.service == name && o.Some? && Overlaid(l.field) && l.field.platform == p
            && OverlayValue(o.value, l.field, wide) == Some(l.value)
  {
    hide Quote, Join, EnvLines;
    if o.Some? {
      var keys := Sort(o.value.env.Keys);
      EnvMember(name, Some(p), o.value.env, keys, l);
      assert forall k :: k in keys <==> k in Elements(keys);
    }
  }

  lemma {:induction false} PlatformMember(name: string, platform: map<string, Option<Overlay>>, keys: seq<string>,
                                          wide: set<char>, l: Line)
    ensures l in PlatformLines(name, platform, keys, wide)
       <==> l.service == name && Overlaid(l.field) && l.field.platform in keys
            && Entry(platform, l.field.platform).Some?
            && OverlayValue(Entry(platform, l.field.platform).value, l.field, wide) == Some(l.value)
  {
    hide OverlayLines, OverlayValue;
    if keys != [] {
      var front, p := keys[..|keys| - 1], keys[|keys| - 1];
      assert keys == front + [p];
      PlatformMember(name, platform, front, wide, l);
      OverlayMember(name, p, Entry(platform, p), wide, l);
    }
  }

  lemma BaseMember(name: string, svc: Service, wide: set<char>, l: Line)
    ensures l in BaseLines(name, svc, wide)
       <==> l.service == name && !Overlaid(l.field) && !l.field.Env? && !InCompose(l.field)
            && PlainValue(svc, l.field, wide) == Some(l.value)
  {
  }

  predicate InCompose(f: Field) {
    f.ComposeFile? || f.ComposeService? || f.ComposeProject?
  }

  lemma ComposeMember(name: string, svc: Service, wide: set<char>, l: Line)
    ensures l in ComposeLines(name, svc.compose)
       <==> l.service == name && InCompose(l.field) && PlainValue(svc, l.field, wide) == Some(l.value)
  {
  }

  /** The lines of a service say exactly what the configuration says about it. */
  lemma ServiceMember(name: string, svc: Service, wide: set<char>, l: Line)
    ensures l in ServiceLines(name, Some(svc), wide)
       <==> l.service == name && FieldValue(svc, l.field, wide) == Some(l.value)
  {
    hide BaseLines, ComposeLines, EnvLines, PlatformLines, OverlayValue;
    var keys, platforms := Sort(svc.env.Keys), Sort(svc.platform.Keys);
    BaseMember(name, svc, wide, l);
    ComposeMember(name, svc, wide, l);
    EnvMember(name, None, svc.env, keys, l);
    PlatformMember(name, svc.platform, platforms, wide, l);
    assert forall k :: k in keys <==> k in Elements(keys);
    assert forall p :: p in platforms <==> p in Elements(platforms);
  }

  lemma {:induction false} AllMember(services: Services, names: seq<string>, wide: set<char>, l: Line)
    ensures l in AllLines(services, names, wide)
       <==> l.service in names && Entry(services, l.service).Some?
            && FieldValue(Entry(services, l.service).value, l.field, wide) == Some(l.value)
  {
    hide ServiceLines, FieldValue;
    if names != [] {
      var front, name := names[..|names| - 1], names[|names| - 1];
      assert names == front + [name];
      AllMember(services, front, wide, l);
      if Entry(services, name).Some? {
        ServiceMember(name, Entry(services, name).value, wide, l);
      } else {
        NoLines(name, wide);
      }
    }
  }

  lemma NoLines(name: string, wide: set<char>)
    ensures ServiceLines(name, None, wide) == []
  {
  }

  // ---------------------------------------------------------------------- equivalence

  /** Overlays that agree in everything the text covers. */
  ghost predicate SameOverlay(a: Overlay, b: Overlay) {
    a.command == b.command && Norm(Args(a)) == Norm(Args(b)) && a.cwd == b.cwd && a.env == b.env
  }

  ghost predicate SamePlain(a: Service, b: Service) {
    && a.runtime == b.runtime && a.cwd == b.cwd && a.command == b.command && Norm(a.args) == Norm(b.args)
    && a.shellEnabled == b.shellEnabled && a.shellType == b.shellType && Norm(a.envFile) == Norm(b.envFile)
    && a.env == b.env && a.compose == b.compose
  }

  ghost predicate SamePlatforms(a: map<string, Option<Overlay>>, b: map<string, Option<Overlay>>) {
    && Present(a) == Present(b)
    && forall p | p in Present(a) :: SameOverlay(a[p].value, b[p].value)
  }

  ghost predicate SameService(a: Service, b: Service) {
    SamePlain(a, b) && SamePlatforms(a.platform, b.platform)
  }

  /** The same services with the same covered fields.  Empty entries do not count, and a
      list with one empty string counts as empty. */
  ghost predicate Equivalent(a: Services, b: Services) {
    && Present(a) == Present(b)
    && forall name | name in Present(a) :: SameService(a[name].value, b[name].value)
  }

  predicate OneLine(s: string) {
    '\n' !in s
  }

  ghost predicate CleanEnv(env: map<string, string>) {
    forall key | key in env :: '\t' !in key && OneLine(env[key])
  }

  ghost predicate CleanOverlay(p: string, o: Overlay) {
    p in PLATFORMS && OneLine(o.command) && OneLine(o.cwd) && Free(Args(o), NUL) && CleanEnv(o.env)
  }

  ghost predicate CleanService(svc: Service) {
    && OneLine(svc.runtime) && OneLine(svc.cwd) && OneLine(svc.command) && OneLine(svc.shellType)
    && Free(svc.args, NUL) && Free(svc.envFile, NUL) && Free(svc.envFile, '\n') && CleanEnv(svc.env)
    && (svc.compose.Some? ==>
          OneLine(svc.compose.value.file) && OneLine(svc.compose.value.service) && OneLine(svc.compose.value.project))
    && forall p | p in Present(svc.platform) :: CleanOverlay(p, svc.platform[p].value)
  }

  /** No tab in a name or key, no newline in a value, no NUL in a list element, and only
      the known platforms.  Arguments are quoted, so they may hold anything but NUL. */
  ghost predicate Clean(services: Services) {
    forall name | name in Present(services) :: '\t' !in name && CleanService(services[name].value)
  }

  lemma ShellUnique(a: Service, b: Service)
    requires ShellText(a) == ShellText(b)
    ensures a.shellEnabled == b.shellEnabled && a.shellType == b.shellType
  {
    assert ShellText(a)[0] == (if a.shellEnabled then 't' else 'f');
    assert ShellText(b)[0] == (if b.shellEnabled then 't' else 'f');
    SamePrefix(if a.shellEnabled then "true/" else "false/", a.shellType,
               if b.shellEnabled then "true/" else "false/", b.shellType);
  }

  lemma ArgumentsSame(a: seq<string>, b: seq<string>, wide: set<char>)
    requires Free(a, NUL) && Free(b, NUL)
    ensures Quote(Join(a), wide) == Quote(Join(b), wide) <==> Norm(a) == Norm(b)
  {
    hide Quote;
    JoinSameExactly(a, b);
    if Quote(Join(a), wide) == Quote(Join(b), wide) {
      QuoteUnique(Join(a), Join(b), wide);
    }
  }

  /** What is said about the fields outside the overlays determines them. */
  lemma PlainDetermined(a: Service, b: Service, wide: set<char>)
    requires CleanService(a) && CleanService(b)
    requires forall f | !Overlaid(f) :: PlainValue(a, f, wide) == PlainValue(b, f, wide)
    ensures SamePlain(a, b)
  {
    hide Join, Quote, ShellText;
    assert PlainValue(a, Runtime, wide) == PlainValue(b, Runtime, wide);
    assert PlainValue(a, WorkingDir, wide) == PlainValue(b, WorkingDir, wide);
    assert PlainValue(a, Command, wide) == PlainValue(b, Command, wide);
    assert PlainValue(a, Arguments, wide) == PlainValue(b, Arguments, wide);
    assert PlainValue(a, Shell, wide) == PlainValue(b, Shell, wide);
    assert PlainValue(a, EnvFile, wide) == PlainValue(b, EnvFile, wide);
    assert PlainValue(a, ComposeFile, wide) == PlainValue(b, ComposeFile, wide);
    assert PlainValue(a, ComposeService, wide) == PlainValue(b, ComposeService, wide);
    assert PlainValue(a, ComposeProject, wide) == PlainValue(b, ComposeProject, wide);
    ArgumentsSame(a.args, b.args, wide);
    ShellUnique(a, b);
    JoinSameExactly(a.envFile, b.envFile);
    forall key ensures (key in a.env <==> key in b.env) && (key in a.env ==> a.env[key] == b.env[key]) {
      assert PlainValue(a, Env(key), wide) == PlainValue(b, Env(key), wide);
    }
    assert a.env == b.env;
  }

  lemma OverlayDetermined(p: string, a: Overlay, b: Overlay, wide: set<char>)
    requires CleanOverlay(p, a) && CleanOverlay(p, b)
    requires forall f | Overlaid(f) && f.platform == p :: OverlayValue(a, f, wide) == OverlayValue(b, f, wide)
    ensures SameOverlay(a, b)
  {
    hide Join, Quote;
    assert OverlayValue(a, OverlayCommand(p), wide) == OverlayValue(b, OverlayCommand(p), wide);
    assert OverlayValue(a, OverlayArguments(p), wide) == OverlayValue(b, OverlayArguments(p), wide);
    assert OverlayValue(a, OverlayDir(p), wide) == OverlayValue(b, OverlayDir(p), wide);
    ArgumentsSame(Args(a), Args(b), wide);
    forall key ensures (key in a.env <==> key in b.env) && (key in a.env ==> a.env[key] == b.env[key]) {
      assert OverlayValue(a, OverlayEnv(p, key), wide) == OverlayValue(b, OverlayEnv(p, key), wide);
    }
    assert a.env == b.env;
  }

  lemma ServiceDetermined(a: Service, b: Service, wide: set<char>)
    requires CleanService(a) && CleanService(b)
    requires forall f :: FieldValue(a, f, wide) == FieldValue(b, f, wide)
    ensures SameService(a, b)
  {
    hide PlainValue, OverlayValue, CleanOverlay, SameOverlay, SamePlain;
    forall f | !Overlaid(f) ensures PlainValue(a, f, wide) == PlainValue(b, f, wide) {
      assert FieldValue(a, f, wide) == FieldValue(b, f, wide);
    }
    PlainDetermined(a, b, wide);
    forall p ensures p in Present(a.platform) <==> p in Present(b.platform) {
      assert FieldValue(a, OverlayCommand(p), wide) == FieldValue(b, OverlayCommand(p), wide);
      CommandIsThere(a, p, wide);
      CommandIsThere(b, p, wide);
    }
    forall p | p in Present(a.platform)
      ensures SameOverlay(a.platform[p].value, b.platform[p].value)
    {
      assert p in Present(b.platform);
      var x, y := a.platform[p].value, b.platform[p].value;
      forall f | Overlaid(f) && f.platform == p ensures OverlayValue(x, f, wide) == OverlayValue(y, f, wide) {
        assert FieldValue(a, f, wide) == FieldValue(b, f, wide);
      }
      OverlayDetermined(p, x, y, wide);
    }
  }

  lemma CommandIsThere(svc: Service, p: string, wide: set<char>)
    ensures FieldValue(svc, OverlayCommand(p), wide).Some? <==> p in Present(svc.platform)
  {
  }

  // ---------------------------------------------------------------------- main result

  lemma FieldIsClean(name: string, svc: Service, f: Field, wide: set<char>)
    requires '\t' !in name && CleanService(svc) && FieldValue(svc, f, wide).Some?
    ensures CleanLine(Line(name, f, FieldValue(svc, f, wide).value))
  {
    if Overlaid(f) {
      OverlayIsClean(f.platform, svc.platform[f.platform].value, f, wide);
    } else {
      PlainIsClean(svc, f, wide);
    }
  }

  lemma PlainIsClean(svc: Service, f: Field, wide: set<char>)
    requires CleanService(svc) && !Overlaid(f) && PlainValue(svc, f, wide).Some?
    ensures '\t' !in FieldName(f) && '\n' !in PlainValue(svc, f, wide).value
  {
    hide Quote, Join;
    JoinFree(svc.envFile, '\n');
  }

  lemma OverlayIsClean(p: string, o: Overlay, f: Field, wide: set<char>)
    requires CleanOverlay(p, o) && Overlaid(f) && f.platform == p && OverlayValue(o, f, wide).Some?
    ensures '\t' !in FieldName(f) && '\n' !in OverlayValue(o, f, wide).value && Known(f)
  {
    hide Quote, Join;
    assert '\t' !in "windows" && '\t' !in "macos" && '\t' !in "linux";
    assert '\t' !in p;
  }

  lemma LinesAreClean(services: Services, wide: set<char>)
    requires Clean(services)
    ensures forall l | l in AllLines(services, Sort(services.Keys), wide) :: CleanLine(l)
  {
    hide FieldValue, CleanService, CleanLine;
    forall l | l in AllLines(services, Sort(services.Keys), wide)
      ensures CleanLine(l)
    {
      AllMember(services, Sort(services.Keys), wide, l);
      assert l.service in Present(services);
      FieldIsClean(l.service, services[l.service].value, l.field, wide);
    }
  }

  /** Equal texts mean equal services and covered fields. */
  lemma TextDetermines(a: Services, b: Services, wide: set<char>)
    requires Clean(a) && Clean(b) && CanonicalText(a, wide) == CanonicalText(b, wide)
    ensures Equivalent(a, b)
  {
    hide AllLines, Render, CleanLine, FieldValue, SameService, CleanService;
    var s, t := AllLines(a, Sort(a.Keys), wide), AllLines(b, Sort(b.Keys), wide);
    SamePrefix(HEADER, Render(s), HEADER, Render(t));
    LinesAreClean(a, wide);
    LinesAreClean(b, wide);
    RenderUnique(s, t);
    forall name ensures name in Present(a) <==> name in Present(b) {
      SaysRuntime(a, name, wide);
      SaysRuntime(b, name, wide);
    }
    forall name | name in Present(a)
      ensures SameService(a[name].value, b[name].value)
    {
      assert name in Present(b);
      forall f ensures FieldValue(a[name].value, f, wide) == FieldValue(b[name].value, f, wide) {
        SaysValue(a, name, f, wide);
        SaysValue(b, name, f, wide);
      }
      ServiceDetermined(a[name].value, b[name].value, wide);
    }
  }

  /** A service is there exactly when the lines name its runtime. */
  lemma SaysRuntime(services: Services, name: string, wide: set<char>)
    ensures name in Present(services)
       <==> exists v :: Line(name, Runtime, v) in AllLines(services, Sort(services.Keys), wide)
  {
    hide AllLines;
    forall v ensures Line(name, Runtime, v) in AllLines(services, Sort(services.Keys), wide)
                <==> name in Present(services) && v == services[name].value.runtime
    {
      AllMember(services, Sort(services.Keys), wide, Line(name, Runtime, v));
      assert name in Sort(services.Keys) <==> name in Elements(Sort(services.Keys));
    }
    if name in Present(services) {
      assert Line(name, Runtime, services[name].value.runtime) in AllLines(services, Sort(services.Keys), wide);
    }
  }

  lemma SaysValue(services: Services, name: string, f: Field, wide: set<char>)
    requires name in Present(services)
    ensures forall v :: Line(name, f, v) in AllLines(services, Sort(services.Keys), wide)
                   <==> FieldValue(services[name].value, f, wide) == Some(v)
  {
    hide AllLines, FieldValue;
    forall v ensures Line(name, f, v) in AllLines(services, Sort(services.Keys), wide)
                <==> FieldValue(services[name].value, f, wide) == Some(v)
    {
      AllMember(services, Sort(services.Keys), wide, Line(name, f, v));
      assert name in Sort(services.Keys) <==> name in Elements(Sort(services.Keys));
    }
  }

  // ------------------------------------------------------------ and the other direction

  lemma {:induction false} KeepPlatforms(name: string, platform: map<string, Option<Overlay>>, keys: seq<string>,
                                         wide: set<char>)
    ensures PlatformLines(name, platform, keys, wide)
         == PlatformLines(name, platform, Keep(keys, Present(platform)), wide)
  {
    if keys != [] {
      var front, p := keys[..|keys| - 1], keys[|keys| - 1];
      KeepPlatforms(name, platform, front, wide);
      var kept := Keep(front, Present(platform));
      if p in Present(platform) {
        assert (kept + [p])[..|kept|] == kept;
      } else {
        assert OverlayLines(name, p, Entry(platform, p), wide) == [];
        assert Keep(keys, Present(platform)) == kept;
      }
    }
  }

  lemma {:induction false} SameOverlayLines(name: string, a: map<string, Option<Overlay>>,
                                            b: map<string, Option<Overlay>>, keys: seq<string>, wide: set<char>)
    requires SamePlatforms(a, b) && Elements(keys) <= Present(a)
    ensures PlatformLines(name, a, keys, wide) == PlatformLines(name, b, keys, wide)
  {
    hide SameOverlay, OverlayLines;
    if keys != [] {
      var front, p := keys[..|keys| - 1], keys[|keys| - 1];
      assert keys == front + [p];
      ElementsSnoc(front, p);
      SameOverlayLines(name, a, b, front, wide);
      OneOverlay(name, p, a[p].value, b[p].value, wide);
    }
  }

  lemma OneOverlay(name: string, p: string, a: Overlay, b: Overlay, wide: set<char>)
    requires SameOverlay(a, b)
    ensures OverlayLines(name, p, Some(a), wide) == OverlayLines(name, p, Some(b), wide)
  {
  }

  lemma SameJoin(a: seq<string>, b: seq<string>)
    requires Norm(a) == Norm(b)
    ensures Join(a) == Join(b)
  {
  }

  lemma SameServiceLines(name: string, a: Service, b: Service, wide: set<char>)
    requires SameService(a, b)
    ensures ServiceLines(name, Some(a), wide) == ServiceLines(name, Some(b), wide)
  {
    hide Quote, SameOverlay, OverlayLines, PlatformLines, EnvLines;
    SameJoin(a.args, b.args);
    SameJoin(a.envFile, b.envFile);
    var present := Present(a.platform);
    KeepPlatforms(name, a.platform, Sort(a.platform.Keys), wide);
    KeepPlatforms(name, b.platform, Sort(b.platform.Keys), wide);
    KeepSorted(a.platform.Keys, present);
    KeepSorted(b.platform.Keys, present);
    SameOverlayLines(name, a.platform, b.platform, Sort(present), wide);
  }

  lemma {:induction false} KeepServices(services: Services, names: seq<string>, wide: set<char>)
    ensures AllLines(services, names, wide) == AllLines(services, Keep(names, Present(services)), wide)
  {
    hide ServiceLines;
    if names != [] {
      var front, name := names[..|names| - 1], names[|names| - 1];
      KeepServices(services, front, wide);
      var kept := Keep(front, Present(services));
      if name in Present(services) {
        assert (kept + [name])[..|kept|] == kept;
      } else {
        NoLines(name, wide);
        assert Keep(names, Present(services)) == kept;
      }
    }
  }

  lemma {:induction false} SameAllLines(a: Services, b: Services, names: seq<string>, wide: set<char>)
    requires Equivalent(a, b) && Elements(names) <= Present(a)
    ensures AllLines(a, names, wide) == AllLines(b, names, wide)
  {
    hide SameService, ServiceLines;
    if names != [] {
      var front, name := names[..|names| - 1], names[|names| - 1];
      assert names == front + [name];
      ElementsSnoc(front, name);
      SameAllLines(a, b, front, wide);
      SameServiceLines(name, a[name].value, b[name].value, wide);
    }
  }

  /** Equal services and covered fields give equal texts, whatever else differs. */
  lemma EquivalentTexts(a: Services, b: Services, wide: set<char>)
    requires Equivalent(a, b)
    ensures CanonicalText(a, wide) == CanonicalText(b, wide)
  {
    hide AllLines, SameService;
    KeepServices(a, Sort(a.Keys), wide);
    KeepServices(b, Sort(b.Keys), wide);
    KeepSorted(a.Keys, Present(a));
    KeepSorted(b.Keys, Present(b));
    SameAllLines(a, b, Sort(Present(a)), wide);
  }

  /** For clean configurations the text is the same exactly when the services and their
      covered fields are. */
  lemma TextDeterminesExactly(a: Services, b: Services, wide: set<char>)
    requires Clean(a) && Clean(b)
    ensures CanonicalText(a, wide) == CanonicalText(b, wide) <==> Equivalent(a, b)
  {
    hide CanonicalText, Equivalent;
    if CanonicalText(a, wide) == CanonicalText(b, wide) {
      TextDetermines(a, b, wide);
    }
    if Equivalent(a, b) {
      EquivalentTexts(a, b, wide);
    }
  }

  // ---------------------------------------------------------------- writing the text

  /** Appends one line to the text. */
  function WriteField(text: string, service: string, field: string, value: string): string {
    text + service + "\t" + field + "\t" + value + "\n"
  }

  lemma FieldWritten(text: string, l: Line)
    ensures WriteField(text, l.service, FieldName(l.field), l.value) == text + LineText(l)
  {
  }

  /** One more line, after a text that ends with some lines. */
  lemma OneMore(start: string, lines: seq<Line>, l: Line)
    ensures WriteField(start + Render(lines), l.service, FieldName(l.field), l.value) == start + Render(lines + [l])
  {
    hide LineText, WriteField, Render;
    FieldWritten(start + Render(lines), l);
    RenderAppend(lines, [l]);
    RenderOne(l);
    Associate(start, Render(lines), LineText(l));
  }

  lemma MoreLines(start: string, first: seq<Line>, second: seq<Line>)
    ensures start + Render(first) + Render(second) == start + Render(first + second)
  {
    hide Render;
    RenderAppend(first, second);
    Associate(start, Render(first), Render(second));
  }

  lemma EnvFieldName(prefix: string, owner: Option<string>, key: string)
    requires prefix == if owner.None? then "env." else "platform." + owner.value + ".env."
    ensures FieldName(EnvField(owner, key)) == prefix + key
  {
  }

  lemma EnvSnoc(name: string, owner: Option<string>, env: map<string, string>, keys: seq<string>, i: nat)
    requires i < |keys|
    ensures EnvLines(name, owner, env, keys[..i + 1])
         == EnvLines(name, owner, env, keys[..i]) + [Line(name, EnvField(owner, keys[i]), Value(env, keys[i]))]
  {
    assert keys[..i + 1][..i] == keys[..i];
  }

  method WriteEnv(start: string, name: string, prefix: string, owner: Option<string>, env: map<string, string>)
    returns (text: string)
    requires prefix == if owner.None? then "env." else "platform." + owner.value + ".env."
    ensures text == start + Render(EnvLines(name, owner, env, Sort(env.Keys)))
  {
    var keys := SortedKeys(env);
    SortUnique(keys);
    text := start;
    assert start + "" == start;
    assert Render(EnvLines(name, owner, env, keys[..0])) == "";
    hide FieldName, WriteField, EnvField, EnvLines, Render, Sort;
    for i := 0 to |keys|
      invariant text == start + Render(EnvLines(name, owner, env, keys[..i]))
    {
      EnvSnoc(name, owner, env, keys, i);
      assert keys[i] in Elements(keys);
      EnvFieldName(prefix, owner, keys[i]);
      OneMore(start, EnvLines(name, owner, env, keys[..i]), Line(name, EnvField(owner, keys[i]), Value(env, keys[i])));
      text := WriteField(text, name, prefix + keys[i], env[keys[i]]);
    }
    assert keys[..|keys|] == keys;
  }

  lemma OverlayNames(p: string)
    ensures FieldName(OverlayCommand(p)) == "platform." + p + ".command"
    ensures FieldName(OverlayArguments(p)) == "platform." + p + ".args"
    ensures FieldName(OverlayDir(p)) == "platform." + p + ".cwd"
  {
  }

  method WriteOverlay(start: string, name: string, p: string, o: Overlay, wide: set<char>) returns (text: string)
    ensures text == start + Render(OverlayLines(name, p, Some(o), wide))
  {
    OverlayNames(p);
    hide FieldName, WriteField, Quote, Join, EnvLines, Render;
    var prefix := "platform." + p;
    text := WriteField(start, name, prefix + ".command", o.command);
    text := WriteField(text, name, prefix + ".args", Quote(Join(Args(o)), wide));
    text := WriteField(text, name, prefix + ".cwd", o.cwd);
    ThreeLines(start, OverlayBase(name, p, o, wide));
    MoreLines(start, OverlayBase(name, p, o, wide), EnvLines(name, Some(p), o.env, Sort(o.env.Keys)));
    text := WriteEnv(text, name, prefix + ".env.", Some(p), o.env);
  }

  lemma ThreeLines(start: string, lines: seq<Line>)
    requires |lines| == 3
    ensures var a, b, c := lines[0], lines[1], lines[2];
            var one := WriteField(start, a.service, FieldName(a.field), a.value);
            var two := WriteField(one, b.service, FieldName(b.field), b.value);
            WriteField(two, c.service, FieldName(c.field), c.value) == start + Render(lines)
  {
    hide WriteField, FieldName;
    assert start + Render([]) == start;
    OneMore(start, [], lines[0]);
    OneMore(start, [lines[0]], lines[1]);
    OneMore(start, [lines[0], lines[1]], lines[2]);
    assert [] + [lines[0]] == [lines[0]];
    assert [lines[0]] + [lines[1]] == [lines[0], lines[1]];
    assert [lines[0], lines[1]] + [lines[2]] == lines;
  }

  method WritePlatforms(start: string, name: string, platform: map<string, Option<Overlay>>, wide: set<char>)
    returns (text: string)
    ensures text == start + Render(PlatformLines(name, platform, Sort(platform.Keys), wide))
  {
    hide OverlayLines;
    var keys := SortedKeys(platform);
    SortUnique(keys);
    text := start;
    assert start + "" == start;
    for i := 0 to |keys|
      invariant text == start + Render(PlatformLines(name, platform, keys[..i], wide))
    {
      assert keys[..i + 1][..i] == keys[..i];
      assert keys[i] in Elements(keys);
      var overlay := platform[keys[i]];
      ghost var before := PlatformLines(name, platform, keys[..i], wide);
      MoreLines(start, before, OverlayLines(name, keys[i], overlay, wide));
      if overlay.None? {
        NoOverlayLines(name, keys[i], wide);
        assert before + [] == before;
        continue;
      }
      text := WriteOverlay(text, name, keys[i], overlay.value, wide);
    }
    assert keys[..|keys|] == keys;
  }

  lemma NoOverlayLines(name: string, p: string, wide: set<char>)
    ensures OverlayLines(name, p, None, wide) == []
  {
  }

  method WriteBase(start: string, name: string, svc: Service, wide: set<char>) returns (text: string)
    ensures text == start + Render(BaseLines(name, svc, wide))
  {
    hide Quote, Join, WriteField, Render;
    text := WriteField(start, name, "runtime", svc.runtime);
    text := WriteField(text, name, "cwd", svc.cwd);
    text := WriteField(text, name, "command", svc.command);
    ghost var base := BaseLines(name, svc, wide);
    ThreeLines(start, base[..3]);
    ghost var half := text;
    text := WriteField(text, name, "args", Quote(Join(svc.args), wide));
    var enabled := if svc.shellEnabled then "true" else "false";
    assert enabled + "/" + svc.shellType == ShellText(svc);
    text := WriteField(text, name, "shell", enabled + "/" + svc.shellType);
    text := WriteField(text, name, "env_file", Join(svc.envFile));
    ThreeLines(half, base[3..]);
    MoreLines(start, base[..3], base[3..]);
    assert base[..3] + base[3..] == base;
  }

  method WriteCompose(start: string, name: string, compose: Option<Compose>) returns (text: string)
    ensures text == start + Render(ComposeLines(name, compose))
  {
    hide WriteField;
    text := start;
    assert start + "" == start;
    if compose.Some? {
      ThreeLines(start, ComposeLines(name, compose));
      text := WriteField(text, name, "compose.file", compose.value.file);
      text := WriteField(text, name, "compose.service", compose.value.service);
      text := WriteField(text, name, "compose.project", compose.value.project);
    }
  }

  method WriteService(start: string, name: string, svc: Service, wide: set<char>) returns (text: string)
    ensures text == start + Render(ServiceLines(name, Some(svc), wide))
  {
    hide BaseLines, EnvLines, ComposeLines, PlatformLines, Render;
    ghost var base, compose := BaseLines(name, svc, wide), ComposeLines(name, svc.compose);
    ghost var env := EnvLines(name, None, svc.env, Sort(svc.env.Keys));
    text := WriteBase(start, name, svc, wide);
    text := WriteEnv(text, name, "env.", None, svc.env);
    MoreLines(start, base, env);
    text := WriteCompose(text, name, svc.compose);
    MoreLines(start, base + env, compose);
    text := WritePlatforms(text, name, svc.platform, wide);
    MoreLines(start, base + env + compose, PlatformLines(name, svc.platform, Sort(svc.platform.Keys), wide));
  }

  /** Builds the canonical text.  The order in which maps are visited does not matter. */
  method CanonicalForm(services: Services, wide: set<char>) returns (text: string)
    ensures text == CanonicalText(services, wide) && "devman-exec-fingerprint/1\n" <= text
  {
    hide ServiceLines;
    text := HEADER;
    var names := SortedKeys(services);
    SortUnique(names);
    assert HEADER + "" == HEADER;
    for i := 0 to |names|
      invariant text == HEADER + Render(AllLines(services, names[..i], wide))
    {
      assert names[..i + 1][..i] == names[..i];
      assert names[i] in Elements(names);
      var entry := services[names[i]];
      ghost var before := AllLines(services, names[..i], wide);
      MoreLines(HEADER, before, ServiceLines(names[i], entry, wide));
      if entry.None? {
        NoLines(names[i], wide);
        assert before + [] == before;
        continue;
      }
      text := WriteService(text, names[i], entry.value, wide);
    }
    assert names[..|names|] == names;
  }

  // ----------------------------------------------------------------- what is executed

  datatype Execution = Execution(command: string, args: seq<string>, cwd: string, env: map<string, string>,
                                 shellEnabled: bool, shellType: string)

  /** What is executed on a platform: the base fields with the overlay on top. */
  function Execute(svc: Service, p: string): Execution {
    var base := Execution(svc.command, svc.args, svc.cwd, svc.env, svc.shellEnabled, svc.shellType);
    var overlay := Entry(svc.platform, p);
    if overlay.None? then base
    else
      var o := overlay.value;
      base.(command := if o.command != "" then o.command else svc.command,
            args := if o.args.Some? then o.args.value else svc.args,
            cwd := if o.cwd != "" then o.cwd else svc.cwd,
            env := svc.env + o.env)
  }

  /** An overlay replaces a command and a directory that it gives, the argument list if it
      has one, even an empty one, and single variables; everything else stays. */
  lemma OverlayIsOnTop(svc: Service, p: string)
    ensures var e := Execute(svc, p);
            && e.shellEnabled == svc.shellEnabled && e.shellType == svc.shellType
            && if p in svc.platform && svc.platform[p].Some? then
                 var o := svc.platform[p].value;
                 && (o.command != "" ==> e.command == o.command) && (o.command == "" ==> e.command == svc.command)
                 && (o.cwd != "" ==> e.cwd == o.cwd) && (o.cwd == "" ==> e.cwd == svc.cwd)
                 && (o.args.Some? ==> e.args == o.args.value) && (o.args.None? ==> e.args == svc.args)
                 && (forall key :: key in e.env <==> key in svc.env || key in o.env)
                 && (forall key <- o.env :: e.env[key] == o.env[key])
                 && (forall key <- svc.env | key !in o.env :: e.env[key] == svc.env[key])
               else e.command == svc.command && e.args == svc.args && e.cwd == svc.cwd && e.env == svc.env
  {
  }

  /** The argument list that applies on a platform as the text shows it. */
  function ShownArgs(svc: Service, p: string): seq<string> {
    var overlay := Entry(svc.platform, p);
    Norm(if overlay.Some? then Args(overlay.value) else svc.args)
  }

  /** What the configuration contributes to a launch. */
  datatype Launch = Launch(runtime: string, execution: Execution, envFile: seq<string>, compose: Option<Compose>)

  function LaunchOf(svc: Service, p: string): Launch {
    Launch(svc.runtime, Execute(svc, p), svc.envFile, svc.compose)
  }

  ghost function Launches(services: Services, p: string): map<string, Launch> {
    map name | name in Present(services) :: LaunchOf(services[name].value, p)
  }

  /** The argument list and the list of files that apply are shown in the text. */
  predicate ListsShown(svc: Service, p: string) {
    ShownArgs(svc, p) != [] && Norm(svc.envFile) != []
  }

  lemma ShownIsLaunched(a: Service, b: Service, p: string)
    requires SameService(a, b) && ListsShown(a, p)
    ensures LaunchOf(a, p) == LaunchOf(b, p)
  {
    assert p in Present(a.platform) <==> p in Present(b.platform);
  }

  /** Another service with the same text that runs differently. */
  lemma HiddenDifference(svc: Service, p: string) returns (other: Service)
    requires CleanService(svc) && !ListsShown(svc, p)
    ensures CleanService(other) && SameService(svc, other) && LaunchOf(other, p) != LaunchOf(svc, p)
  {
    if Norm(svc.envFile) == [] {
      other := svc.(envFile := OtherEmpty(svc.envFile));
    } else if p in Present(svc.platform) {
      var args := Some(OtherEmpty(Execute(svc, p).args));
      WithArgsSame(svc, p, args);
      other := WithArgs(svc, p, args);
      assert Present(other.platform) == Present(svc.platform);
      assert Execute(other, p).args == args.value;
    } else {
      other := svc.(args := OtherEmpty(svc.args));
    }
  }

  /** An empty list that looks the same in the text, other than the given one. */
  function OtherEmpty(list: seq<string>): (other: seq<string>)
    ensures other != list && Norm(other) == []
  {
    if list == [] then [""] else []
  }

  lemma ReplaceOne(a: Services, name: string, other: Service)
    requires name in Present(a) && Clean(a) && CleanService(other) && SameService(a[name].value, other)
    ensures Clean(a[name := Some(other)]) && Equivalent(a, a[name := Some(other)])
  {
    var b := a[name := Some(other)];
    hide SameService, CleanService;
    forall n | n in Present(a) ensures SameService(a[n].value, b[n].value) {
      SameAsItself(a[n].value);
    }
    assert Present(b) == Present(a);
  }

  lemma SameAsItself(svc: Service)
    ensures SameService(svc, svc)
  {
  }

  /** Among clean configurations, the text determines what is launched on a platform
      exactly when every service shows its lists.  It does not tell an absent list from an
      empty one or from one empty string. */
  lemma ExecutionDeterminedExactly(a: Services, p: string, wide: set<char>)
    requires Clean(a)
    ensures (forall b | Clean(b) && CanonicalText(b, wide) == CanonicalText(a, wide) :: Launches(b, p) == Launches(a, p))
       <==> (forall name | name in Present(a) :: ListsShown(a[name].value, p))
  {
    hide CanonicalText, LaunchOf, ListsShown, CleanService, SameService;
    if forall name | name in Present(a) :: ListsShown(a[name].value, p) {
      forall b: Services | Clean(b) && CanonicalText(b, wide) == CanonicalText(a, wide)
        ensures Launches(b, p) == Launches(a, p)
      {
        TextDetermines(a, b, wide);
        forall name | name in Present(a) ensures LaunchOf(a[name].value, p) == LaunchOf(b[name].value, p) {
          ShownIsLaunched(a[name].value, b[name].value, p);
        }
      }
    } else {
      var name :| name in Present(a) && !ListsShown(a[name].value, p);
      var other := HiddenDifference(a[name].value, p);
      var b := a[name := Some(other)];
      ReplaceOne(a, name, other);
      EquivalentTexts(a, b, wide);
      assert Launches(b, p)[name] != Launches(a, p)[name];
    }
  }

  function WithArgs(svc: Service, p: string, args: Option<seq<string>>): Service
    requires Entry(svc.platform, p).Some?
  {
    svc.(platform := svc.platform[p := Some(svc.platform[p].value.(args := args))])
  }

  lemma WithArgsSame(svc: Service, p: string, args: Option<seq<string>>)
    requires p in Present(svc.platform) && Norm(Args(svc.platform[p].value)) == []
    requires args == Some([]) || args == Some([""])
    ensures SameService(svc, WithArgs(svc, p, args))
  {
  }

  // ------------------------------------------------- what a value with a newline does

  function WithEnv(env: map<string, string>): Services {
    map["web" := Some(Service("process", ".", "app", ["x", "y"], false, "", [".env"], env, None, map[]))]
  }

  const TWO_VARIABLES: map<string, string> := map["A" := "1", "B" := "2"]

  const ONE_VARIABLE: map<string, string> := map["A" := "1" + ("\n" + ("web" + ("\t" + ("env.B" + ("\t" + "2")))))]

  lemma OneServiceText(env: map<string, string>, wide: set<char>)
    ensures var svc := WithEnv(env)["web"].value;
            CanonicalText(WithEnv(env), wide) ==
            HEADER + Render(BaseLines("web", svc, wide) + EnvLines("web", None, env, Sort(env.Keys)))
  {
    hide BaseLines, EnvLines, Render;
    var services := WithEnv(env);
    var svc := services["web"].value;
    SortUnique(["web"]);
    assert services.Keys == Elements(["web"]);
    var none: seq<string> := [];
    SortUnique(none);
    assert svc.platform.Keys == Elements(none);
    assert AllLines(services, none, wide) == [];
    var lines := ServiceLines("web", Some(svc), wide);
    assert ["web"][..0] == [];
    assert AllLines(services, ["web"], wide) == [] + lines == lines;
    assert lines == BaseLines("web", svc, wide) + EnvLines("web", None, env, Sort(env.Keys));
  }

  /** A value that goes on with a newline and the columns of another line is written as
      two lines. */
  lemma SplitLine(name: string, f: Field, g: Field, v: string, w: string)
    ensures LineText(Line(name, f, v)) + LineText(Line(name, g, w))
         == LineText(Line(name, f, v + ("\n" + (name + ("\t" + (FieldName(g) + ("\t" + w)))))))
  {
    hide FieldName;
    var second := name + ("\t" + (FieldName(g) + ("\t" + w)));
    assert LineText(Line(name, g, w)) == second + "\n";
    assert LineText(Line(name, f, v)) == name + ("\t" + (FieldName(f) + ("\t" + v))) + "\n";
    assert LineText(Line(name, f, v + ("\n" + second)))
        == name + ("\t" + (FieldName(f) + ("\t" + v))) + "\n" + (second + "\n");
  }

  lemma SplitValue()
    ensures Render(EnvLines("web", None, TWO_VARIABLES, Sort(TWO_VARIABLES.Keys)))
         == Render(EnvLines("web", None, ONE_VARIABLE, Sort(ONE_VARIABLE.Keys)))
  {
    hide LineText, Render;
    var a, b, both := Line("web", Env("A"), "1"), Line("web", Env("B"), "2"), Line("web", Env("A"), ONE_VARIABLE["A"]);
    OneKey(ONE_VARIABLE);
    TwoKeys();
    RenderAppend([a], [b]);
    RenderOne(a);
    RenderOne(b);
    RenderOne(both);
    assert FieldName(Env("B")) == "env.B";
    SplitLine("web", Env("A"), Env("B"), "1", "2");
  }

  lemma OneKey(env: map<string, string>)
    requires env.Keys == {"A"}
    ensures EnvLines("web", None, env, Sort(env.Keys)) == [Line("web", Env("A"), env["A"])]
  {
    SortUnique(["A"]);
    assert env.Keys == Elements(["A"]);
    assert EnvLines("web", None, env, ["A"][..0]) == [];
  }

  lemma TwoKeys()
    ensures EnvLines("web", None, TWO_VARIABLES, Sort(TWO_VARIABLES.Keys))
         == [Line("web", Env("A"), "1")] + [Line("web", Env("B"), "2")]
  {
    SortUnique(["A", "B"]);
    assert TWO_VARIABLES.Keys == Elements(["A", "B"]);
    assert ["A", "B"][..1] == ["A"];
    assert EnvLines("web", None, TWO_VARIABLES, ["A"][..0]) == [];
    assert EnvLines("web", None, TWO_VARIABLES, ["A"]) == [Line("web", Env("A"), "1")];
  }

  lemma SameTextWithNewline(wide: set<char>)
    ensures CanonicalText(WithEnv(TWO_VARIABLES), wide) == CanonicalText(WithEnv(ONE_VARIABLE), wide)
  {
    hide CanonicalText, Render, EnvLines;
    OneServiceText(TWO_VARIABLES, wide);
    OneServiceText(ONE_VARIABLE, wide);
    SplitValue();
    var base := BaseLines("web", WithEnv(TWO_VARIABLES)["web"].value, wide);
    assert base == BaseLines("web", WithEnv(ONE_VARIABLE)["web"].value, wide);
    RenderAppend(base, EnvLines("web", None, TWO_VARIABLES, Sort(TWO_VARIABLES.Keys)));
    RenderAppend(base, EnvLines("web", None, ONE_VARIABLE, Sort(ONE_VARIABLE.Keys)));
  }

  lemma CleanExample(p: string)
    ensures Clean(WithEnv(TWO_VARIABLES)) && !Clean(WithEnv(ONE_VARIABLE))
    ensures forall name <- Present(WithEnv(TWO_VARIABLES)) :: ListsShown(WithEnv(TWO_VARIABLES)[name].value, p)
  {
    assert ONE_VARIABLE["A"][1] == '\n';
    assert "web" in Present(WithEnv(ONE_VARIABLE));
  }

  lemma ExampleLaunches(p: string)
    ensures Launches(WithEnv(TWO_VARIABLES), p) != Launches(WithEnv(ONE_VARIABLE), p)
  {
    var two, one := WithEnv(TWO_VARIABLES), WithEnv(ONE_VARIABLE);
    assert Launches(two, p)["web"].execution.env == TWO_VARIABLES;
    assert Launches(one, p)["web"].execution.env == ONE_VARIABLE;
    assert "B" in TWO_VARIABLES && "B" !in ONE_VARIABLE;
  }

  /** The approval of a clean configuration also covers another one, in which one variable
      holds what looks like two lines: what is launched differs. */
  lemma NewlineIsAmbiguous(p: string, wide: set<char>)
    ensures Clean(WithEnv(TWO_VARIABLES)) && !Clean(WithEnv(ONE_VARIABLE))
    ensures CanonicalText(WithEnv(TWO_VARIABLES), wide) == CanonicalText(WithEnv(ONE_VARIABLE), wide)
    ensures forall name <- Present(WithEnv(TWO_VARIABLES)) :: ListsShown(WithEnv(TWO_VARIABLES)[name].value, p)
    ensures Launches(WithEnv(TWO_VARIABLES), p) != Launches(WithEnv(ONE_VARIABLE), p)
  {
    hide *;
    CleanExample(p);
    ExampleLaunches(p);
    SameTextWithNewline(wide);
  }
}
