/**
  The command line scanner (crates/cairn-app/src/bootstrap.rs): one pass over
  the arguments that fills a configuration in place, then a fallback to three
  environment variables, then the rules of team mode.

  The specification is per flag: the last value given on the command line,
  else the non-blank environment value, else the default.  `std::env` is a
  parameter; a fatal exit is an `Err`.
 */
module ArgScanner {
  import opened Common
  import opened Whitespace
  import Decimal

  datatype Mode = Local | SelfHostedTeam

  datatype Storage = InMemory | Sqlite(path: string) | Postgres(connectionUrl: string)

  datatype KeySource = EnvVar(name: string) | File(keyPath: string) | LocalAuto | NoKey

  datatype Config = Config(mode: Mode, addr: string, port: nat, storage: Storage, key: KeySource,
                           tlsEnabled: bool, tlsCert: Option<string>, tlsKey: Option<string>)

  /** CAIRN_MODE, CAIRN_PORT and CAIRN_DB; None when unset or unreadable. */
  datatype Env = Env(mode: Option<string>, port: Option<string>, db: Option<string>)

  datatype Fatal = BadMode(source: string, value: string) | BadPort(source: string, value: string)
    | SqliteInTeamMode(path: string)

  datatype Flag = ModeFlag | PortFlag | AddrFlag | CertFlag | KeyFlag | DbFlag | KeyEnvFlag

  datatype Pair = Pair(flag: Flag, value: string)

  const DEFAULT := Config(Local, "127.0.0.1", 3000, InMemory, LocalAuto, false, None, None)

  function FlagOf(arg: string): Option<Flag> {
    if arg == "--mode" then Some(ModeFlag)
    else if arg == "--port" then Some(PortFlag)
    else if arg == "--addr" then Some(AddrFlag)
    else if arg == "--tls-cert" then Some(CertFlag)
    else if arg == "--tls-key" then Some(KeyFlag)
    else if arg == "--db" then Some(DbFlag)
    else if arg == "--encryption-key-env" then Some(KeyEnvFlag)
    else None
  }

  function Name(flag: Flag): (arg: string)
    ensures FlagOf(arg) == Some(flag)
  {
    match flag
    case ModeFlag => "--mode"
    case PortFlag => "--port"
    case AddrFlag => "--addr"
    case CertFlag => "--tls-cert"
    case KeyFlag => "--tls-key"
    case DbFlag => "--db"
    case KeyEnvFlag => "--encryption-key-env"
  }

  function ParseMode(raw: string): Option<Mode> {
    if raw == "team" || raw == "self-hosted" then Some(SelfHostedTeam)
    else if raw == "local" then Some(Local)
    else None
  }

  function ParsePort(raw: string): Option<nat> {
    Decimal.Parse(raw, 65535)
  }

  function ParseDb(raw: string): Storage {
    if raw == "memory" then InMemory
    else if "postgres://" <= raw || "postgresql://" <= raw then Postgres(raw)
    else Sqlite(raw)
  }

  predicate EndsWith(s: string, suffix: string) {
    |suffix| <= |s| && s[|s| - |suffix|..] == suffix
  }

  /** A SQLite file that team mode refuses. */
  predicate Refused(mode: Mode, storage: Storage) {
    mode == SelfHostedTeam && storage.Sqlite? &&
    (EndsWith(storage.path, ".db") || EndsWith(storage.path, ".sqlite"))
  }

  // ----- what the arguments say

  /** Flag and value pairs in order: unknown arguments are passed over, what
      follows a flag is its value, and a flag at the very end has none. */
  function Pairs(args: seq<string>): seq<Pair> {
    if args == [] then []
    else if FlagOf(args[0]).None? then Pairs(args[1..])
    else if |args| == 1 then []
    else [Pair(FlagOf(args[0]).value, args[1])] + Pairs(args[2..])
  }

  /** Without the program's own name. */
  function Arguments(args: seq<string>): seq<string> {
    if args == [] then [] else args[1..]
  }

  predicate Bad(p: Pair) {
    (p.flag == ModeFlag && ParseMode(p.value).None?) || (p.flag == PortFlag && ParsePort(p.value).None?)
  }

  function Complaint(p: Pair): Fatal {
    if p.flag == ModeFlag then BadMode("--mode", p.value) else BadPort("--port", p.value)
  }

  function FirstBad(pairs: seq<Pair>): Option<Fatal> {
    if pairs == [] then None
    else if Bad(pairs[0]) then Some(Complaint(pairs[0]))
    else FirstBad(pairs[1..])
  }

  function Values(pairs: seq<Pair>, flag: Flag): seq<string> {
    if pairs == [] then []
    else Values(Front(pairs), flag) + (if Last(pairs).flag == flag then [Last(pairs).value] else [])
  }

  function LastValue(pairs: seq<Pair>, flag: Flag): Option<string> {
    if Values(pairs, flag) == [] then None else Some(Last(Values(pairs, flag)))
  }

  function NonBlank(raw: Option<string>): Option<string> {
    if raw.None? then None
    else
      var trimmed := Trim(raw.value, c => IsUnicodeSpace(c));
      if trimmed == "" then None else Some(trimmed)
  }

  function Effective(pairs: seq<Pair>, flag: Flag, env: Option<string>): Option<string> {
    if LastValue(pairs, flag).Some? then LastValue(pairs, flag) else NonBlank(env)
  }

  function Read<T>(raw: Option<string>, parse: string -> Option<T>, default: T): T {
    if raw.Some? && parse(raw.value).Some? then parse(raw.value).value else default
  }

  /** Each field from its own flag, before the rules of team mode. */
  function PerFlag(pairs: seq<Pair>, env: Env): Config {
    var cert, key := LastValue(pairs, CertFlag), LastValue(pairs, KeyFlag);
    Config(
      Read(Effective(pairs, ModeFlag, env.mode), ParseMode, Local),
      Read(LastValue(pairs, AddrFlag), v => Some(v), "127.0.0.1"),
      Read(Effective(pairs, PortFlag, env.port), ParsePort, 3000),
      Read(Effective(pairs, DbFlag, env.db), v => Some(ParseDb(v)), InMemory),
      Read(LastValue(pairs, KeyEnvFlag), v => Some(EnvVar(v)), LocalAuto),
      cert.Some? && key.Some?, cert, key)
  }

  function Hardened(config: Config): Config {
    if config.mode == Local then config
    else
      config.(addr := if config.addr == "127.0.0.1" then "0.0.0.0" else config.addr,
              key := if config.key == LocalAuto then NoKey else config.key)
  }

  function Expected(pairs: seq<Pair>, env: Env): Result<Config, Fatal> {
    Decide(FirstBad(pairs), Effective(pairs, ModeFlag, env.mode), Effective(pairs, PortFlag, env.port), PerFlag(pairs, env))
  }

  /** The first complaint there is, and the configuration if there is none. */
  function Decide(firstBad: Option<Fatal>, mode: Option<string>, port: Option<string>, config: Config): Result<Config, Fatal> {
    if firstBad.Some? then Err(firstBad.value)
    else if mode.Some? && ParseMode(mode.value).None? then Err(BadMode("CAIRN_MODE", mode.value))
    else if port.Some? && ParsePort(port.value).None? then Err(BadPort("CAIRN_PORT", port.value))
    else if Refused(config.mode, config.storage) then Err(SqliteInTeamMode(config.storage.path))
    else Ok(Hardened(config))
  }

  // ----- the scanner

  datatype CliProvided = CliProvided(mode: bool, port: bool, db: bool)

  const NO_ENV := Env(None, None, None)

  /** The scanner's variables after some pairs. */
  ghost predicate Scanned(config: Config, cli: CliProvided, seen: seq<Pair>) {
    && config == PerFlag(seen, NO_ENV).(tlsEnabled := false)
    && cli == CliProvided(Values(seen, ModeFlag) != [], Values(seen, PortFlag) != [], Values(seen, DbFlag) != [])
    && FirstBad(seen) == None
  }

  function From(args: seq<string>, i: nat): seq<string> {
    if i < |args| then args[i..] else []
  }

  lemma OneMore(seen: seq<Pair>, p: Pair)
    ensures Values(seen + [p], p.flag) == Values(seen, p.flag) + [p.value]
    ensures LastValue(seen + [p], p.flag) == Some(p.value)
    ensures forall f: Flag :: f != p.flag ==> Values(seen + [p], f) == Values(seen, f)
  {
    assert Front(seen + [p]) == seen;
  }

  lemma {:induction false} FirstBadConcat(a: seq<Pair>, b: seq<Pair>)
    ensures FirstBad(a + b) == (if FirstBad(a) == None then FirstBad(b) else FirstBad(a))
  {
    if a == [] {
      assert a + b == b;
    } else {
      assert (a + b)[1..] == a[1..] + b;
      FirstBadConcat(a[1..], b);
    }
  }

  /** For all argument lists, well-formed or not. */
  method ParseArgsWithEnv(args: seq<string>, env: Env) returns (result: Result<Config, Fatal>)
    ensures result == Expected(Pairs(Arguments(args)), env)
  {
    var config, cli := DEFAULT, CliProvided(false, false, false);
    ghost var pairs, seen := Pairs(Arguments(args)), [];
    var i := 1;
    NothingScanned(args);
    while i < |args|
      invariant 1 <= i
      invariant Ahead(args, i, seen, pairs)
      invariant Scanned(config, cli, seen)
    {
      Advance(args, i, seen, pairs, env);
      var flag := FlagOf(args[i]);
      if flag.Some? {
        i := i + 1;
        if i < |args| {
          ghost var p := Pair(flag.value, args[i]);
          var fatal;
          config, cli, fatal := TakeFlag(config, cli, flag.value, args[i], seen);
          if fatal.Some? {
            return Err(fatal.value);
          }
          seen := seen + [p];
        }
      }
      i := i + 1;
    }
    assert seen + [] == seen;
    result := Finish(config, cli, env, pairs);
  }

  /** Behind the loop: the environment, TLS and team mode. */
  method Finish(scanned: Config, cli: CliProvided, env: Env, ghost pairs: seq<Pair>)
    returns (result: Result<Config, Fatal>)
    requires Scanned(scanned, cli, pairs)
    ensures result == Expected(pairs, env)
  {
    var fallback := ApplyEnvFallback(scanned, cli, env);
    FallbackFillsIn(scanned, cli, env, pairs);
    if fallback.Err? {
      return Err(fallback.error);
    }
    var config := fallback.value;
    if config.tlsCert.Some? && config.tlsKey.Some? {
      config := config.(tlsEnabled := true);
    }
    if config.mode == SelfHostedTeam {
      if config.addr == "127.0.0.1" {
        config := config.(addr := "0.0.0.0");
      }
      if Refused(config.mode, config.storage) {
        return Err(SqliteInTeamMode(config.storage.path));
      }
      if config.key == LocalAuto {
        config := config.(key := NoKey);
      }
    }
    result := Ok(config);
  }

  lemma NothingScanned(args: seq<string>)
    ensures Ahead(args, 1, [], Pairs(Arguments(args)))
    ensures Scanned(DEFAULT, CliProvided(false, false, false), [])
  {
    assert From(args, 1) == Arguments(args);
    assert [] + Pairs(From(args, 1)) == Pairs(From(args, 1));
  }

  /** From index i on the arguments hold the pairs that are left. */
  ghost predicate Ahead(args: seq<string>, i: nat, seen: seq<Pair>, pairs: seq<Pair>) {
    pairs == seen + Pairs(From(args, i))
  }

  lemma Advance(args: seq<string>, i: nat, seen: seq<Pair>, pairs: seq<Pair>, env: Env)
    requires i < |args| && Ahead(args, i, seen, pairs) && FirstBad(seen) == None
    ensures FlagOf(args[i]).None? ==> Ahead(args, i + 1, seen, pairs)
    ensures FlagOf(args[i]).Some? && i + 1 == |args| ==> Ahead(args, i + 2, seen, pairs)
    ensures FlagOf(args[i]).Some? && i + 1 < |args| ==>
      var p := Pair(FlagOf(args[i]).value, args[i + 1]);
      if Bad(p) then Expected(pairs, env) == Err(Complaint(p)) else Ahead(args, i + 2, seen + [p], pairs)
  {
    PairsFrom(args, i);
    if FlagOf(args[i]).Some? && i + 1 < |args| {
      NextPair(seen, Pair(FlagOf(args[i]).value, args[i + 1]), pairs, Pairs(From(args, i + 2)), env);
    }
  }

  lemma PairsFrom(args: seq<string>, i: nat)
    requires i < |args|
    ensures FlagOf(args[i]).None? ==> Pairs(From(args, i)) == Pairs(From(args, i + 1))
    ensures FlagOf(args[i]).Some? && i + 1 == |args| ==> Pairs(From(args, i)) == []
    ensures FlagOf(args[i]).Some? && i + 1 < |args| ==>
      Pairs(From(args, i)) == [Pair(FlagOf(args[i]).value, args[i + 1])] + Pairs(From(args, i + 2))
  {
    var rest := From(args, i);
    assert rest[1..] == From(args, i + 1);
    if i + 1 < |args| {
      assert rest[2..] == From(args, i + 2);
    }
  }

  lemma NextPair(seen: seq<Pair>, p: Pair, pairs: seq<Pair>, rest: seq<Pair>, env: Env)
    requires pairs == seen + ([p] + rest) && FirstBad(seen) == None
    ensures pairs == (seen + [p]) + rest
    ensures Bad(p) ==> Expected(pairs, env) == Err(Complaint(p))
    ensures !Bad(p) ==> FirstBad(seen + [p]) == None
  {
    FirstBadConcat(seen, [p]);
    FirstBadConcat(seen, [p] + rest);
    assert ([p] + rest)[0] == p;
    assert Bad(p) ==> FirstBad(pairs) == Some(Complaint(p));
  }

  /** The arm of the scanner's `match` for one flag that has a value. */
  method TakeFlag(config0: Config, cli0: CliProvided, flag: Flag, value: string, ghost seen: seq<Pair>)
    returns (config: Config, cli: CliProvided, fatal: Option<Fatal>)
    requires Scanned(config0, cli0, seen)
    ensures var p := Pair(flag, value);
      if Bad(p) then fatal == Some(Complaint(p)) else fatal == None && Scanned(config, cli, seen + [p])
  {
    config, cli, fatal := config0, cli0, None;
    ghost var p := Pair(flag, value);
    OneMore(seen, p);
    FirstBadConcat(seen, [p]);
    match flag {
      case ModeFlag =>
        var mode := ParseMode(value);
        if mode.None? {
          return config, cli, Some(BadMode("--mode", value));
        }
        config, cli := config.(mode := mode.value), cli.(mode := true);
      case PortFlag =>
        var port := ParsePort(value);
        if port.None? {
          return config, cli, Some(BadPort("--port", value));
        }
        config, cli := config.(port := port.value), cli.(port := true);
      case AddrFlag => config := config.(addr := value);
      case CertFlag => config := config.(tlsCert := Some(value));
      case KeyFlag => config := config.(tlsKey := Some(value));
      case DbFlag => config, cli := config.(storage := ParseDb(value)), cli.(db := true);
      case KeyEnvFlag => config := config.(key := EnvVar(value));
    }
  }

  /** Only what the command line left open is taken from the environment. */
  function WithFallback(config: Config, cli: CliProvided, env: Env): Result<Config, Fatal> {
    var mode, port, db := NonBlank(env.mode), NonBlank(env.port), NonBlank(env.db);
    if !cli.mode && mode.Some? && ParseMode(mode.value).None? then Err(BadMode("CAIRN_MODE", mode.value))
    else if !cli.port && port.Some? && ParsePort(port.value).None? then Err(BadPort("CAIRN_PORT", port.value))
    else Ok(config.(mode := if cli.mode then config.mode else Read(mode, ParseMode, config.mode),
                    port := if cli.port then config.port else Read(port, ParsePort, config.port),
                    storage := if cli.db then config.storage else Read(db, v => Some(ParseDb(v)), config.storage)))
  }

  method ApplyEnvFallback(config: Config, cli: CliProvided, env: Env) returns (result: Result<Config, Fatal>)
    ensures result == WithFallback(config, cli, env)
  {
    var c := config;
    if !cli.mode {
      var raw := NonBlank(env.mode);
      if raw.Some? {
        var mode := ParseMode(raw.value);
        if mode.None? {
          return Err(BadMode("CAIRN_MODE", raw.value));
        }
        c := c.(mode := mode.value);
      }
    }
    if !cli.port {
      var raw := NonBlank(env.port);
      if raw.Some? {
        var port := ParsePort(raw.value);
        if port.None? {
          return Err(BadPort("CAIRN_PORT", raw.value));
        }
        c := c.(port := port.value);
      }
    }
    if !cli.db {
      var raw := NonBlank(env.db);
      if raw.Some? {
        c := c.(storage := ParseDb(raw.value));
      }
    }
    result := Ok(c);
  }

  lemma {:induction false} CleanIff(pairs: seq<Pair>)
    ensures FirstBad(pairs) == None <==>
      (forall v :: v in Values(pairs, ModeFlag) ==> ParseMode(v).Some?) &&
      (forall v :: v in Values(pairs, PortFlag) ==> ParsePort(v).Some?)
  {
    if pairs != [] {
      var front, p := Front(pairs), Last(pairs);
      assert pairs == front + [p];
      FirstBadConcat(front, [p]);
      CleanIff(front);
      OneMore(front, p);
      assert forall v :: v in Values(pairs, p.flag) <==> v in Values(front, p.flag) || v == p.value;
    }
  }

  /** With no bad flag, a bad effective value comes from the environment. */
  lemma EffectiveIsGood(pairs: seq<Pair>, env: Env)
    requires FirstBad(pairs) == None
    ensures var raw := Effective(pairs, ModeFlag, env.mode);
      raw.Some? && ParseMode(raw.value).None? <==>
        Values(pairs, ModeFlag) == [] && NonBlank(env.mode).Some? && ParseMode(NonBlank(env.mode).value).None?
    ensures var raw := Effective(pairs, PortFlag, env.port);
      raw.Some? && ParsePort(raw.value).None? <==>
        Values(pairs, PortFlag) == [] && NonBlank(env.port).Some? && ParsePort(NonBlank(env.port).value).None?
  {
    CleanIff(pairs);
    var modes, ports := Values(pairs, ModeFlag), Values(pairs, PortFlag);
    assert modes != [] ==> Last(modes) in modes;
    assert ports != [] ==> Last(ports) in ports;
  }

  lemma FallbackRefuses(config: Config, cli: CliProvided, env: Env, pairs: seq<Pair>)
    requires Scanned(config, cli, pairs)
    ensures var r := WithFallback(config, cli, env);
      && (r.Err? ==> Expected(pairs, env) == Err(r.error))
      && (r.Ok? && Refused(PerFlag(pairs, env).mode, PerFlag(pairs, env).storage) ==>
        Expected(pairs, env) == Err(SqliteInTeamMode(PerFlag(pairs, env).storage.path)))
      && (r.Ok? && !Refused(PerFlag(pairs, env).mode, PerFlag(pairs, env).storage) ==>
        Expected(pairs, env) == Ok(Hardened(PerFlag(pairs, env))))
  {
    EffectiveIsGood(pairs, env);
  }

  lemma FallbackFields(config: Config, cli: CliProvided, env: Env, pairs: seq<Pair>)
    requires Scanned(config, cli, pairs) && WithFallback(config, cli, env).Ok?
    ensures WithFallback(config, cli, env).value == PerFlag(pairs, env).(tlsEnabled := false)
  {
  }

  lemma FallbackFillsIn(config: Config, cli: CliProvided, env: Env, pairs: seq<Pair>)
    requires Scanned(config, cli, pairs)
    ensures var r := WithFallback(config, cli, env);
      && (r.Err? ==> Expected(pairs, env) == Err(r.error))
      && (r.Ok? ==> r.value == PerFlag(pairs, env).(tlsEnabled := false))
      && (r.Ok? && Refused(r.value.mode, r.value.storage) ==>
        Expected(pairs, env) == Err(SqliteInTeamMode(r.value.storage.path)))
      && (r.Ok? && !Refused(r.value.mode, r.value.storage) ==>
        Expected(pairs, env) == Ok(Hardened(PerFlag(pairs, env))))
  {
    FallbackRefuses(config, cli, env, pairs);
    if WithFallback(config, cli, env).Ok? {
      FallbackFields(config, cli, env, pairs);
    }
  }

  // ----- what the scanner promises

  /** A well-formed command line. */
  function Flatten(pairs: seq<Pair>): seq<string> {
    if pairs == [] then [] else [Name(pairs[0].flag), pairs[0].value] + Flatten(pairs[1..])
  }

  /** A well-formed command line is read as it was written, even where a value
      looks like a flag. */
  lemma {:induction false} PairsUndoFlatten(pairs: seq<Pair>)
    ensures Pairs(Flatten(pairs)) == pairs
  {
    if pairs != [] {
      var args := Flatten(pairs);
      assert args[0] == Name(pairs[0].flag) && args[1] == pairs[0].value;
      assert args[2..] == Flatten(pairs[1..]);
      PairsUndoFlatten(pairs[1..]);
    }
  }

  /** The same values for each flag, in the same order. */
  ghost predicate SameValues(a: seq<Pair>, b: seq<Pair>) {
    forall f :: Values(a, f) == Values(b, f)
  }

  lemma SameFields(a: seq<Pair>, b: seq<Pair>, env: Env)
    requires SameValues(a, b)
    ensures PerFlag(a, env) == PerFlag(b, env)
    ensures Effective(a, ModeFlag, env.mode) == Effective(b, ModeFlag, env.mode)
    ensures Effective(a, PortFlag, env.port) == Effective(b, PortFlag, env.port)
  {
    SameLast(a, b, ModeFlag);
    SameLast(a, b, PortFlag);
    SameLast(a, b, AddrFlag);
    SameLast(a, b, CertFlag);
    SameLast(a, b, KeyFlag);
    SameLast(a, b, DbFlag);
    SameLast(a, b, KeyEnvFlag);
  }

  lemma SameLast(a: seq<Pair>, b: seq<Pair>, f: Flag)
    requires SameValues(a, b)
    ensures LastValue(a, f) == LastValue(b, f)
  {
    assert Values(a, f) == Values(b, f);
  }

  lemma SameClean(a: seq<Pair>, b: seq<Pair>)
    requires SameValues(a, b)
    ensures FirstBad(a) == None <==> FirstBad(b) == None
  {
    CleanIff(a);
    CleanIff(b);
    assert Values(a, ModeFlag) == Values(b, ModeFlag) && Values(a, PortFlag) == Values(b, PortFlag);
  }

  /** Only the order among values of one flag matters: two command lines that
      give each flag the same values in the same order are both refused, or
      give the same configuration. */
  lemma OrderAcrossFlagsIsFree(a: seq<Pair>, b: seq<Pair>, env: Env)
    requires SameValues(a, b)
    ensures Expected(a, env).Err? <==> Expected(b, env).Err?
    ensures Expected(a, env).Ok? ==> Expected(a, env) == Expected(b, env)
  {
    SameFields(a, b, env);
    SameClean(a, b);
  }

  lemma SameComplaint(a: seq<Pair>, b: seq<Pair>, env: Env)
    requires SameValues(a, b)
    ensures Expected(a, env) == Expected(b, env) <==> FirstBad(a) == FirstBad(b)
  {
    SameFields(a, b, env);
    SameClean(a, b);
  }

  lemma {:induction false} SwapKeepsValues(a: seq<Pair>, p: Pair, q: Pair, b: seq<Pair>, f: Flag)
    requires p.flag != q.flag
    ensures Values(a + [p, q] + b, f) == Values(a + [q, p] + b, f)
  {
    if b == [] {
      assert a + [p, q] + b == (a + [p]) + [q] && a + [q, p] + b == (a + [q]) + [p];
      OneMore(a, p);
      OneMore(a, q);
      OneMore(a + [p], q);
      OneMore(a + [q], p);
    } else {
      assert Front(a + [p, q] + b) == a + [p, q] + Front(b);
      assert Front(a + [q, p] + b) == a + [q, p] + Front(b);
      SwapKeepsValues(a, p, q, Front(b), f);
    }
  }

  /** Swapping two neighbours with different flags changes nothing at all,
      unless both have a value that is refused and nothing before them does:
      then the complaint is about the other one. */
  lemma SwapChangesNothingIff(a: seq<Pair>, p: Pair, q: Pair, b: seq<Pair>, env: Env)
    requires p.flag != q.flag
    ensures Expected(a + [p, q] + b, env) == Expected(a + [q, p] + b, env) <==>
      !(FirstBad(a) == None && Bad(p) && Bad(q))
  {
    var x, y := a + [p, q] + b, a + [q, p] + b;
    forall f ensures Values(x, f) == Values(y, f) {
      SwapKeepsValues(a, p, q, b, f);
    }
    SameComplaint(x, y, env);
    FirstBadInside(a, p, q, b);
    FirstBadInside(a, q, p, b);
  }

  /** Two bad values: swapped, the complaint is about the other one. */
  lemma SwapCanChangeTheComplaint(env: Env)
    ensures var p, q := Pair(ModeFlag, "x"), Pair(PortFlag, "x");
      && Expected([p, q], env) == Err(BadMode("--mode", "x"))
      && Expected([q, p], env) == Err(BadPort("--port", "x"))
  {
    assert Bad(Pair(ModeFlag, "x"));
    assert Bad(Pair(PortFlag, "x")) by {
      assert 'x' in "x" && !Decimal.IsDigit('x');
    }
  }

  lemma FirstBadInside(a: seq<Pair>, p: Pair, q: Pair, b: seq<Pair>)
    ensures FirstBad(a + [p, q] + b) ==
      if FirstBad(a) != None then FirstBad(a)
      else if Bad(p) then Some(Complaint(p)) else if Bad(q) then Some(Complaint(q)) else FirstBad(b)
  {
    assert a + [p, q] + b == a + ([p, q] + b);
    FirstBadConcat(a, [p, q] + b);
    FirstBadOfTwo(p, q, b);
  }

  lemma FirstBadOfTwo(p: Pair, q: Pair, b: seq<Pair>)
    ensures FirstBad([p, q] + b) ==
      if Bad(p) then Some(Complaint(p)) else if Bad(q) then Some(Complaint(q)) else FirstBad(b)
  {
    assert ([p, q] + b)[1..] == [q] + b && ([q] + b)[1..] == b;
  }

  /** A flag given on the command line wins over the environment, whatever the
      environment says. */
  lemma CommandLineWins(pairs: seq<Pair>, env: Env, other: Env)
    requires LastValue(pairs, ModeFlag).None? ==> env.mode == other.mode
    requires LastValue(pairs, PortFlag).None? ==> env.port == other.port
    requires LastValue(pairs, DbFlag).None? ==> env.db == other.db
    ensures Expected(pairs, env) == Expected(pairs, other)
  {
  }

  /** What a returned configuration never is. */
  lemma TeamModeIsSafe(pairs: seq<Pair>, env: Env)
    requires Expected(pairs, env).Ok? && Expected(pairs, env).value.mode == SelfHostedTeam
    ensures var config := Expected(pairs, env).value;
      && config.addr != "127.0.0.1" && config.key != LocalAuto && config.port <= 65535
      && (config.storage.Sqlite? ==>
            !EndsWith(config.storage.path, ".db") && !EndsWith(config.storage.path, ".sqlite"))
  {
  }

  /** When starting is refused: over a mode or port given, at any place, that
      is none; over one that comes from the environment; or over a SQLite file
      in team mode. */
  lemma RefusedIff(pairs: seq<Pair>, env: Env)
    ensures var mode, port := Effective(pairs, ModeFlag, env.mode), Effective(pairs, PortFlag, env.port);
      var db := Effective(pairs, DbFlag, env.db);
      Expected(pairs, env).Err? <==>
        || GivesBadValue(pairs)
        || (Values(pairs, ModeFlag) == [] && mode.Some? && !IsMode(mode.value))
        || (Values(pairs, PortFlag) == [] && port.Some? && Decimal.Parse(port.value, 65535).None?)
        || ((mode == Some("team") || mode == Some("self-hosted")) && db.Some? && IsSqliteFile(db.value))
  {
    FirstBadIff(pairs);
    if FirstBad(pairs) == None {
      EffectiveIsGood(pairs, env);
      RefusedStorage(pairs, env);
      ModesByName(Effective(pairs, ModeFlag, env.mode));
    }
  }

  /** Some mode that is given is none, or some port. */
  predicate GivesBadValue(pairs: seq<Pair>) {
    || (exists v :: v in Values(pairs, ModeFlag) && !IsMode(v))
    || (exists v :: v in Values(pairs, PortFlag) && Decimal.Parse(v, 65535).None?)
  }

  predicate IsMode(v: string) {
    v == "team" || v == "self-hosted" || v == "local"
  }

  /** Neither the word for memory nor a Postgres address, and named like a
      database file. */
  predicate IsSqliteFile(v: string) {
    && v != "memory" && !("postgres://" <= v) && !("postgresql://" <= v)
    && (EndsWith(v, ".db") || EndsWith(v, ".sqlite"))
  }

  lemma ModesByName(raw: Option<string>)
    ensures raw.Some? ==> (ParseMode(raw.value).None? <==> !IsMode(raw.value))
  {
  }

  lemma RefusedStorage(pairs: seq<Pair>, env: Env)
    ensures var mode, db := Effective(pairs, ModeFlag, env.mode), Effective(pairs, DbFlag, env.db);
      Refused(PerFlag(pairs, env).mode, PerFlag(pairs, env).storage) <==>
        (mode == Some("team") || mode == Some("self-hosted")) && db.Some? && IsSqliteFile(db.value)
  {
  }

  lemma FirstBadIff(pairs: seq<Pair>)
    ensures FirstBad(pairs).Some? <==> GivesBadValue(pairs)
  {
    CleanIff(pairs);
    forall v | v in Values(pairs, ModeFlag) ensures ParseMode(v).None? <==> !IsMode(v) {
      ModesByName(Some(v));
    }
    forall v | v in Values(pairs, PortFlag) ensures ParsePort(v) == Decimal.Parse(v, 65535) {
    }
  }

  // ----- the fields of a returned configuration

  /** What each field of a returned configuration is, by the last value given
      for it, or the environment's. */
  lemma FieldsMean(pairs: seq<Pair>, env: Env)
    requires Expected(pairs, env).Ok?
    ensures var c := Expected(pairs, env).value;
      var mode, port := Effective(pairs, ModeFlag, env.mode), Effective(pairs, PortFlag, env.port);
      var addr, keyEnv := LastValue(pairs, AddrFlag), LastValue(pairs, KeyEnvFlag);
      && (c.mode == SelfHostedTeam <==> mode == Some("team") || mode == Some("self-hosted"))
      && (c.mode == Local <==> mode == None || mode == Some("local"))
      && (port.None? ==> c.port == 3000) && (port.Some? ==> Decimal.Parse(port.value, 65535) == Some(c.port))
      && (addr.Some? && addr.value != "127.0.0.1" ==> c.addr == addr.value)
      && (addr == None || addr == Some("127.0.0.1") ==> c.addr == (if c.mode == Local then "127.0.0.1" else "0.0.0.0"))
      && (keyEnv.Some? ==> c.key == EnvVar(keyEnv.value))
      && (keyEnv.None? ==> c.key == (if c.mode == Local then LocalAuto else NoKey))
      && c.tlsCert == LastValue(pairs, CertFlag) && c.tlsKey == LastValue(pairs, KeyFlag)
      && (c.tlsEnabled <==> c.tlsCert.Some? && c.tlsKey.Some?)
  {
  }

  /** And what the storage is. */
  lemma StorageMeans(pairs: seq<Pair>, env: Env, raw: string)
    requires Expected(pairs, env).Ok?
    ensures var storage := Expected(pairs, env).value.storage; var db := Effective(pairs, DbFlag, env.db);
      && (db == None || db == Some("memory") ==> storage == InMemory)
      && (db == Some(raw) && raw != "memory" ==>
            storage == if "postgres://" <= raw || "postgresql://" <= raw then Postgres(raw) else Sqlite(raw))
  {
  }

  lemma FlagThenValue(arg: string, value: string, rest: seq<string>)
    requires FlagOf(arg).Some?
    ensures Pairs([arg, value] + rest) == [Pair(FlagOf(arg).value, value)] + Pairs(rest)
    ensures Pairs([arg]) == []
  {
    var args := [arg, value] + rest;
    assert args[0] == arg && args[1] == value && args[2..] == rest;
  }

  /** The flags by their names: each takes the next argument for its value,
      whatever that is, and means nothing at the very end; any other argument
      is passed over. */
  lemma FlagsByName(v: string, other: string, rest: seq<string>)
    ensures Pairs(["--mode", v] + rest) == [Pair(ModeFlag, v)] + Pairs(rest) && Pairs(["--mode"]) == []
    ensures Pairs(["--port", v] + rest) == [Pair(PortFlag, v)] + Pairs(rest) && Pairs(["--port"]) == []
    ensures Pairs(["--addr", v] + rest) == [Pair(AddrFlag, v)] + Pairs(rest) && Pairs(["--addr"]) == []
    ensures Pairs(["--tls-cert", v] + rest) == [Pair(CertFlag, v)] + Pairs(rest) && Pairs(["--tls-cert"]) == []
    ensures Pairs(["--tls-key", v] + rest) == [Pair(KeyFlag, v)] + Pairs(rest) && Pairs(["--tls-key"]) == []
    ensures Pairs(["--db", v] + rest) == [Pair(DbFlag, v)] + Pairs(rest) && Pairs(["--db"]) == []
    ensures Pairs(["--encryption-key-env", v] + rest) == [Pair(KeyEnvFlag, v)] + Pairs(rest)
    ensures Pairs(["--encryption-key-env"]) == []
    ensures other !in {"--mode", "--port", "--addr", "--tls-cert", "--tls-key", "--db", "--encryption-key-env"} ==>
      Pairs([other] + rest) == Pairs(rest)
  {
    FlagThenValue("--mode", v, rest);
    FlagThenValue("--port", v, rest);
    FlagThenValue("--addr", v, rest);
    FlagThenValue("--tls-cert", v, rest);
    FlagThenValue("--tls-key", v, rest);
    FlagThenValue("--db", v, rest);
    FlagThenValue("--encryption-key-env", v, rest);
    assert ([other] + rest)[1..] == rest;
  }

  /** An environment value counts without the white space around it, and not
      at all if there is nothing else. */
  lemma NonBlankMeans(a: string, s: string, b: string)
    requires AllOf(a, c => IsUnicodeSpace(c)) && AllOf(b, c => IsUnicodeSpace(c)) && Bare(s, c => IsUnicodeSpace(c))
    ensures NonBlank(Some(a + s + b)) == (if s == "" then None else Some(s)) && NonBlank(None) == None
  {
    TrimMeans(a, s, b, c => IsUnicodeSpace(c));
  }
}
