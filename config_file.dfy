/**
 * Configuration resolution of mpdscribble (src/file.c): where the
 * configuration file is looked for, how `~` is expanded, how values from the
 * command line, the configuration file, the environment and the built-in
 * defaults are combined, and which missing values stop the program.
 *
 * The process environment, the file system and the GKeyFile parser are
 * inputs (`Environment`, `KeyFile`); `g_error`, which ends the program, is an
 * `Err` result.
 */
module ConfigFile {
  import opened Wrappers

  const HomeConf: string := "~/.mpdscribble/mpdscribble.conf"
  const HomeLog: string := "~/.mpdscribble/mpdscribble.log"
  const HomeCache: string := "~/.mpdscribble/mpdscribble.cache"
  const SystemLog: string := "/var/log/mpdscribble/mpdscribble.log"
  const SystemCache: string := "/var/cache/mpdscribble/mpdscribble.cache"
  const DefaultPort: int := 6600
  const DefaultHost: string := "localhost"
  /** Written into the integer settings before the command line is parsed; means "not set". */
  const Unset: int := -1

  /** Where the configuration file was found (`file_config.loc`). */
  datatype Location = Unknown | Home | Etc

  /** The fatal errors (`g_error`) of configuration loading. */
  datatype Error =
    | CannotFindConfig
    | CannotLoad(path: string)
    | BadValue(key: string, message: string)
    | NoUsername
    | NoPassword
    | NoLogPath
    | NoCachePath

  /** What a GKeyFile getter yields for a key that is present. */
  datatype Lookup<T> = Found(value: T) | Invalid(message: string)

  /** A key's value as `g_key_file_get_string` and `g_key_file_get_integer` read it. */
  datatype Entry = Entry(text: Lookup<string>, number: Lookup<int>)

  /** The `[mpdscribble]` group of a parsed configuration file; a missing key is KEY_NOT_FOUND. */
  type KeyFile = map<string, Entry>

  /**
   * What the program reads from outside: HOME, MPD_HOST, MPD_PORT and
   * http_proxy; the regular files that exist; the files that can be read and
   * parsed, with their contents; and FILE_CONF, the system-wide
   * configuration path fixed when the program is built.
   */
  datatype Environment = Environment(
    home: Option<string>,
    mpdHost: Option<string>,
    mpdPort: Option<string>,
    httpProxy: Option<string>,
    regularFiles: set<string>,
    keyFiles: map<string, KeyFile>,
    systemConf: string)

  /**
   * The settings as the command-line parser leaves them: NULL for a string it
   * did not set, `Unset` for an integer it did not set.
   */
  datatype CommandLine = CommandLine(
    conf: Option<string>,
    username: Option<string>,
    password: Option<string>,
    log: Option<string>,
    cache: Option<string>,
    musicdir: Option<string>,
    host: Option<string>,
    port: int,
    proxy: Option<string>,
    sleep: int,
    cacheInterval: int,
    verbose: int)

  /** The fields of `struct config` that configuration loading fills in. */
  datatype Config = Config(
    loc: Location,
    conf: Option<string>,
    username: Option<string>,
    password: Option<string>,
    log: Option<string>,
    cache: Option<string>,
    musicdir: Option<string>,
    host: Option<string>,
    port: int,
    proxy: Option<string>,
    sleep: int,
    cacheInterval: int,
    verbose: int)

  /** `file_config` after the command line was parsed; `loc` starts as unknown. */
  function Initial(cmd: CommandLine): Config {
    Config(Unknown, cmd.conf, cmd.username, cmd.password, cmd.log, cmd.cache, cmd.musicdir,
           cmd.host, cmd.port, cmd.proxy, cmd.sleep, cmd.cacheInterval, cmd.verbose)
  }

  // ---------------------------------------------------------------------
  // Precedence: the first source that supplies a value wins.

  /** The first supplied value of `xs`, or none if no source supplies one. */
  function FirstGiven<T>(xs: seq<Option<T>>): (r: Option<T>)
    ensures r.None? ==> forall i :: 0 <= i < |xs| ==> xs[i].None?
    ensures r.Some? ==> exists i :: 0 <= i < |xs| && xs[i] == r
                                    && forall j :: 0 <= j < i ==> xs[j].None?
    decreases |xs|
  {
    if xs == [] then None
    else if xs[0].Some? then xs[0]
    else
      var r := FirstGiven(xs[1..]);
      assert forall i :: 0 < i < |xs| ==> xs[i] == xs[1..][i - 1];
      r
  }

  /** The first set integer of `xs` (one that is not `Unset`), or `Unset`. */
  function FirstSet(xs: seq<int>): (r: int)
    ensures r == Unset ==> forall i :: 0 <= i < |xs| ==> xs[i] == Unset
    ensures r != Unset ==> exists i :: 0 <= i < |xs| && xs[i] == r
                                       && forall j :: 0 <= j < i ==> xs[j] == Unset
    decreases |xs|
  {
    if xs == [] then Unset
    else if xs[0] != Unset then xs[0]
    else
      var r := FirstSet(xs[1..]);
      assert forall i :: 0 < i < |xs| ==> xs[i] == xs[1..][i - 1];
      r
  }

  lemma FirstGivenCons<T>(x: Option<T>, xs: seq<Option<T>>)
    ensures FirstGiven([x] + xs) == if x.Some? then x else FirstGiven(xs)
  {
  }

  lemma FirstSetCons(x: int, xs: seq<int>)
    ensures FirstSet([x] + xs) == if x != Unset then x else FirstSet(xs)
  {
  }

  lemma FirstGivenOfTwo<T>(a: Option<T>, b: Option<T>)
    ensures FirstGiven([a, b]) == if a.Some? then a else b
  {
  }

  lemma FirstGivenOfThree<T>(a: Option<T>, b: Option<T>, c: Option<T>)
    ensures FirstGiven([a, b, c]) == if a.Some? then a else if b.Some? then b else c
  {
    FirstGivenCons(a, [b, c]);
    FirstGivenOfTwo(b, c);
  }

  lemma FirstSetOfTwo(a: int, b: int)
    ensures FirstSet([a, b]) == if a != Unset then a else b
  {
  }

  lemma FirstSetOfThree(a: int, b: int, c: int)
    ensures FirstSet([a, b, c]) == if a != Unset then a else if b != Unset then b else c
  {
    FirstSetCons(a, [b, c]);
    FirstSetOfTwo(b, c);
  }

  // ---------------------------------------------------------------------
  // atoi, as ISO C section 7.22.1.2 defines it for values that fit an int.

  predicate IsSpace(c: char) {
    c == ' ' || '\t' <= c <= '\r'
  }

  predicate IsDigit(c: char) {
    '0' <= c <= '9'
  }

  predicate AllDigits(s: string) {
    forall i :: 0 <= i < |s| ==> IsDigit(s[i])
  }

  function SkipSpaces(s: string): string
    decreases |s|
  {
    if |s| > 0 && IsSpace(s[0]) then SkipSpaces(s[1..]) else s
  }

  /** The longest prefix of `s` made of decimal digits. */
  function DigitPrefix(s: string): (r: string)
    ensures AllDigits(r) && r <= s
    ensures |r| < |s| ==> !IsDigit(s[|r|])
    decreases |s|
  {
    if |s| > 0 && IsDigit(s[0]) then [s[0]] + DigitPrefix(s[1..]) else []
  }

  function DigitsValue(d: string): nat
    requires AllDigits(d)
    decreases |d|
  {
    if d == [] then 0 else DigitsValue(d[..|d| - 1]) * 10 + ((d[|d| - 1] as int) - ('0' as int))
  }

  /** Leading white space, an optional sign, then as many digits as there are; 0 if none. */
  function Atoi(s: string): int {
    var t := SkipSpaces(s);
    if |t| > 0 && (t[0] == '-' || t[0] == '+') then
      var v: int := DigitsValue(DigitPrefix(t[1..]));
      if t[0] == '-' then -v else v
    else
      DigitsValue(DigitPrefix(t))
  }

  /** The decimal numeral of `n`, without sign or leading zeros. */
  function Decimal(n: nat): (r: string)
    ensures |r| > 0 && AllDigits(r)
  {
    if n < 10 then [('0' as int + n) as char]
    else Decimal(n / 10) + [('0' as int + n % 10) as char]
  }

  lemma {:induction false} DecimalValue(n: nat)
    ensures DigitsValue(Decimal(n)) == n
  {
    if n >= 10 {
      DecimalValue(n / 10);
      var d := Decimal(n);
      assert d[..|d| - 1] == Decimal(n / 10);
    }
  }

  lemma {:induction false} DigitPrefixOfDigits(d: string, rest: string)
    requires AllDigits(d)
    requires rest == [] || !IsDigit(rest[0])
    ensures DigitPrefix(d + rest) == d
    decreases |d|
  {
    if d == [] {
      assert d + rest == rest;
    } else {
      assert (d + rest)[1..] == d[1..] + rest;
      DigitPrefixOfDigits(d[1..], rest);
      assert d == [d[0]] + d[1..];
    }
  }

  /** A decimal numeral, followed by anything that is not a digit, reads back as its value. */
  lemma AtoiReadsDecimal(n: nat, rest: string)
    requires rest == [] || !IsDigit(rest[0])
    ensures Atoi(Decimal(n) + rest) == n
  {
    var d := Decimal(n);
    assert (d + rest)[0] == d[0];
    assert SkipSpaces(d + rest) == d + rest;
    DigitPrefixOfDigits(d, rest);
    DecimalValue(n);
  }

  /** `file_atoi`: 0 for a NULL string, C's `atoi` otherwise. */
  function FileAtoi(s: Option<string>): (r: int)
    ensures s.None? ==> r == 0
    ensures s.Some? ==> r == Atoi(s.value)
  {
    if s.None? then 0 else Atoi(s.value)
  }

  // ---------------------------------------------------------------------
  // Default paths.

  function HomeDir(home: Option<string>): string {
    home.GetOr("./")
  }

  /** `file_expand_tilde`: a leading `~` stands for HOME, or for "./" when HOME is not set. */
  function ExpandTilde(path: string, home: Option<string>): (r: string)
    ensures (path == [] || path[0] != '~') ==> r == path
    ensures path != [] && path[0] == '~' ==>
              |r| == |HomeDir(home)| + |path| - 1
              && r[..|HomeDir(home)|] == HomeDir(home) && r[|HomeDir(home)|..] == path[1..]
  {
    if path == [] || path[0] != '~' then path
    else HomeDir(home) + path[1..]
  }

  /**
   * `get_default_config_path`: the per-user file wins over the system-wide
   * one, and `loc` records which was taken; with neither, no path and `loc`
   * is left as it was.
   */
  function DefaultConfigPath(env: Environment, loc: Location): (r: (Option<string>, Location))
    ensures ExpandTilde(HomeConf, env.home) in env.regularFiles ==>
              r == (Some(ExpandTilde(HomeConf, env.home)), Home)
    ensures (ExpandTilde(HomeConf, env.home) !in env.regularFiles
             && env.systemConf in env.regularFiles) ==> r == (Some(env.systemConf), Etc)
    ensures r.0.None? <==> ExpandTilde(HomeConf, env.home) !in env.regularFiles
                           && env.systemConf !in env.regularFiles
    ensures r.0.None? ==> r.1 == loc
    ensures r.0.Some? ==> r.0.value in env.regularFiles && r.1 != Unknown
  {
    var file := ExpandTilde(HomeConf, env.home);
    if file in env.regularFiles then (Some(file), Home)
    else if env.systemConf !in env.regularFiles then (None, loc)
    else (Some(env.systemConf), Etc)
  }

  /** `get_default_log_path`: depends on where the configuration file was found. */
  function DefaultLogPath(loc: Location, home: Option<string>): (r: Result<string, Error>)
    ensures r.Err? <==> loc == Unknown
    ensures r.Err? ==> r.error == NoLogPath
    ensures loc == Etc ==> r == Ok(SystemLog)
    ensures loc == Home ==> r == Ok(HomeDir(home) + "/.mpdscribble/mpdscribble.log")
  {
    match loc
    case Home => Ok(ExpandTilde(HomeLog, home))
    case Etc => Ok(SystemLog)
    case Unknown => Err(NoLogPath)
  }

  /** `get_default_cache_path`: depends on where the configuration file was found. */
  function DefaultCachePath(loc: Location, home: Option<string>): (r: Result<string, Error>)
    ensures r.Err? <==> loc == Unknown
    ensures r.Err? ==> r.error == NoCachePath
    ensures loc == Etc ==> r == Ok(SystemCache)
    ensures loc == Home ==> r == Ok(HomeDir(home) + "/.mpdscribble/mpdscribble.cache")
  {
    match loc
    case Home => Ok(ExpandTilde(HomeCache, home))
    case Etc => Ok(SystemCache)
    case Unknown => Err(NoCachePath)
  }

  // ---------------------------------------------------------------------
  // Reading values from the configuration file.

  /** The string the file gives for `name`, if it gives a readable one. */
  function FileText(kf: KeyFile, name: string): Option<string> {
    if name in kf && kf[name].text.Found? then Some(kf[name].text.value) else None
  }

  /** The integer the file gives for `name`, if it gives a readable one. */
  function FileNumber(kf: KeyFile, name: string): int {
    if name in kf && kf[name].number.Found? then kf[name].number.value else Unset
  }

  /** Loading the string `name` does not fail. */
  predicate TextLoads(kf: KeyFile, name: string, current: Option<string>) {
    current.Some? || name !in kf || kf[name].text.Found?
  }

  /** Loading the integer `name` does not fail. */
  predicate NumberLoads(kf: KeyFile, name: string, current: int) {
    current != Unset || name !in kf || kf[name].number.Found?
  }

  /**
   * `load_string`: a value already set on the command line is kept; otherwise
   * the file's value is taken; a missing key leaves the value as it was and
   * any other lookup error is fatal.
   */
  function LoadString(kf: KeyFile, name: string, current: Option<string>)
    : (r: Result<Option<string>, Error>)
    ensures r.Ok? <==> TextLoads(kf, name, current)
    ensures r.Ok? ==> r.value == FirstGiven([current, FileText(kf, name)])
    ensures current.Some? || name !in kf ==> r == Ok(current)
    ensures r.Err? ==> name in kf && kf[name].text.Invalid?
                       && r.error == BadValue(name, kf[name].text.message)
  {
    FirstGivenCons(current, [FileText(kf, name)]);
    FirstGivenCons(FileText(kf, name), []);
    if current.Some? then Ok(current)
    else if name !in kf then Ok(current)
    else match kf[name].text
      case Found(v) => Ok(Some(v))
      case Invalid(m) => Err(BadValue(name, m))
  }

  /**
   * `load_integer`: a value other than `Unset` is kept; otherwise the file's
   * value is taken; a missing key leaves the value as it was and any other
   * lookup error is fatal.
   */
  function LoadInteger(kf: KeyFile, name: string, current: int): (r: Result<int, Error>)
    ensures r.Ok? <==> NumberLoads(kf, name, current)
    ensures r.Ok? ==> r.value == FirstSet([current, FileNumber(kf, name)])
    ensures current != Unset || name !in kf ==> r == Ok(current)
    ensures r.Err? ==> name in kf && kf[name].number.Invalid?
                       && r.error == BadValue(name, kf[name].number.message)
  {
    FirstSetCons(current, [FileNumber(kf, name)]);
    FirstSetCons(FileNumber(kf, name), []);
    if current != Unset then Ok(current)
    else if name !in kf then Ok(current)
    else match kf[name].number
      case Found(v) => Ok(v)
      case Invalid(m) => Err(BadValue(name, m))
  }

  /** Every key that `LoadConfigFile` reads loads without a fatal error. */
  predicate Loadable(c: Config, kf: KeyFile) {
    && TextLoads(kf, "username", c.username)
    && TextLoads(kf, "password", c.password)
    && TextLoads(kf, "log", c.log)
    && TextLoads(kf, "cache", c.cache)
    && TextLoads(kf, "musicdir", c.musicdir)
    && TextLoads(kf, "host", c.host)
    && NumberLoads(kf, "port", c.port)
    && TextLoads(kf, "proxy", c.proxy)
    && NumberLoads(kf, "sleep", c.sleep)
    && NumberLoads(kf, "cache_interval", c.cacheInterval)
    && NumberLoads(kf, "verbose", c.verbose)
  }

  /**
   * The key loads of `load_config_file`, in the file's order. Each setting
   * becomes its current value if set, else the file's; `loc` and `conf` are
   * untouched; the first key whose lookup fails stops loading.
   */
  function LoadConfigFile(c: Config, kf: KeyFile): (r: Result<Config, Error>)
    ensures r.Ok? <==> Loadable(c, kf)
    ensures r.Err? ==> r.error.BadValue?
    ensures r.Ok? ==> r.value == c.(
              username := FirstGiven([c.username, FileText(kf, "username")]),
              password := FirstGiven([c.password, FileText(kf, "password")]),
              log := FirstGiven([c.log, FileText(kf, "log")]),
              cache := FirstGiven([c.cache, FileText(kf, "cache")]),
              musicdir := FirstGiven([c.musicdir, FileText(kf, "musicdir")]),
              host := FirstGiven([c.host, FileText(kf, "host")]),
              port := FirstSet([c.port, FileNumber(kf, "port")]),
              proxy := FirstGiven([c.proxy, FileText(kf, "proxy")]),
              sleep := FirstSet([c.sleep, FileNumber(kf, "sleep")]),
              cacheInterval := FirstSet([c.cacheInterval, FileNumber(kf, "cache_interval")]),
              verbose := FirstSet([c.verbose, FileNumber(kf, "verbose")]))
  {
    var username :- LoadString(kf, "username", c.username);
    var password :- LoadString(kf, "password", c.password);
    var log :- LoadString(kf, "log", c.log);
    var cache :- LoadString(kf, "cache", c.cache);
    var musicdir :- LoadString(kf, "musicdir", c.musicdir);
    var host :- LoadString(kf, "host", c.host);
    var port :- LoadInteger(kf, "port", c.port);
    var proxy :- LoadString(kf, "proxy", c.proxy);
    var sleep :- LoadInteger(kf, "sleep", c.sleep);
    var cacheInterval :- LoadInteger(kf, "cache_interval", c.cacheInterval);
    var verbose :- LoadInteger(kf, "verbose", c.verbose);
    Ok(c.(username := username, password := password, log := log, cache := cache,
          musicdir := musicdir, host := host, port := port, proxy := proxy, sleep := sleep,
          cacheInterval := cacheInterval, verbose := verbose))
  }

  // ---------------------------------------------------------------------
  // The whole resolution.

  /** The configuration file to read and the location it comes from. */
  function Source(cmd: CommandLine, env: Environment): (Option<string>, Location) {
    if cmd.conf.Some? then (cmd.conf, Unknown) else DefaultConfigPath(env, Unknown)
  }

  /** `file_config` once the configuration file has been chosen. */
  function Chosen(cmd: CommandLine, env: Environment): Config {
    Initial(cmd).(conf := Source(cmd, env).0, loc := Source(cmd, env).1)
  }

  /** A configuration file was chosen and can be read and parsed. */
  predicate HasFile(cmd: CommandLine, env: Environment) {
    Source(cmd, env).0.Some? && Source(cmd, env).0.value in env.keyFiles
  }

  function FileOf(cmd: CommandLine, env: Environment): KeyFile
    requires HasFile(cmd, env)
  {
    env.keyFiles[Source(cmd, env).0.value]
  }

  /** The port MPD_PORT asks for, or `Unset` when it is not set. */
  function EnvPort(env: Environment): int {
    if env.mpdPort.Some? then FileAtoi(env.mpdPort) else Unset
  }

  /** What every successful resolution guarantees. */
  predicate Complete(c: Config) {
    && c.conf.Some? && c.username.Some? && c.password.Some?
    && c.host.Some? && c.log.Some? && c.cache.Some?
    && c.port != Unset && c.cacheInterval != Unset && c.verbose != Unset && c.sleep != 0
  }

  /**
   * The last defaults of `file_read_config`: MPD_HOST, then "localhost";
   * MPD_PORT, then 6600; http_proxy; 600 and 2 for an unset cache interval
   * and verbosity; a sleep of 0 becomes 1.
   */
  function Finish(c: Config, env: Environment, log: string, cache: string): (r: Config)
    ensures r.host.Some? && r.port != Unset && r.cacheInterval != Unset && r.verbose != Unset
    ensures r.sleep != 0 && r.log == Some(log) && r.cache == Some(cache)
    ensures r.loc == c.loc && r.conf == c.conf && r.musicdir == c.musicdir
    ensures r.username == c.username && r.password == c.password
  {
    FirstGivenOfThree(c.host, env.mpdHost, Some(DefaultHost));
    FirstSetOfThree(c.port, EnvPort(env), DefaultPort);
    FirstSetOfTwo(c.cacheInterval, 600);
    FirstSetOfTwo(c.verbose, 2);
    c.(host := FirstGiven([c.host, env.mpdHost, Some(DefaultHost)]),
       log := Some(log),
       cache := Some(cache),
       port := FirstSet([c.port, EnvPort(env), DefaultPort]),
       proxy := FirstGiven([c.proxy, env.httpProxy]),
       sleep := if c.sleep == 0 then 1 else c.sleep,
       cacheInterval := FirstSet([c.cacheInterval, 600]),
       verbose := FirstSet([c.verbose, 2]))
  }

  /**
   * The defaulting block of `file_read_config`: the log and cache paths
   * follow the configuration file's location (fatal when it is unknown),
   * then `Finish` fills in the rest.
   */
  function Defaults(c: Config, env: Environment): (r: Result<Config, Error>)
    ensures c.log.None? && c.loc == Unknown ==> r == Err(NoLogPath)
    ensures c.log.Some? && c.cache.None? && c.loc == Unknown ==> r == Err(NoCachePath)
    ensures r.Err? ==> c.loc == Unknown && (c.log.None? || c.cache.None?)
    ensures c.loc != Unknown || (c.log.Some? && c.cache.Some?) ==> r.Ok?
  {
    var log :- if c.log.Some? then Ok(c.log.value) else DefaultLogPath(c.loc, env.home);
    var cache :- if c.cache.Some? then Ok(c.cache.value) else DefaultCachePath(c.loc, env.home);
    Ok(Finish(c, env, log, cache))
  }

  /**
   * The configuration `file_read_config` produces, stated as precedence:
   * the file's values fill what the command line left open, then MPD_HOST,
   * MPD_PORT and http_proxy, then the built-in defaults.
   */
  function Resolve(cmd: CommandLine, env: Environment): (r: Result<Config, Error>)
    ensures Source(cmd, env).0.None? ==> r == Err(CannotFindConfig)
    ensures Source(cmd, env).0.Some? && !HasFile(cmd, env) ==>
              r == Err(CannotLoad(Source(cmd, env).0.value))
    ensures r.Ok? ==> HasFile(cmd, env) && Loadable(Initial(cmd), FileOf(cmd, env))
    ensures r.Ok? ==> Complete(r.value)
    ensures r.Ok? ==> r.value.loc == Source(cmd, env).1 && r.value.conf == Source(cmd, env).0
  {
    var conf := Source(cmd, env).0;
    if conf.None? then Err(CannotFindConfig)
    else if conf.value !in env.keyFiles then Err(CannotLoad(conf.value))
    else
      var c :- LoadConfigFile(Chosen(cmd, env), env.keyFiles[conf.value]);
      if c.username.None? then Err(NoUsername)
      else if c.password.None? then Err(NoPassword)
      else Defaults(c, env)
  }

  /**
   * `file_read_config`, step by step as the program does it: choose the
   * file, load it, stop when the credentials are missing, then fill in the
   * missing values.
   */
  method ReadConfig(cmd: CommandLine, env: Environment) returns (r: Result<Config, Error>)
    ensures r == Resolve(cmd, env)
  {
    var config := Initial(cmd);
    if config.conf.None? {
      var found := DefaultConfigPath(env, config.loc);
      config := config.(conf := found.0, loc := found.1);
    }
    assert config == Chosen(cmd, env);
    if config.conf.Some? {
      if config.conf.value !in env.keyFiles {
        return Err(CannotLoad(config.conf.value));
      }
      var loaded := LoadConfigFile(config, env.keyFiles[config.conf.value]);
      if loaded.Err? {
        return Err(loaded.error);
      }
      config := loaded.value;
    }
    if config.conf.None? {
      return Err(CannotFindConfig);
    }
    if config.username.None? {
      return Err(NoUsername);
    }
    if config.password.None? {
      return Err(NoPassword);
    }
    r := ApplyDefaults(config, env);
  }

  /** The defaulting block, one conditional assignment at a time. */
  method ApplyDefaults(config: Config, env: Environment) returns (r: Result<Config, Error>)
    ensures r == Defaults(config, env)
  {
    var host, log, cache := config.host, config.log, config.cache;
    if host.None? {
      host := env.mpdHost;
    }
    if host.None? {
      host := Some(DefaultHost);
    }
    if log.None? {
      var path := DefaultLogPath(config.loc, env.home);
      if path.Err? {
        return Err(path.error);
      }
      log := Some(path.value);
    }
    if cache.None? {
      var path := DefaultCachePath(config.loc, env.home);
      if path.Err? {
        return Err(path.error);
      }
      cache := Some(path.value);
    }
    var port, proxy, sleep := config.port, config.proxy, config.sleep;
    if port == Unset && env.mpdPort.Some? {
      port := FileAtoi(env.mpdPort);
    }
    if port == Unset {
      port := DefaultPort;
    }
    if proxy.None? {
      proxy := env.httpProxy;
    }
    if sleep == 0 {
      sleep := 1;
    }
    var cacheInterval, verbose := config.cacheInterval, config.verbose;
    if cacheInterval == Unset {
      cacheInterval := 600;
    }
    if verbose == Unset {
      verbose := 2;
    }
    FirstGivenOfThree(config.host, env.mpdHost, Some(DefaultHost));
    FirstGivenOfTwo(config.proxy, env.httpProxy);
    FirstSetOfThree(config.port, EnvPort(env), DefaultPort);
    FirstSetOfTwo(config.cacheInterval, 600);
    FirstSetOfTwo(config.verbose, 2);
    assert host == FirstGiven([config.host, env.mpdHost, Some(DefaultHost)]);
    assert proxy == FirstGiven([config.proxy, env.httpProxy]);
    assert port == FirstSet([config.port, EnvPort(env), DefaultPort]);
    assert cacheInterval == FirstSet([config.cacheInterval, 600]);
    assert verbose == FirstSet([config.verbose, 2]);
    r := Ok(config.(host := host, log := log, cache := cache, port := port, proxy := proxy,
                    sleep := sleep, cacheInterval := cacheInterval, verbose := verbose));
    assert r == Ok(Finish(config, env, log.value, cache.value));
  }

  // ---------------------------------------------------------------------
  // What resolution promises, source by source.

  /** Settings given on the command line survive resolution unchanged (a sleep of 0 aside). */
  lemma CommandLineWins(cmd: CommandLine, env: Environment)
    requires Resolve(cmd, env).Ok?
    ensures var c := Resolve(cmd, env).value;
      && (cmd.conf.Some? ==> c.conf == cmd.conf)
      && (cmd.username.Some? ==> c.username == cmd.username)
      && (cmd.password.Some? ==> c.password == cmd.password)
      && (cmd.log.Some? ==> c.log == cmd.log)
      && (cmd.cache.Some? ==> c.cache == cmd.cache)
      && (cmd.musicdir.Some? ==> c.musicdir == cmd.musicdir)
      && (cmd.host.Some? ==> c.host == cmd.host)
      && (cmd.proxy.Some? ==> c.proxy == cmd.proxy)
      && (cmd.port != Unset ==> c.port == cmd.port)
      && (cmd.sleep != Unset && cmd.sleep != 0 ==> c.sleep == cmd.sleep)
      && (cmd.cacheInterval != Unset ==> c.cacheInterval == cmd.cacheInterval)
      && (cmd.verbose != Unset ==> c.verbose == cmd.verbose)
  {
  }

  /** Host: command line, then the file, then MPD_HOST, then "localhost". */
  lemma HostPrecedence(cmd: CommandLine, env: Environment)
    requires Resolve(cmd, env).Ok?
    ensures Resolve(cmd, env).value.host
            == FirstGiven([cmd.host, FileText(FileOf(cmd, env), "host"), env.mpdHost, Some(DefaultHost)])
  {
    var file := FileText(FileOf(cmd, env), "host");
    FirstGivenOfTwo(cmd.host, file);
    FirstGivenOfThree(FirstGiven([cmd.host, file]), env.mpdHost, Some(DefaultHost));
    FirstGivenCons(cmd.host, [file, env.mpdHost, Some(DefaultHost)]);
    FirstGivenOfThree(file, env.mpdHost, Some(DefaultHost));
  }

  /** Port: command line, then the file, then `atoi(MPD_PORT)`, then 6600; an `Unset` value passes on. */
  lemma PortPrecedence(cmd: CommandLine, env: Environment)
    requires Resolve(cmd, env).Ok?
    ensures Resolve(cmd, env).value.port
            == FirstSet([cmd.port, FileNumber(FileOf(cmd, env), "port"), EnvPort(env), DefaultPort])
  {
    var file := FileNumber(FileOf(cmd, env), "port");
    FirstSetOfTwo(cmd.port, file);
    FirstSetOfThree(FirstSet([cmd.port, file]), EnvPort(env), DefaultPort);
    FirstSetCons(cmd.port, [file, EnvPort(env), DefaultPort]);
    FirstSetOfThree(file, EnvPort(env), DefaultPort);
  }

  /** Proxy: command line, then the file, then http_proxy; it may stay unset. */
  lemma ProxyPrecedence(cmd: CommandLine, env: Environment)
    requires Resolve(cmd, env).Ok?
    ensures Resolve(cmd, env).value.proxy
            == FirstGiven([cmd.proxy, FileText(FileOf(cmd, env), "proxy"), env.httpProxy])
  {
  }

  /** Cache interval and verbosity: command line, then the file, then 600 and 2. */
  lemma IntervalAndVerbosityPrecedence(cmd: CommandLine, env: Environment)
    requires Resolve(cmd, env).Ok?
    ensures var kf := FileOf(cmd, env);
      && Resolve(cmd, env).value.cacheInterval
         == FirstSet([cmd.cacheInterval, FileNumber(kf, "cache_interval"), 600])
      && Resolve(cmd, env).value.verbose == FirstSet([cmd.verbose, FileNumber(kf, "verbose"), 2])
  {
  }

  /**
   * Sleep: command line, then the file; only a 0 is replaced (by 1), so when
   * neither sets it the resolved sleep stays `Unset`.
   */
  lemma SleepResolution(cmd: CommandLine, env: Environment)
    requires Resolve(cmd, env).Ok?
    ensures var s := FirstSet([cmd.sleep, FileNumber(FileOf(cmd, env), "sleep")]);
            Resolve(cmd, env).value.sleep == if s == 0 then 1 else s
    ensures cmd.sleep == Unset && FileNumber(FileOf(cmd, env), "sleep") == Unset ==>
              Resolve(cmd, env).value.sleep == Unset
  {
  }

  /** Log and cache: command line, then the file, then the default for the file's location. */
  lemma PathsPrecedence(cmd: CommandLine, env: Environment)
    requires Resolve(cmd, env).Ok?
    ensures var kf := FileOf(cmd, env);
            var loc := Source(cmd, env).1;
      && loc == Resolve(cmd, env).value.loc
      && (FirstGiven([cmd.log, FileText(kf, "log")]).Some? ==>
            Resolve(cmd, env).value.log == FirstGiven([cmd.log, FileText(kf, "log")]))
      && (FirstGiven([cmd.log, FileText(kf, "log")]).None? ==>
            loc != Unknown && Resolve(cmd, env).value.log == Some(DefaultLogPath(loc, env.home).value))
      && (FirstGiven([cmd.cache, FileText(kf, "cache")]).Some? ==>
            Resolve(cmd, env).value.cache == FirstGiven([cmd.cache, FileText(kf, "cache")]))
      && (FirstGiven([cmd.cache, FileText(kf, "cache")]).None? ==>
            loc != Unknown
            && Resolve(cmd, env).value.cache == Some(DefaultCachePath(loc, env.home).value))
  {
  }

  /** Username, password and music directory: command line, then the file; there is no other source. */
  lemma CredentialsPrecedence(cmd: CommandLine, env: Environment)
    requires Resolve(cmd, env).Ok?
    ensures var kf := FileOf(cmd, env);
      && Resolve(cmd, env).value.username == FirstGiven([cmd.username, FileText(kf, "username")])
      && Resolve(cmd, env).value.password == FirstGiven([cmd.password, FileText(kf, "password")])
      && Resolve(cmd, env).value.musicdir == FirstGiven([cmd.musicdir, FileText(kf, "musicdir")])
  {
  }

  /** A file that loads but names no username, or no password, is fatal. */
  lemma MissingCredentialsFatal(cmd: CommandLine, env: Environment)
    requires HasFile(cmd, env) && Loadable(Initial(cmd), FileOf(cmd, env))
    ensures FirstGiven([cmd.username, FileText(FileOf(cmd, env), "username")]).None? ==>
              Resolve(cmd, env) == Err(NoUsername)
    ensures FirstGiven([cmd.username, FileText(FileOf(cmd, env), "username")]).Some?
            && FirstGiven([cmd.password, FileText(FileOf(cmd, env), "password")]).None? ==>
              Resolve(cmd, env) == Err(NoPassword)
  {
  }

  /**
   * With `--conf` given, the location stays unknown, so a log path must be
   * given on the command line or in the file: otherwise loading is fatal.
   */
  lemma ExplicitConfigNeedsLogPath(cmd: CommandLine, env: Environment)
    requires cmd.conf.Some? && HasFile(cmd, env) && Loadable(Initial(cmd), FileOf(cmd, env))
    requires FirstGiven([cmd.username, FileText(FileOf(cmd, env), "username")]).Some?
    requires FirstGiven([cmd.password, FileText(FileOf(cmd, env), "password")]).Some?
    requires FirstGiven([cmd.log, FileText(FileOf(cmd, env), "log")]).None?
    ensures Resolve(cmd, env) == Err(NoLogPath)
  {
  }

  /**
   * With `--conf` given and a log path but no cache path on the command line
   * or in the file, loading is fatal.
   */
  lemma ExplicitConfigNeedsCachePath(cmd: CommandLine, env: Environment)
    requires cmd.conf.Some? && HasFile(cmd, env) && Loadable(Initial(cmd), FileOf(cmd, env))
    requires FirstGiven([cmd.username, FileText(FileOf(cmd, env), "username")]).Some?
    requires FirstGiven([cmd.password, FileText(FileOf(cmd, env), "password")]).Some?
    requires FirstGiven([cmd.log, FileText(FileOf(cmd, env), "log")]).Some?
    requires FirstGiven([cmd.cache, FileText(FileOf(cmd, env), "cache")]).None?
    ensures Resolve(cmd, env) == Err(NoCachePath)
  {
  }

  /**
   * When resolution succeeds: a configuration file was found and loads, it or
   * the command line names the username and the password, and the log and
   * cache paths are given or the file's location supplies their defaults.
   * Every other case ends in one of the fatal errors.
   */
  lemma ResolveSucceeds(cmd: CommandLine, env: Environment)
    ensures Resolve(cmd, env).Ok? <==>
      && HasFile(cmd, env) && Loadable(Initial(cmd), FileOf(cmd, env))
      && FirstGiven([cmd.username, FileText(FileOf(cmd, env), "username")]).Some?
      && FirstGiven([cmd.password, FileText(FileOf(cmd, env), "password")]).Some?
      && (|| Source(cmd, env).1 != Unknown
          || (&& FirstGiven([cmd.log, FileText(FileOf(cmd, env), "log")]).Some?
              && FirstGiven([cmd.cache, FileText(FileOf(cmd, env), "cache")]).Some?))
  {
  }

  /** An invalid value in the file is fatal only for a setting the command line left open. */
  lemma BadValueFatal(cmd: CommandLine, env: Environment)
    requires HasFile(cmd, env) && !Loadable(Initial(cmd), FileOf(cmd, env))
    ensures Resolve(cmd, env).Err? && Resolve(cmd, env).error.BadValue?
  {
  }
}
