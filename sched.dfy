/**
 * Start-up of the MrRedis scheduler: the built-in default configuration, the
 * JSON configuration file laid over it, the choice of the store endpoint,
 * store initialisation, and the order in which the long-running parts are
 * started.
 *
 * The calls to the operating system and to libraries are parameters: whether
 * the file could be read, what parsing it gave, the value of the environment
 * variable and what store initialisation returned. The start-up records the
 * external actions it takes, in order, as a trace.
 */
module Sched {
  import opened Wrappers

  /** A REST port constant the scheduler declares but never uses. */
  const HttpServerPort := "8080"
  /** The environment variable that overrides the store endpoint the scheduler itself uses. */
  const EtcdLocalEndpoint := "ETCD_LOCAL_ENDPOINT"

  /** The scheduler's configuration, one field per key of the JSON file. */
  datatype MrRedisConfig = MrRedisConfig(
    userName: string,
    frameworkName: string,
    master: string,
    executorPath: string,
    redisImage: string,
    dbType: string,
    dbEndPoint: string,
    logFile: string,
    artifactIP: string,
    artifactPort: string,
    httpPort: string)

  /** Every setting has a value. */
  predicate Complete(c: MrRedisConfig) {
    && c.userName != "" && c.frameworkName != "" && c.master != ""
    && c.executorPath != "" && c.redisImage != "" && c.dbType != ""
    && c.dbEndPoint != "" && c.logFile != "" && c.artifactIP != ""
    && c.artifactPort != "" && c.httpPort != ""
  }

  /**
   * The built-in configuration, used as it is when the scheduler is asked to
   * dump it and as the base the configuration file is laid over otherwise.
   */
  function NewMrRedisDefaultConfig(): (c: MrRedisConfig)
    ensures Complete(c)
    ensures c.userName == "ubuntu" && c.frameworkName == "MrRedis"
    ensures c.master == "127.0.0.1:5050"
    ensures c.dbType == "etcd" && c.dbEndPoint == "127.0.0.1:2379"
    ensures c.artifactPort == "5454" && c.httpPort == "5656"
    ensures c.httpPort != HttpServerPort
  {
    MrRedisConfig(
      userName := "ubuntu",
      frameworkName := "MrRedis",
      master := "127.0.0.1:5050",
      executorPath := "./MrRedisExecutor",
      redisImage := "redis:3.0-alpine",
      dbType := "etcd",
      dbEndPoint := "127.0.0.1:2379",
      logFile := "stderr",
      artifactIP := "127.0.0.1",
      artifactPort := "5454",
      httpPort := "5656")
  }

  /**
   * The keys a JSON object sets. Decoding into an existing record overwrites
   * the fields whose keys are present and leaves every other field as it was.
   */
  datatype ConfigPatch = ConfigPatch(
    userName: Option<string>,
    frameworkName: Option<string>,
    master: Option<string>,
    executorPath: Option<string>,
    redisImage: Option<string>,
    dbType: Option<string>,
    dbEndPoint: Option<string>,
    logFile: Option<string>,
    artifactIP: Option<string>,
    artifactPort: Option<string>,
    httpPort: Option<string>)

  /** The patch of a JSON object with no known keys. */
  const NoKeys := ConfigPatch(None, None, None, None, None, None, None, None, None, None, None)

  function Override(current: string, given: Option<string>): (v: string)
    ensures given.Some? ==> v == given.value
    ensures given.None? ==> v == current
  {
    given.GetOr(current)
  }

  /** `c` after decoding a JSON object with the keys of `p` into it. */
  function Apply(c: MrRedisConfig, p: ConfigPatch): (r: MrRedisConfig)
    ensures forall k :: Given(p, k).Some? ==> Setting(r, k) == Given(p, k).value
    ensures forall k :: Given(p, k).None? ==> Setting(r, k) == Setting(c, k)
  {
    MrRedisConfig(
      Override(c.userName, p.userName),
      Override(c.frameworkName, p.frameworkName),
      Override(c.master, p.master),
      Override(c.executorPath, p.executorPath),
      Override(c.redisImage, p.redisImage),
      Override(c.dbType, p.dbType),
      Override(c.dbEndPoint, p.dbEndPoint),
      Override(c.logFile, p.logFile),
      Override(c.artifactIP, p.artifactIP),
      Override(c.artifactPort, p.artifactPort),
      Override(c.httpPort, p.httpPort))
  }

  /** A file that sets no keys leaves the configuration as it was. */
  lemma ApplyNoKeys(c: MrRedisConfig)
    ensures Apply(c, NoKeys) == c
  {
  }

  /** Decoding the same object twice is the same as decoding it once. */
  lemma ApplyIdempotent(c: MrRedisConfig, p: ConfigPatch)
    ensures Apply(Apply(c, p), p) == Apply(c, p)
  {
  }

  /** The keys of the JSON file, named as the fields of the configuration record are in the file. */
  datatype Key =
    | UserName | FrameworkName | Master | ExecutorPath | RedisImage | DBType
    | DBEndPoint | LogFile | ArtifactIP | ArtifactPort | HTTPPort

  /** The setting of `c` under key `k`. */
  function Setting(c: MrRedisConfig, k: Key): string {
    match k
    case UserName => c.userName
    case FrameworkName => c.frameworkName
    case Master => c.master
    case ExecutorPath => c.executorPath
    case RedisImage => c.redisImage
    case DBType => c.dbType
    case DBEndPoint => c.dbEndPoint
    case LogFile => c.logFile
    case ArtifactIP => c.artifactIP
    case ArtifactPort => c.artifactPort
    case HTTPPort => c.httpPort
  }

  /** The value the file gives for key `k`, if it has that key. */
  function Given(p: ConfigPatch, k: Key): Option<string> {
    match k
    case UserName => p.userName
    case FrameworkName => p.frameworkName
    case Master => p.master
    case ExecutorPath => p.executorPath
    case RedisImage => p.redisImage
    case DBType => p.dbType
    case DBEndPoint => p.dbEndPoint
    case LogFile => p.logFile
    case ArtifactIP => p.artifactIP
    case ArtifactPort => p.artifactPort
    case HTTPPort => p.httpPort
  }

  /** The command-line flags `-config` and `-DumpEmptyConfig`. */
  datatype Flags = Flags(configFile: string, dumpEmptyConfig: bool)

  /** What decoding the file's bytes into the configuration gave. */
  datatype ParseResult = Parsed(patch: ConfigPatch) | ParseError(message: string)

  /** What store initialisation returned: a success flag and an optional error. */
  datatype InitReply = InitReply(isInit: bool, err: Option<string>)

  /** The answers the outside world gives to the scheduler's calls during start-up. */
  datatype Environment = Environment(
    readOk: bool,                 // the configuration file could be read; only logged, so nothing depends on it
    parse: ParseResult,           // decoding what was read (nothing, if the read failed)
    marshalOk: bool,              // encoding the defaults for the dump succeeded
    etcdLocalEndpoint: string,    // the value of ETCD_LOCAL_ENDPOINT, "" when unset
    init: InitReply)              // what store initialisation returned

  /** The long-running parts of the scheduler, with the arguments each is started with. */
  datatype Component =
    | MesosLib(master: string, artifactIP: string, artifactPort: string, executorPath: string,
               redisImage: string, dbType: string, dbEndPoint: string, frameworkName: string,
               userName: string)
    | Creator
    | Maintainer
    | Destroyer
    | HttpServer(port: string)

  /** An external action of the start-up. */
  datatype Action =
    | ReadConfig(path: string)
    | GetEnv(variable: string)
    | InitStore(dbType: string, endpoint: string)
    | Launch(component: Component)

  datatype FatalReason = BadConfig(message: string) | StoreInitFailed

  /** How start-up ends. `Served` means the HTTP server was started and later returned. */
  datatype Ending =
    | Dumped(printed: MrRedisConfig)
    | DumpFailed
    | Fatal(reason: FatalReason)
    | Served(port: string)

  /** The components started in a trace, in order. */
  function Launched(trace: seq<Action>): (cs: seq<Component>)
    ensures |cs| <= |trace|
    ensures (forall i :: 0 <= i < |trace| ==> !trace[i].Launch?) ==> cs == []
  {
    if trace == [] then []
    else (if trace[0].Launch? then [trace[0].component] else []) + Launched(trace[1..])
  }

  /** The configuration the scheduler runs with when the file parsed. */
  function Effective(parse: ParseResult): MrRedisConfig
    requires parse.Parsed?
  {
    Apply(NewMrRedisDefaultConfig(), parse.patch)
  }

  /** The mesos library is given the configured store endpoint, never the override. */
  function MesosLibFor(c: MrRedisConfig): (m: Component)
    ensures m.MesosLib? && m.dbEndPoint == c.dbEndPoint && m.dbType == c.dbType
    ensures m.master == c.master && m.frameworkName == c.frameworkName && m.userName == c.userName
  {
    MesosLib(c.master, c.artifactIP, c.artifactPort, c.executorPath, c.redisImage,
             c.dbType, c.dbEndPoint, c.frameworkName, c.userName)
  }

  /** The order in which a successful start-up starts its components. */
  function LaunchOrder(c: MrRedisConfig): (o: seq<Component>)
    ensures |o| == 5
    ensures o[0] == MesosLibFor(c) && o[0].dbEndPoint == c.dbEndPoint
    ensures o[1..4] == [Creator, Maintainer, Destroyer]
    ensures o[4] == HttpServer(c.httpPort)
    ensures forall i :: 0 <= i < 4 ==> !o[i].HttpServer?
  {
    [MesosLibFor(c), Creator, Maintainer, Destroyer, HttpServer(c.httpPort)]
  }

  /**
   * The scheduler's `main`, after flag parsing. Dump mode prints the defaults
   * and stops; otherwise the file is read (a read failure is only logged),
   * decoded over the defaults (a decoding failure is fatal), the store is
   * initialised at the chosen endpoint (a failure is fatal), and the mesos
   * library, creator, maintainer, destroyer and HTTP server are started.
   */
  method Run(flags: Flags, env: Environment) returns (trace: seq<Action>, ending: Ending)
    // Dump mode does nothing else.
    ensures flags.dumpEmptyConfig ==> trace == []
    ensures flags.dumpEmptyConfig ==>
              ending == if env.marshalOk then Dumped(NewMrRedisDefaultConfig()) else DumpFailed
    // Otherwise the named file is read first, whether or not that succeeds.
    ensures !flags.dumpEmptyConfig ==> |trace| >= 1 && trace[0] == ReadConfig(flags.configFile)
    // Only a decoding failure ends start-up at the file.
    ensures ending.Fatal? && ending.reason.BadConfig? <==> !flags.dumpEmptyConfig && env.parse.ParseError?
    ensures ending.Fatal? && ending.reason.BadConfig? ==>
              trace == [ReadConfig(flags.configFile)] && ending.reason.message == env.parse.message
    // The store is initialised once, at the override endpoint when that is non-empty.
    ensures !flags.dumpEmptyConfig && env.parse.Parsed? ==>
              var c := Effective(env.parse);
              |trace| >= 3 && trace[..3] == [ReadConfig(flags.configFile), GetEnv(EtcdLocalEndpoint),
                                              InitStore(c.dbType, if env.etcdLocalEndpoint != "" then env.etcdLocalEndpoint
                                                                  else c.dbEndPoint)]
    // A failed initialisation is fatal and nothing is started.
    ensures ending == Fatal(StoreInitFailed) <==>
              !flags.dumpEmptyConfig && env.parse.Parsed? && (env.init.err.Some? || !env.init.isInit)
    ensures ending == Fatal(StoreInitFailed) ==> |trace| == 3
    ensures ending.Fatal? ==> Launched(trace) == []
    // Otherwise everything is started, in order, with the effective configuration.
    ensures ending.Served? <==>
              !flags.dumpEmptyConfig && env.parse.Parsed? && env.init.err.None? && env.init.isInit
    ensures ending.Served? ==>
              var c := Effective(env.parse);
              && |trace| == 8 && trace[3..] == LaunchAll(LaunchOrder(c))
              && Launched(trace) == LaunchOrder(c)
              && trace[3].component.dbEndPoint == c.dbEndPoint
              && ending.port == c.httpPort
  {
    trace := [];
    var cfg := NewMrRedisDefaultConfig();

    if flags.dumpEmptyConfig {
      if !env.marshalOk {
        return trace, DumpFailed;
      }
      return trace, Dumped(cfg);
    }

    trace := trace + [ReadConfig(flags.configFile)];
    // A read failure is only logged: decoding goes ahead on whatever was read.
    match env.parse
    case ParseError(message) =>
      return trace, Fatal(BadConfig(message));
    case Parsed(patch) =>
      cfg := Apply(cfg, patch);

    trace := trace + [GetEnv(EtcdLocalEndpoint)];
    var dbEndpoint := env.etcdLocalEndpoint;
    if dbEndpoint == "" {
      dbEndpoint := cfg.dbEndPoint;
    }

    trace := trace + [InitStore(cfg.dbType, dbEndpoint)];
    if env.init.err.Some? || !env.init.isInit {
      assert trace == [ReadConfig(flags.configFile), GetEnv(EtcdLocalEndpoint), InitStore(cfg.dbType, dbEndpoint)];
      return trace, Fatal(StoreInitFailed);
    }

    // mesoslib, creator, maintainer and destroyer in the background, then the HTTP server
    var launches := LaunchAll(LaunchOrder(cfg));
    LaunchedAll(LaunchOrder(cfg));
    LaunchedAppend(trace, launches);
    trace := trace + launches;
    ending := Served(cfg.httpPort);
  }

  /** The actions that start `cs`, in order. */
  function LaunchAll(cs: seq<Component>): (trace: seq<Action>)
    ensures |trace| == |cs|
    ensures forall i :: 0 <= i < |cs| ==> trace[i] == Launch(cs[i])
  {
    if cs == [] then [] else [Launch(cs[0])] + LaunchAll(cs[1..])
  }

  lemma {:induction false} LaunchedAll(cs: seq<Component>)
    ensures Launched(LaunchAll(cs)) == cs
  {
    if cs != [] {
      var t := LaunchAll(cs);
      assert t[1..] == LaunchAll(cs[1..]);
      LaunchedAll(cs[1..]);
    }
  }

  /** `Launched` distributes over concatenation. */
  lemma {:induction false} LaunchedAppend(a: seq<Action>, b: seq<Action>)
    ensures Launched(a + b) == Launched(a) + Launched(b)
  {
    if a == [] {
      assert a + b == b;
    } else {
      assert (a + b)[1..] == a[1..] + b;
      LaunchedAppend(a[1..], b);
    }
  }

  /** With no configuration file keys, the scheduler runs on the defaults. */
  lemma EmptyFileRunsDefaults()
    ensures Effective(Parsed(NoKeys)) == NewMrRedisDefaultConfig()
    ensures LaunchOrder(Effective(Parsed(NoKeys)))[4] == HttpServer("5656")
  {
    ApplyNoKeys(NewMrRedisDefaultConfig());
  }
}
