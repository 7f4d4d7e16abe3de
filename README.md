# mr-redis start-up and create-request model

A Dafny model of two sequential pieces of the mr-redis Redis-on-Mesos system.

1. The `create` sub-command of the `mrr` client (`Cli`, file `cli.dfy`). It
   refuses an empty name. It raises memory to at least 100. It replaces a
   slave count outside [0, 100] by 0. It builds the REST URL
   `<base>/v1/CREATE/<name>/<mem>/1/<slaves>` and posts it. A 201 reply with
   `-wait` set starts polling `IsRunning`. The poll loop sleeps once after each
   "no" and prints a dot after every tenth one.
2. The scheduler's start-up (`Sched`, file `sched.dfy`). It has a fixed
   default configuration. `-DumpEmptyConfig` prints the defaults and stops.
   Otherwise it reads the config file and decodes it over the defaults. Only a
   decoding failure is fatal; a read failure is only logged. The store
   endpoint is `ETCD_LOCAL_ENDPOINT` when that is non-empty, and the configured one
   otherwise. A failing store initialisation is fatal. On success it starts
   the mesos library, the creator, the maintainer, the destroyer and then the
   HTTP server, in that order.

Support modules: `Decimal` (`decimal.dfy`) renders integers the way Go's `%d`
does and parses them back. `Wrappers` (`wrappers.dfy`) holds `Option`.

The I/O calls are parameters:
- the base URL `MrRedisFW`;
- whether `os.Open` of the file succeeded;
- the reply of `http.Post`, either a transport error or a status code;
- the answers of `IsRunning`, as a finite `seq<bool>`;
- for the scheduler, an `Environment` record: whether the read succeeded, what
  decoding gave, whether encoding the defaults for the dump succeeded, the
  value of `ETCD_LOCAL_ENDPOINT`, and what `types.Initialize` returned.

`Sched.Run` returns the trace of external actions it took: reading the file,
reading the variable, initialising the store, and starting each component.
The properties about "nothing else happens" are stated on that trace.

Decoding JSON into the existing configuration record is modelled as a
`ConfigPatch`. Each key the file has overwrites one field, and every other
field keeps its default (`Sched.Apply`).

Note on the read-failure branch (sched/main.go:73-81). The code logs
"Resorting to default values" when the file cannot be read. It then decodes
the empty byte slice it got back. Go's `json.Unmarshal` refuses empty input,
so in practice a missing file stops the scheduler at line 80. The model
keeps the decoding result as an input, so a read failure followed by a parse
failure is fatal in the model as well: `Sched.Run`'s contract says the
ending is `Fatal(BadConfig(_))` exactly when decoding failed, whatever the
read gave.

## Model

| member | source | states |
|---|---|---|
| `Cli.Normalise` | cli/CreateCmd.go:22-33 | no request exactly when the name is empty; otherwise the name is kept, memory below 100 becomes 100 and memory of 100 or more is unchanged, a slave count in [0,100] is unchanged and one outside becomes 0; so mem >= 100 and 0 <= slaves <= 100 |
| `Cli.NormaliseIdempotent` | cli/CreateCmd.go:27-33 | normalising an already normalised request returns it unchanged |
| `Cli.ClampingExamples` | cli/CreateCmd.go:22-33 | memory 50 and 10 become 100, slave count 150 and -1 become 0, an empty name gives no request |
| `Cli.CreatePathRoundTrip` | cli/CreateCmd.go:47 | parsing the URL `<base>/v1/CREATE/<name>/<mem>/1/<slaves>` gives back exactly the request it was built from (name, memory, slaves, with the fourth segment the literal 1), when the name holds no `/` |
| `Cli.CreatePath` | cli/CreateCmd.go:47 | the URL is longer than base, route and name together and starts with `<base>/v1/CREATE/` |
| `Cli.CreatePathInjective` | cli/CreateCmd.go:47 | two requests get the same URL only if they are equal, for any names, including names holding `/` |
| `Cli.CreatePathExample` | cli/CreateCmd.go:47 | the request for cache1 with 256 MB and 2 slaves has the URL `<base>/v1/CREATE/cache1/256/1/2` |
| `Cli.WaitForRunning` | cli/CreateCmd.go:59-68 | the loop stops at the first "running" answer; every earlier answer was "no"; the number of sleeps equals the number of "no" answers; the number of dots is that number divided by 10, rounded down; when the answers run out, nothing said "running" |
| `Cli.CreateCmd` | cli/CreateCmd.go:14-76 | empty name: nothing is sent; a named file that cannot be opened: nothing is sent; otherwise the URL sent is the create path of the normalised request; a transport error or a status other than 201 takes the error branch with no polling; polling happens exactly on 201 with the wait flag set, and then obeys the wait-loop contract |
| `Decimal.Digits` | cli/CreateCmd.go:47 | the rendering of a natural number is non-empty, all decimal digits, and starts with 0 only for 0 |
| `Decimal.Render` | cli/CreateCmd.go:47 | `%d` writes a non-empty string with no `/` in it |
| `Decimal.RenderRoundTrip` | cli/CreateCmd.go:47 | parsing what `%d` wrote for any integer gives that integer back |
| `Decimal.RenderInjective` | cli/CreateCmd.go:47 | different integers have different renderings |
| `Sched.NewMrRedisDefaultConfig` | sched/main.go:18-53 | the defaults are UserName "ubuntu", FrameworkName "MrRedis", Master "127.0.0.1:5050", DBType "etcd", DBEndPoint "127.0.0.1:2379", ArtifactPort "5454", HTTPPort "5656"; every setting is non-empty; the HTTP port is not the unused constant "8080" |
| `Sched.Apply` | sched/main.go:78 | decoding the file into the configuration sets each key the file has to the file's value and leaves every other key as it was |
| `Sched.ApplyNoKeys` | sched/main.go:78 | a file with no known keys leaves the configuration unchanged |
| `Sched.ApplyIdempotent` | sched/main.go:78 | decoding the same file twice gives the same configuration as decoding it once |
| `Sched.MesosLibFor` | sched/main.go:104 | the mesos library is started with the configured master, DB type, DB endpoint, framework name and user name |
| `Sched.LaunchOrder` | sched/main.go:104-116 | five components are started: first mesoslib with the configured DB endpoint, then creator, maintainer and destroyer, and last the HTTP server on the configured port; no HTTP server is started before the last place |
| `Sched.EmptyFileRunsDefaults` | sched/main.go:61-116 | with a file that sets no keys, the scheduler runs on the defaults and serves HTTP on port 5656 |
| `Sched.Run` | sched/main.go:55-124 | dump mode takes no action and prints the defaults, or fails if encoding fails; otherwise the named file is read first; the ending is a config failure exactly when decoding failed, with nothing after the read; the store is initialised with the configured DB type at ETCD_LOCAL_ENDPOINT when that is non-empty and at the configured endpoint otherwise; a store-init error or a false result is fatal and the trace ends at the store initialisation, so nothing is launched; otherwise the launches are mesoslib, creator, maintainer, destroyer, HTTP server, in that order; mesoslib always gets the configured endpoint; the server gets the configured HTTP port |

## Left out

- HTTP, file opening, file reading, environment lookup, flag parsing and `cli.Context`: their results are parameters. The flag defaults (`./config.json` and dump mode off) are not modelled.
- `IsRunning` is not part of this model. It queries the scheduler over the network, so its answers are a given sequence.
- Cli.WaitForRunning: the client polls with no upper bound. The model stops when the supplied answers run out and reports `StillStarting`, because a finite sequence of answers cannot model an endless loop.
- `time.Sleep` and the 100 ms interval: only the number of sleeps is modelled.
- Printed and logged text other than the number of progress dots.
- The bounds of Go's `int` (32 or 64 bits, by platform) on the memory and slave flags: the flag library parses them, and the clamping cannot overflow.
- Cli.CreatePathRoundTrip: stated for `/`-free names only. The client puts the name into the URL without escaping. `ParseCreatePath` reads the segments left to right, so on a name holding `/` it returns None rather than a wrong request. The URL is still injective on all names (`Cli.CreatePathInjective`).
- JSON encoding and decoding internals, key-name matching and type errors: the decoding result is an input (`ParseResult`), and the dump's encoding result is a flag.
- A partly applied decoding before an error: it is followed by a fatal exit, so it has no effect.
- The goroutines and `httplib.Run`: the model only records the order in which the components are started. What the mesos library, creator, maintainer, destroyer and HTTP server do is not part of this model; their code (`sched/cmd`, `sched/mesoslib`, `sched/httplib`, `common/types`) is not among the modelled files.
- `log.Fatalf`'s process exit is modelled as the `Fatal` ending.
