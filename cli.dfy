/**
 * The `create` sub-command of the mrr command-line client: it checks and
 * normalises the operator's flags, builds the REST path of the create
 * request, posts it to the scheduler and, when asked to wait, polls until the
 * new instance reports that it is running.
 *
 * The network is not modelled: the reply to the POST is a parameter, and the
 * answers `IsRunning` would give are a finite sequence of booleans.
 */
module Cli {
  import opened Wrappers
  import Decimal

  /** The smallest memory size the client sends; smaller values are raised to it. */
  const MinMemory := 100
  /** The largest slave count the client sends unchanged. */
  const MaxSlaves := 100
  /** `http.StatusCreated`, the only reply the client treats as success. */
  const StatusCreated := 201
  /** The route of the create request, appended to the scheduler's base URL. */
  const CreateRoute := "/v1/CREATE/"
  /** A progress dot is printed after every `DotEvery`-th failed poll. */
  const DotEvery := 10

  /** The values the client puts into a create request. */
  datatype CreateRequest = CreateRequest(name: string, mem: int, slaves: int)

  /** The flags of the sub-command: name, memory, slaves, wait and file. */
  datatype CreateFlags = CreateFlags(name: string, memory: int, slaves: int, wait: bool, file: string)

  /** What `http.Post` gave back: a transport error, or a reply with a status code. */
  datatype PostReply = PostError | Response(status: int)

  /**
   * How the sub-command ends. Every outcome after `FileUnreadable` carries the
   * URL of the request that was sent.
   */
  datatype CreateOutcome =
    | NameMissing
    | FileUnreadable(file: string)
    | RequestFailed(url: string)
    | CreateRejected(url: string, status: int)
    | CreateAccepted(url: string)
    | InstanceRunning(url: string, sleeps: nat, dots: nat)
    | StillStarting(url: string, sleeps: nat, dots: nat)

  /** The URL of the request the outcome says was posted, if any. */
  function Sent(o: CreateOutcome): Option<string> {
    match o
    case NameMissing => None
    case FileUnreadable(_) => None
    case RequestFailed(url) => Some(url)
    case CreateRejected(url, _) => Some(url)
    case CreateAccepted(url) => Some(url)
    case InstanceRunning(url, _, _) => Some(url)
    case StillStarting(url, _, _) => Some(url)
  }

  /** Whether the outcome comes out of the wait loop. */
  predicate Polled(o: CreateOutcome) {
    o.InstanceRunning? || o.StillStarting?
  }

  /**
   * The flag checks of the create sub-command: an empty name is refused,
   * memory is raised to at least `MinMemory`, and a slave count outside
   * [0, MaxSlaves] is replaced by 0 (not by the nearest bound).
   */
  function Normalise(name: string, mem: int, slaves: int): (r: Option<CreateRequest>)
    ensures r.None? <==> name == ""
    ensures r.Some? ==> r.value.name == name
    ensures r.Some? ==> r.value.mem >= MinMemory && 0 <= r.value.slaves <= MaxSlaves
    ensures r.Some? && mem < MinMemory ==> r.value.mem == MinMemory
    ensures r.Some? && mem >= MinMemory ==> r.value.mem == mem
    ensures r.Some? && 0 <= slaves <= MaxSlaves ==> r.value.slaves == slaves
    ensures r.Some? && (slaves < 0 || slaves > MaxSlaves) ==> r.value.slaves == 0
  {
    if name == "" then None
    else
      var m := if mem < MinMemory then MinMemory else mem;
      var s := if slaves < 0 || slaves > MaxSlaves then 0 else slaves;
      Some(CreateRequest(name, m, s))
  }

  /** Normalising values that were already normalised changes nothing. */
  lemma NormaliseIdempotent(name: string, mem: int, slaves: int)
    requires Normalise(name, mem, slaves).Some?
    ensures var r := Normalise(name, mem, slaves).value;
            Normalise(r.name, r.mem, r.slaves) == Some(r)
  {
  }

  /** The create request's URL: `<base>/v1/CREATE/<name>/<mem>/1/<slaves>`. */
  function CreatePath(base: string, r: CreateRequest): (url: string)
    ensures |url| > |base + CreateRoute + r.name|
    ensures url[..|base + CreateRoute|] == base + CreateRoute
  {
    base + CreateRoute + r.name + "/" + Decimal.Render(r.mem) + "/1/" + Decimal.Render(r.slaves)
  }

  /** The index of the first `c` in `s`, or `|s|` when there is none. */
  function Find(s: string, c: char): (k: nat)
    ensures k <= |s|
    ensures forall j :: 0 <= j < k ==> s[j] != c
    ensures k < |s| ==> s[k] == c
  {
    if |s| == 0 || s[0] == c then 0 else 1 + Find(s[1..], c)
  }

  /** Splits `s` at its first `c`, when it has one. */
  function SplitAt(s: string, c: char): (r: Option<(string, string)>)
    ensures r.Some? ==> c !in r.value.0 && s == r.value.0 + [c] + r.value.1
  {
    var i := Find(s, c);
    if i == |s| then None
    else
      assert s == s[..i] + [c] + s[i + 1..];
      Some((s[..i], s[i + 1..]))
  }

  lemma SplitAtJoin(a: string, c: char, b: string)
    requires c !in a
    ensures SplitAt(a + [c] + b, c) == Some((a, b))
  {
    var s := a + [c] + b;
    assert s[|a|] == c;
    assert s[..|a|] == a && s[|a| + 1..] == b;
  }

  /**
   * Reads a URL of the create route back into the request it carries: the
   * name up to the next `/`, the memory up to the one after, the literal
   * segment `1`, and the slave count to the end.
   */
  function ParseCreatePath(base: string, url: string): (r: Option<CreateRequest>)
    ensures r.Some? ==> '/' !in r.value.name
  {
    var prefix := base + CreateRoute;
    if |url| < |prefix| || url[..|prefix|] != prefix then None
    else ParseRequestSegments(url[|prefix|..])
  }

  /** The part of `ParseCreatePath` after the route: `<name>/<mem>/1/<slaves>`. */
  function ParseRequestSegments(rest: string): (r: Option<CreateRequest>)
    ensures r.Some? ==> '/' !in r.value.name
  {
    match SplitAt(rest, '/')
    case None => None
    case Some((name, tail)) =>
      match SplitAt(tail, '/')
      case None => None
      case Some((memText, after)) =>
        if |after| < 2 || after[..2] != "1/" then None
        else
          match (Decimal.Parse(memText), Decimal.Parse(after[2..]))
          case (Some(m), Some(s)) => Some(CreateRequest(name, m, s))
          case _ => None
  }

  lemma RequestSegmentsRoundTrip(r: CreateRequest)
    requires '/' !in r.name
    ensures ParseRequestSegments(r.name + "/" + Decimal.Render(r.mem) + "/1/" + Decimal.Render(r.slaves)) == Some(r)
  {
    var memText, slavesText := Decimal.Render(r.mem), Decimal.Render(r.slaves);
    var after := "1/" + slavesText;
    var tail := memText + ['/'] + after;
    assert r.name + "/" + memText + "/1/" + slavesText == r.name + ['/'] + tail;
    SplitAtJoin(r.name, '/', tail);
    SplitAtJoin(memText, '/', after);
    assert after[..2] == "1/" && after[2..] == slavesText;
    Decimal.RenderRoundTrip(r.mem);
    Decimal.RenderRoundTrip(r.slaves);
  }

  /**
   * The URL names exactly the request it was built from, whenever the name
   * holds no `/` (the client does not escape the name).
   */
  lemma CreatePathRoundTrip(base: string, r: CreateRequest)
    requires '/' !in r.name
    ensures ParseCreatePath(base, CreatePath(base, r)) == Some(r)
  {
    var url := CreatePath(base, r);
    var prefix := base + CreateRoute;
    var rest := r.name + "/" + Decimal.Render(r.mem) + "/1/" + Decimal.Render(r.slaves);
    assert url == prefix + rest;
    assert url[|prefix|..] == rest;
    RequestSegmentsRoundTrip(r);
  }

  /** Splitting at the last `c` is unique. */
  lemma SplitLast(a: string, b: string, a2: string, b2: string, c: char)
    requires c !in b && c !in b2
    requires a + [c] + b == a2 + [c] + b2
    ensures a == a2 && b == b2
  {
    var s := a + [c] + b;
    assert s[|a|] == c;
    assert s[|a2|] == c;
    if |a| != |a2| {
      assert false;
    }
    assert a == s[..|a|] && a2 == s[..|a2|];
    assert b == s[|a| + 1..] && b2 == s[|a2| + 1..];
  }

  /**
   * Two requests built for the same scheduler have the same URL only if they
   * are equal, whatever their names hold: the last three segments are `/`-free.
   */
  lemma CreatePathInjective(base: string, r1: CreateRequest, r2: CreateRequest)
    requires CreatePath(base, r1) == CreatePath(base, r2)
    ensures r1 == r2
  {
    var prefix := base + CreateRoute;
    var m1, s1 := Decimal.Render(r1.mem), Decimal.Render(r1.slaves);
    var m2, s2 := Decimal.Render(r2.mem), Decimal.Render(r2.slaves);
    assert CreatePath(base, r1) == (prefix + r1.name + ['/'] + m1 + ['/'] + "1") + ['/'] + s1;
    assert CreatePath(base, r2) == (prefix + r2.name + ['/'] + m2 + ['/'] + "1") + ['/'] + s2;
    SplitLast(prefix + r1.name + ['/'] + m1 + ['/'] + "1", s1, prefix + r2.name + ['/'] + m2 + ['/'] + "1", s2, '/');
    SplitLast(prefix + r1.name + ['/'] + m1, "1", prefix + r2.name + ['/'] + m2, "1", '/');
    SplitLast(prefix + r1.name, m1, prefix + r2.name, m2, '/');
    assert r1.name == (prefix + r1.name)[|prefix|..];
    assert r2.name == (prefix + r2.name)[|prefix|..];
    Decimal.RenderInjective(r1.mem, r2.mem);
    Decimal.RenderInjective(r1.slaves, r2.slaves);
  }

  /**
   * The wait loop: asks `IsRunning` (here, the next answer) until it says
   * yes, sleeping once and counting after every no, and printing a dot each
   * time the count reaches a multiple of `DotEvery`. When the answers run out
   * the loop stops with `running` false; the client itself would go on polling.
   */
  method WaitForRunning(answers: seq<bool>) returns (sleeps: nat, dots: nat, running: bool)
    ensures sleeps <= |answers|
    ensures forall j :: 0 <= j < sleeps ==> !answers[j]
    ensures running <==> sleeps < |answers|
    ensures running ==> answers[sleeps]
    ensures dots == sleeps / DotEvery
  {
    var cnt := 0;
    dots := 0;
    while cnt < |answers| && !answers[cnt]
      invariant cnt <= |answers|
      invariant forall j :: 0 <= j < cnt ==> !answers[j]
      invariant dots == cnt / DotEvery
    {
      cnt := cnt + 1;
      var p := cnt % DotEvery;
      if p == 0 {
        dots := dots + 1;
      }
    }
    sleeps, running := cnt, cnt < |answers|;
  }

  /**
   * The create sub-command. `base` is the scheduler's URL, `fileOpens` says
   * whether the optional file could be opened, `reply` is what the POST gave
   * back and `answers` are the successive answers of `IsRunning`.
   */
  method CreateCmd(base: string, flags: CreateFlags, fileOpens: bool, reply: PostReply, answers: seq<bool>)
    returns (o: CreateOutcome)
    ensures o == NameMissing <==> flags.name == ""
    ensures o.FileUnreadable? <==> flags.name != "" && flags.file != "" && !fileOpens
    ensures o.FileUnreadable? ==> o.file == flags.file
    ensures Sent(o).Some? <==> flags.name != "" && (flags.file == "" || fileOpens)
    ensures Sent(o).Some? ==>
              var r := Normalise(flags.name, flags.memory, flags.slaves);
              r.Some? && Sent(o).value == CreatePath(base, r.value)
    ensures o.RequestFailed? <==> Sent(o).Some? && reply.PostError?
    ensures o.CreateRejected? <==> Sent(o).Some? && reply.Response? && reply.status != StatusCreated
    ensures o.CreateRejected? ==> o.status == reply.status
    ensures o.CreateAccepted? <==> Sent(o).Some? && reply == Response(StatusCreated) && !flags.wait
    ensures Polled(o) <==> Sent(o).Some? && reply == Response(StatusCreated) && flags.wait
    ensures Polled(o) ==> o.sleeps <= |answers| && o.dots == o.sleeps / DotEvery
    ensures Polled(o) ==> forall j :: 0 <= j < o.sleeps ==> !answers[j]
    ensures o.InstanceRunning? ==> o.sleeps < |answers| && answers[o.sleeps]
    ensures o.StillStarting? ==> o.sleeps == |answers|
  {
    if flags.name == "" {
      return NameMissing;
    }
    var mem := flags.memory;
    if mem < MinMemory {
      mem := MinMemory;
    }
    var slaves := flags.slaves;
    if slaves < 0 || slaves > MaxSlaves {
      slaves := 0;
    }
    if flags.file != "" && !fileOpens {
      return FileUnreadable(flags.file);
    }
    var url := CreatePath(base, CreateRequest(flags.name, mem, slaves));
    match reply
    case PostError =>
      o := RequestFailed(url);
    case Response(status) =>
      if status == StatusCreated {
        if flags.wait {
          var sleeps, dots, running := WaitForRunning(answers);
          o := if running then InstanceRunning(url, sleeps, dots) else StillStarting(url, sleeps, dots);
        } else {
          o := CreateAccepted(url);
        }
      } else {
        o := CreateRejected(url, status);
      }
  }

  /** Memory 50 or 10 is sent as 100, and a slave count of 150 as 0. */
  lemma ClampingExamples()
    ensures Normalise("cache1", 50, 150) == Some(CreateRequest("cache1", 100, 0))
    ensures Normalise("cache1", 10, 2) == Some(CreateRequest("cache1", 100, 2))
    ensures Normalise("cache1", 256, -1) == Some(CreateRequest("cache1", 256, 0))
    ensures Normalise("", 256, 2) == None
  {
  }

  /** The request for an instance "cache1" with 256 MB and two slaves. */
  lemma CreatePathExample()
    ensures CreatePath("http://127.0.0.1:5656", CreateRequest("cache1", 256, 2))
            == "http://127.0.0.1:5656/v1/CREATE/cache1/256/1/2"
  {
  }
}
