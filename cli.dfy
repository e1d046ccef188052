/**
 * The rules of main.cpp that turn options and word lists into a scan:
 * the request method, the HTTP version, the base-URL check with the
 * User-Agent header, the seed queue and the number of workers.
 */
module Cli {
  import opened Wrappers
  import opened Strings
  import Runner

  /** The fallbacks used when the build does not define the project's name and version. */
  const ProjectName: string := "dirb++"
  const ProjectVersion: string := "unknown"
  const DefaultUserAgent: string := ProjectName + "/" + ProjectVersion

  const DefaultNumThreads: nat := 40
  const DefaultHttpVersion: string := "1.1"
  /** The value `http_version` starts with. */
  const InitialHttpVersion: nat := 11

  // ---------------------------------------------------------------------
  // --method
  // ---------------------------------------------------------------------

  /** The C-locale tolower: only A to Z change. */
  function Lower(c: char): char
  {
    if 'A' <= c <= 'Z' then (c as int + 32) as char else c
  }

  /**
   * strncasecmp(arg, name, |name|) == 0: the first |name| characters of
   * `arg` equal `name` ignoring case (a shorter `arg` ends first and differs).
   */
  predicate CiPrefix(name: string, arg: string)
  {
    |name| <= |arg| && forall k :: 0 <= k < |name| ==> Lower(arg[k]) == Lower(name[k])
  }

  function VerbName(v: Runner.Verb): string
  {
    match v
    case Delete => "DELETE"
    case Get => "GET"
    case Head => "HEAD"
    case Options => "OPTIONS"
    case Patch => "PATCH"
    case Post => "POST"
    case Put => "PUT"
  }

  /** The verb `-m` selects, or None when main reports an invalid method and exits with failure. */
  function SelectMethod(arg: string): (r: Option<Runner.Verb>)
    ensures r.Some? ==> CiPrefix(VerbName(r.value), arg)
  {
    if CiPrefix("GET", arg) then Some(Runner.Get)
    else if CiPrefix("HEAD", arg) then Some(Runner.Head)
    else if CiPrefix("POST", arg) then Some(Runner.Post)
    else if CiPrefix("PATCH", arg) then Some(Runner.Patch)
    else if CiPrefix("OPTIONS", arg) then Some(Runner.Options)
    else if CiPrefix("PUT", arg) then Some(Runner.Put)
    else if CiPrefix("DELETE", arg) then Some(Runner.Delete)
    else None
  }

  /** The first two letters, lower-cased: they tell the seven verb names apart. */
  function Key(v: Runner.Verb): (char, char)
  {
    (Lower(VerbName(v)[0]), Lower(VerbName(v)[1]))
  }

  lemma PrefixKey(v: Runner.Verb, arg: string)
    requires CiPrefix(VerbName(v), arg)
    ensures |arg| >= 2 && Key(v) == (Lower(arg[0]), Lower(arg[1]))
  {
    assert |VerbName(v)| >= 3;
    assert Lower(arg[0]) == Lower(VerbName(v)[0]);
    assert Lower(arg[1]) == Lower(VerbName(v)[1]);
  }

  /** At most one verb name is a case-insensitive prefix of any argument. */
  lemma {:induction false} AtMostOneVerbMatches(arg: string, v: Runner.Verb, w: Runner.Verb)
    requires CiPrefix(VerbName(v), arg) && CiPrefix(VerbName(w), arg)
    ensures v == w
  {
    PrefixKey(v, arg);
    PrefixKey(w, arg);
    assert Key(v) == Key(w);
  }

  /**
   * The option selects `v` exactly when `v`'s name is a case-insensitive
   * prefix of the argument ("get", "Options-please" and "POSTX" all work).
   */
  lemma SelectMethodMatches(arg: string, v: Runner.Verb)
    ensures SelectMethod(arg) == Some(v) <==> CiPrefix(VerbName(v), arg)
  {
    if CiPrefix(VerbName(v), arg) {
      match v {
      case Delete => assert CiPrefix("DELETE", arg);
      case Get => assert CiPrefix("GET", arg);
      case Head => assert CiPrefix("HEAD", arg);
      case Options => assert CiPrefix("OPTIONS", arg);
      case Patch => assert CiPrefix("PATCH", arg);
      case Post => assert CiPrefix("POST", arg);
      case Put => assert CiPrefix("PUT", arg);
      }
      var s := SelectMethod(arg);
      assert CiPrefix(VerbName(s.value), arg);
      AtMostOneVerbMatches(arg, v, s.value);
    }
  }

  /** The option fails exactly when no verb name is a case-insensitive prefix of the argument. */
  lemma SelectMethodFails(arg: string)
    ensures SelectMethod(arg) == None <==> forall v :: !CiPrefix(VerbName(v), arg)
  {
    if SelectMethod(arg) == None {
      forall v
        ensures !CiPrefix(VerbName(v), arg)
      {
        SelectMethodMatches(arg, v);
      }
    } else {
      SelectMethodMatches(arg, SelectMethod(arg).value);
    }
  }

  // ---------------------------------------------------------------------
  // --http-version
  // ---------------------------------------------------------------------

  /** The new `http_version` after `--http-version arg`; anything unknown keeps `current`. */
  function HttpVersion(arg: string, current: nat): (r: nat)
    ensures r == current || VersionText(r) == Some(arg)
  {
    if arg == "1.0" then 10
    else if arg == "1.1" then 11
    else if arg == "2.0" then 20
    else current
  }

  /** The option text of a version code. */
  function VersionText(code: nat): Option<string>
  {
    if code == 10 then Some("1.0")
    else if code == 11 then Some("1.1")
    else if code == 20 then Some("2.0")
    else None
  }

  /**
   * The three spellings and the three codes correspond one to one, every
   * other text leaves the setting alone, and the documented default "1.1"
   * yields the initial 11.
   */
  lemma HttpVersionSpellings(arg: string, code: nat, current: nat)
    ensures VersionText(code).Some? ==> HttpVersion(VersionText(code).value, current) == code
    ensures VersionText(HttpVersion(arg, current)) == Some(arg) || HttpVersion(arg, current) == current
    ensures arg !in {"1.0", "1.1", "2.0"} ==> HttpVersion(arg, current) == current
    ensures HttpVersion(DefaultHttpVersion, current) == InitialHttpVersion
  {
  }

  // ---------------------------------------------------------------------
  // Base URL and User-Agent
  // ---------------------------------------------------------------------

  /**
   * The request headers once options are read: None (main exits with
   * failure) when no base URL was given, otherwise the headers with one more
   * User-Agent entry.
   */
  function FinalHeaders(baseUrl: string, headers: multiset<Runner.Header>, userAgent: string): (r: Option<multiset<Runner.Header>>)
    ensures r.Some? <==> baseUrl != []
    ensures r.Some? ==> r.value[Runner.Header("User-Agent", userAgent)] == headers[Runner.Header("User-Agent", userAgent)] + 1
    ensures r.Some? ==> forall h :: h != Runner.Header("User-Agent", userAgent) ==> r.value[h] == headers[h]
  {
    if baseUrl == [] then None else Some(headers + multiset{Runner.Header("User-Agent", userAgent)})
  }

  /**
   * Without `--user-agent` the header added is "dirb++/unknown", the
   * fallback project name and version.
   */
  lemma DefaultUserAgentHeader(baseUrl: string, headers: multiset<Runner.Header>)
    requires baseUrl != []
    ensures var r := FinalHeaders(baseUrl, headers, DefaultUserAgent);
      r.Some? && r.value[Runner.Header("User-Agent", "dirb++/unknown")] == headers[Runner.Header("User-Agent", "dirb++/unknown")] + 1
  {
    assert DefaultUserAgent == "dirb++/unknown";
  }

  // ---------------------------------------------------------------------
  // Seeding the queue
  // ---------------------------------------------------------------------

  /** One word-list line: the line itself, then the line with each extension. */
  function LineTasks(line: string, extensions: seq<string>): seq<string>
  {
    [line] + Suffixed(line, extensions)
  }

  /** A line's block is the line itself, then the line with each extension in order. */
  lemma LineTasksAt(line: string, extensions: seq<string>)
    ensures var r := LineTasks(line, extensions);
      && |r| == 1 + |extensions| && r[0] == line
      && forall j :: 0 <= j < |extensions| ==> r[1 + j] == line + extensions[j]
  {
  }

  /** All lines of all word lists, in order, each expanded by LineTasks. */
  function SeedQueue(lines: seq<string>, extensions: seq<string>): seq<string>
  {
    if lines == [] then []
    else SeedQueue(lines[..|lines| - 1], extensions) + LineTasks(lines[|lines| - 1], extensions)
  }

  /** The nested loops of main that fill the queue. */
  method Seed(lines: seq<string>, extensions: seq<string>) returns (urlQueue: seq<string>)
    ensures urlQueue == SeedQueue(lines, extensions)
  {
    urlQueue := [];
    for i := 0 to |lines|
      invariant urlQueue == SeedQueue(lines[..i], extensions)
    {
      var line := lines[i];
      ghost var before := urlQueue;
      urlQueue := urlQueue + [line];
      for j := 0 to |extensions|
        invariant urlQueue == before + [line] + Suffixed(line, extensions[..j])
      {
        SuffixedSnoc(line, extensions, j);
        urlQueue := urlQueue + [line + extensions[j]];
      }
      assert extensions[..|extensions|] == extensions;
      assert lines[..i + 1][..i] == lines[..i] && lines[..i + 1][i] == line;
    }
    assert lines[..|lines|] == lines;
  }

  predicate SeedLengthOf(lines: seq<string>, extensions: seq<string>)
  {
    |SeedQueue(lines, extensions)| == |lines| * (1 + |extensions|)
  }

  /** Every line, empty ones included, contributes 1 + #extensions tasks. */
  lemma {:induction false} SeedLength(lines: seq<string>, extensions: seq<string>)
    ensures SeedLengthOf(lines, extensions)
  {
    if lines != [] {
      SeedLength(lines[..|lines| - 1], extensions);
      var n, k := |lines|, 1 + |extensions|;
      assert (n - 1) * k + k == n * k;
    }
  }

  /** Block `i` of a queue made of blocks of length `k`: within the first `n - 1` blocks. */
  lemma BlockInside(i: nat, n: nat, k: nat, t: nat)
    requires i < n - 1 && t < k
    ensures i * k + t < (n - 1) * k
  {
    assert (i + 1) * k <= (n - 1) * k;
  }

  /**
   * Line `i` occupies the block of 1 + #extensions entries starting at
   * i * (1 + #extensions): the tasks LineTasks makes of it, in order.
   */
  lemma {:induction false} SeedAt(lines: seq<string>, extensions: seq<string>, i: nat, t: nat)
    requires i < |lines| && t < 1 + |extensions|
    ensures SeedLengthOf(lines, extensions) && i * (1 + |extensions|) + t < |SeedQueue(lines, extensions)|
    ensures SeedQueue(lines, extensions)[i * (1 + |extensions|) + t] == LineTasks(lines[i], extensions)[t]
    decreases |lines|
  {
    var k := 1 + |extensions|;
    var n := |lines|;
    var prefix := lines[..n - 1];
    SeedLength(lines, extensions);
    SeedLength(prefix, extensions);
    var head := SeedQueue(prefix, extensions);
    var tail := LineTasks(lines[n - 1], extensions);
    assert SeedQueue(lines, extensions) == head + tail;
    if i < n - 1 {
      SeedAt(prefix, extensions, i, t);
      BlockInside(i, n, k, t);
      assert prefix[i] == lines[i];
    } else {
      assert i * k == |head|;
    }
  }

  /** The number of worker threads: the request, but no more than there are seed tasks. */
  function WorkerCount(requested: nat, queued: nat): (n: nat)
    ensures n <= requested && n <= queued
    ensures n == requested || n == queued
  {
    if requested < queued then requested else queued
  }

  /** Without `-t` at most 40 workers start, and fewer only when there are fewer seed tasks. */
  lemma DefaultWorkerCount(queued: nat)
    ensures WorkerCount(DefaultNumThreads, queued) <= 40
    ensures WorkerCount(DefaultNumThreads, queued) < 40 <==> queued < 40
    ensures queued < 40 ==> WorkerCount(DefaultNumThreads, queued) == queued
  {
  }

  /** Without word-list lines no worker starts, whatever the thread count. */
  lemma NoLinesNoWorkers(requested: nat, extensions: seq<string>)
    ensures WorkerCount(requested, |SeedQueue([], extensions)|) == 0
  {
  }
}
