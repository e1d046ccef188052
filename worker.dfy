/**
 * The worker loop of dirb.cpp (dirb_runner::http_worker): take the front of
 * the queue, probe it, write a `;`-separated record, and enqueue variations
 * of found paths or the path itself after a transport failure.
 *
 * The HTTP client is an oracle `probe(baseUrl, path)`, and a run is given
 * one oracle per iteration, so a retried path can fare differently the next
 * time; the loop is one verified `Step`, and a bounded `Run`, both proved
 * equal to the pure functions `StepSpec` and `RunSpec` that the lemmas
 * reason about.
 */
module Worker {
  import opened Wrappers
  import opened Strings
  import Util

  /** The status codes whose records reach the log stream unless configured otherwise. */
  const DefaultStatusCodeFilter: seq<int> := [200, 204, 301, 302, 307, 308, 401, 403]

  /** What a worker reads and never changes: target, variations, filter, stop flag. */
  datatype Config = Config(baseUrl: string, variations: seq<string>, statusCodes: seq<int>, stop: bool)

  /**
   * A completed response with the headers the record shows. Content-Length
   * is taken as always present (see README).
   */
  datatype Response = Response(
    status: int,
    contentType: Option<string>,
    contentLength: string,
    setCookie: Option<string>,
    location: Option<string>)

  /** What one request gives: a response, or a transport error with its description. */
  datatype Outcome = Completed(response: Response) | TransportError(error: string)

  /** The HTTP client, bound to a base URL, asked for one path. */
  type Probe = (string, string) -> Outcome

  /** What one iteration of the loop did. */
  datatype StepResult = Stopped | QueueEmpty | Skipped | Probed(url: string, outcome: Outcome) {
    /** The iterations after which http_worker returns. */
    predicate Ends()
    {
      Stopped? || QueueEmpty?
    }
  }

  /** The shared queue (front first) and the two output streams, one record per line. */
  datatype Streams = Streams(queue: seq<string>, out: seq<string>, err: seq<string>)

  predicate IsNormalized(url: string)
  {
    url != [] && url[0] == '/'
  }

  /** A task as requested: with a `/` put in front unless it has one. */
  function Normalize(task: string): (url: string)
    requires task != []
    ensures IsNormalized(url)
    ensures IsNormalized(task) ==> url == task
    ensures |task| <= |url| <= |task| + 1 && url[|url| - |task|..] == task
  {
    if task[0] != '/' then "/" + task else task
  }

  function Quoted(s: string): string
  {
    "\"" + s + "\""
  }

  /** The last field of a response record: the Location of a 3xx, else nothing. */
  function Trailer(r: Response): string
  {
    if 300 <= r.status < 400 && r.location.Some? then r.location.value else ""
  }

  /** `status;"url";"content-type";content-length;"set-cookie";trailer` */
  function SuccessRecord(url: string, r: Response): string
  {
    IntToDecimal(r.status) + ";" + Quoted(url) + ";" + Quoted(r.contentType.GetOr("")) + ";"
      + r.contentLength + ";" + Quoted(r.setCookie.GetOr("")) + ";" + Trailer(r)
  }

  /** `-1;"url";;;;error` */
  function FailureRecord(url: string, error: string): string
  {
    IntToDecimal(-1) + ";" + Quoted(url) + ";" + ";" + ";" + ";" + error
  }

  /** The number of tasks an outcome adds at the back of the queue. */
  function Growth(cfg: Config, outcome: Outcome): nat
  {
    match outcome
    case TransportError(_) => 1
    case Completed(r) => if r.status == 200 then |cfg.variations| else 0
  }

  /** The effects of one probe outcome on the queue and the streams. */
  function Handle(cfg: Config, url: string, outcome: Outcome, s: Streams): Streams
  {
    match outcome
    case Completed(r) =>
      var queue := if r.status == 200 then s.queue + Suffixed(url, cfg.variations) else s.queue;
      var out := if r.status in cfg.statusCodes then s.out + [SuccessRecord(url, r)] else s.out;
      Streams(queue, out, s.err)
    case TransportError(e) =>
      Streams(s.queue + [url], s.out, s.err + [FailureRecord(url, e)])
  }

  /** One iteration of the `while (!do_quit_)` loop. */
  function StepSpec(cfg: Config, probe: Probe, s: Streams): (StepResult, Streams)
  {
    if cfg.stop then (Stopped, s)
    else if s.queue == [] then (QueueEmpty, s)
    else
      var task := s.queue[0];
      var popped := s.(queue := s.queue[1..]);
      if task == [] then (Skipped, popped)
      else
        var url := Normalize(task);
        var outcome := probe(cfg.baseUrl, url);
        (Probed(url, outcome), Handle(cfg, url, outcome, popped))
  }

  /**
   * At most |probes| iterations, the i-th asking `probes[i]`; true when the
   * worker returned (stop flag or empty queue) within them.
   */
  function RunSpec(cfg: Config, probes: seq<Probe>, s: Streams): (bool, Streams)
    decreases |probes|
  {
    if probes == [] then (false, s)
    else
      var (r, next) := StepSpec(cfg, probes[0], s);
      if r.Ends() then (true, next) else RunSpec(cfg, probes[1..], next)
  }

  /** One unfolding of RunSpec: the first iteration asks the first oracle. */
  lemma RunSpecStep(cfg: Config, probes: seq<Probe>, s: Streams, r: StepResult, next: Streams)
    requires probes != [] && StepSpec(cfg, probes[0], s) == (r, next)
    ensures RunSpec(cfg, probes, s) == if r.Ends() then (true, next) else RunSpec(cfg, probes[1..], next)
  {
  }

  class Worker {
    var queue: seq<string>
    var out: seq<string>
    var err: seq<string>

    function Current(): Streams
      reads this
    {
      Streams(queue, out, err)
    }

    constructor (seed: seq<string>)
      ensures Current() == Streams(seed, [], [])
    {
      queue, out, err := seed, [], [];
    }

    /** dirb_runner::log: one line on the output stream. */
    method Log(message: string)
      modifies this
      ensures Current() == old(Current()).(out := old(out) + [message])
    {
      out := out + [message];
    }

    /** dirb_runner::error: one line on the error stream. */
    method Error(message: string)
      modifies this
      ensures Current() == old(Current()).(err := old(err) + [message])
    {
      err := err + [message];
    }

    /** One iteration of the worker loop. */
    method Step(cfg: Config, probe: Probe) returns (r: StepResult)
      modifies this
      ensures (r, Current()) == StepSpec(cfg, probe, old(Current()))
    {
      if cfg.stop {
        return Stopped;
      }
      if |queue| == 0 {
        return QueueEmpty;
      }
      var url := queue[0];
      queue := queue[1..];
      if url == [] {
        return Skipped;
      }
      ghost var task, popped := url, Current();
      if url[0] != '/' {
        url := "/" + url;
      }
      assert url == Normalize(task);
      var outcome := probe(cfg.baseUrl, url);
      match outcome {
        case Completed(res) =>
          var record := SuccessRecord(url, res);
          if res.status == 200 {
            ghost var before := queue;
            assert Suffixed(url, cfg.variations[..0]) == [];
            for i := 0 to |cfg.variations|
              invariant queue == before + Suffixed(url, cfg.variations[..i])
              invariant out == popped.out && err == popped.err
            {
              SuffixedSnoc(url, cfg.variations, i);
              queue := queue + [url + cfg.variations[i]];
            }
            assert cfg.variations[..|cfg.variations|] == cfg.variations;
          }
          assert queue == Handle(cfg, url, outcome, popped).queue;
          if res.status in cfg.statusCodes {
            Log(record);
          }
          assert Current() == Handle(cfg, url, outcome, popped);
        case TransportError(e) =>
          Error(FailureRecord(url, e));
          queue := queue + [url];
          assert Current() == Handle(cfg, url, outcome, popped);
      }
      r := Probed(url, outcome);
    }

    /** Runs the loop for at most |probes| iterations, the i-th asking `probes[i]`. */
    method Run(cfg: Config, probes: seq<Probe>) returns (finished: bool)
      modifies this
      ensures (finished, Current()) == RunSpec(cfg, probes, old(Current()))
    {
      ghost var target := RunSpec(cfg, probes, Current());
      for i := 0 to |probes|
        invariant target == RunSpec(cfg, probes[i..], Current())
      {
        ghost var before := Current();
        var r := Step(cfg, probes[i]);
        RunSpecStep(cfg, probes[i..], before, r, Current());
        if r.Ends() {
          return true;
        }
        assert probes[i..][1..] == probes[i + 1..];
      }
      assert probes[|probes|..] == [];
      finished := false;
    }
  }

  // -----------------------------------------------------------------------
  // Records
  // -----------------------------------------------------------------------

  /** A response record is its six fields joined by `;`, strings quoted, numbers bare. */
  lemma SuccessRecordFields(url: string, r: Response)
    ensures SuccessRecord(url, r) == Util.Joined(
      [IntToDecimal(r.status), Quoted(url), Quoted(r.contentType.GetOr("")),
       r.contentLength, Quoted(r.setCookie.GetOr("")), Trailer(r)], ";")
  {
    var f := [IntToDecimal(r.status), Quoted(url), Quoted(r.contentType.GetOr("")),
              r.contentLength, Quoted(r.setCookie.GetOr("")), Trailer(r)];
    Util.JoinedCons(f[0], f[1..], ";");
    Util.JoinedCons(f[1], f[2..], ";");
    Util.JoinedCons(f[2], f[3..], ";");
    Util.JoinedCons(f[3], f[4..], ";");
    Util.JoinedCons(f[4], f[5..], ";");
  }


  /** A failure record is `-1`, the quoted path, three empty fields and the error, joined by `;`. */
  lemma FailureRecordFields(url: string, error: string)
    ensures FailureRecord(url, error) == Util.Joined(["-1", Quoted(url), "", "", "", error], ";")
  {
    var f := ["-1", Quoted(url), "", "", "", error];
    assert IntToDecimal(-1) == "-1";
    Util.JoinedCons(f[0], f[1..], ";");
    Util.JoinedCons(f[1], f[2..], ";");
    Util.JoinedCons(f[2], f[3..], ";");
    Util.JoinedCons(f[3], f[4..], ";");
    Util.JoinedCons(f[4], f[5..], ";");
  }


  /** Splitting a record at `;` gives the status, in decimal, as its first piece. */
  lemma RecordStatusFirst(url: string, r: Response)
    ensures var pieces := Util.Runs(SuccessRecord(url, r), ';');
      pieces != [] && pieces[0] == IntToDecimal(r.status)
  {
    var status := IntToDecimal(r.status);
    var rest := Quoted(url) + ";" + Quoted(r.contentType.GetOr("")) + ";"
      + r.contentLength + ";" + Quoted(r.setCookie.GetOr("")) + ";" + Trailer(r);
    assert SuccessRecord(url, r) == status + [';'] + rest;
    assert ';' !in status by {
      forall k | 0 <= k < |status| ensures status[k] != ';' {
        assert IsDigit(status[k]) || status[k] == '-';
      }
    }
    Util.RunsAppendDelim(status, rest, ';');
    Util.RunsOfWord(status, ';');
  }

  /**
   * The trailing field: after the last `;` of a 3xx record with a Location
   * comes exactly that value; every other record ends with the `;`.
   */
  lemma RecordTrailer(url: string, r: Response)
    ensures var rec := SuccessRecord(url, r);
      if 300 <= r.status < 400 && r.location.Some? then
        |rec| > |r.location.value| && rec[|rec| - |r.location.value| - 1..] == ";" + r.location.value
      else
        rec != [] && rec[|rec| - 1] == ';'
  {
    var head := IntToDecimal(r.status) + ";" + Quoted(url) + ";" + Quoted(r.contentType.GetOr("")) + ";"
      + r.contentLength + ";" + Quoted(r.setCookie.GetOr(""));
    assert SuccessRecord(url, r) == head + ";" + Trailer(r);
  }

  // -----------------------------------------------------------------------
  // One iteration
  // -----------------------------------------------------------------------

  /**
   * The worker returns exactly when the stop flag is set or the queue is
   * empty, and then the queue and both streams are as they were.
   */
  lemma StepEnds(cfg: Config, probe: Probe, s: Streams)
    ensures StepSpec(cfg, probe, s).0.Ends() <==> cfg.stop || s.queue == []
    ensures StepSpec(cfg, probe, s).0.Ends() ==> StepSpec(cfg, probe, s).1 == s
    ensures cfg.stop ==> StepSpec(cfg, probe, s).0 == Stopped
  {
  }

  /**
   * Every other iteration first removes the front task: the rest of the
   * queue stays in front, in order, and the streams only grow. The queue
   * changes length by the outcome's growth minus one.
   */
  lemma StepConsumesFront(cfg: Config, probe: Probe, s: Streams)
    requires !cfg.stop && s.queue != []
    ensures var (r, t) := StepSpec(cfg, probe, s);
      && |s.queue| - 1 <= |t.queue|
      && t.queue[..|s.queue| - 1] == s.queue[1..]
      && s.out <= t.out && s.err <= t.err
      && |t.queue| == |s.queue| - 1 + (if r.Probed? then Growth(cfg, r.outcome) else 0)
  {
    var rest := s.queue[1..];
    var (r, t) := StepSpec(cfg, probe, s);
    if r.Probed? {
      var added := t.queue[|rest|..];
      match r.outcome
      case TransportError(e) =>
        assert t.queue == rest + [r.url];
      case Completed(resp) =>
        var extra := if resp.status == 200 then Suffixed(r.url, cfg.variations) else [];
        assert t.queue == rest + extra;
    } else {
      assert t.queue == rest;
    }
  }

  /** An empty task is dropped: nothing probed, nothing written, the queue one shorter. */
  lemma StepSkipsEmpty(cfg: Config, probe: Probe, s: Streams)
    requires !cfg.stop && s.queue != [] && s.queue[0] == []
    ensures StepSpec(cfg, probe, s) == (Skipped, Streams(s.queue[1..], s.out, s.err))
    ensures |StepSpec(cfg, probe, s).1.queue| == |s.queue| - 1
  {
  }

  /**
   * A task and the same task with its `/` already in front are the same
   * request: the iteration behaves identically.
   */
  lemma StepNormalizes(cfg: Config, probe: Probe, s: Streams, task: string)
    requires !cfg.stop && task != [] && task[0] != '/'
    ensures StepSpec(cfg, probe, s.(queue := [task] + s.queue))
         == StepSpec(cfg, probe, s.(queue := ["/" + task] + s.queue))
  {
    assert ([task] + s.queue)[1..] == s.queue;
    assert (["/" + task] + s.queue)[1..] == s.queue;
    assert Normalize(task) == "/" + task == Normalize("/" + task);
  }

  /**
   * A completed response: the variations of the requested path join the back
   * of the queue, in order, when the status is 200, and nothing joins otherwise;
   * the record goes to the log stream exactly when the status is in the
   * filter; the error stream is untouched.
   */
  lemma StepOnResponse(cfg: Config, probe: Probe, s: Streams, r: Response)
    requires !cfg.stop && s.queue != [] && s.queue[0] != []
    requires probe(cfg.baseUrl, Normalize(s.queue[0])) == Completed(r)
    ensures var url := Normalize(s.queue[0]);
      var t := StepSpec(cfg, probe, s).1;
      && t.queue == s.queue[1..] + (if r.status == 200 then Suffixed(url, cfg.variations) else [])
      && (|t.out| == |s.out| + 1 <==> r.status in cfg.statusCodes)
      && t.out == (if r.status in cfg.statusCodes then s.out + [SuccessRecord(url, r)] else s.out)
      && t.err == s.err
  {
  }

  /**
   * A transport failure: its record goes to the error stream whatever the
   * filter says, and the requested path goes to the back of the queue, so
   * the queue keeps its length.
   */
  lemma StepOnFailure(cfg: Config, probe: Probe, s: Streams, e: string)
    requires !cfg.stop && s.queue != [] && s.queue[0] != []
    requires probe(cfg.baseUrl, Normalize(s.queue[0])) == TransportError(e)
    ensures var url := Normalize(s.queue[0]);
      var t := StepSpec(cfg, probe, s).1;
      && t == Streams(s.queue[1..] + [url], s.out, s.err + [FailureRecord(url, e)])
      && |t.queue| == |s.queue|
  {
  }

  /**
   * Under the default filter a 404 is not logged and a 301 is: the record
   * of a response reaches the log stream exactly for the default statuses.
   */
  lemma DefaultFilterLogs(baseUrl: string, variations: seq<string>, url: string, r: Response, s: Streams)
    ensures var cfg := Config(baseUrl, variations, DefaultStatusCodeFilter, false);
      var t := Handle(cfg, url, Completed(r), s);
      && (r.status == 404 ==> t.out == s.out)
      && (r.status == 301 ==> t.out == s.out + [SuccessRecord(url, r)])
      && (t.out == s.out + [SuccessRecord(url, r)] <==> r.status in {200, 204, 301, 302, 307, 308, 401, 403})
  {
  }

  // -----------------------------------------------------------------------
  // Runs of the loop
  // -----------------------------------------------------------------------

  /** Whatever happens, the streams only ever grow: nothing written is taken back. */
  lemma {:induction false} RunOnlyAppends(cfg: Config, probes: seq<Probe>, s: Streams)
    ensures s.out <= RunSpec(cfg, probes, s).1.out
    ensures s.err <= RunSpec(cfg, probes, s).1.err
    decreases |probes|
  {
    if probes != [] {
      var (r, next) := StepSpec(cfg, probes[0], s);
      if !r.Ends() {
        if s.queue != [] && !cfg.stop {
          StepConsumesFront(cfg, probes[0], s);
        }
        RunOnlyAppends(cfg, probes[1..], next);
      }
    }
  }

  function Repeat(x: string, n: nat): (r: seq<string>)
    ensures |r| == n && forall k :: 0 <= k < n ==> r[k] == x
  {
    if n == 0 then [] else Repeat(x, n - 1) + [x]
  }

  /** A failing probe of the only task puts it back and logs one failure record. */
  lemma RetryStep(cfg: Config, probe: Probe, url: string, e: string, out: seq<string>, err: seq<string>)
    requires !cfg.stop && IsNormalized(url) && probe(cfg.baseUrl, url) == TransportError(e)
    ensures StepSpec(cfg, probe, Streams([url], out, err))
         == (Probed(url, TransportError(e)), Streams([url], out, err + [FailureRecord(url, e)]))
  {
    assert Normalize(url) == url;
    assert [url][1..] + [url] == [url];
  }

  /**
   * A path that is the only task and whose probe keeps failing is retried
   * without end: after any number of iterations the worker has not
   * returned, the path is still the only task, and the error stream holds
   * one failure record per iteration.
   */
  lemma {:induction false} RunRetriesForever(cfg: Config, probes: seq<Probe>, url: string, e: string, out: seq<string>, err: seq<string>)
    requires !cfg.stop && IsNormalized(url)
    requires forall i :: 0 <= i < |probes| ==> probes[i](cfg.baseUrl, url) == TransportError(e)
    ensures RunSpec(cfg, probes, Streams([url], out, err))
         == (false, Streams([url], out, err + Repeat(FailureRecord(url, e), |probes|)))
    decreases |probes|
  {
    if probes != [] {
      var s := Streams([url], out, err);
      var next := Streams([url], out, err + [FailureRecord(url, e)]);
      RetryStep(cfg, probes[0], url, e, out, err);
      RunSpecStep(cfg, probes, s, Probed(url, TransportError(e)), next);
      RunRetriesForever(cfg, probes[1..], url, e, out, err + [FailureRecord(url, e)]);
      assert err + [FailureRecord(url, e)] + Repeat(FailureRecord(url, e), |probes| - 1)
          == err + Repeat(FailureRecord(url, e), |probes|);
    } else {
      assert err + Repeat(FailureRecord(url, e), 0) == err;
    }
  }

  /**
   * What the retry is for: a path whose first request fails and whose second
   * gets a response in the filter (a redirect, say, so nothing is added) has
   * its failure record on the error stream, its response record on the log
   * stream, and the worker then returns on the empty queue.
   */
  lemma RunRecovers(cfg: Config, first: Probe, second: Probe, third: Probe, url: string, e: string, r: Response, out: seq<string>, err: seq<string>)
    requires !cfg.stop && IsNormalized(url)
    requires first(cfg.baseUrl, url) == TransportError(e)
    requires second(cfg.baseUrl, url) == Completed(r)
    requires r.status != 200 && r.status in cfg.statusCodes
    ensures RunSpec(cfg, [first, second, third], Streams([url], out, err))
         == (true, Streams([], out + [SuccessRecord(url, r)], err + [FailureRecord(url, e)]))
  {
    var s0 := Streams([url], out, err);
    var s1 := Streams([url], out, err + [FailureRecord(url, e)]);
    var s2 := Streams([], out + [SuccessRecord(url, r)], err + [FailureRecord(url, e)]);
    assert Normalize(url) == url;
    assert [url][1..] + [url] == [url] && [url][1..] == [];
    assert StepSpec(cfg, first, s0) == (Probed(url, TransportError(e)), s1);
    assert StepSpec(cfg, second, s1) == (Probed(url, Completed(r)), s2);
    assert [first, second, third][1..] == [second, third] && [second, third][1..] == [third];
    assert RunSpec(cfg, [third], s2) == (true, s2);
  }

  /** No outcome the target can give adds tasks: no failures, and no 200 that has variations. */
  ghost predicate NeverGrows(cfg: Config, probe: Probe)
  {
    forall path :: Growth(cfg, probe(cfg.baseUrl, path)) == 0
  }

  /**
   * Without retries and expansions each iteration shortens the queue, so one
   * iteration more than there are tasks suffices for the worker to return,
   * with the queue empty.
   */
  lemma {:induction false} RunDrains(cfg: Config, probes: seq<Probe>, s: Streams)
    requires !cfg.stop && forall i :: 0 <= i < |probes| ==> NeverGrows(cfg, probes[i])
    requires |probes| > |s.queue|
    ensures RunSpec(cfg, probes, s).0
    ensures RunSpec(cfg, probes, s).1.queue == []
    decreases |s.queue|
  {
    var probe := probes[0];
    assert NeverGrows(cfg, probe);
    if s.queue != [] {
      var (r, next) := StepSpec(cfg, probe, s);
      StepConsumesFront(cfg, probe, s);
      if r.Probed? {
        assert Growth(cfg, probe(cfg.baseUrl, r.url)) == 0;
      }
      assert |next.queue| == |s.queue| - 1;
      assert !r.Ends();
      RunSpecStep(cfg, probes, s, r, next);
      RunDrains(cfg, probes[1..], next);
    }
  }

  // -----------------------------------------------------------------------
  // A complete scan
  // -----------------------------------------------------------------------

  /** The target of the scenario: 200 for /a, 404 for everything else. */
  function ScenarioProbe(baseUrl: string, path: string): Outcome
  {
    if path == "/a" then Completed(ScenarioFound) else Completed(ScenarioMissing)
  }

  const ScenarioConfig := Config("http://example.test", ["_bak"], [200], false)
  const ScenarioFound := Response(200, None, "2", None, None)
  const ScenarioMissing := Response(404, None, "0", None, None)
  const ScenarioRecord := "200;\"/a\";\"\";2;\"\";"

  lemma ScenarioStatusText()
    ensures IntToDecimal(200) == "200"
  {
    assert NatToDecimal(2) == "2";
    assert NatToDecimal(20) == "20";
  }

  lemma ScenarioRecordText()
    ensures SuccessRecord("/a", ScenarioFound) == ScenarioRecord
  {
    ScenarioStatusText();
    assert Trailer(ScenarioFound) == "";
    assert SuccessRecord("/a", ScenarioFound) == "200" + ";" + "\"/a\"" + ";" + "\"\"" + ";" + "2" + ";" + "\"\"" + ";" + "";
  }

  lemma ScenarioFirstStep()
    ensures StepSpec(ScenarioConfig, ScenarioProbe, Streams(["a", "b"], [], []))
         == (Probed("/a", Completed(ScenarioFound)), Streams(["b", "/a_bak"], [ScenarioRecord], []))
  {
    ScenarioRecordText();
    assert Normalize("a") == "/a" && ["a", "b"][1..] == ["b"];
    assert ScenarioProbe(ScenarioConfig.baseUrl, "/a") == Completed(ScenarioFound);
    assert Suffixed("/a", ["_bak"]) == ["/a_bak"] by {
      assert "/a" + "_bak" == "/a_bak";
    }
    var h := Handle(ScenarioConfig, "/a", Completed(ScenarioFound), Streams(["b"], [], []));
    assert h.queue == ["b"] + ["/a_bak"] == ["b", "/a_bak"];
    assert h.out == [] + [ScenarioRecord] == [ScenarioRecord];
  }

  lemma ScenarioLaterSteps()
    ensures StepSpec(ScenarioConfig, ScenarioProbe, Streams(["b", "/a_bak"], [ScenarioRecord], []))
         == (Probed("/b", Completed(ScenarioMissing)), Streams(["/a_bak"], [ScenarioRecord], []))
    ensures StepSpec(ScenarioConfig, ScenarioProbe, Streams(["/a_bak"], [ScenarioRecord], []))
         == (Probed("/a_bak", Completed(ScenarioMissing)), Streams([], [ScenarioRecord], []))
  {
    assert Normalize("b") == "/b" && ["b", "/a_bak"][1..] == ["/a_bak"];
    assert Normalize("/a_bak") == "/a_bak" && ["/a_bak"][1..] == [];
    assert ScenarioProbe(ScenarioConfig.baseUrl, "/b") == Completed(ScenarioMissing);
    assert ScenarioProbe(ScenarioConfig.baseUrl, "/a_bak") == Completed(ScenarioMissing);
  }

  /**
   * Seeds a and b, variation _bak, filter {200}: /a, /b and /a_bak are
   * probed in that order (ScenarioFirstStep, ScenarioLaterSteps), the fourth
   * iteration finds the queue empty, and the log stream ends up holding the
   * record of /a only.
   */
  lemma Scenario()
    ensures RunSpec(ScenarioConfig, [ScenarioProbe, ScenarioProbe, ScenarioProbe, ScenarioProbe], Streams(["a", "b"], [], []))
         == (true, Streams([], [ScenarioRecord], []))
  {
    ScenarioFirstStep();
    ScenarioLaterSteps();
    var s1 := Streams(["b", "/a_bak"], [ScenarioRecord], []);
    var s2 := Streams(["/a_bak"], [ScenarioRecord], []);
    var s3 := Streams([], [ScenarioRecord], []);
    var p := ScenarioProbe;
    assert [p, p, p, p][1..] == [p, p, p] && [p, p, p][1..] == [p, p] && [p, p][1..] == [p];
    assert RunSpec(ScenarioConfig, [p], s3) == (true, s3);
    assert RunSpec(ScenarioConfig, [p, p], s2) == (true, s3);
    assert RunSpec(ScenarioConfig, [p, p, p], s1) == (true, s3);
  }
}
