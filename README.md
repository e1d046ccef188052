# dirb++ — a verified model of its sequential core

dirb++ probes a web server for existing paths. It reads word lists, turns each line (and each line with each configured extension) into a task, and lets worker threads take tasks from a shared FIFO queue. For each task a worker requests the path, writes a `;`-separated record, and reacts to the outcome:

- a `200` response enqueues the path with every configured variation appended;
- a transport failure re-enqueues the path.

This project models that logic in Dafny and proves what it promises:

- `util.dfy` — the string utilities (`split`, `unpair`, `join`). Each is an imperative method proved equal to a functional specification, with lemmas about that specification.
- `runner.dfy` — the `dirb_runner` class: configuration fields with setters, queue append, queue size and the base-URL query.
- `worker.dfy` — one iteration of the worker loop as a `Step` method on a class holding the queue and the two output streams, proved equal to the pure `StepSpec`. A bounded `Run` is proved equal to the pure `RunSpec`.
  - The HTTP client is a probe oracle `(baseUrl, path) -> Outcome`.
  - A run gets a sequence of oracles, one per iteration, so a path that failed can get a response when it is retried.
  - The stop flag and every other part of the worker's configuration are one immutable `Config` record.
- `cli.dfy` — the rules of `main.cpp`: method selection, HTTP-version mapping, the base-URL check with the User-Agent header, the seed queue and the worker count.
- `strings.dfy`, `wrappers.dfy` — shared helpers, including how a C++ stream renders an `int` and an `Option` type.

Text is modelled byte for byte. A Dafny `char` stands for one `char` of a C++ `std::string`, which is one byte, so a `string` here is the sequence of bytes the program sees. Non-ASCII text is its UTF-8 bytes. Under this reading, the C-locale `tolower` of `Cli.Lower` and the length arithmetic of `src/util.hpp:36` agree exactly with the source. For example, `"ü:ab"` is the five bytes `C3 BC 3A 61 62`.

Points where the source files disagree with each other, and what the model does about each:

- `src/dirb.cpp` uses members that `src/dirb.hpp` does not declare: `base_url_`, `status_codes_`, `do_quit_`, `DefaultStatusCodeFilter` and others. `src/main.cpp` builds a `dirb::options` value and starts a free `dirb::http_worker`; neither exists in `src/dirb.hpp`. Each file is modelled as written. The runner class follows `dirb.hpp`. The worker's configuration follows the members `dirb.cpp` reads.
- `unpair` is modelled as the code is written (`src/util.hpp:36`), not as its name suggests; see "## Findings".

## Model

| member | source | states |
|---|---|---|
| Util.Find | src/util.hpp:24 | `std::string::find` from a position: the first index of the character at or after it, or the length when there is none |
| Util.FindFirstNotOf | src/util.hpp:22 | `find_first_not_of` from a position: the first index of another character at or after it, or the length |
| Util.Runs | src/util.hpp:17-28 | every piece is non-empty and free of the delimiter |
| Util.Split | src/util.hpp:17-28 | the start/end loop returns exactly the maximal runs of non-delimiter characters, left to right |
| Util.RunsFlatten | src/util.hpp:17-28 | concatenating the pieces gives the input with every delimiter removed |
| Util.RunsEmpty | src/util.hpp:22-25 | the result is empty if and only if the input is empty or all delimiters |
| Util.RunsAppendDelim | src/util.hpp:17-28 | splitting `s + d + t` is splitting `s` followed by splitting `t` |
| Util.Join | src/util.hpp:46-60 | the iterator loop yields the items separated by the separator; empty input gives "", one item gives that item |
| Util.JoinedLength | src/util.hpp:46-60 | the length is the items' total length plus (n − 1) separators |
| Util.JoinSplitRoundTrip | src/util.hpp:17-60 | joining the split pieces with the delimiter gives back a non-empty text with no leading, trailing or adjacent delimiter |
| Util.UnpairedMissing | src/util.hpp:30-44 | with no delimiter, both components are empty |
| Util.UnpairedFound | src/util.hpp:33-41 | with the delimiter first at `i`: the first component is the prefix of length \|s\| − i; the text after the delimiter is spaces followed by the second component, which is non-empty and does not start with a space |
| Util.Unpair | src/util.hpp:30-44 | the method with its space-erasing loop returns `Unpaired(s, d)` |
| Util.UnpairedTruncatesKey | src/util.hpp:36 | "u:pw" gives the first component "u:p" as written, and "u" as intended |
| Util.UnpairedIntendedRestores | src/util.hpp:36 | the corrected unpair returns the text before the first delimiter, and the two components rebuild the input around the delimiter and the dropped spaces |
| Strings.IntToDecimal | src/dirb.cpp:125 | an `int` written to a stream: non-empty digits, with a `-` first exactly for negative values |
| Strings.DecimalRoundTrip | src/dirb.cpp:125 | reading the digits back gives the number |
| Strings.IntToDecimalInjective | src/dirb.cpp:125 | different statuses produce different texts |
| Runner.DirbRunner.constructor | src/dirb.hpp:113-126 | a new runner has empty strings and collections, both flags off, method GET and an empty queue |
| Runner.DirbRunner.SetHeaders | src/dirb.hpp:43-46 | replaces the headers and changes no other field |
| Runner.DirbRunner.AddHeader | src/dirb.hpp:47-50 | adds one (name, value) entry; existing entries stay; nothing else changes |
| Runner.DirbRunner.AddHeaderPair | src/dirb.hpp:51-54 | the same for a pair |
| Runner.DirbRunner.HasBaseUrl | src/dirb.hpp:55-58 | whether the base URL is non-empty; `SetBaseUrl` states what it reports after the URL is set |
| Runner.DirbRunner.SetBaseUrl | src/dirb.hpp:55-62 | sets only the base URL, and afterwards `HasBaseUrl()` holds if and only if the URL is non-empty |
| Runner.DirbRunner.SetUsername | src/dirb.hpp:63-66 | sets only the user name |
| Runner.DirbRunner.SetPassword | src/dirb.hpp:67-70 | sets only the password |
| Runner.DirbRunner.SetBody | src/dirb.hpp:71-74 | sets only the body |
| Runner.DirbRunner.SetBearerToken | src/dirb.hpp:75-78 | sets only the bearer token |
| Runner.DirbRunner.SetMethod | src/dirb.hpp:79-82 | sets only the method |
| Runner.DirbRunner.SetVerifyCerts | src/dirb.hpp:83-86 | sets only the certificate flag |
| Runner.DirbRunner.SetFollowRedirects | src/dirb.hpp:87-90 | sets only the redirect flag |
| Runner.DirbRunner.SetProbeVariations | src/dirb.hpp:91-94 | sets only the variations |
| Runner.DirbRunner.SetUrlQueue | src/dirb.hpp:95-98 | the queue becomes the given one, `UrlQueueSize()` is its length, and nothing else changes |
| Runner.DirbRunner.UrlQueueSize | src/dirb.hpp:103-106 | the number of queued tasks; `SetUrlQueue` and `AddToQueue` state how it changes |
| Runner.DirbRunner.AddToQueue | src/dirb.hpp:99-106 | appends at the back: `UrlQueueSize()` grows by one, earlier entries keep their places, the last entry is the new one |
| Worker.Normalize | src/dirb.cpp:117-120 | the result starts with `/`; it is the task itself when that already starts with `/` (so normalising twice equals normalising once), else the task with one `/` in front |
| Worker.SuccessRecordFields | src/dirb.cpp:124-136 | a response record is status, quoted path, quoted content type, content length, quoted cookie and trailer joined by `;`, with a missing header rendered as `""` |
| Worker.RecordTrailer | src/dirb.cpp:130-136 | a 3xx record with a Location ends with `;` and that value; every other record ends with the `;` |
| Worker.RecordStatusFirst | src/dirb.cpp:125 | splitting a record at `;` gives the decimal status as its first piece |
| Worker.FailureRecordFields | src/dirb.cpp:160 | a failure record is `-1`, the quoted path, three empty fields and the error, joined by `;` |
| Worker.Worker.Log | src/dirb.cpp:58-62 | appends one line to the output stream and nothing else |
| Worker.Worker.Error | src/dirb.cpp:64-68 | appends one line to the error stream and nothing else |
| Worker.Worker.Step | src/dirb.cpp:98-167 | one loop iteration (stop check, dequeue, skip, normalise, probe, record, enqueue) leaves exactly the state `StepSpec` describes |
| Worker.Worker.Run | src/dirb.cpp:98-169 | one iteration per given oracle, at most, with the i-th asking the i-th oracle: leaves exactly the state `RunSpec` describes and reports whether the worker returned |
| Worker.StepEnds | src/dirb.cpp:98-106 | the worker returns exactly when the stop flag is set or the queue is empty, and then queue and streams are unchanged |
| Worker.StepConsumesFront | src/dirb.cpp:102-112 | any other iteration removes exactly the front task; the rest keeps its order at the front; the streams only grow; the length changes by the outcome's growth minus one |
| Worker.StepSkipsEmpty | src/dirb.cpp:113-116 | an empty task is dropped: nothing probed, nothing written, the queue one shorter |
| Worker.StepNormalizes | src/dirb.cpp:117-120 | a task without a leading `/` behaves exactly like the same task with one |
| Worker.StepOnResponse | src/dirb.cpp:122-155 | on a response, the queue gains `url + v` for each variation in order only for status 200; the record reaches the log stream if and only if the status is in the filter; the error stream is untouched |
| Worker.StepOnFailure | src/dirb.cpp:157-166 | on a transport failure, the failure record goes to the error stream whatever the filter, and the path goes to the back, so the queue keeps its length |
| Worker.RunOnlyAppends | src/dirb.cpp:98-167 | nothing written to either stream is ever taken back |
| Worker.RunRetriesForever | src/dirb.cpp:157-166 | a path that is alone in the queue and fails on every iteration is retried each time: after `n` iterations the worker is still running, the path is still the only task, and there are `n` failure records |
| Worker.RunRecovers | src/dirb.cpp:122-166 | a path alone in the queue whose first request fails and whose second gets a non-200 response in the filter: its failure record goes to the error stream and its response record to the log; then the worker returns on the empty queue |
| Worker.RunDrains | src/dirb.cpp:98-167 | when no outcome adds tasks, more iterations than queued tasks empty the queue and end the worker |
| Worker.ScenarioFirstStep | src/dirb.cpp:113-155 | seeds `a`, `b`, variation `_bak` and filter {200}: the first iteration probes `/a`, gets 200, logs its record and queues `/a_bak` behind `b` |
| Worker.ScenarioLaterSteps | src/dirb.cpp:113-155 | the second iteration probes `/b` and the third `/a_bak`; each gets 404, which adds nothing and logs nothing |
| Worker.Scenario | src/dirb.cpp:98-167 | the same scan: four iterations end with the worker returned on the empty queue and the log stream holding only the record of `/a` |
| Worker.DefaultFilterLogs | src/dirb.cpp:152-155 | under `DefaultStatusCodeFilter`, a 404 is not logged and a 301 is; a record is logged if and only if its status is one of 200, 204, 301, 302, 307, 308, 401, 403 |
| Worker.SuccessRecord | src/dirb.cpp:124-136 | the response record; `SuccessRecordFields`, `RecordStatusFirst` and `RecordTrailer` state its layout |
| Worker.FailureRecord | src/dirb.cpp:159-160 | the failure record; `FailureRecordFields` states its layout |
| Cli.SelectMethod | src/main.cpp:253-286 | a selected verb's name is a case-insensitive prefix of the argument; `SelectMethodMatches` and `SelectMethodFails` give both directions |
| Cli.AtMostOneVerbMatches | src/main.cpp:253-281 | no argument is a case-insensitive prefix match for two verb names, so the order of the chain never decides |
| Cli.SelectMethodMatches | src/main.cpp:253-281 | the option selects a verb if and only if that verb's name is a case-insensitive prefix of the argument |
| Cli.SelectMethodFails | src/main.cpp:282-286 | the option fails if and only if no verb name matches |
| Cli.HttpVersion | src/main.cpp:228-241 | the new setting is either the current one or the code whose spelling is the argument; `HttpVersionSpellings` gives the mapping |
| Cli.HttpVersionSpellings | src/main.cpp:228-241 | "1.0", "1.1" and "2.0" map to 10, 11 and 20 and back; any other text keeps the current value; the default "1.1" gives the initial 11 |
| Cli.FinalHeaders | src/main.cpp:331-337 | fails if and only if the base URL is empty; otherwise exactly one User-Agent entry is added and every other entry keeps its multiplicity |
| Cli.DefaultUserAgentHeader | src/main.cpp:35-44 | without `--user-agent`, the header added is `User-Agent: dirb++/unknown` |
| Cli.Seed | src/main.cpp:343-356 | the nested loops build exactly `SeedQueue(lines, extensions)` |
| Cli.LineTasksAt | src/main.cpp:350-354 | a line contributes itself, then itself with each extension, in extension order |
| Cli.SeedLength | src/main.cpp:344-356 | the queue holds #lines × (1 + #extensions) tasks, empty lines included |
| Cli.SeedAt | src/main.cpp:344-356 | line `i`'s tasks occupy positions i × (1 + #extensions) onwards, in order |
| Cli.WorkerCount | src/main.cpp:357 | the count is the smaller of the request and the seeded task count |
| Cli.DefaultWorkerCount | src/main.cpp:357 | with the default of 40 threads (`src/main.cpp:42`), at most 40 workers start; fewer start exactly when there are fewer than 40 seed tasks, and then there is one worker per task |
| Cli.NoLinesNoWorkers | src/main.cpp:357 | without word-list lines no worker starts |

`DefaultStatusCodeFilter` (`src/dirb.cpp:56`) is the constant `Worker.DefaultStatusCodeFilter`, [200, 204, 301, 302, 307, 308, 401, 403]. `DefaultUserAgent` (`src/main.cpp:44`) is `Cli.DefaultUserAgent`, "dirb++/unknown". It is built from the fallback `PROJECT_NAME` and `PROJECT_VERSION` of `src/main.cpp:35-40`. `Cli.DefaultNumThreads` is 40 and `Cli.InitialHttpVersion` is 11 (`src/main.cpp:42, 174`).

## Left out

- `read_certificates` (`src/dirb.cpp:16-52`) and the early return when it fails: OpenSSL calls on a certificate bundle that is not part of this model.
- Client construction, TLS, authentication, redirect and compression setup, and the request itself (`src/dirb.cpp:72-97, 122`): network I/O. The probe oracle stands in for all of it.
- The certificate-verification diagnostic (`src/dirb.cpp:144-150`): an OpenSSL call that only prints.
- Threads, mutexes, the atomicity of the stop flag, and joining the workers (`src/main.cpp:363-392`, `src/dirb.cpp:60-67, 102, 139, 163`). One iteration is modelled as atomic. The stop flag is a plain boolean in `Config`.
- Worker.Response: Content-Length is always present. When the response has no Content-Length, the source streams a `std::string` built from a null pointer (`src/dirb.cpp:128`), which is undefined behaviour. No replacement value is invented.
- Util.Unpair: requires a non-space after the first delimiter. On an empty or all-space remainder the source calls `front()` on an empty string (`src/util.hpp:38`), which is undefined.
- `getopt_long` parsing, reading word-list files, and the about, usage and license texts (`src/main.cpp:46-160, 181-208, 346-348`): command-line and file I/O. Word-list lines and option arguments are inputs.
- Wiring the other options into variables (`-p`, `-H`, `-X`, `-V`, `-t`, `--cookie`, `--user-agent`, ...): plain assignments. Their string work is `Util.Unpair` and `Util.Split`. The `atoi` conversion of `-t` is not modelled.
- `timer.hpp`: wall-clock timing.
- Methods other than GET in the worker: the source always issues a GET (`src/dirb.cpp:121-122`). The selected method is configuration only.
- The per-name order of httplib's header multimap: headers are a multiset of (name, value) entries, so multiplicities are kept but not their order.
- `dirb_runner::DefaultUserAgent` (`src/dirb.cpp:55`) is never read by the modelled code. The copy in `src/main.cpp:44` is `Cli.DefaultUserAgent`.
- Worker.Worker.Run: the source loop need not terminate, because failures are retried forever. `Run` is bounded by the number of oracles it is given, one per iteration. `RunRetriesForever` shows that no bound suffices for a path that always fails.
- Runner.DirbRunner.UrlQueueSize and HasBaseUrl are read-only functions of the fields. Their meaning is stated through the operations that change those fields.

## Findings

| source | as written | input that shows it | evidently intended | confidence | as-written member | corrected member |
|---|---|---|---|---|---|---|
| src/util.hpp:36 | the first component is `str.substr(0, str.size() - index)`, the prefix of length \|s\| − i | `-p u:pw` gives user name "u:p" | `str.substr(0, index)`, the text before the delimiter ("u") | high (not executed) | Util.UnpairedTruncatesKey | Util.UnpairedIntendedRestores |

`Util.Unpaired` and `Util.Unpair` model the code as written. `Util.UnpairedIntended` is the corrected definition; `Util.UnpairedIntendedRestores` proves that its components rebuild the input.
