# API test harness: correlation logger and request helper

This project models the two components of the API test harness that hold its logic.

**The correlation logger** (`CentralizedLogger`, `src/utils/logger.js`):
- Every log line is `timestamp |LEVEL| message`. The same line goes to the console and to the end of the run's log file.
- `apiRequest` hands out request ids from a counter and records each request as pending.
- `apiResponse` removes a pending request and logs its status at a level chosen from the status.
- `finalFlush` rewrites the log file once at the end of the run:
  - the banner header is kept;
  - the body is cut into multi-line entries at date-prefixed lines;
  - the entries are grouped by the `[test title]` tag of their first line;
  - the groups are written in first-seen order, each followed by an 80-dash separator, then the footer.

**The request helper** (`APIHelper`, `src/helpers/apiHelper.js`):
- It builds the options of a request for JSON or form bodies.
- It sends the request through the test's request context, with at most three attempts.
- It logs every attempt through the logger in a fixed order: the retry notice, the REQUEST line, then either the failure line or the payload, status and data lines.
- It checks a response against an expected status, response code and message.

The files:
- `text.dfy` (module `Text`): JavaScript's `split('\n')`, `join`, `trim` whitespace, `replace` and the decimal rendering of integers. Includes the split/join round trips.
- `values.dfy` (module `Values`): the JavaScript values handled. Covers truthiness, `===`, `String(v)` and `?.` property access.
- `finalizer.dfy` (module `Finalizer`): the final flush.
  - Pure specifications: `HeaderEnd`, `SplitEntries`, `Tag`, `Group`, `Blocks`, `Rewrite`.
  - Loop methods, each proved to compute its specification: `FindHeaderEnd`, `SplitBody`, `GroupItems`, `RenderBlocks`, `Regroup`.
- `logger.dfy` (module `Logger`): the class `CentralizedLogger`. Its fields are the counter, the pending map, the file text and the console outputs, plus the clock.
- `api_helper.dfy` (module `ApiHelper`): the class `APIHelper` and the specifications of its log events.
  - `RunEvents` gives the lines of a run of attempts.
  - `PendingAfter` gives the pending map after it.
  - `Exchanges` gives the attempts made.

The environment is modelled through three oracles:
- **Wall clock:** the logger holds a function from the number of earlier readings to the instant read, and counts its readings.
- **`JSON.stringify`:** a partial function (`None` where it throws).
- **Request context:** a function from the transfer and the attempt number to a received response or a thrown error. A response holds its status, its body and the elapsed milliseconds.

## Model

| member | source | states |
|---|---|---|
| Text.Rule | src/utils/logger.js:32 | `c.repeat(n)` is n copies of c |
| Text.Split | src/utils/logger.js:129 | splitting on newlines gives at least one piece and no piece holds a newline |
| Text.JoinSplit | src/utils/logger.js:129 | joining the pieces of a split with "\n" gives the text back |
| Text.SplitJoin | src/utils/logger.js:186 | splitting a join of newline-free lines gives the lines back |
| Text.NatToString | src/utils/logger.js:99 | the decimal text of a number is all digits, has no leading zero, and its digits denote the number |
| Text.ReplaceFirstAt | src/utils/logger.js:48 | `replace('T', ' ')` changes only the first `T` |
| Text.ReplaceAll2 | src/utils/logger.js:11 | `replace(/[:.]/g, '-')` changes every `:` and `.` and nothing else |
| Text.Prefix | src/utils/logger.js:48 | `substring(0, n)` is the prefix of the text that is min(n, length) characters long |
| Values.Field | src/helpers/apiHelper.js:123 | `v?.name` is the property when the object has it, and undefined for an object without it or for a non-object |
| Finalizer.HeaderEnd | src/utils/logger.js:131-137 | the header ends just after the first line after line 0 that holds ten `═`; it is empty when no such line exists |
| Finalizer.FindHeaderEnd | src/utils/logger.js:131-137 | the search loop computes `HeaderEnd` |
| Finalizer.NonBlankFilter | src/utils/logger.js:146 | the body lines `NonBlank` keeps are exactly the non-blank ones |
| Finalizer.NonBlankAppend | src/utils/logger.js:146 | the kept lines stay in their order: filtering two stretches of lines one after the other filters each |
| Finalizer.ChunksSound | src/utils/logger.js:145-155 | cutting at dated lines loses no line and gives entries that each start at their only dated line |
| Finalizer.ChunksUnique | src/utils/logger.js:145-155 | those entries are the only well-formed cut of the lines |
| Finalizer.SplitEntriesSound | src/utils/logger.js:145-155 | the split (`SplitEntries`) fails exactly when the first non-blank line is not dated; otherwise it keeps every non-blank line, in order, in well-formed entries |
| Finalizer.SplitBody | src/utils/logger.js:142-155 | the entry loop computes `SplitEntries`, including the failure of a continuation line with no open entry |
| Finalizer.TagFromSpec | src/utils/logger.js:157-163 | the tag (`Tag`) is the capture of the leftmost `[...]` match (non-empty, no `]`); there is none when nothing matches, and the entry then goes to `__general__` (`GroupKey`) |
| Finalizer.TagOfTitled | src/utils/logger.js:157-163 | a line with no `[` before a bracketed title is tagged with that title |
| Finalizer.GroupItems | src/utils/logger.js:158-167 | the grouping loop computes `Group`: the Map's keys in insertion order and each key's joined entries |
| Finalizer.GroupContents | src/utils/logger.js:158-167 | the keys of `Group` are exactly the distinct entry tags, and each group holds its entries in their original relative order |
| Finalizer.GroupFirstSeen | src/utils/logger.js:158-173 | groups come out in the order their keys first occur among the entries |
| Finalizer.AddItemPermutation | src/utils/logger.js:165-166 | adding one entry adds exactly its text to the groups |
| Finalizer.GroupPermutation | src/utils/logger.js:158-167 | the groups hold a permutation of the entries |
| Finalizer.Blocks | src/utils/logger.js:169-178 | each group's joined text is followed by one 80-dash separator |
| Finalizer.RenderBlocks | src/utils/logger.js:169-178 | the rendering loop computes `Blocks` |
| Finalizer.GroupsStartWithDigit | src/utils/logger.js:141-166 | every group of well-formed entries is non-empty and starts with a digit, so it is never a separator |
| Finalizer.SeparatorPerGroup | src/utils/logger.js:169-178 | the number of separators equals the number of distinct groups |
| Finalizer.Regroup | src/utils/logger.js:128-186 | header search, entry split, grouping and rendering compute `Regrouped`, or the error |
| Finalizer.RewriteEmptyBody | src/utils/logger.js:180-186 | an empty or blank body gives the header, a newline and the footer |
| Finalizer.RewriteFails | src/utils/logger.js:145-155 | the rewrite (`Rewrite`: header, regrouped body, footer) fails exactly when the first non-blank body line is not dated |
| Finalizer.HeaderKept | src/utils/logger.js:131-138 | text that starts with a header's lines keeps that header boundary |
| Finalizer.RewriteKeepsHeader | src/utils/logger.js:131-186 | a second flush finds the same header boundary and the same header lines, so the header is not duplicated |
| Logger.Level.Name | src/utils/logger.js:68-73 | level names are non-empty upper-case words |
| Logger.LoggedLine | src/utils/logger.js:60-66 | the file receives exactly the console line (`FormatLine`), newline-terminated |
| Logger.TimestampShape | src/utils/logger.js:47-49 | a well-formed ISO reading gives the 23-character `YYYY-MM-DD HH:mm:ss.sss` stamp (`Timestamp`), which is date-prefixed and bracket-free |
| Logger.TitledLineGroup | src/utils/logger.js:62 | a line (`FormatLine`) whose message starts with `[title] ` opens an entry of the final flush and is grouped under the title |
| Logger.HeaderFound | src/utils/logger.js:31-36 | the final flush finds the end of the header that initialization wrote, whatever follows it |
| Logger.RunIdOf | src/utils/logger.js:10-11 | the generated run id holds no `:` or `.` and keeps every other character |
| Logger.ResponseLevel | src/utils/logger.js:100 | ERROR exactly when status >= 400, WARN exactly for 300..399, RESPONSE exactly below 300 |
| Logger.Serialize | src/utils/logger.js:105-111 | the serialized text always ends in a newline, also when stringifying throws |
| Logger.FormatBlock | src/utils/logger.js:113-115 | a block starts with its label and ends with an empty line |
| Logger.CentralizedLogger.constructor | src/utils/logger.js:6-20 | the run id comes from the environment or a clock reading; the file name is `logs/Api_<runId>.log`; the counter is 0 and nothing is pending |
| Logger.CentralizedLogger.Now | src/utils/logger.js:82 | one clock reading |
| Logger.CentralizedLogger.GetTimestamp | src/utils/logger.js:47-49 | the stamp of the next clock reading |
| Logger.CentralizedLogger.EnsureInitialized | src/utils/logger.js:22-45 | a new file gets the header once; an existing file is kept; the logger is then initialized |
| Logger.CentralizedLogger.WriteToFile | src/utils/logger.js:51-58 | the line and a newline are appended to the (initialized) file |
| Logger.CentralizedLogger.BufferLog | src/utils/logger.js:60-66 | one line (the timestamp, the level between bars, the message) on the console, and the same line appended to the file |
| Logger.CentralizedLogger.ApiRequest | src/utils/logger.js:75-87 | the id is the previous counter plus one and was not pending; exactly that entry is added; one REQUEST line `[title] METHOD request to: endpoint` (`RequestMessage`), also appended to the file |
| Logger.CentralizedLogger.ApiResponse | src/utils/logger.js:89-103 | an unknown id gives one ERROR "Missing response mapping" line and changes nothing else; a pending id is removed alone and its status is logged at `ResponseLevel`, with the time only when it is non-zero (`ResponseMessage`) |
| Logger.CentralizedLogger.AddTestSeparator | src/utils/logger.js:117-122 | 80 dashes and an empty line appended to the file; the dashes shown |
| Logger.CentralizedLogger.FinalFlush | src/utils/logger.js:124-193 | the file becomes `Rewrite` of its content with the footer, or stays as it was with the error shown; it never throws |
| ApiHelper.LevelOf | src/helpers/apiHelper.js:15-17 | a valid name selects its own level, and every other name selects INFO |
| ApiHelper.KeyRoundTrip | src/helpers/apiHelper.js:16-17 | every level is reached by its own name |
| ApiHelper.Titled | src/helpers/apiHelper.js:18 | every message gets the `[title] ` prefix |
| ApiHelper.TitleOf | src/helpers/apiHelper.js:11 | a missing or falsy title gives `Unnamed Test`, and a non-empty string title is kept |
| ApiHelper.Defaulted | src/helpers/apiHelper.js:94-108 | an omitted payload, parameter set or option set is `{}` |
| ApiHelper.BuildRequestOptions | src/helpers/apiHelper.js:40-52 | GET gets no options; otherwise a form body with the form content type exactly when `contentType === 'form'`, else JSON data; the Referer is the base URL |
| ApiHelper.Dispatch | src/helpers/apiHelper.js:64-72 | GET sends the payload as params; DELETE and PUT go to their own calls; every other method goes to POST, with the built options |
| ApiHelper.TransferOf | src/helpers/apiHelper.js:57-72 | the call goes to `baseURL + endpoint`; a GET carries the payload as params; any other method carries options with the base URL as Referer, as a form exactly when `contentType === 'form'` |
| ApiHelper.Parse | src/helpers/apiHelper.js:111-114 | the JSON value when the body parses, else its text; never an error |
| ApiHelper.Tries | src/helpers/apiHelper.js:22-36 | attempts k, k+1, ... of the same transfer; every attempt but the last failed; the run stops at the first response or after the third attempt |
| ApiHelper.Exchanges | src/helpers/apiHelper.js:31-36 | a request makes between one and three attempts; every attempt but the last failed; it stops short of three only at a received response |
| ApiHelper.RequestResult | src/helpers/apiHelper.js:22-36 | a received response gives its status and parsed body; when every attempt failed, the result is an error whose message occurs most often among the attempts' errors |
| ApiHelper.MainErrorMost | src/helpers/apiHelper.js:22-36 | the error p-retry rejects with has a message that occurs most often, and every error after its last occurrence occurs less often, so a tie goes to the message seen last |
| ApiHelper.RunTitled | src/helpers/apiHelper.js:15-19 | every line a request logs starts with `[title] ` |
| ApiHelper.RunLineGrouped | src/helpers/apiHelper.js:18 | every line a request logs is grouped under its test title by the final flush |
| ApiHelper.OneRequestLine | src/helpers/apiHelper.js:56-58 | each attempt logs exactly one REQUEST line |
| ApiHelper.RequestLines | src/helpers/apiHelper.js:56-58 | a request logs one REQUEST line per attempt |
| ApiHelper.Mismatches | src/helpers/apiHelper.js:117-128 | no mismatch exactly when the status, the response code and (when expected) the message match; each check fails exactly when its comparison does; the order is status, code, message |
| ApiHelper.Collect | src/helpers/apiHelper.js:118-127 | the error list holds the texts of the failed checks, in order |
| ApiHelper.APIHelper.constructor | src/helpers/apiHelper.js:9-12 | the base URL and the test title (with its default) are kept |
| ApiHelper.APIHelper.Log | src/helpers/apiHelper.js:15-19 | one line at the chosen level with the `[title] ` prefix, appended to the file (after the header of a file not yet created); one clock reading, plus one for that header |
| ApiHelper.APIHelper.Open | src/helpers/apiHelper.js:58 | a fresh id, its pending entry for this call, and the REQUEST line, appended to the file; two clock readings, plus one for a new file's header |
| ApiHelper.APIHelper.Close | src/helpers/apiHelper.js:83 | the id is no longer pending, and the status line is logged and appended to the file, with one clock reading |
| ApiHelper.APIHelper.Begin | src/helpers/apiHelper.js:23-24 | the retry notice (after the first attempt), then the REQUEST line with a fresh pending id; the file grows by exactly those lines; one clock reading per line, one for the id, one for a new file's header |
| ApiHelper.APIHelper.Finish | src/helpers/apiHelper.js:78-87 | the payload block only when the payload has keys (`LogsPayload`), then the status line for the same id, then the data block at ERROR for status >= 400 and RESPONSE otherwise; the file grows by exactly those lines, one clock reading each |
| ApiHelper.APIHelper.Failure | src/helpers/apiHelper.js:27-29 | the `Attempt n failed` line with the description and the error, appended to the file, with one clock reading |
| ApiHelper.APIHelper.Attempt | src/helpers/apiHelper.js:23-30 | one attempt logs the `AttemptEvents` of its outcome and the file grows by exactly those lines; a failed attempt leaves its id pending; a received one leaves the pending map as it was; one clock reading per line, one for the id, one for a new file's header |
| ApiHelper.APIHelper.Retry | src/helpers/apiHelper.js:22-37 | the attempts made are `Exchanges` and the errors recorded are those of the failed ones; their lines are `RunEvents`, in the console and in the file; one id each; failed attempts stay pending; one clock reading per line and per id, one for a new file's header |
| ApiHelper.APIHelper.Request | src/helpers/apiHelper.js:55-91 | the result is `RequestResult` of the attempts of the transfer built from the method, `baseURL + endpoint`, payload and options; the logger state afterwards is that of `Retry` |
| ApiHelper.APIHelper.Get | src/helpers/apiHelper.js:94-96 | a GET of `baseURL + endpoint` with the (defaulted) parameters as query; its result and the logger state afterwards are those of `Request` |
| ApiHelper.APIHelper.Post | src/helpers/apiHelper.js:98-100 | a POST with the built options of the (defaulted) payload; its result and the logger state afterwards are those of `Request` |
| ApiHelper.APIHelper.Put | src/helpers/apiHelper.js:102-104 | a PUT with the built options of the (defaulted) payload; its result and the logger state afterwards are those of `Request` |
| ApiHelper.APIHelper.Delete | src/helpers/apiHelper.js:106-108 | a DELETE with the built options of the (defaulted) payload; its result and the logger state afterwards are those of `Request` |
| ApiHelper.APIHelper.AssertApiResponse | src/helpers/apiHelper.js:117-133 | throws exactly when a check fails, with the failed checks' texts joined by the bar separator, after one ERROR `AssertionFailed` line appended to the file; the counter and the pending map are kept; when every check holds nothing changes |

## Left out

- File system and console I/O are not modelled as such. The log file is one string field and the console is a sequence of outputs.
  - `mkdir` is not modelled.
  - The `catch` branches of initialization and of writing are not modelled, because their failures come from the file system.
  - `path.resolve` in the "finalized" message is replaced by the relative path.
- Wall-clock values are oracle readings. `toISOString` is assumed to be four-digit-year ISO text where the grouping lemmas need it, and `toLocaleString` is an opaque string.
- The elapsed milliseconds come with the exchange. `Date.now()` is not modelled.
- `JSON.stringify` and `response.json()`/`response.text()` are oracles. Serialisation and parsing are not modelled.
- p-retry's backoff delays, its `AbortError` and its rule of not retrying non-network `TypeError`s are not modelled. Every thrown error is retried.
- The hybrid export of the logger module is not modelled: it is module glue. One logger object is shared by the helpers instead.
- The constructor's write of the generated run id back to `process.env.LOG_RUN_ID` is not modelled. The environment's run id is a constructor argument, and later loggers of the same process are not modelled.
- Cross-worker concurrency is not modelled: one sequential process.
- Numbers are integers. NaN, fractions and object identity are not modelled.
- The level methods `info`, `success`, `warn`, `error`, `request` and `response` are `BufferLog` at their level. The `requestId` argument `_log` passes is ignored by them, and so is ignored here.
- The default base URL comes from `src/config/constants.js`, which is not part of this model. The base URL is a constructor argument.
- The idempotence of a second final flush is not claimed. Only its header is proved stable: the old separators and footer become continuation lines of the last entry.
- ApiHelper.APIHelper.Attempt: the contract does not state the timestamps stored in pending entries. `Logger.CentralizedLogger.ApiRequest` states the timestamp of each entry.
- ApiHelper.APIHelper.Request: the same omission as `Attempt`, for every attempt.
- ApiHelper.RequestResult: p-retry's version is not pinned. The model follows the releases built on the `retry` package, which reject with `mainError()` once the attempts are used up. A release that rethrows the last attempt's error would differ when the errors differ.
- ApiHelper.Tries: the request context is a function of the transfer and the attempt number. The model does not vary the outcome of a retry with time.
