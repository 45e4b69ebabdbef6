/**
  * The correlation logger: a request counter, the map of requests still
  * waiting for their response, the log file (one string, grown by appends
  * and rewritten once by the final flush) and the console (the sequence of
  * what was printed).
  *
  * `new Date()` is a reading of the wall clock: the logger holds the clock as
  * a function from the number of earlier readings to the instant read, and
  * counts its readings. `JSON.stringify` is held as a partial function.
  */
module Logger {
  import opened Text
  import opened Values
  import Finalizer

  datatype Level = INFO | SUCCESS | WARN | ERROR | REQUEST | RESPONSE
  {
    /** The name written between the bars of a log line. */
    function Name(): (r: string)
      ensures r != [] && forall i | 0 <= i < |r| :: 'A' <= r[i] <= 'Z'
    {
      match this
      case INFO => "INFO"
      case SUCCESS => "SUCCESS"
      case WARN => "WARN"
      case ERROR => "ERROR"
      case REQUEST => "REQUEST"
      case RESPONSE => "RESPONSE"
    }
  }

  /** One reading of `new Date()`: its `toISOString()` and `toLocaleString()` texts. */
  datatype Instant = Instant(iso: string, locale: string)

  /** What `apiRequest` records for a request until its response is reported. */
  datatype PendingRequest = PendingRequest(testTitle: string, httpMethod: string, endpoint: string, timestamp: Instant)

  /** The `responseTime` argument of `apiResponse`: left at its '' default, or a number of milliseconds. */
  datatype ResponseTime = NoTime | Millis(ms: int)

  /** What the logger prints on the console. */
  datatype Output =
    | Logged(stamp: string, level: Level, message: string)
    | SeparatorLine
    | Finalized(path: string)
    | FlushFailed(reason: string)
  {
    /** The console text. */
    function Shown(): string
    {
      match this
      case Logged(stamp, level, message) => FormatLine(stamp, level, message)
      case SeparatorLine => Finalizer.Separator
      case Finalized(path) => "\U{2705} Log file finalized: " + path
      case FlushFailed(reason) => "\U{274C} Error in finalFlush: " + reason
    }

    /** What the same call appends to the log file. */
    function FileText(): string
    {
      match this
      case Logged(stamp, level, message) => FormatLine(stamp, level, message) + "\n"
      case SeparatorLine => Finalizer.Separator + "\n" + "\n"
      case _ => ""
    }
  }

  /** Everything a sequence of console outputs appended to the file, in order. */
  function Appended(outs: seq<Output>): string
  {
    if outs == [] then "" else Appended(outs[..|outs| - 1]) + outs[|outs| - 1].FileText()
  }

  lemma AppendedSnoc(outs: seq<Output>, o: Output)
    ensures Appended(outs + [o]) == Appended(outs) + o.FileText()
  {
    assert (outs + [o])[..|outs|] == outs;
  }

  lemma {:induction false} AppendedAppend(a: seq<Output>, b: seq<Output>)
    ensures Appended(a + b) == Appended(a) + Appended(b)
    decreases |b|
  {
    if b == [] {
      assert a + b == a;
    } else {
      var n := |b| - 1;
      assert (a + b)[..|a + b| - 1] == a + b[..n];
      assert (a + b)[|a + b| - 1] == b[n];
      AppendedAppend(a, b[..n]);
      Associative(Appended(a), Appended(b[..n]), b[n].FileText());
    }
  }

  lemma Associative(a: string, b: string, c: string)
    ensures (a + b) + c == a + (b + c)
  {
  }

  /** A logged line is appended to the file exactly as it is shown, newline-terminated. */
  lemma LoggedLine(o: Output)
    requires o.Logged?
    ensures Appended([o]) == o.Shown() + "\n"
    ensures o.Shown() == FormatLine(o.stamp, o.level, o.message)
  {
    AppendedSnoc([], o);
  }

  /** The shape of `toISOString()` for a four-digit year: `YYYY-MM-DDTHH:mm:ss.sssZ`. */
  predicate IsIsoString(iso: string)
  {
    |iso| == 24
    && iso[4] == '-' && iso[7] == '-' && iso[10] == 'T' && iso[13] == ':'
    && iso[16] == ':' && iso[19] == '.' && iso[23] == 'Z'
    && forall i | 0 <= i < 23 && i != 4 && i != 7 && i != 10 && i != 13 && i != 16 && i != 19 ::
         IsDigit(iso[i])
  }

  /** `getTimestamp`: the ISO text with its `T` replaced by a space, cut to 23 characters. */
  function Timestamp(iso: string): string
  {
    Prefix(ReplaceFirst(iso, 'T', ' '), 23)
  }

  /**
    * A well-formed ISO reading gives the 23-character `YYYY-MM-DD HH:mm:ss.sss`
    * stamp, which starts a new entry for the final flush and holds no bracket.
    */
  lemma TimestampShape(iso: string)
    requires IsIsoString(iso)
    ensures |Timestamp(iso)| == 23
    ensures Timestamp(iso) == iso[..10] + " " + iso[11..23]
    ensures Finalizer.IsDatePrefixed(Timestamp(iso))
    ensures '[' !in Timestamp(iso) && '\n' !in Timestamp(iso)
  {
    ReplaceFirstAt(iso, 'T', ' ', 10);
    var t := Timestamp(iso);
    assert t == (iso[..10] + [' '] + iso[11..])[..23];
    assert forall i | 0 <= i < 23 :: t[i] == if i == 10 then ' ' else iso[i];
  }

  /** The line `bufferLog` prints and appends: `timestamp |LEVEL| message`. */
  function FormatLine(stamp: string, level: Level, message: string): string
  {
    stamp + " |" + level.Name() + "| " + message
  }

  /** The part of a line before its message holds no bracket and no newline. */
  lemma LineHead(stamp: string, level: Level)
    requires '[' !in stamp && '\n' !in stamp
    ensures var pre := stamp + " |" + level.Name() + "| ";
            '[' !in pre && '\n' !in pre
  {
    var pre := stamp + " |" + level.Name() + "| ";
    var name := level.Name();
    assert forall i | 0 <= i < |pre| :: pre[i] in stamp || pre[i] in " |" || pre[i] in name;
  }

  /** A line `pre[title] rest` with no bracket before the title is tagged with the title. */
  lemma TaggedLine(pre: string, title: string, rest: string)
    requires '[' !in pre && '\n' !in pre
    requires title != [] && ']' !in title && '\n' !in title
    ensures Finalizer.Tag(Split(pre + ("[" + title + "] " + rest))[0]) == Some(title)
  {
    var head := pre + "[" + title + "] ";
    assert pre + ("[" + title + "] " + rest) == head + rest;
    assert forall i | 0 <= i < |head| :: head[i] != '\n';
    SplitHead(head, rest);
    Finalizer.TagOfTitled(pre, title, " " + Split(rest)[0]);
    assert head + Split(rest)[0] == pre + "[" + title + "]" + (" " + Split(rest)[0]);
  }

  /**
    * A logged line whose message starts with a bracketed title begins an entry
    * of the final flush, and that entry is grouped under the title.
    */
  lemma TitledLineGroup(iso: string, level: Level, title: string, rest: string)
    requires IsIsoString(iso)
    requires title != [] && ']' !in title && '\n' !in title
    ensures Finalizer.IsDatePrefixed(FormatLine(Timestamp(iso), level, "[" + title + "] " + rest))
    ensures Finalizer.Tag(Split(FormatLine(Timestamp(iso), level, "[" + title + "] " + rest))[0]) == Some(title)
  {
    var stamp := Timestamp(iso);
    TimestampShape(iso);
    LineHead(stamp, level);
    var pre := stamp + " |" + level.Name() + "| ";
    var line := FormatLine(stamp, level, "[" + title + "] " + rest);
    assert line == pre + ("[" + title + "] " + rest);
    assert line[..10] == stamp[..10];
    TaggedLine(pre, title, rest);
  }

  const Banner: string := Rule(80, '\U{2550}')

  /** The lines of the header `ensureInitialized` writes into a new log file; the last is empty. */
  function HeaderLines(runId: string, locale: string): seq<string>
  {
    [Banner, "API TEST EXECUTION STARTED", "Date: " + locale, "Run ID: " + runId, Banner, ""]
  }

  function Header(runId: string, locale: string): string
  {
    Terminated(HeaderLines(runId, locale))
  }

  /** The footer `finalFlush` writes after the grouped entries. */
  function Footer(locale: string): string
  {
    "\n" + Terminated([Banner, "API TEST EXECUTION COMPLETED", "Completed at: " + locale, Banner])
  }

  lemma NoBorderWithout(s: string)
    requires '\U{2550}' !in s
    ensures !Finalizer.HasBorder(s)
  {
    forall i | 0 <= i <= |s| - |Finalizer.Border|
      ensures !OccursAt(s, Finalizer.Border, i)
    {
      assert s[i..i + 10][0] == s[i];
      assert Finalizer.Border[0] == '\U{2550}';
    }
  }

  /**
    * The final flush finds the end of the header `ensureInitialized` wrote: its
    * second banner line, whatever was appended after it.
    */
  lemma HeaderFound(runId: string, locale: string, rest: string)
    requires '\n' !in runId && '\n' !in locale
    requires '\U{2550}' !in runId && '\U{2550}' !in locale
    ensures Finalizer.HeaderEnd(Split(Header(runId, locale) + rest)) == 5
  {
    var lines := Split(Header(runId, locale) + rest);
    assert '\n' !in Banner;
    SplitTerminated(HeaderLines(runId, locale), rest);
    NoBorderWithout(lines[1]);
    assert '\U{2550}' !in lines[2] && '\U{2550}' !in lines[3];
    NoBorderWithout(lines[2]);
    NoBorderWithout(lines[3]);
    assert Banner[..10] == Finalizer.Border;
    assert OccursAt(lines[4], Finalizer.Border, 0);
  }

  /** The run id made from a clock reading: `:` and `.` replaced by `-`, so it can name a file. */
  function RunIdOf(iso: string): (r: string)
    ensures |r| == |iso| && ':' !in r && '.' !in r
    ensures forall i | 0 <= i < |iso| && iso[i] != ':' && iso[i] != '.' :: r[i] == iso[i]
  {
    ReplaceAll2(iso, ':', '.', '-')
  }

  /** The message of the REQUEST line of `apiRequest`. */
  function RequestMessage(testTitle: string, httpMethod: string, endpoint: string): string
  {
    "[" + testTitle + "] " + httpMethod + " request to: " + endpoint
  }

  /** The message of the ERROR line for a response whose request is not pending. */
  function MissingMessage(requestId: int): string
  {
    "Missing response mapping for ID: " + IntToString(requestId)
  }

  /** The level of a response line: a client or server error, a redirect, or a plain response. */
  function ResponseLevel(status: int): (l: Level)
    ensures l == ERROR <==> status >= 400
    ensures l == WARN <==> 300 <= status < 400
    ensures l == RESPONSE <==> status < 300
  {
    if status >= 400 then ERROR else if status >= 300 then WARN else RESPONSE
  }

  /** The message of a response line; the time is shown only when it is a non-zero number. */
  function ResponseMessage(testTitle: string, status: int, time: ResponseTime): string
  {
    "[" + testTitle + "] Response Status: " + IntToString(status)
    + (if time.Millis? && time.ms != 0 then " (" + IntToString(time.ms) + "ms)" else "")
  }

  /**
    * `serialize`: the JSON text, or `String(data)` when stringifying throws,
    * then a newline. `JSON.stringify(undefined)` gives undefined, which the
    * concatenation renders as "undefined".
    */
  function Serialize(stringify: Value -> Option<string>, data: Value): (r: string)
    ensures |r| >= 1 && r[|r| - 1] == '\n'
  {
    if data.Undefined? then "undefined\n"
    else match stringify(data)
      case Some(text) => text + "\n"
      case None => ToText(data) + "\n"
  }

  /** `formatBlock`: a title line, the serialized value, then an empty line. */
  function FormatBlock(stringify: Value -> Option<string>, title: string, data: Value): (r: string)
    ensures |r| >= |title| + 3 && r[..|title|] == title
    ensures r[|r| - 2..] == "\n\n"
  {
    title + ":\n" + Serialize(stringify, data) + "\n"
  }

  class CentralizedLogger {
    const runId: string
    /** `logs/Api_<runId>.log`. */
    const logFile: string
    /** `clock(k)` is what the (k+1)-th reading of `new Date()` gives. */
    const clock: nat -> Instant
    /** `JSON.stringify(data, null, 2)`; None where it throws. */
    const stringify: Value -> Option<string>
    /** The header `ensureInitialized` writes for this run, given the date text. */
    const header: string -> string

    var clockReads: nat
    var pendingRequests: map<int, PendingRequest>
    var requestCounter: nat
    var initialized: bool
    var fileExists: bool
    var file: string
    var console: seq<Output>

    /** Pending ids were all handed out by `apiRequest`; an initialized logger has its file. */
    ghost predicate Valid()
      reads this
    {
      && (forall id | id in pendingRequests :: 1 <= id <= requestCounter)
      && (!fileExists ==> file == "")
      && (initialized ==> fileExists)
    }

    /** The file that writes append to: the existing one, or a new one holding the header. */
    function FileBase(locale: string): string
      reads this`fileExists, this`file
    {
      if fileExists then file else header(locale)
    }

    /** The clock readings `ensureInitialized` makes: one for the header of a new file. */
    function InitReads(): nat
      reads this`initialized, this`fileExists
    {
      if !initialized && !fileExists then 1 else 0
    }

    /**
      * A logger for one process. The run id is taken from the environment when
      * it is set there, and made from a clock reading otherwise; `existing` is
      * the log file already on disk under that name, if any.
      */
    constructor (envRunId: string, existing: Option<string>, clock: nat -> Instant,
                 stringify: Value -> Option<string>)
      ensures Valid()
      ensures runId == (if envRunId != "" then envRunId else RunIdOf(clock(0).iso))
      ensures clockReads == (if envRunId != "" then 0 else 1)
      ensures logFile == "logs/Api_" + runId + ".log"
      ensures forall locale :: header(locale) == Header(runId, locale)
      ensures this.clock == clock && this.stringify == stringify
      ensures pendingRequests == map[] && requestCounter == 0 && !initialized
      ensures fileExists == existing.Some? && file == (if existing.Some? then existing.value else "")
      ensures console == []
    {
      var id := envRunId;
      var readings := 0;
      if envRunId == "" {
        id := RunIdOf(clock(0).iso);
        readings := 1;
      }
      runId := id;
      logFile := "logs/Api_" + id + ".log";
      header := locale => Header(id, locale);
      this.clock := clock;
      this.stringify := stringify;
      clockReads := readings;
      pendingRequests := map[];
      requestCounter := 0;
      initialized := false;
      fileExists := existing.Some?;
      file := if existing.Some? then existing.value else "";
      console := [];
    }

    /** `new Date()`. */
    method Now() returns (t: Instant)
      modifies this`clockReads
      ensures t == clock(old(clockReads)) && clockReads == old(clockReads) + 1
    {
      t := clock(clockReads);
      clockReads := clockReads + 1;
    }

    method GetTimestamp() returns (stamp: string)
      modifies this`clockReads
      ensures stamp == Timestamp(clock(old(clockReads)).iso) && clockReads == old(clockReads) + 1
    {
      var now := Now();
      stamp := Timestamp(now.iso);
    }

    /** Creates the file with its header on first use; an existing file is kept as it is. */
    method EnsureInitialized()
      requires Valid()
      modifies this
      ensures Valid() && initialized && fileExists
      ensures file == old(FileBase(clock(clockReads).locale))
      ensures clockReads == old(clockReads + InitReads())
      ensures pendingRequests == old(pendingRequests) && requestCounter == old(requestCounter)
      ensures console == old(console)
    {
      if initialized {
        return;
      }
      if !fileExists {
        var now := Now();
        file := header(now.locale);
        fileExists := true;
      }
      initialized := true;
    }

    method WriteToFile(line: string)
      requires Valid()
      modifies this
      ensures Valid() && initialized && fileExists
      ensures file == old(FileBase(clock(clockReads).locale)) + line + "\n"
      ensures clockReads == old(clockReads + InitReads())
      ensures pendingRequests == old(pendingRequests) && requestCounter == old(requestCounter)
      ensures console == old(console)
    {
      EnsureInitialized();
      file := file + line + "\n";
    }

    /**
      * The identical `timestamp |LEVEL| message` line goes to the console and
      * to the end of the file.
      */
    method BufferLog(level: Level, message: string)
      requires Valid()
      modifies this
      ensures Valid() && initialized
      ensures console == old(console) + [Logged(Timestamp(clock(old(clockReads)).iso), level, message)]
      ensures file == old(FileBase(clock(clockReads + 1).locale)) + Appended(console[old(|console|)..])
      ensures clockReads == old(clockReads + 1 + InitReads())
      ensures pendingRequests == old(pendingRequests) && requestCounter == old(requestCounter)
    {
      ghost var base, before := FileBase(clock(clockReads + 1).locale), console;
      var stamp := GetTimestamp();
      var line := FormatLine(stamp, level, message);
      var entry := Logged(stamp, level, message);
      console := console + [entry];
      WriteToFile(line);
      assert console[|before|..] == [entry];
      LoggedLine(entry);
      Associative(base, line, "\n");
    }

    /**
      * Hands out the next id, records the request as pending under it and logs
      * a REQUEST line.
      */
    method ApiRequest(testTitle: string, httpMethod: string, endpoint: string) returns (requestId: int)
      requires Valid()
      modifies this
      ensures Valid() && initialized
      ensures requestId == old(requestCounter) + 1 && requestCounter == requestId
      ensures requestId !in old(pendingRequests)
      ensures pendingRequests
        == old(pendingRequests)[requestId := PendingRequest(testTitle, httpMethod, endpoint, clock(old(clockReads)))]
      ensures console == old(console)
        + [Logged(Timestamp(clock(old(clockReads) + 1).iso), REQUEST, RequestMessage(testTitle, httpMethod, endpoint))]
      ensures file == old(FileBase(clock(clockReads + 2).locale)) + Appended(console[old(|console|)..])
      ensures clockReads == old(clockReads + 2 + InitReads())
    {
      ghost var base := FileBase(clock(clockReads + 2).locale);
      ghost var line := Logged(Timestamp(clock(clockReads + 1).iso), REQUEST, RequestMessage(testTitle, httpMethod, endpoint));
      ghost var before := console;
      requestCounter := requestCounter + 1;
      requestId := requestCounter;
      var now := Now();
      pendingRequests := pendingRequests[requestId := PendingRequest(testTitle, httpMethod, endpoint, now)];
      assert FileBase(clock(clockReads + 1).locale) == base;
      assert Logged(Timestamp(clock(clockReads).iso), REQUEST, RequestMessage(testTitle, httpMethod, endpoint)) == line;
      BufferLog(REQUEST, RequestMessage(testTitle, httpMethod, endpoint));
      assert console == before + [line];
    }

    /**
      * Reports the response to a pending request: removes it and logs its
      * status at a level that depends on the status. An id that is not
      * pending is logged as an ERROR line and changes nothing else.
      */
    method ApiResponse(requestId: int, status: int, responseTime: ResponseTime)
      requires Valid()
      modifies this
      ensures Valid() && initialized
      ensures requestCounter == old(requestCounter)
      ensures requestId !in old(pendingRequests) ==>
        && pendingRequests == old(pendingRequests)
        && console == old(console)
             + [Logged(Timestamp(clock(old(clockReads)).iso), ERROR, MissingMessage(requestId))]
      ensures requestId in old(pendingRequests) ==>
        && pendingRequests == old(pendingRequests) - {requestId}
        && console == old(console)
             + [Logged(Timestamp(clock(old(clockReads)).iso), ResponseLevel(status),
                       ResponseMessage(old(pendingRequests)[requestId].testTitle, status, responseTime))]
      ensures file == old(FileBase(clock(clockReads + 1).locale)) + Appended(console[old(|console|)..])
      ensures clockReads == old(clockReads + 1 + InitReads())
    {
      ghost var base := FileBase(clock(clockReads + 1).locale);
      if requestId !in pendingRequests {
        BufferLog(ERROR, MissingMessage(requestId));
        return;
      }
      var request := pendingRequests[requestId];
      pendingRequests := pendingRequests - {requestId};
      assert FileBase(clock(clockReads + 1).locale) == base;
      BufferLog(ResponseLevel(status), ResponseMessage(request.testTitle, status, responseTime));
    }

    /** `formatBlock`, with this logger's serializer. */
    function FormatBlockOf(title: string, data: Value): string
      reads this
    {
      FormatBlock(stringify, title, data)
    }

    /** Appends an 80-dash line and an empty line to the file, and shows the dashes. */
    method AddTestSeparator()
      requires Valid()
      modifies this
      ensures Valid() && initialized
      ensures console == old(console) + [SeparatorLine]
      ensures file == old(FileBase(clock(clockReads).locale)) + Appended(console[old(|console|)..])
      ensures clockReads == old(clockReads + InitReads())
      ensures pendingRequests == old(pendingRequests) && requestCounter == old(requestCounter)
    {
      WriteToFile(Finalizer.Separator + "\n");
      console := console + [SeparatorLine];
      assert console[old(|console|)..] == [SeparatorLine];
      AppendedSnoc([], SeparatorLine);
    }

    /**
      * Rewrites the log file with its entries grouped by test, as
      * `Finalizer.Rewrite` describes. When the body does not start with a
      * dated line the error is reported on the console and the file is left
      * as it was; nothing is thrown either way.
      */
    method FinalFlush()
      requires Valid()
      modifies this
      ensures Valid() && initialized
      ensures pendingRequests == old(pendingRequests) && requestCounter == old(requestCounter)
      ensures var content := old(FileBase(clock(clockReads).locale));
              var footer := Footer(clock(old(clockReads + InitReads())).locale);
              match Finalizer.Rewrite(content, footer)
              case Ok(text) =>
                && file == text
                && console == old(console) + [Finalized(logFile)]
                && clockReads == old(clockReads + InitReads()) + 1
              case Err(m) =>
                && file == content
                && console == old(console) + [FlushFailed(m)]
                && clockReads == old(clockReads + InitReads())
    {
      EnsureInitialized();
      var regrouped := Finalizer.Regroup(file);
      if regrouped.Err? {
        console := console + [FlushFailed(regrouped.message)];
        return;
      }
      var now := Now();
      file := regrouped.value + Footer(now.locale);
      console := console + [Finalized(logFile)];
    }
  }
}
