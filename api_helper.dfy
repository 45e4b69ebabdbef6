/**
  * The request helper: it builds the options of a request, sends it through
  * the test's request context with up to three attempts, logs every attempt
  * through the correlation logger, and checks a response against the
  * expected status, response code and message.
  *
  * The request context (Playwright's `request` fixture) is a function from
  * the call it receives and the attempt number to what came back: a status,
  * a body and the elapsed milliseconds, or the message of the error thrown.
  */
module ApiHelper {
  import opened Text
  import opened Values
  import opened Logger
  import Finalizer

  /** The logger method names `_log` accepts, one per level. */
  function Key(l: Level): string
  {
    match l
    case INFO => "info"
    case SUCCESS => "success"
    case WARN => "warn"
    case ERROR => "error"
    case REQUEST => "request"
    case RESPONSE => "response"
  }

  /** `_log`'s choice of logger method: a valid name selects its level, any other name INFO. */
  function LevelOf(name: string): (l: Level)
    ensures (exists m: Level :: Key(m) == name) ==> Key(l) == name
    ensures (forall m: Level :: Key(m) != name) ==> l == INFO
  {
    if name == "success" then SUCCESS
    else if name == "warn" then WARN
    else if name == "error" then ERROR
    else if name == "request" then REQUEST
    else if name == "response" then RESPONSE
    else INFO
  }

  /** Every level is reached by its own name. */
  lemma KeyRoundTrip(l: Level)
    ensures LevelOf(Key(l)) == l
  {
    assert Key(l) == Key(LevelOf(Key(l)));
    assert Key(l)[0] == Key(LevelOf(Key(l)))[0];
    if l.REQUEST? || l.RESPONSE? {
      assert Key(l)[2] == Key(LevelOf(Key(l)))[2];
    }
  }

  /** The prefix `_log` puts before every message. */
  function Titled(title: string, message: string): (r: string)
    ensures |r| == |title| + 3 + |message| && r[..|title| + 3] == "[" + title + "] "
  {
    "[" + title + "] " + message
  }

  const DefaultTitle: string := "Unnamed Test"

  /** `testInfo?.title || 'Unnamed Test'`, as a template literal renders it. */
  function TitleOf(testInfo: Value): (t: string)
    ensures !Truthy(Field(testInfo, "title")) ==> t == DefaultTitle
    ensures Field(testInfo, "title").Str? && Field(testInfo, "title").s != "" ==> t == Field(testInfo, "title").s
  {
    var title := Field(testInfo, "title");
    if Truthy(title) then ToText(title) else DefaultTitle
  }

  /** An omitted argument (undefined) takes its `{}` default. */
  function Defaulted(v: Value): (r: Value)
    ensures v.Undefined? ==> r == Obj(map[])
    ensures !v.Undefined? ==> r == v
  {
    if v.Undefined? then Obj(map[]) else v
  }

  const FormType: string := "application/x-www-form-urlencoded"
  const JsonType: string := "application/json"

  datatype Headers = Headers(referer: string, contentType: string)

  /** The options object `_buildRequestOptions` returns. */
  datatype RequestOptions =
    | NoOptions
    | Form(form: Value, headers: Headers)
    | Data(data: Value, headers: Headers)

  /**
    * `_buildRequestOptions`: nothing for GET; otherwise the payload as a form
    * when `options.contentType` is exactly 'form', and as JSON data in every
    * other case, with the base URL as Referer.
    */
  function BuildRequestOptions(baseURL: string, httpMethod: string, payload: Value, options: Value)
    : (r: RequestOptions)
    ensures r.NoOptions? <==> httpMethod == "GET"
    ensures r.Form? <==> httpMethod != "GET" && StrictEquals(Field(options, "contentType"), Str("form"))
    ensures !r.NoOptions? ==> r.headers.referer == baseURL
    ensures r.Form? ==> r.form == payload && r.headers.contentType == FormType
    ensures r.Data? ==> r.data == payload && r.headers.contentType == JsonType
  {
    if httpMethod == "GET" then NoOptions
    else if StrictEquals(Field(options, "contentType"), Str("form")) then Form(payload, Headers(baseURL, FormType))
    else Data(payload, Headers(baseURL, JsonType))
  }

  /** The call made on the request context. */
  datatype Transfer =
    | Get(url: string, params: Value)
    | Delete(url: string, options: RequestOptions)
    | Put(url: string, options: RequestOptions)
    | Post(url: string, options: RequestOptions)

  /** GET sends the payload as query parameters; DELETE and PUT go to their own calls, every other method to POST. */
  function Dispatch(httpMethod: string, url: string, payload: Value, options: RequestOptions): (t: Transfer)
    ensures t.url == url
    ensures t.Get? <==> httpMethod == "GET"
    ensures t.Get? ==> t.params == payload
    ensures t.Delete? <==> httpMethod == "DELETE"
    ensures t.Put? <==> httpMethod == "PUT"
    ensures t.Post? <==> httpMethod !in {"GET", "DELETE", "PUT"}
    ensures !t.Get? ==> t.options == options
  {
    if httpMethod == "GET" then Get(url, payload)
    else if httpMethod == "DELETE" then Delete(url, options)
    else if httpMethod == "PUT" then Put(url, options)
    else Post(url, options)
  }

  /** The transfer `_request` makes for one call: the URL is the base URL followed by the endpoint. */
  function TransferOf(baseURL: string, httpMethod: string, endpoint: string, payload: Value, options: Value)
    : (t: Transfer)
    ensures t.url == baseURL + endpoint
    ensures t.Get? <==> httpMethod == "GET"
    ensures t.Get? ==> t.params == payload
    ensures !t.Get? ==> !t.options.NoOptions? && t.options.headers.referer == baseURL
    ensures !t.Get? ==> (t.options.Form? <==> StrictEquals(Field(options, "contentType"), Str("form")))
  {
    Dispatch(httpMethod, baseURL + endpoint, payload, BuildRequestOptions(baseURL, httpMethod, payload, options))
  }

  /** A received body: its text, and the value `response.json()` parses from it, if any. */
  datatype Body = Body(text: string, json: Option<Value>)

  /** `_parse`: the JSON value when the body parses, its raw text otherwise; it never fails. */
  function Parse(body: Body): (v: Value)
    ensures body.json.Some? ==> v == body.json.value
    ensures body.json.None? ==> v == Str(body.text)
  {
    match body.json
    case Some(v) => v
    case None => Str(body.text)
  }

  /** What one attempt of the network call gives: a response of any status, or a thrown error. */
  datatype Exchange =
    | Received(status: int, body: Body, elapsed: int)
    | Failed(error: string)

  /** The value `_request` resolves to. */
  datatype Response = Response(status: int, data: Value)

  /** The request context: what the n-th attempt of a transfer gives. */
  type Transport = (Transfer, nat) -> Exchange

  /**
    * The attempts from attempt `k` on: each failure is retried until the
    * third attempt, and the first received response ends the run.
    */
  function Tries(transport: Transport, t: Transfer, k: nat): (xs: seq<Exchange>)
    requires 1 <= k <= 3
    ensures 1 <= |xs| <= 4 - k
    ensures forall i | 0 <= i < |xs| :: xs[i] == transport(t, k + i)
    ensures forall i | 0 <= i < |xs| - 1 :: xs[i].Failed?
    ensures xs[|xs| - 1].Received? || k + |xs| == 4
    decreases 3 - k
  {
    var x := transport(t, k);
    if x.Received? || k == 3 then [x] else [x] + Tries(transport, t, k + 1)
  }

  /** The attempts of one request: at most three, only the last may be a received response. */
  function Exchanges(transport: Transport, t: Transfer): (xs: seq<Exchange>)
    ensures 1 <= |xs| <= 3
    ensures forall i | 0 <= i < |xs| - 1 :: xs[i].Failed?
    ensures xs[|xs| - 1].Received? || |xs| == 3
  {
    Tries(transport, t, 1)
  }

  /** The messages of the failed attempts, in order: the errors p-retry's operation records. */
  function Errors(xs: seq<Exchange>): seq<string>
  {
    if xs == [] then []
    else
      var x := xs[|xs| - 1];
      Errors(xs[..|xs| - 1]) + (if x.Failed? then [x.error] else [])
  }

  lemma ErrorsSnoc(xs: seq<Exchange>, x: Exchange)
    ensures Errors(xs + [x]) == Errors(xs) + (if x.Failed? then [x.error] else [])
  {
    assert (xs + [x])[..|xs|] == xs;
  }

  /** The number of errors with message `m`. */
  function Count(es: seq<string>, m: string): nat
  {
    if es == [] then 0 else Count(es[..|es| - 1], m) + (if es[|es| - 1] == m then 1 else 0)
  }

  lemma CountSnoc(es: seq<string>, l: string, m: string)
    ensures Count(es + [l], m) == Count(es, m) + (if l == m then 1 else 0)
  {
    assert (es + [l])[..|es|] == es;
  }

  /**
    * The loop of `operation.mainError()` in the `retry` package, which p-retry
    * rejects with once the attempts are used up: it walks the errors, counting
    * each message, and takes every error whose count reaches the highest count
    * so far. The result is the last chosen message and its count.
    */
  function MainFold(es: seq<string>): (string, nat)
    requires |es| >= 1
  {
    if |es| == 1 then (es[0], 1)
    else
      var (chosen, most) := MainFold(es[..|es| - 1]);
      var l := es[|es| - 1];
      var count := Count(es, l);
      if count >= most then (l, count) else (chosen, most)
  }

  /** `operation.mainError()`'s message. */
  function MainError(es: seq<string>): string
    requires |es| >= 1
  {
    MainFold(es).0
  }

  /** No occurrence of `m` at or after index `i`. */
  predicate AbsentFrom(es: seq<string>, m: string, i: int)
  {
    forall j | i <= j < |es| && 0 <= j :: es[j] != m
  }

  /**
    * The main error is a message that occurs most often; every error after its
    * last occurrence has a message that occurs less often, so a tie goes to the
    * message seen last.
    */
  lemma {:induction false} MainErrorMost(es: seq<string>)
    requires |es| >= 1
    ensures MainFold(es).1 == Count(es, MainError(es))
    ensures MainError(es) in es
    ensures forall m | m in es :: Count(es, m) <= Count(es, MainError(es))
    ensures forall i | 0 <= i < |es| && AbsentFrom(es, MainError(es), i) :: Count(es, es[i]) < Count(es, MainError(es))
  {
    MainFoldChosen(es);
  }

  /** `e`, seen `k` times, is a most frequent message of `es`, and no message after its last occurrence ties it. */
  predicate Chosen(es: seq<string>, e: string, k: nat)
  {
    && k == Count(es, e) && e in es
    && (forall m | m in es :: Count(es, m) <= k)
    && (forall i | 0 <= i < |es| && AbsentFrom(es, e, i) :: Count(es, es[i]) < k)
  }

  lemma {:induction false} MainFoldChosen(es: seq<string>)
    requires |es| >= 1
    ensures Chosen(es, MainFold(es).0, MainFold(es).1)
  {
    var n := |es| - 1;
    var init, l := es[..n], es[n];
    assert es == init + [l];
    if n == 0 {
      CountSnoc([], l, l);
      assert [] + [l] == es;
    } else {
      MainFoldChosen(init);
      var chosen, most := MainFold(init).0, MainFold(init).1;
      if Count(es, l) >= most {
        Take(init, l, chosen, most);
      } else {
        Keep(init, l, chosen, most);
      }
    }
  }

  lemma CountsAfter(init: seq<string>, l: string)
    ensures forall m :: Count(init + [l], m) == Count(init, m) + (if l == m then 1 else 0)
    ensures forall m | m in init + [l] && m != l :: m in init
  {
    forall m
      ensures Count(init + [l], m) == Count(init, m) + (if l == m then 1 else 0)
    {
      CountSnoc(init, l, m);
    }
  }

  /** The last error's message reaches the highest count: it becomes the main error. */
  lemma Take(init: seq<string>, l: string, e: string, k: nat)
    requires Chosen(init, e, k) && Count(init + [l], l) >= k
    ensures Chosen(init + [l], l, Count(init + [l], l))
  {
    var es := init + [l];
    CountsAfter(init, l);
    assert es[|init|] == l;
  }

  /** The last error's message stays below the highest count: the main error is kept. */
  lemma Keep(init: seq<string>, l: string, e: string, k: nat)
    requires Chosen(init, e, k) && Count(init + [l], l) < k
    ensures Chosen(init + [l], e, k)
  {
    var es := init + [l];
    CountsAfter(init, l);
    assert e != l;
    assert e in es by { var j :| 0 <= j < |init| && init[j] == e; assert es[j] == e; }
    forall i | 0 <= i < |es| && AbsentFrom(es, e, i)
      ensures Count(es, es[i]) < k
    {
      KeepAfter(init, l, e, k, i);
    }
  }

  lemma KeepAfter(init: seq<string>, l: string, e: string, k: nat, i: nat)
    requires Chosen(init, e, k) && Count(init + [l], l) < k && e != l
    requires i < |init| + 1 && AbsentFrom(init + [l], e, i)
    ensures Count(init + [l], (init + [l])[i]) < k
  {
    var es := init + [l];
    CountSnoc(init, l, es[i]);
    if i < |init| {
      assert forall j | i <= j < |init| :: es[j] == init[j];
      assert AbsentFrom(init, e, i);
      assert es[i] == init[i];
    }
  }

  /**
    * What `_request` resolves to: the first received response, parsed; when
    * every attempt failed, p-retry's main error.
    */
  function RequestResult(xs: seq<Exchange>): (r: Result<Response>)
    requires |xs| >= 1 && forall i | 0 <= i < |xs| - 1 :: xs[i].Failed?
    ensures r.Ok? <==> xs[|xs| - 1].Received?
    ensures r.Ok? ==> r.value == Response(xs[|xs| - 1].status, Parse(xs[|xs| - 1].body))
    ensures r.Err? ==> |Errors(xs)| == |xs|
    ensures r.Err? ==> r.message in Errors(xs)
    ensures r.Err? ==> forall m | m in Errors(xs) :: Count(Errors(xs), m) <= Count(Errors(xs), r.message)
  {
    match xs[|xs| - 1]
    case Received(status, body, _) => Ok(Response(status, Parse(body)))
    case Failed(_) =>
      AllFailed(xs);
      MainErrorMost(Errors(xs));
      Err(MainError(Errors(xs)))
  }

  /** When every attempt failed, each one left its error. */
  lemma {:induction false} AllFailed(xs: seq<Exchange>)
    requires forall i | 0 <= i < |xs| :: xs[i].Failed?
    ensures |Errors(xs)| == |xs|
  {
    if xs != [] {
      AllFailed(xs[..|xs| - 1]);
    }
  }

  /** `payload && Object.keys(payload).length`: whether `_request` logs the payload. */
  predicate LogsPayload(payload: Value)
  {
    Truthy(payload) && match payload
      case Obj(fields) => |fields| > 0
      case Arr(elems) => |elems| > 0
      case Str(s) => |s| > 0
      case _ => false
  }

  /** The arguments of one `_request` call, with the URL it builds. */
  datatype Call = Call(httpMethod: string, endpoint: string, url: string, payload: Value)
  {
    /** The description p-retry's messages use: the method and the endpoint, without the base URL. */
    function Desc(): string
    {
      httpMethod + " " + endpoint
    }
  }

  function RetryMessage(k: nat, desc: string): string
  {
    "Retry attempt " + IntToString(k) + " for " + desc
  }

  function FailureMessage(k: nat, desc: string, error: string): string
  {
    "Attempt " + IntToString(k) + " failed: " + desc + " | " + error
  }

  /** A logged line without its timestamp. */
  datatype Event = Event(level: Level, message: string)

  /** The lines among the console outputs, in order. */
  function Events(outs: seq<Output>): seq<Event>
  {
    if outs == [] then []
    else
      var o := outs[|outs| - 1];
      Events(outs[..|outs| - 1]) + (if o.Logged? then [Event(o.level, o.message)] else [])
  }

  lemma {:induction false} EventsAppend(a: seq<Output>, b: seq<Output>)
    ensures Events(a + b) == Events(a) + Events(b)
    decreases |b|
  {
    if b == [] {
      assert a + b == a;
    } else {
      var n := |b| - 1;
      assert (a + b)[..|a + b| - 1] == a + b[..n];
      EventsAppend(a, b[..n]);
    }
  }

  predicate AllLogged(outs: seq<Output>)
  {
    forall i | 0 <= i < |outs| :: outs[i].Logged?
  }

  lemma SliceJoin(c0: nat, s1: seq<Output>, s2: seq<Output>)
    requires c0 <= |s1| <= |s2| && s2[..|s1|] == s1
    ensures s2[c0..] == s1[c0..] + s2[|s1|..]
  {
  }

  lemma LoggedJoin(p: seq<Output>, q: seq<Output>)
    requires AllLogged(p) && AllLogged(q)
    ensures AllLogged(p + q)
  {
    forall i | 0 <= i < |p + q|
      ensures (p + q)[i].Logged?
    {
      if i < |p| {
        assert (p + q)[i] == p[i];
      } else {
        assert (p + q)[i] == q[i - |p|];
      }
    }
  }

  /** Two stretches of console output, one after the other: their lines follow each other. */
  lemma Compose(c0: nat, s1: seq<Output>, s2: seq<Output>)
    requires c0 <= |s1| <= |s2| && s2[..|s1|] == s1
    requires AllLogged(s1[c0..]) && AllLogged(s2[|s1|..])
    ensures Events(s2[c0..]) == Events(s1[c0..]) + Events(s2[|s1|..])
    ensures AllLogged(s2[c0..])
    ensures s2[..c0] == s1[..c0]
  {
    var p, q := s1[c0..], s2[|s1|..];
    SliceJoin(c0, s1, s2);
    EventsAppend(p, q);
    LoggedJoin(p, q);
  }

  /** Two stretches of output, one after the other: the file grew by what each appended. */
  lemma MirrorJoin(base: string, c0: nat, f1: string, s1: seq<Output>, f2: string, s2: seq<Output>)
    requires c0 <= |s1| <= |s2| && s2[..|s1|] == s1
    requires f1 == base + Appended(s1[c0..]) && f2 == f1 + Appended(s2[|s1|..])
    ensures f2 == base + Appended(s2[c0..])
  {
    SliceJoin(c0, s1, s2);
    AppendedAppend(s1[c0..], s2[|s1|..]);
    Associative(base, Appended(s1[c0..]), Appended(s2[|s1|..]));
  }

  /** One call printed a single line, showing event `e`, after the outputs `s1`. */
  ghost predicate Wrote(s1: seq<Output>, s2: seq<Output>, e: Event)
  {
    && |s2| == |s1| + 1 && s2[..|s1|] == s1
    && s2[|s1|].Logged? && Event(s2[|s1|].level, s2[|s1|].message) == e
  }

  /** One more line: the stretch of output since `c0` grows by its event. */
  lemma Step(c0: nat, s1: seq<Output>, s2: seq<Output>, e: Event)
    requires c0 <= |s1| && Wrote(s1, s2, e) && AllLogged(s1[c0..])
    ensures AllLogged(s2[c0..])
    ensures Events(s2[c0..]) == Events(s1[c0..]) + [e]
    ensures s2[..c0] == s1[..c0]
  {
    var o := s2[|s1|];
    assert s2[|s1|..] == [o];
    EventsOne(o);
    Compose(c0, s1, s2);
  }

  lemma EventsOne(o: Output)
    requires o.Logged?
    ensures Events([o]) == [Event(o.level, o.message)] && AllLogged([o])
  {
    assert [o][..0] == [];
  }

  /** Nothing logged yet. */
  lemma Nothing(s: seq<Output>, c0: nat)
    requires c0 == |s|
    ensures Events(s[c0..]) == [] && AllLogged(s[c0..])
  {
    assert s[c0..] == [];
  }

  /** The lines an attempt logs before its network call: the retry notice, then the REQUEST line. */
  function Opening(title: string, c: Call, k: nat): seq<Event>
  {
    (if k > 1 then [Event(INFO, Titled(title, RetryMessage(k, c.Desc())))] else [])
    + [Event(REQUEST, RequestMessage(title, c.httpMethod, c.url))]
  }

  /** The INFO block of the payload, logged only when the payload has keys. */
  function PayloadEvents(stringify: Value -> Option<string>, title: string, payload: Value): seq<Event>
  {
    if LogsPayload(payload) then [Event(INFO, Titled(title, FormatBlock(stringify, "Payload", payload)))] else []
  }

  /** The status line `apiResponse` logs, with the elapsed time. */
  function StatusEvent(title: string, status: int, elapsed: int): Event
  {
    Event(ResponseLevel(status), ResponseMessage(title, status, Millis(elapsed)))
  }

  /** The block of the parsed body: an ERROR line for a client or server error, a RESPONSE line otherwise. */
  function DataEvent(stringify: Value -> Option<string>, title: string, status: int, body: Body): Event
  {
    Event(if status >= 400 then ERROR else RESPONSE, Titled(title, FormatBlock(stringify, "Response Data", Parse(body))))
  }

  /** The lines logged for a received response: the payload when it has keys, the status, the data. */
  function Reported(stringify: Value -> Option<string>, title: string, c: Call, status: int, body: Body, elapsed: int)
    : seq<Event>
  {
    PayloadEvents(stringify, title, c.payload) + [StatusEvent(title, status, elapsed)]
    + [DataEvent(stringify, title, status, body)]
  }

  /** The lines after the network call: the failure line, or the report of the response. */
  function Closing(stringify: Value -> Option<string>, title: string, c: Call, k: nat, x: Exchange): seq<Event>
  {
    match x
    case Failed(error) => [Event(ERROR, Titled(title, FailureMessage(k, c.Desc(), error)))]
    case Received(status, body, elapsed) => Reported(stringify, title, c, status, body, elapsed)
  }

  /** The lines of the k-th attempt. */
  function AttemptEvents(stringify: Value -> Option<string>, title: string, c: Call, k: nat, x: Exchange)
    : seq<Event>
  {
    Opening(title, c, k) + Closing(stringify, title, c, k, x)
  }

  /** The lines of a run of attempts numbered from 1. */
  function RunEvents(stringify: Value -> Option<string>, title: string, c: Call, xs: seq<Exchange>): seq<Event>
  {
    if xs == [] then []
    else RunEvents(stringify, title, c, xs[..|xs| - 1]) + AttemptEvents(stringify, title, c, |xs|, xs[|xs| - 1])
  }

  lemma RunEventsSnoc(stringify: Value -> Option<string>, title: string, c: Call, xs: seq<Exchange>, x: Exchange)
    ensures RunEvents(stringify, title, c, xs + [x])
         == RunEvents(stringify, title, c, xs) + AttemptEvents(stringify, title, c, |xs| + 1, x)
  {
    assert (xs + [x])[..|xs|] == xs;
  }

  /** The message starts with the bracketed test title, as every line of a request does. */
  predicate TitledBy(message: string, title: string)
  {
    |message| >= |title| + 3 && message[..|title| + 3] == "[" + title + "] "
  }

  lemma TitledExtend(a: string, b: string, title: string)
    requires TitledBy(a, title)
    ensures TitledBy(a + b, title)
  {
    assert (a + b)[..|title| + 3] == a[..|title| + 3];
  }

  lemma RequestTitled(title: string, httpMethod: string, url: string)
    ensures TitledBy(RequestMessage(title, httpMethod, url), title)
  {
    var h := "[" + title + "] ";
    assert TitledBy(h, title);
    TitledExtend(h, httpMethod, title);
    TitledExtend(h + httpMethod, " request to: ", title);
    TitledExtend(h + httpMethod + " request to: ", url, title);
  }

  lemma ResponseTitled(title: string, status: int, time: ResponseTime)
    ensures TitledBy(ResponseMessage(title, status, time), title)
  {
    var h := "[" + title + "] ";
    var shown := if time.Millis? && time.ms != 0 then " (" + IntToString(time.ms) + "ms)" else "";
    assert TitledBy(h, title);
    TitledExtend(h, "Response Status: ", title);
    TitledExtend(h + "Response Status: ", IntToString(status), title);
    TitledExtend(h + "Response Status: " + IntToString(status), shown, title);
  }

  /** Every line of one attempt carries the test title. */
  lemma AttemptTitled(stringify: Value -> Option<string>, title: string, c: Call, k: nat, x: Exchange)
    ensures forall e | e in AttemptEvents(stringify, title, c, k, x) :: TitledBy(e.message, title)
  {
    RequestTitled(title, c.httpMethod, c.url);
    assert forall e | e in Opening(title, c, k) :: TitledBy(e.message, title);
    match x
    case Failed(_) =>
    case Received(status, body, elapsed) =>
      ResponseTitled(title, status, Millis(elapsed));
      assert forall e | e in Reported(stringify, title, c, status, body, elapsed) :: TitledBy(e.message, title);
  }

  /** Every line of a run of attempts carries the test title. */
  lemma {:induction false} RunTitled(stringify: Value -> Option<string>, title: string, c: Call, xs: seq<Exchange>)
    ensures forall e | e in RunEvents(stringify, title, c, xs) :: TitledBy(e.message, title)
  {
    if xs != [] {
      RunTitled(stringify, title, c, xs[..|xs| - 1]);
      AttemptTitled(stringify, title, c, |xs|, xs[|xs| - 1]);
    }
  }

  /**
    * Every line a request logs, once stamped with a well-formed clock reading,
    * opens an entry that the final flush groups under the test's title.
    */
  lemma RunLineGrouped(stringify: Value -> Option<string>, title: string, c: Call, xs: seq<Exchange>,
                       e: Event, iso: string)
    requires e in RunEvents(stringify, title, c, xs)
    requires IsIsoString(iso) && title != [] && ']' !in title && '\n' !in title
    ensures Finalizer.IsDatePrefixed(FormatLine(Timestamp(iso), e.level, e.message))
    ensures Finalizer.Tag(Split(FormatLine(Timestamp(iso), e.level, e.message))[0]) == Some(title)
  {
    RunTitled(stringify, title, c, xs);
    var rest := e.message[|title| + 3..];
    assert e.message == "[" + title + "] " + rest;
    TitledLineGroup(iso, e.level, title, rest);
  }

  /** The number of lines at level `l`. */
  function CountLevel(es: seq<Event>, l: Level): nat
  {
    if es == [] then 0 else CountLevel(es[..|es| - 1], l) + (if es[|es| - 1].level == l then 1 else 0)
  }

  lemma {:induction false} CountAppend(a: seq<Event>, b: seq<Event>, l: Level)
    ensures CountLevel(a + b, l) == CountLevel(a, l) + CountLevel(b, l)
    decreases |b|
  {
    if b == [] {
      assert a + b == a;
    } else {
      assert (a + b)[..|a + b| - 1] == a + b[..|b| - 1];
      CountAppend(a, b[..|b| - 1], l);
    }
  }

  lemma OpeningRequests(title: string, c: Call, k: nat)
    ensures CountLevel(Opening(title, c, k), REQUEST) == 1
  {
    var retry := if k > 1 then [Event(INFO, Titled(title, RetryMessage(k, c.Desc())))] else [];
    CountAppend(retry, [Event(REQUEST, RequestMessage(title, c.httpMethod, c.url))], REQUEST);
  }

  lemma {:induction false} CountAbsent(es: seq<Event>, l: Level)
    requires forall i | 0 <= i < |es| :: es[i].level != l
    ensures CountLevel(es, l) == 0
  {
    if es != [] {
      CountAbsent(es[..|es| - 1], l);
    }
  }

  lemma ReportedRequests(stringify: Value -> Option<string>, title: string, c: Call, status: int, body: Body, elapsed: int)
    ensures CountLevel(Reported(stringify, title, c, status, body, elapsed), REQUEST) == 0
  {
    var p := PayloadEvents(stringify, title, c.payload);
    var st := StatusEvent(title, status, elapsed);
    var d := DataEvent(stringify, title, status, body);
    assert st.level != REQUEST && d.level != REQUEST;
    assert forall i | 0 <= i < |p| :: p[i].level == INFO;
    var r := p + [st] + [d];
    assert forall i | 0 <= i < |r| :: r[i].level != REQUEST;
    CountAbsent(r, REQUEST);
  }

  /** Each attempt logs exactly one REQUEST line: `apiRequest`'s. */
  lemma OneRequestLine(stringify: Value -> Option<string>, title: string, c: Call, k: nat, x: Exchange)
    ensures CountLevel(AttemptEvents(stringify, title, c, k, x), REQUEST) == 1
  {
    OpeningRequests(title, c, k);
    CountAppend(Opening(title, c, k), Closing(stringify, title, c, k, x), REQUEST);
    match x
    case Failed(_) =>
    case Received(status, body, elapsed) =>
      ReportedRequests(stringify, title, c, status, body, elapsed);
  }

  /** A run logs one REQUEST line per attempt, so one per request id it took. */
  lemma {:induction false} RequestLines(stringify: Value -> Option<string>, title: string, c: Call, xs: seq<Exchange>)
    ensures CountLevel(RunEvents(stringify, title, c, xs), REQUEST) == |xs|
  {
    if xs != [] {
      var init := xs[..|xs| - 1];
      RequestLines(stringify, title, c, init);
      OneRequestLine(stringify, title, c, |xs|, xs[|xs| - 1]);
      CountAppend(RunEvents(stringify, title, c, init), AttemptEvents(stringify, title, c, |xs|, xs[|xs| - 1]), REQUEST);
    }
  }

  /** What `apiRequest` recorded for an attempt of this call. */
  predicate Records(p: PendingRequest, title: string, c: Call)
  {
    p.testTitle == title && p.httpMethod == c.httpMethod && p.endpoint == c.url
  }

  /** The pending map gained entry `id` for this call, and nothing else changed. */
  ghost predicate Added(before: map<int, PendingRequest>, after: map<int, PendingRequest>, id: int, title: string, c: Call)
  {
    && id !in before && id in after && Records(after[id], title, c)
    && (forall j | j in before :: j in after && after[j] == before[j])
    && (forall j | j in after :: j in before || j == id)
  }

  /** Removing the added entry gives the map back. */
  lemma Undone(before: map<int, PendingRequest>, after: map<int, PendingRequest>, id: int, title: string, c: Call)
    requires Added(before, after, id, title, c)
    ensures after - {id} == before
  {
    forall j
      ensures j in after - {id} <==> j in before
    {
      if j in before {
        assert j != id && j in after;
      }
    }
    assert (after - {id}).Keys == before.Keys;
    assert forall j | j in before :: (after - {id})[j] == after[j] == before[j];
  }

  /**
    * The pending map after attempts `xs` whose ids were handed out from
    * `c0 + 1` on: the earlier entries are kept, and each failed attempt left
    * its id pending, since only a response removes it.
    */
  ghost predicate PendingAfter(before: map<int, PendingRequest>, after: map<int, PendingRequest>, c0: int,
                               xs: seq<Exchange>, title: string, c: Call)
  {
    && (forall id | id in before :: id in after && after[id] == before[id])
    && (forall id | id in after && id !in before ::
          c0 < id <= c0 + |xs| && xs[id - c0 - 1].Failed? && Records(after[id], title, c))
    && (forall i | 0 <= i < |xs| && xs[i].Failed? :: c0 + i + 1 in after)
  }

  /** One more attempt, with the next id. */
  lemma PendingStep(before: map<int, PendingRequest>, mid: map<int, PendingRequest>, after: map<int, PendingRequest>,
                    c0: int, xs: seq<Exchange>, x: Exchange, title: string, c: Call)
    requires PendingAfter(before, mid, c0, xs, title, c)
    requires forall id | id in before :: id <= c0
    requires x.Received? ==> after == mid
    requires x.Failed? ==> Added(mid, after, c0 + |xs| + 1, title, c)
    ensures PendingAfter(before, after, c0, xs + [x], title, c)
  {
    var ys := xs + [x];
    forall id | id in after && id !in before
      ensures c0 < id <= c0 + |ys| && ys[id - c0 - 1].Failed? && Records(after[id], title, c)
    {
      if id != c0 + |xs| + 1 {
        assert id in mid;
        assert ys[id - c0 - 1] == xs[id - c0 - 1];
      }
    }
    forall i | 0 <= i < |ys| && ys[i].Failed?
      ensures c0 + i + 1 in after
    {
      if i < |xs| {
        assert ys[i] == xs[i];
      }
    }
  }

  /** What follows attempt `k` with outcome `x`: nothing once a response arrived or the third attempt failed. */
  function After(transport: Transport, t: Transfer, k: nat, x: Exchange): seq<Exchange>
    requires 1 <= k <= 3
  {
    if x.Received? || k == 3 then [] else Tries(transport, t, k + 1)
  }

  /** After a failure that leaves attempts over, the next attempt comes first. */
  lemma AfterFailure(transport: Transport, t: Transfer, k: nat, x: Exchange)
    requires 1 <= k < 3 && x.Failed?
    ensures var y := transport(t, k + 1);
            After(transport, t, k, x) == [y] + After(transport, t, k + 1, y)
  {
  }

  /** The outputs and the pending map after one more attempt of the same call. */
  lemma Advance(stringify: Value -> Option<string>, title: string, c: Call, done: seq<Exchange>, x: Exchange,
                c0: nat, s0: seq<Output>, s1: seq<Output>, s2: seq<Output>,
                n0: int, p0: map<int, PendingRequest>, p1: map<int, PendingRequest>, p2: map<int, PendingRequest>,
                id: int)
    requires c0 <= |s1| <= |s2| && s2[..|s1|] == s1 && s1[..c0] == s0
    requires AllLogged(s1[c0..]) && Events(s1[c0..]) == RunEvents(stringify, title, c, done)
    requires AllLogged(s2[|s1|..]) && Events(s2[|s1|..]) == AttemptEvents(stringify, title, c, |done| + 1, x)
    requires PendingAfter(p0, p1, n0, done, title, c) && forall id | id in p0 :: id <= n0
    requires x.Received? ==> p2 == p1
    requires id == n0 + |done| + 1 && (x.Failed? ==> Added(p1, p2, id, title, c))
    ensures AllLogged(s2[c0..]) && Events(s2[c0..]) == RunEvents(stringify, title, c, done + [x])
    ensures s2[..c0] == s0
    ensures PendingAfter(p0, p2, n0, done + [x], title, c)
  {
    Compose(c0, s1, s2);
    RunEventsSnoc(stringify, title, c, done, x);
    PendingStep(p0, p1, p2, n0, done, x, title, c);
  }

  lemma Shift(xs: seq<Exchange>, done: seq<Exchange>, x: Exchange, prev: seq<Exchange>, rest: seq<Exchange>)
    requires xs == done + prev && prev == [x] + rest
    ensures xs == (done + [x]) + rest
  {
  }

  /** One of the checks of `assertApiResponse` that did not hold, with the values it compared. */
  datatype Mismatch =
    | StatusMismatch(expected: Value, status: int)
    | CodeMismatch(expected: Value, got: Value)
    | MessageMismatch(expected: Value, got: Value)
  {
    /** The position of the check: status, then response code, then message. */
    function Rank(): nat
    {
      match this
      case StatusMismatch(_, _) => 0
      case CodeMismatch(_, _) => 1
      case MessageMismatch(_, _) => 2
    }

    function Text(): string
    {
      match this
      case StatusMismatch(e, g) => "Status: expected " + ToText(e) + ", got " + IntToString(g)
      case CodeMismatch(e, g) => "responseCode: expected " + ToText(e) + ", got " + ToText(g)
      case MessageMismatch(e, g) => "Message: expected \"" + ToText(e) + "\", got \"" + ToText(g) + "\""
    }
  }

  /**
    * The checks that fail, in the order `assertApiResponse` makes them; the
    * message is compared only when an expected message is given (truthy).
    */
  function Mismatches(response: Response, expStatus: Value, expCode: Value, expMessage: Value): (r: seq<Mismatch>)
    ensures r == [] <==>
      && StrictEquals(Num(response.status), expStatus)
      && StrictEquals(Field(response.data, "responseCode"), expCode)
      && (Truthy(expMessage) ==> StrictEquals(Field(response.data, "message"), expMessage))
    ensures StatusMismatch(expStatus, response.status) in r <==> !StrictEquals(Num(response.status), expStatus)
    ensures var code := Field(response.data, "responseCode");
            CodeMismatch(expCode, code) in r <==> !StrictEquals(code, expCode)
    ensures var message := Field(response.data, "message");
            MessageMismatch(expMessage, message) in r <==> Truthy(expMessage) && !StrictEquals(message, expMessage)
    ensures forall m | m in r ::
      || m == StatusMismatch(expStatus, response.status)
      || m == CodeMismatch(expCode, Field(response.data, "responseCode"))
      || m == MessageMismatch(expMessage, Field(response.data, "message"))
    ensures forall i, j | 0 <= i < j < |r| :: r[i].Rank() < r[j].Rank()
  {
    var code := Field(response.data, "responseCode");
    var message := Field(response.data, "message");
    (if !StrictEquals(Num(response.status), expStatus) then [StatusMismatch(expStatus, response.status)] else [])
    + (if !StrictEquals(code, expCode) then [CodeMismatch(expCode, code)] else [])
    + (if Truthy(expMessage) && !StrictEquals(message, expMessage) then [MessageMismatch(expMessage, message)] else [])
  }

  /** The texts of the failed checks, in the order of the checks. */
  function Texts(ms: seq<Mismatch>): seq<string>
  {
    seq(|ms|, i requires 0 <= i < |ms| => ms[i].Text())
  }

  /** The checks of `assertApiResponse`, in order: the texts of the ones that failed. */
  method Collect(response: Response, expStatus: Value, expCode: Value, expMessage: Value)
    returns (errors: seq<string>)
    ensures errors == Texts(Mismatches(response, expStatus, expCode, expMessage))
  {
    errors := [];
    ghost var ms: seq<Mismatch> := [];
    var code := Field(response.data, "responseCode");
    var message := Field(response.data, "message");
    if !StrictEquals(Num(response.status), expStatus) {
      errors, ms := Push(errors, ms, StatusMismatch(expStatus, response.status));
    }
    if !StrictEquals(code, expCode) {
      errors, ms := Push(errors, ms, CodeMismatch(expCode, code));
    }
    if Truthy(expMessage) && !StrictEquals(message, expMessage) {
      errors, ms := Push(errors, ms, MessageMismatch(expMessage, message));
    }
    assert ms == Mismatches(response, expStatus, expCode, expMessage);
  }

  /** `errors.push(...)` of the text of a failed check. */
  method Push(errors: seq<string>, ghost ms: seq<Mismatch>, m: Mismatch)
    returns (errors': seq<string>, ghost ms': seq<Mismatch>)
    requires errors == Texts(ms)
    ensures ms' == ms + [m] && errors' == Texts(ms')
  {
    errors' := errors + [m.Text()];
    ms' := ms + [m];
  }

  /** The message of the ERROR line `assertApiResponse` logs. */
  function AssertionMessage(errors: string): string
  {
    "AssertionFailed: " + errors
  }

  class APIHelper {
    const baseURL: string
    const testTitle: string
    /** The process-wide correlation logger. */
    const logger: CentralizedLogger

    constructor (baseURL: string, testInfo: Value, logger: CentralizedLogger)
      ensures this.baseURL == baseURL && testTitle == TitleOf(testInfo) && this.logger == logger
    {
      this.baseURL := baseURL;
      testTitle := TitleOf(testInfo);
      this.logger := logger;
    }

    /** `_log`: the message, prefixed with the test title, at the level the name selects. */
    method Log(levelName: string, message: string)
      requires logger.Valid()
      modifies logger
      ensures logger.Valid() && logger.initialized
      ensures Wrote(old(logger.console), logger.console, Event(LevelOf(levelName), Titled(testTitle, message)))
      ensures logger.pendingRequests == old(logger.pendingRequests)
      ensures logger.requestCounter == old(logger.requestCounter)
      ensures logger.file == old(logger.FileBase(logger.clock(logger.clockReads + 1).locale))
                             + Appended(logger.console[old(|logger.console|)..])
      ensures logger.clockReads == old(logger.clockReads + 1 + logger.InitReads())
    {
      ghost var n := |logger.console|;
      logger.BufferLog(LevelOf(levelName), Titled(testTitle, message));
      assert logger.console[n..] == [logger.console[n]];
    }

    /** `apiRequest` for this test: a new id, a pending entry and the REQUEST line. */
    method Open(c: Call) returns (id: int)
      requires logger.Valid()
      modifies logger
      ensures logger.Valid() && logger.initialized
      ensures id == old(logger.requestCounter) + 1 && logger.requestCounter == id
      ensures Added(old(logger.pendingRequests), logger.pendingRequests, id, testTitle, c)
      ensures Wrote(old(logger.console), logger.console, Event(REQUEST, RequestMessage(testTitle, c.httpMethod, c.url)))
      ensures logger.file == old(logger.FileBase(logger.clock(logger.clockReads + 2).locale))
                             + Appended(logger.console[old(|logger.console|)..])
      ensures logger.clockReads == old(logger.clockReads + 2 + logger.InitReads())
    {
      ghost var n := |logger.console|;
      id := logger.ApiRequest(testTitle, c.httpMethod, c.url);
      assert logger.console[n..] == [logger.console[n]];
    }

    /** `apiResponse` for a pending request of this test: the entry is removed and the status line logged. */
    method Close(id: int, status: int, elapsed: int)
      requires logger.Valid() && logger.initialized
      requires id in logger.pendingRequests && logger.pendingRequests[id].testTitle == testTitle
      modifies logger
      ensures logger.Valid() && logger.initialized
      ensures logger.pendingRequests == old(logger.pendingRequests) - {id}
      ensures logger.requestCounter == old(logger.requestCounter)
      ensures Wrote(old(logger.console), logger.console, StatusEvent(testTitle, status, elapsed))
      ensures Mirrors(old(logger.file), old(|logger.console|))
      ensures logger.clockReads == old(logger.clockReads) + 1
    {
      ghost var n := |logger.console|;
      logger.ApiResponse(id, status, Millis(elapsed));
      assert logger.console[n..] == [logger.console[n]];
    }

    /** Since the console held `c0` outputs, the logger printed only lines: the events `es`. */
    ghost predicate Logs(c0: nat, es: seq<Event>)
      reads logger
    {
      && c0 <= |logger.console|
      && AllLogged(logger.console[c0..])
      && Events(logger.console[c0..]) == es
    }

    /** Since the console held `c0` outputs, the file grew from `base` by exactly what they appended. */
    ghost predicate Mirrors(base: string, c0: nat)
      reads logger
    {
      c0 <= |logger.console| && logger.file == base + Appended(logger.console[c0..])
    }

    /** The start of attempt `k`: the retry notice after the first attempt, then `apiRequest`. */
    method Begin(c: Call, k: nat) returns (id: int)
      requires logger.Valid() && k >= 1
      modifies logger
      ensures logger.Valid() && logger.initialized
      ensures id == old(logger.requestCounter) + 1 && logger.requestCounter == id
      ensures Added(old(logger.pendingRequests), logger.pendingRequests, id, testTitle, c)
      ensures Logs(old(|logger.console|), Opening(testTitle, c, k))
      ensures logger.console[..old(|logger.console|)] == old(logger.console)
      ensures Mirrors(old(logger.FileBase(logger.clock(logger.clockReads + (if k > 1 then 1 else 2)).locale)),
                      old(|logger.console|))
      ensures logger.clockReads == old(logger.clockReads + logger.InitReads()) + (|logger.console| - old(|logger.console|)) + 1
    {
      ghost var c0, p0 := |logger.console|, logger.pendingRequests;
      ghost var s0 := logger.console;
      Nothing(s0, c0);
      if k > 1 {
        Log(Key(INFO), RetryMessage(k, c.Desc()));
        KeyRoundTrip(INFO);
        Step(c0, s0, logger.console, Event(INFO, Titled(testTitle, RetryMessage(k, c.Desc()))));
      }
      ghost var s1, f1 := logger.console, logger.file;
      assert logger.pendingRequests == p0;
      ghost var e1 := Events(s1[c0..]);
      assert e1 == Opening(testTitle, c, k)[..|e1|];
      id := Open(c);
      Step(c0, s1, logger.console, Event(REQUEST, RequestMessage(testTitle, c.httpMethod, c.url)));
      assert Events(logger.console[c0..]) == e1 + [Event(REQUEST, RequestMessage(testTitle, c.httpMethod, c.url))];
      if k > 1 {
        MirrorJoin(old(logger.FileBase(logger.clock(logger.clockReads + 1).locale)), c0, f1, s1, logger.file, logger.console);
      }
    }

    /** The rest of an attempt whose response arrived: the payload block, the status line, the data block. */
    method Finish(c: Call, id: int, status: int, body: Body, elapsed: int)
      requires logger.Valid() && logger.initialized
      requires id in logger.pendingRequests && logger.pendingRequests[id].testTitle == testTitle
      modifies logger
      ensures logger.Valid() && logger.initialized
      ensures logger.pendingRequests == old(logger.pendingRequests) - {id}
      ensures logger.requestCounter == old(logger.requestCounter)
      ensures Logs(old(|logger.console|), Reported(logger.stringify, testTitle, c, status, body, elapsed))
      ensures logger.console[..old(|logger.console|)] == old(logger.console)
      ensures Mirrors(old(logger.file), old(|logger.console|))
      ensures logger.clockReads == old(logger.clockReads) + (|logger.console| - old(|logger.console|))
    {
      ghost var c0, f0 := |logger.console|, logger.file;
      ghost var stringify := logger.stringify;
      Nothing(logger.console, c0);
      assert Mirrors(f0, c0);
      var data := Parse(body);
      if LogsPayload(c.payload) {
        ghost var s0, f := logger.console, logger.file;
        var block := logger.FormatBlockOf("Payload", c.payload);
        Log(Key(INFO), block);
        KeyRoundTrip(INFO);
        Step(c0, s0, logger.console, PayloadEvents(stringify, testTitle, c.payload)[0]);
        MirrorJoin(f0, c0, f, s0, logger.file, logger.console);
      }
      assert Events(logger.console[c0..]) == PayloadEvents(stringify, testTitle, c.payload);
      ghost var s1, f1 := logger.console, logger.file;
      Close(id, status, elapsed);
      Step(c0, s1, logger.console, StatusEvent(testTitle, status, elapsed));
      MirrorJoin(f0, c0, f1, s1, logger.file, logger.console);
      ghost var s2, f2 := logger.console, logger.file;
      var block := logger.FormatBlockOf("Response Data", data);
      Log(if status >= 400 then Key(ERROR) else Key(RESPONSE), block);
      KeyRoundTrip(ERROR);
      KeyRoundTrip(RESPONSE);
      Step(c0, s2, logger.console, DataEvent(stringify, testTitle, status, body));
      MirrorJoin(f0, c0, f2, s2, logger.file, logger.console);
    }

    /** The failure line of attempt `k`, before the error is rethrown. */
    method Failure(c: Call, k: nat, error: string)
      requires logger.Valid() && logger.initialized
      modifies logger
      ensures logger.Valid() && logger.initialized
      ensures logger.pendingRequests == old(logger.pendingRequests)
      ensures logger.requestCounter == old(logger.requestCounter)
      ensures Logs(old(|logger.console|), Closing(logger.stringify, testTitle, c, k, Failed(error)))
      ensures logger.console[..old(|logger.console|)] == old(logger.console)
      ensures Mirrors(old(logger.file), old(|logger.console|))
      ensures logger.clockReads == old(logger.clockReads) + 1
    {
      ghost var c0 := |logger.console|;
      Nothing(logger.console, c0);
      ghost var s0 := logger.console;
      Log(Key(ERROR), FailureMessage(k, c.Desc(), error));
      KeyRoundTrip(ERROR);
      Step(c0, s0, logger.console, Event(ERROR, Titled(testTitle, FailureMessage(k, c.Desc(), error))));
    }

    /**
      * One attempt: the retry notice and `apiRequest`, the network call, and
      * then either the failure line (the error is rethrown) or the report of
      * the response.
      */
    method Attempt(c: Call, t: Transfer, transport: Transport, k: nat) returns (x: Exchange)
      requires logger.Valid() && k >= 1
      modifies logger
      ensures logger.Valid() && logger.initialized
      ensures x == transport(t, k)
      ensures logger.requestCounter == old(logger.requestCounter) + 1
      ensures x.Received? ==> logger.pendingRequests == old(logger.pendingRequests)
      ensures x.Failed? ==> Added(old(logger.pendingRequests), logger.pendingRequests, logger.requestCounter, testTitle, c)
      ensures Logs(old(|logger.console|), AttemptEvents(logger.stringify, testTitle, c, k, x))
      ensures logger.console[..old(|logger.console|)] == old(logger.console)
      ensures Mirrors(old(logger.FileBase(logger.clock(logger.clockReads + (if k > 1 then 1 else 2)).locale)),
                      old(|logger.console|))
      ensures logger.clockReads == old(logger.clockReads + logger.InitReads()) + (|logger.console| - old(|logger.console|)) + 1
    {
      ghost var c0, p0 := |logger.console|, logger.pendingRequests;
      ghost var base := logger.FileBase(logger.clock(logger.clockReads + (if k > 1 then 1 else 2)).locale);
      var id := Begin(c, k);
      x := transport(t, k);
      ghost var s1, p1, f1 := logger.console, logger.pendingRequests, logger.file;
      if x.Failed? {
        Failure(c, k, x.error);
      } else {
        Finish(c, id, x.status, x.body, x.elapsed);
      }
      Compose(c0, s1, logger.console);
      assert Events(logger.console[c0..]) == Opening(testTitle, c, k) + Closing(logger.stringify, testTitle, c, k, x);
      if x.Received? {
        Undone(p0, p1, id, testTitle, c);
      }
      MirrorJoin(base, c0, f1, s1, logger.file, logger.console);
    }

    /**
      * The state after the attempts `xs` of call `c`, counted from the moment
      * the console held the `c0` outputs `s0`, the counter stood at `n0`, the
      * pending map was `p0`, the file was to grow from `f0` and the clock had
      * been read `r0` times: the lines logged are the run's, each attempt took
      * one id, each failed one left its id pending, the file grew by exactly
      * the lines shown, and the clock was read once per line and once per id.
      */
    ghost predicate Ran(c: Call, c0: nat, s0: seq<Output>, n0: int, p0: map<int, PendingRequest>,
                        f0: string, r0: nat, xs: seq<Exchange>)
      reads logger
    {
      && logger.Valid() && logger.initialized
      && Logs(c0, RunEvents(logger.stringify, testTitle, c, xs))
      && logger.console[..c0] == s0
      && logger.requestCounter == n0 + |xs|
      && PendingAfter(p0, logger.pendingRequests, n0, xs, testTitle, c)
      && Mirrors(f0, c0)
      && logger.clockReads == r0 + (|logger.console| - c0) + |xs|
    }

    /** `Ran`, counted from the state before the method: the base of a file not yet created is its header. */
    twostate predicate RanSince(c: Call, xs: seq<Exchange>)
      reads logger
    {
      Ran(c, old(|logger.console|), old(logger.console), old(logger.requestCounter), old(logger.pendingRequests),
          old(logger.FileBase(logger.clock(logger.clockReads + 2).locale)), old(logger.clockReads + logger.InitReads()), xs)
    }

    /**
      * The state after `attempt` attempts of a run that will make the attempts
      * `xs`: the attempts so far are a prefix of the run ending in `x`, and
      * `Ran` holds of them.
      */
    ghost predicate Progress(transport: Transport, t: Transfer, c: Call, c0: nat, s0: seq<Output>, n0: int,
                             p0: map<int, PendingRequest>, f0: string, r0: nat, xs: seq<Exchange>,
                             done: seq<Exchange>, attempt: nat, x: Exchange)
      reads logger
    {
      && 1 <= attempt <= 3 && |done| == attempt && done[attempt - 1] == x
      && xs == done + After(transport, t, attempt, x)
      && Ran(c, c0, s0, n0, p0, f0, r0, done)
    }

    /** The first attempt of a run. */
    method First(c: Call, t: Transfer, transport: Transport) returns (x: Exchange)
      requires logger.Valid()
      modifies logger
      ensures x == transport(t, 1) && RanSince(c, [x])
    {
      ghost var c0, s0, p0, n0 := |logger.console|, logger.console, logger.pendingRequests, logger.requestCounter;
      Nothing(s0, c0);
      assert PendingAfter(p0, p0, n0, [], testTitle, c);
      x := Attempt(c, t, transport, 1);
      Advance(logger.stringify, testTitle, c, [], x, c0, s0, s0, logger.console, n0, p0, p0, logger.pendingRequests,
              logger.requestCounter);
      assert [] + [x] == [x];
    }

    /** One more attempt, after a failed one when attempts are left. */
    method Next(c: Call, t: Transfer, transport: Transport, ghost c0: nat, ghost s0: seq<Output>, ghost n0: int,
                ghost p0: map<int, PendingRequest>, ghost f0: string, ghost r0: nat, ghost xs: seq<Exchange>,
                ghost done: seq<Exchange>, attempt: nat, x: Exchange)
      returns (y: Exchange)
      requires Progress(transport, t, c, c0, s0, n0, p0, f0, r0, xs, done, attempt, x) && x.Failed? && attempt < 3
      requires forall id | id in p0 :: id <= n0
      modifies logger
      ensures Progress(transport, t, c, c0, s0, n0, p0, f0, r0, xs, done + [y], attempt + 1, y)
    {
      ghost var s1, p1, f1, prev := logger.console, logger.pendingRequests, logger.file, After(transport, t, attempt, x);
      AfterFailure(transport, t, attempt, x);
      y := Attempt(c, t, transport, attempt + 1);
      Advance(logger.stringify, testTitle, c, done, y, c0, s0, s1, logger.console, n0, p0, p1, logger.pendingRequests,
              logger.requestCounter);
      MirrorJoin(f0, c0, f1, s1, logger.file, logger.console);
      Shift(xs, done, y, prev, After(transport, t, attempt + 1, y));
    }

    /**
      * `_retry`: attempts of the same transfer, each with an id of its own,
      * until a response arrives or three attempts have failed. The last
      * exchange is the one the caller sees; `errors` are the messages p-retry
      * recorded, one per failed attempt.
      */
    method Retry(c: Call, t: Transfer, transport: Transport) returns (x: Exchange, errors: seq<string>)
      requires logger.Valid()
      modifies logger
      ensures var xs := Exchanges(transport, t);
              x == xs[|xs| - 1] && errors == Errors(xs) && RanSince(c, xs)
    {
      ghost var c0, s0, p0, n0 := |logger.console|, logger.console, logger.pendingRequests, logger.requestCounter;
      ghost var f0 := logger.FileBase(logger.clock(logger.clockReads + 2).locale);
      ghost var r0 := logger.clockReads + logger.InitReads();
      ghost var xs := Exchanges(transport, t);
      x := First(c, t, transport);
      var attempt := 1;
      ghost var done := [x];
      assert xs == done + After(transport, t, 1, x);
      errors := if x.Failed? then [x.error] else [];
      ErrorsSnoc([], x);
      assert [] + [x] == done;
      while x.Failed? && attempt < 3
        invariant Progress(transport, t, c, c0, s0, n0, p0, f0, r0, xs, done, attempt, x)
        invariant errors == Errors(done)
        decreases 3 - attempt
      {
        x := Next(c, t, transport, c0, s0, n0, p0, f0, r0, xs, done, attempt, x);
        ErrorsSnoc(done, x);
        if x.Failed? {
          errors := errors + [x.error];
        }
        done := done + [x];
        attempt := attempt + 1;
      }
      assert xs == done;
    }

    /**
      * `_request`: the URL and the options for the method, sent through
      * `_retry`. A response of any status is the result; when every attempt
      * failed, p-retry rejects with its main error.
      */
    method Request(transport: Transport, httpMethod: string, endpoint: string, payload: Value, options: Value)
      returns (r: Result<Response>)
      requires logger.Valid()
      modifies logger
      ensures var xs := Exchanges(transport, TransferOf(baseURL, httpMethod, endpoint, payload, options));
              r == RequestResult(xs) && RanSince(Call(httpMethod, endpoint, baseURL + endpoint, payload), xs)
    {
      var c := Call(httpMethod, endpoint, baseURL + endpoint, payload);
      var t := Dispatch(httpMethod, c.url, payload, BuildRequestOptions(baseURL, httpMethod, payload, options));
      var x, errors := Retry(c, t, transport);
      r := if x.Received? then Ok(Response(x.status, Parse(x.body))) else Err(MainError(errors));
    }

    /** `get`: a GET of the endpoint, the parameters (by default none) as query. */
    method Get(transport: Transport, endpoint: string, params: Value) returns (r: Result<Response>)
      requires logger.Valid()
      modifies logger
      ensures var xs := Exchanges(transport, Transfer.Get(baseURL + endpoint, Defaulted(params)));
              r == RequestResult(xs) && RanSince(Call("GET", endpoint, baseURL + endpoint, Defaulted(params)), xs)
    {
      r := Request(transport, "GET", endpoint, Defaulted(params), Obj(map[]));
    }

    /** `post`: the payload as JSON, or as a form when the options ask for one. */
    method Post(transport: Transport, endpoint: string, payload: Value, options: Value) returns (r: Result<Response>)
      requires logger.Valid()
      modifies logger
      ensures var body := Defaulted(payload);
              var xs := Exchanges(transport,
                          Transfer.Post(baseURL + endpoint, BuildRequestOptions(baseURL, "POST", body, Defaulted(options))));
              r == RequestResult(xs) && RanSince(Call("POST", endpoint, baseURL + endpoint, body), xs)
    {
      r := Request(transport, "POST", endpoint, Defaulted(payload), Defaulted(options));
    }

    /** `put`: as `post`, through the request context's `put`. */
    method Put(transport: Transport, endpoint: string, payload: Value, options: Value) returns (r: Result<Response>)
      requires logger.Valid()
      modifies logger
      ensures var body := Defaulted(payload);
              var xs := Exchanges(transport,
                          Transfer.Put(baseURL + endpoint, BuildRequestOptions(baseURL, "PUT", body, Defaulted(options))));
              r == RequestResult(xs) && RanSince(Call("PUT", endpoint, baseURL + endpoint, body), xs)
    {
      r := Request(transport, "PUT", endpoint, Defaulted(payload), Defaulted(options));
    }

    /** `delete`: as `post`, through the request context's `delete`. */
    method Delete(transport: Transport, endpoint: string, payload: Value, options: Value) returns (r: Result<Response>)
      requires logger.Valid()
      modifies logger
      ensures var body := Defaulted(payload);
              var xs := Exchanges(transport,
                          Transfer.Delete(baseURL + endpoint, BuildRequestOptions(baseURL, "DELETE", body, Defaulted(options))));
              r == RequestResult(xs) && RanSince(Call("DELETE", endpoint, baseURL + endpoint, body), xs)
    {
      r := Request(transport, "DELETE", endpoint, Defaulted(payload), Defaulted(options));
    }

    /**
      * `assertApiResponse`: when any check failed, logs the failures as one
      * ERROR line and throws their texts joined by " | ". When every check
      * holds nothing is logged.
      */
    method AssertApiResponse(response: Response, expStatus: Value, expCode: Value, expMessage: Value)
      returns (thrown: Option<string>)
      requires logger.Valid()
      modifies logger
      ensures logger.Valid()
      ensures var ms := Mismatches(response, expStatus, expCode, expMessage);
              && (thrown.None? <==> ms == [])
              && (thrown.Some? ==> thrown.value == Join(Texts(ms), " | ")
                                   && Wrote(old(logger.console), logger.console,
                                            Event(ERROR, Titled(testTitle, AssertionMessage(thrown.value)))))
      ensures thrown.Some? ==>
                && logger.initialized
                && logger.requestCounter == old(logger.requestCounter)
                && logger.pendingRequests == old(logger.pendingRequests)
                && logger.file == old(logger.FileBase(logger.clock(logger.clockReads + 1).locale))
                                  + Appended(logger.console[old(|logger.console|)..])
                && logger.clockReads == old(logger.clockReads + 1 + logger.InitReads())
      ensures thrown.None? ==> unchanged(logger)
    {
      var errors := Collect(response, expStatus, expCode, expMessage);
      if |errors| > 0 {
        Log(Key(ERROR), AssertionMessage(Join(errors, " | ")));
        KeyRoundTrip(ERROR);
        return Some(Join(errors, " | "));
      }
      return None;
    }
  }
}
