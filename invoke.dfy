/**
 * The invocation pipeline around the execution agent: the metadata lookups,
 * the ordered call options, the pooled response buffer and the writer that
 * buffers a function's response before it reaches the client.
 *
 * The metadata store and the agent are oracles: total functions from their
 * inputs to a value or an error.
 */
module Invoke {
  import opened Base
  import opened Http
  import opened Trigger
  import Decimal

  const TypeDetached := "detached"
  const InvokeTypeHeader := "Fn-Invoke-Type"
  const ContentLengthHeader := "Content-Length"
  const HttpTriggerType := "http"

  // ---------------------------------------------------------------------------
  // Metadata and the store
  // ---------------------------------------------------------------------------

  datatype App = App(id: string, name: string)
  datatype Fn = Fn(id: string, appID: string)
  datatype FnTrigger = FnTrigger(id: string, fnID: string, appID: string, triggerType: string, source: string)

  /** The read side of the metadata store (lbReadAccess). */
  datatype Store = Store(
    getAppID: string -> Result<string>,
    getAppByID: string -> Result<App>,
    getTriggerBySource: (string, string, string) -> Result<FnTrigger>,
    getFnByID: string -> Result<Fn>)

  /** What a successful lookup sequence yields. */
  datatype Target = Target(appID: string, app: App, trigger: FnTrigger, fn: Fn)

  /**
   * The lookup sequence shared by syncFunctionInvoke and
   * handleTriggerHTTPFunctionCall2: app name to app id, app id to app, the
   * app's http trigger at `source`, and the trigger's function.  The first
   * failing lookup ends the sequence with its error.
   */
  function ResolveTarget(store: Store, appName: string, source: string): (r: Result<Target>)
    ensures r.Ok? ==> store.getAppID(appName) == Ok(r.value.appID)
    ensures r.Ok? ==> store.getAppByID(r.value.appID) == Ok(r.value.app)
    ensures r.Ok? ==> store.getTriggerBySource(r.value.appID, HttpTriggerType, source) == Ok(r.value.trigger)
    ensures r.Ok? ==> store.getFnByID(r.value.trigger.fnID) == Ok(r.value.fn)
    ensures r.Ok? <==>
              && store.getAppID(appName).Ok?
              && store.getAppByID(store.getAppID(appName).value).Ok?
              && store.getTriggerBySource(store.getAppID(appName).value, HttpTriggerType, source).Ok?
              && store.getFnByID(store.getTriggerBySource(store.getAppID(appName).value, HttpTriggerType, source).value.fnID).Ok?
    ensures store.getAppID(appName).Err? ==> r == Err(store.getAppID(appName).error)
    ensures var appID := store.getAppID(appName);
            appID.Ok? && store.getAppByID(appID.value).Err? ==> r == Err(store.getAppByID(appID.value).error)
    ensures var appID := store.getAppID(appName);
            appID.Ok? && store.getAppByID(appID.value).Ok?
            && store.getTriggerBySource(appID.value, HttpTriggerType, source).Err? ==>
              r == Err(store.getTriggerBySource(appID.value, HttpTriggerType, source).error)
    ensures var appID := store.getAppID(appName);
            appID.Ok? && store.getAppByID(appID.value).Ok? ==>
              var trigger := store.getTriggerBySource(appID.value, HttpTriggerType, source);
              trigger.Ok? && store.getFnByID(trigger.value.fnID).Err? ==> r == Err(store.getFnByID(trigger.value.fnID).error)
  {
    match store.getAppID(appName)
    case Err(e) => Err(e)
    case Ok(appID) =>
      match store.getAppByID(appID)
      case Err(e) => Err(e)
      case Ok(app) =>
        match store.getTriggerBySource(appID, HttpTriggerType, source)
        case Err(e) => Err(e)
        case Ok(trigger) =>
          match store.getFnByID(trigger.fnID)
          case Err(e) => Err(e)
          case Ok(fn) => Ok(Target(appID, app, trigger, fn))
  }

  /**
   * A lookup that fails stops the sequence with its own error: when the
   * trigger lookup fails, the function lookup is never consulted.
   */
  lemma {:induction false} ResolveStopsAtFirstFailure(store: Store, appName: string, source: string, fnLookup: string -> Result<Fn>)
    requires store.getAppID(appName).Ok? && store.getAppByID(store.getAppID(appName).value).Ok?
    requires store.getTriggerBySource(store.getAppID(appName).value, HttpTriggerType, source).Err?
    ensures ResolveTarget(store, appName, source)
            == Err(store.getTriggerBySource(store.getAppID(appName).value, HttpTriggerType, source).error)
    ensures ResolveTarget(store.(getFnByID := fnLookup), appName, source) == ResolveTarget(store, appName, source)
  {
  }

  // ---------------------------------------------------------------------------
  // Call options and the agent
  // ---------------------------------------------------------------------------

  /** What the agent reads from the request: method, URL text, headers and body. */
  datatype RequestView = RequestView(httpMethod: string, url: string, header: Header, body: string)

  function View(req: Request): RequestView
    reads req, req.header
  {
    RequestView(req.httpMethod, UrlString(req.url), req.header.m, req.body)
  }

  /** agent.CallOpt, one constructor per option getCallOptions can produce. */
  datatype CallOpt =
    | WithWriter
    | FromHTTPFnRequest(app: App, fn: Fn, req: RequestView)
    | InvokeDetached
    | WithTrigger(trigger: FnTrigger)

  /** Fn-Invoke-Type: detached asks for an asynchronous call. */
  predicate IsDetached(h: Header) {
    HeaderGet(h, InvokeTypeHeader) == TypeDetached
  }

  /** The options getCallOptions builds, in order. */
  function CallOptions(app: App, fn: Fn, req: RequestView, trig: Option<FnTrigger>): seq<CallOpt> {
    [WithWriter, FromHTTPFnRequest(app, fn, req)]
      + (if IsDetached(req.header) then [InvokeDetached] else [])
      + (if trig.Some? then [WithTrigger(trig.value)] else [])
  }

  /**
   * The writer option comes first and the request second; the detached
   * option is there exactly when Fn-Invoke-Type says detached, and comes
   * before the trigger option, which is there exactly when there is a trigger.
   */
  lemma {:induction false} CallOptionsOrder(app: App, fn: Fn, req: RequestView, trig: Option<FnTrigger>)
    ensures var opts := CallOptions(app, fn, req, trig);
            && |opts| == 2 + (if IsDetached(req.header) then 1 else 0) + (if trig.Some? then 1 else 0)
            && opts[0] == WithWriter && opts[1] == FromHTTPFnRequest(app, fn, req)
            && (InvokeDetached in opts <==> IsDetached(req.header))
            && (IsDetached(req.header) ==> opts[2] == InvokeDetached)
            && (trig.Some? ==> opts[|opts| - 1] == WithTrigger(trig.value))
            && (forall t :: WithTrigger(t) in opts <==> trig == Some(t))
  {
    var opts := CallOptions(app, fn, req, trig);
    var tail := if trig.Some? then [WithTrigger(trig.value)] else [];
    assert forall i :: 0 <= i < |tail| ==> tail[i].WithTrigger?;
    if !IsDetached(req.header) {
      assert forall i :: 0 <= i < |opts| ==> opts[i] != InvokeDetached;
    }
  }

  datatype Call = Call(id: string)

  /**
   * What running a call does through its writer: the headers it sets, the
   * status it writes (if any), the body, and Submit's error.
   */
  datatype FnOutput = FnOutput(headers: Header, status: Option<int>, body: string, err: Option<Error>)

  /** The execution agent: GetCall from options, and the outcome of Submit. */
  datatype Agent = Agent(getCall: seq<CallOpt> -> Result<Call>, run: Call -> FnOutput)

  /**
   * fnInvokeFunctionWithResult's outcome: GetCall's error, else Submit's
   * error, else the body the function wrote into the buffer.
   */
  function CallResult(agent: Agent, opts: seq<CallOpt>): (r: Result<string>)
    ensures agent.getCall(opts).Err? ==> r == Err(agent.getCall(opts).error)
    ensures r.Ok? <==> agent.getCall(opts).Ok? && agent.run(agent.getCall(opts).value).err.None?
    ensures r.Ok? ==> r.value == agent.run(agent.getCall(opts).value).body
  {
    match agent.getCall(opts)
    case Err(e) => Err(e)
    case Ok(call) =>
      var out := agent.run(call);
      if out.err.Some? then Err(out.err.value) else Ok(out.body)
  }

  /** The headers syncFunctionInvoke sets on a Task's request, from an empty map. */
  function TaskHeaders(httpMethod: string, url: string): Header {
    map[][MethodHeader := [httpMethod]][RequestUrlHeader := [url]][IntentHeader := [IntentHttpRequest]]
  }

  /**
   * syncFunctionInvoke for a request with the given method, defaulted URL
   * text and body: the lookups, then the call through the app's http trigger.
   */
  function SyncInvoke(store: Store, agent: Agent, appName: string, funcName: string,
                      httpMethod: string, url: string, body: string): Result<string>
  {
    match ResolveTarget(store, appName, funcName)
    case Err(e) => Err(e)
    case Ok(t) =>
      CallResult(agent, CallOptions(t.app, t.fn, RequestView(httpMethod, url, TaskHeaders(httpMethod, url), body), Some(t.trigger)))
  }

  /** The URL text reqURL gives getHTTPRequest's empty URL. */
  const TaskUrl := UrlString(DefaultUrl(Url("", "", "", ""), false, ""))

  /** handleTask: a POST of the input to the app's function, through its http trigger. */
  function TaskResult(store: Store, agent: Agent, appName: string, funcName: string, input: string): Result<string> {
    SyncInvoke(store, agent, appName, funcName, "POST", TaskUrl, input)
  }

  /**
   * A Task's call is never detached, always carries the trigger, and is the
   * agent's answer to exactly those three options; a failed lookup never
   * reaches the agent.
   */
  lemma {:induction false} TaskCallShape(store: Store, agent: Agent, appName: string, funcName: string, input: string)
    ensures ResolveTarget(store, appName, funcName).Err? ==>
              TaskResult(store, agent, appName, funcName, input) == Err(ResolveTarget(store, appName, funcName).error)
    ensures ResolveTarget(store, appName, funcName).Ok? ==>
              var t := ResolveTarget(store, appName, funcName).value;
              var req := RequestView("POST", TaskUrl, TaskHeaders("POST", TaskUrl), input);
              var opts := CallOptions(t.app, t.fn, req, Some(t.trigger));
              && opts == [WithWriter, FromHTTPFnRequest(t.app, t.fn, req), WithTrigger(t.trigger)]
              && TaskResult(store, agent, appName, funcName, input) == CallResult(agent, opts)
  {
    FixedNames();
    var h := TaskHeaders("POST", TaskUrl);
    assert InvokeTypeHeader[3] != MethodHeader[3];
    assert InvokeTypeHeader[3] != RequestUrlHeader[3];
    assert InvokeTypeHeader[5] != IntentHeader[5];
    assert InvokeTypeHeader !in h;
    assert !IsDetached(h);
  }

  // ---------------------------------------------------------------------------
  // The pooled buffer and the buffering writers
  // ---------------------------------------------------------------------------

  /** A bytes.Buffer. */
  class Buffer {
    var data: string

    constructor()
      ensures data == ""
    {
      data := "";
    }

    method Reset()
      modifies this
      ensures data == ""
    {
      data := "";
    }

    method Write(b: string)
      modifies this
      ensures data == old(data) + b
    {
      data := data + b;
    }
  }

  /** bufPool: the buffers currently free for reuse. */
  class BufferPool {
    var free: set<Buffer>

    constructor()
      ensures free == {}
    {
      free := {};
    }

    /** sync.Pool.Get: a free buffer, taken out of the pool, or a new one. */
    method Get() returns (b: Buffer)
      modifies this
      ensures b !in free && free == old(free) - {b}
      ensures b in old(free) || fresh(b)
    {
      if free != {} {
        b :| b in free;
        free := free - {b};
      } else {
        b := new Buffer();
      }
    }

    /** sync.Pool.Put. */
    method Put(b: Buffer)
      modifies this
      ensures free == old(free) + {b}
    {
      free := free + {b};
    }
  }

  /**
   * The ResponseBuffer the agent writes into.  With a buffer it is the
   * syncResponseWriter: it starts at 200, WriteHeader records any code, and
   * the body goes into the buffer.  Without one it is the detached writer:
   * it reports 202, and the body and WriteHeader do not reach the caller.
   * Either way Header() is the response's own header map.
   */
  class ResponseBuffer {
    const headers: HeaderMap
    const buffer: Buffer?
    var status: int

    constructor Sync(headers: HeaderMap, buffer: Buffer)
      ensures this.headers == headers && this.buffer == buffer && status == 200
    {
      this.headers := headers;
      this.buffer := buffer;
      status := 200;
    }

    constructor Detached(headers: HeaderMap)
      ensures this.headers == headers && buffer == null && status == 202
    {
      this.headers := headers;
      buffer := null;
      status := 202;
    }

    function Header(): HeaderMap {
      headers
    }

    function Status(): int
      reads this
    {
      status
    }

    method WriteHeader(code: int)
      modifies this
      ensures status == if buffer != null then code else old(status)
    {
      if buffer != null {
        status := code;
      }
    }

    method Write(b: string)
      modifies buffer
      ensures buffer != null ==> buffer.data == old(buffer.data) + b
    {
      if buffer != null {
        buffer.Write(b);
      }
    }
  }

  /** The status the writer reports once the function has run. */
  function WriterStatus(detached: bool, out: FnOutput): int {
    if detached then 202 else if out.status.Some? then out.status.value else 200
  }

  /**
   * The agent's Submit, seen through the writer: the function's headers land
   * in the shared header map, its status (if any) is written, then its body.
   */
  method Submit(agent: Agent, call: Call, w: ResponseBuffer) returns (err: Option<Error>)
    modifies w, w.headers, w.buffer
    ensures err == agent.run(call).err
    ensures w.headers.m == old(w.headers.m) + agent.run(call).headers
    ensures w.status == if w.buffer != null && agent.run(call).status.Some? then agent.run(call).status.value else old(w.status)
    ensures w.buffer != null ==> w.buffer.data == old(w.buffer.data) + agent.run(call).body
  {
    var out := agent.run(call);
    w.headers.m := w.headers.m + out.headers;
    if out.status.Some? {
      w.WriteHeader(out.status.value);
    }
    w.Write(out.body);
    err := out.err;
  }

  // ---------------------------------------------------------------------------
  // The client-facing writer
  // ---------------------------------------------------------------------------

  /** http.ResponseWriter as fnInvoke receives it: the connection's writer, or the trigger wrapper around it. */
  datatype ResponseWriter = Plain(t: Transport) | Triggered(w: TriggerResponseWriter)

  /** The connection under the writer. */
  function Sink(resp: ResponseWriter): Transport {
    match resp
    case Plain(t) => t
    case Triggered(w) => w.inner
  }

  /** resp.Header(): the connection's header map in both cases. */
  function RespHeader(resp: ResponseWriter): (h: HeaderMap)
    ensures h == Sink(resp).header
  {
    match resp
    case Plain(t) => t.header
    case Triggered(w) => w.inner.header
  }

  /** Everything a write through resp may change. */
  function Objects(resp: ResponseWriter): set<object> {
    match resp
    case Plain(t) => {t, t.header}
    case Triggered(w) => {w, w.inner, w.inner.header}
  }

  /**
   * The response header map fnInvoke hands to the client's writer after a
   * successful Submit: Fn-Call-Id added, the function's headers, then
   * Content-Length set to the buffer's length.
   */
  function Prepared(m: Header, callId: string, out: FnOutput, bufLen: nat): Header {
    (AddValue(m, CallIdHeader, callId) + out.headers)[ContentLengthHeader := [Decimal.Itoa(bufLen)]]
  }

  /**
   * When the response's earlier headers hold no key the commit keeps and the
   * function set no Fn-Call-Id, the prepared map commits as the function's
   * headers with Fn-Call-Id set to the call's id.
   */
  lemma {:induction false} PreparedCommit(m0: Header, id: string, out: FnOutput, bufLen: nat)
    requires forall k :: k in m0 ==> !Kept(k)
    requires CallIdHeader !in out.headers
    ensures Clash(Prepared(m0, id, out, bufLen)) <==> Clash(out.headers[CallIdHeader := [id]])
    ensures Outbound(Prepared(m0, id, out, bufLen)) == Outbound(out.headers[CallIdHeader := [id]])
  {
    var pre := Prepared(m0, id, out, bufLen);
    var b := out.headers[CallIdHeader := [id]];
    FixedNames();
    assert ContentLengthHeader[0] != HeaderPrefix[0];
    assert !Kept(ContentLengthHeader);
    assert pre[CallIdHeader] == [id];
    forall k | Kept(k)
      ensures k in pre <==> k in b
    {
    }
    OutboundKeptOnly(pre, b);
  }

  /**
   * A function that echoes its request headers through a trigger: the
   * commit is ambiguous exactly when the caller sent its own Fn-Call-Id,
   * and otherwise the client gets the caller's headers back (without
   * hop-by-hop ones and an empty name) plus the Fn-Call-Id fnInvoke adds.
   * The response's earlier headers hold no key the commit keeps.
   */
  lemma {:induction false} EchoReachesClient(m0: Header, h: Header, hop: set<string>, httpMethod: string, url: string,
                                             id: string, status: Option<int>, body: string, bufLen: nat)
    requires forall k :: k in m0 ==> !Kept(k)
    ensures var pre := Prepared(m0, id, FnOutput(Inbound(h, hop, httpMethod, url), status, body, None), bufLen);
            Clash(pre) <==> CallIdHeader in h && CallIdHeader !in hop
    ensures var pre := Prepared(m0, id, FnOutput(Inbound(h, hop, httpMethod, url), status, body, None), bufLen);
            CallIdHeader !in h || CallIdHeader in hop ==> Outbound(pre) == Restored(h, hop)[CallIdHeader := [id]]
  {
    var inb := Inbound(h, hop, httpMethod, url);
    FixedNames();
    InboundAt(h, hop, httpMethod, url);
    InboundNoClash(h, hop, httpMethod, url);
    assert CallIdHeader !in inb;
    var cid := HeaderPrefix + CallIdHeader;
    assert cid[|HeaderPrefix|..] == CallIdHeader;
    assert cid in inb <==> CallIdHeader in h && CallIdHeader !in hop by {
      if cid in inb {
        assert OriginalName(cid) == CallIdHeader;
      }
    }
    PreparedCommit(m0, id, FnOutput(inb, status, body, None), bufLen);
    if CallIdHeader !in h || CallIdHeader in hop {
      OutboundCallId(inb, id);
      InboundOutboundRoundTrip(h, hop, httpMethod, url);
    }
  }

  /**
   * What the prepared map holds: Content-Length is the buffer's length in
   * decimal whatever the function set, Fn-Call-Id is present, and every
   * other header the function set is passed on as it set it.
   */
  lemma {:induction false} PreparedHeaders(m: Header, callId: string, out: FnOutput, bufLen: nat)
    requires 0 <= bufLen <= Decimal.IntMax
    ensures ContentLengthHeader in Prepared(m, callId, out, bufLen)
    ensures Decimal.Atoi(Prepared(m, callId, out, bufLen)[ContentLengthHeader][0]) == Some(bufLen)
    ensures CallIdHeader in Prepared(m, callId, out, bufLen)
    ensures CallIdHeader !in out.headers ==> Prepared(m, callId, out, bufLen)[CallIdHeader] == AddValue(m, CallIdHeader, callId)[CallIdHeader]
    ensures forall k :: k in out.headers && k != ContentLengthHeader ==>
              k in Prepared(m, callId, out, bufLen) && Prepared(m, callId, out, bufLen)[k] == out.headers[k]
  {
    Decimal.AtoiItoa(bufLen);
    assert CallIdHeader[0] != ContentLengthHeader[0];
  }
}
