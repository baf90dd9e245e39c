/**
 * The gateway's handlers: the workflow interpreter's methods, proved to
 * compute what the Interpreter functions say with Task states sent through
 * syncFunctionInvoke, and the invocation pipeline of fnInvoke,
 * fnInvokeFunctionWithResult and the HTTP trigger.
 */
module Server {
  import opened Base
  import opened Json
  import opened Workflow
  import opened Interpreter
  import opened Http
  import opened Trigger
  import opened Invoke
  import Decimal

  /** The Invoker a Task state uses: handleTask's outcome as a function of its arguments. */
  function TaskInvoker(store: Store, agent: Agent): Invoker {
    (appName: string, funcName: string, input: string) => TaskResult(store, agent, appName, funcName, input)
  }

  /** The service status fnInvoke's commit uses: the writer's status when positive, else the 200 of a body write. */
  function ServiceStatus(s: int): int {
    if s > 0 then s else 200
  }

  /** Whether resp is a trigger writer that has already committed. */
  predicate Committed(resp: ResponseWriter)
    reads Objects(resp)
  {
    resp.Triggered? && resp.w.committed
  }

  /**
   * What resp shows once fnInvoke has handed it the prepared header map
   * `pre` and the writer's status `s`, and written a body if `wrote`, given
   * how the connection stood before: a plain writer gets both as they are
   * (the status only if positive and nothing was written yet); a trigger
   * writer that had not committed commits them, rewriting the headers and
   * choosing the status, unless neither a status nor a body reached it.
   * The connection counts as written exactly when it was or a body came,
   * and a trigger writer is committed exactly when it was or either came.
   */
  ghost predicate Handed(resp: ResponseWriter, pre: Header, s: int, wrote: bool, wasWritten: bool, oldStatus: int, wasCommitted: bool)
    reads Objects(resp)
  {
    && Sink(resp).written == (wasWritten || wrote)
    && (resp.Triggered? ==> resp.w.committed == (wasCommitted || s > 0 || wrote))
    && (resp.Plain? ==>
          && resp.t.header.m == pre
          && resp.t.status == if s > 0 && !wasWritten then s else oldStatus)
    && (resp.Triggered? && !wasCommitted && (s > 0 || wrote) ==>
          && Rewritten(pre, resp.w.inner.header.m)
          && (!Clash(pre) ==> resp.w.inner.header.m == Outbound(pre))
          && resp.w.inner.status == if wasWritten then oldStatus else FinalStatus(ServiceStatus(s), UserStatus(pre)))
    && (resp.Triggered? && !wasCommitted && s <= 0 && !wrote ==>
          && resp.w.inner.header.m == pre
          && resp.w.inner.status == oldStatus)
  }

  /**
   * What the client's connection shows after a call through a fresh trigger
   * writer, given GetCall's answer and how the connection stood before (its
   * header map m0, status0, written0 and body0).  A failed GetCall returns
   * its error with the headers untouched; a failed Submit returns its error
   * with Fn-Call-Id and the function's headers added but not rewritten.
   * Either way nothing is committed, so the status, the written flag and the
   * body are unchanged.  On success the body is appended; the prepared
   * headers are rewritten and the final status chosen once a positive status
   * or a body commits the writer, and are left as they are otherwise.
   * `committed` is the trigger writer's state afterwards, so the writer is
   * committed exactly when a positive status or a body reached it, and the
   * connection counts as written once a body came.
   */
  ghost predicate TriggerServed(agent: Agent, call: Result<Call>, err: Option<Error>, conn: Transport,
                                m0: Header, status0: int, written0: bool, body0: string, committed: bool)
    reads conn, conn.header
  {
    && (call.Err? ==> err == Some(call.error) && conn.header.m == m0)
    && (call.Ok? && agent.run(call.value).err.Some? ==>
          && err == agent.run(call.value).err
          && conn.header.m == AddValue(m0, CallIdHeader, call.value.id) + agent.run(call.value).headers)
    && (err.Some? ==> conn.body == body0 && conn.status == status0 && conn.written == written0 && !committed)
    && (call.Ok? && agent.run(call.value).err.None? ==>
          var out := agent.run(call.value);
          var pre := Prepared(m0, call.value.id, out, |out.body|);
          && err.None?
          && conn.body == body0 + out.body
          && conn.written == (written0 || out.body != "")
          && committed == (WriterStatus(false, out) > 0 || out.body != "")
          && (WriterStatus(false, out) > 0 || out.body != "" ==>
                && Rewritten(pre, conn.header.m)
                && (!Clash(pre) ==> conn.header.m == Outbound(pre))
                && conn.status == if written0 then status0 else FinalStatus(ServiceStatus(WriterStatus(false, out)), UserStatus(pre)))
          && (WriterStatus(false, out) <= 0 && out.body == "" ==> conn.header.m == pre && conn.status == status0))
  }

  /**
   * The Server: its store, agent and buffer pool, the JSON codec, and the
   * hop-by-hop header names StripHopHeaders removes.
   */
  class Server {
    const store: Store
    const agent: Agent
    const codec: Codec
    const pool: BufferPool
    const hop: set<string>

    constructor(store: Store, agent: Agent, codec: Codec, hop: set<string>)
      ensures this.store == store && this.agent == agent && this.codec == codec && this.hop == hop
      ensures fresh(pool) && pool.free == {}
    {
      this.store := store;
      this.agent := agent;
      this.codec := codec;
      this.hop := hop;
      pool := new BufferPool();
    }

    // -------------------------------------------------------------------------
    // The workflow interpreter
    // -------------------------------------------------------------------------

    /**
     * handleStateMachine: walk from StartAt, threading each state's result
     * into the next state, until an End state or an error.  At most `fuel`
     * transitions are taken, and Parallel branches run with the fuel left.
     */
    method HandleStateMachine(m: StateMachine, input: string, fuel: nat) returns (r: Result<string>)
      modifies pool, pool.free
      ensures r == Run(codec, TaskInvoker(store, agent), fuel, m, input)
      ensures fresh(pool.free - old(pool.free))
      decreases fuel, 0
    {
      ghost var invoke := TaskInvoker(store, agent);
      var current := m.startAt;
      var value := input;
      var steps: nat := fuel;
      while true
        invariant steps <= fuel
        invariant Walk(codec, invoke, steps, m, current, value) == Run(codec, invoke, fuel, m, input)
        invariant fresh(pool.free - old(pool.free))
        decreases steps
      {
        if steps == 0 {
          return Err(StepLimit);
        }
        if current !in m.states {
          return Err(UnknownStateName(current));
        }
        var st := m.states[current];
        ghost var outcome := Dispatch(codec, invoke, steps - 1, st, value);
        assert Walk(codec, invoke, steps, m, current, value)
            == if outcome.Err? then Err(outcome.error)
               else if st.end then outcome
               else Walk(codec, invoke, steps - 1, m, st.next, outcome.value);
        var result: string;
        match KindOf(st.stateType) {
          case Some(Task) =>
            var res := HandleTask(st, value);
            if res.Err? {
              return res;
            }
            result := res.value;
          case Some(Parallel) =>
            assert outcome == RunParallel(codec, invoke, steps - 1, st, value);
            var obj := DecodeObject(codec, value);
            if obj.Err? {
              return Err(obj.error);
            }
            if st.parallelExecution.None? {
              return Err(MissingParallelExecution);
            }
            var pe := st.parallelExecution.value;
            if pe.iterableItemsKey !in obj.value {
              return Err(KeyNotFound(pe.iterableItemsKey));
            }
            var items := obj.value[pe.iterableItemsKey];
            if !items.JArray? {
              return Err(NotAnArray);
            }
            var results, err := HandleParallel(pe.stateMachine, items.items, pe.iterableItemName, steps - 1);
            if err.Some? {
              return Err(err.value);
            }
            result := codec.marshal(SlotsJson(results[..]));
          case None =>
            return Err(UnknownStateType(st.stateType));
        }
        if st.end {
          return Ok(result);
        }
        value := result;
        current := st.next;
        steps := steps - 1;
      }
    }

    /** handleTask: a synthetic POST of the input, sent to the state's app and function. */
    method HandleTask(st: State, input: string) returns (r: Result<string>)
      modifies pool, pool.free
      ensures r == TaskResult(store, agent, st.appName, st.funcName, input)
      ensures fresh(pool.free - old(pool.free))
    {
      var req := GetHTTPRequest(input);
      r := SyncFunctionInvoke(req, st.appName, st.funcName);
    }

    /**
     * handleParallel: run the machine once per item, on an object binding
     * itemName to the item, and collect the results in item order; the error
     * is the one of the last branch that failed.
     */
    method HandleParallel(m: StateMachine, items: seq<Json>, itemName: string, budget: nat)
      returns (results: array<Option<string>>, err: Option<Error>)
      modifies pool, pool.free
      ensures fresh(results)
      ensures results[..] == Slots(Branches(codec, TaskInvoker(store, agent), budget, m, itemName, items))
      ensures err == LastError(Branches(codec, TaskInvoker(store, agent), budget, m, itemName, items))
      ensures fresh(pool.free - old(pool.free))
      decreases budget, 1
    {
      ghost var invoke := TaskInvoker(store, agent);
      results := new Option<string>[|items|](_ => None);
      err := None;
      var i := 0;
      while i < |items|
        invariant 0 <= i <= |items| && results.Length == |items|
        invariant results[..i] == Slots(Branches(codec, invoke, budget, m, itemName, items[..i]))
        invariant err == LastError(Branches(codec, invoke, budget, m, itemName, items[..i]))
        invariant fresh(pool.free - old(pool.free))
      {
        var payload := BranchInput(codec, itemName, items[i]);
        var r := HandleStateMachine(m, payload, budget);
        ghost var done := Branches(codec, invoke, budget, m, itemName, items[..i]);
        assert items[..i + 1][..i] == items[..i];
        assert Branches(codec, invoke, budget, m, itemName, items[..i + 1]) == done + [r];
        results[i] := Slot(r);
        if r.Err? {
          err := Some(r.error);
        }
        assert results[..i + 1] == results[..i] + [Slot(r)];
        i := i + 1;
      }
      assert items[..i] == items;
      assert results[..] == results[..i];
    }

    // -------------------------------------------------------------------------
    // Invocation
    // -------------------------------------------------------------------------

    /**
     * syncFunctionInvoke: resolve the function through the app's http
     * trigger, default the request's URL, give the request fresh headers
     * holding only the method, the URL and the intent, and call the function
     * with that same header map as the response headers.
     */
    method SyncFunctionInvoke(req: Request, appName: string, funcName: string) returns (r: Result<string>)
      modifies req`url, req`header, pool, pool.free
      ensures r == SyncInvoke(store, agent, appName, funcName, old(req.httpMethod),
                              UrlString(DefaultUrl(old(req.url), old(req.tls), old(req.host))), old(req.body))
      ensures ResolveTarget(store, appName, funcName).Err? ==> unchanged(req) && pool.free == old(pool.free)
      ensures var target := ResolveTarget(store, appName, funcName);
              target.Ok? ==>
                var url := UrlString(DefaultUrl(old(req.url), old(req.tls), old(req.host)));
                var headers := TaskHeaders(old(req.httpMethod), url);
                var call := agent.getCall(CallOptions(target.value.app, target.value.fn,
                                                      RequestView(old(req.httpMethod), url, headers, old(req.body)),
                                                      Some(target.value.trigger)));
                && req.url == DefaultUrl(old(req.url), old(req.tls), old(req.host))
                && fresh(req.header)
                && req.header.m == if call.Err? then headers
                                   else AddValue(headers, CallIdHeader, call.value.id) + agent.run(call.value).headers
      ensures fresh(pool.free - old(pool.free))
    {
      var target := ResolveTarget(store, appName, funcName);
      if target.Err? {
        return Err(target.error);
      }
      var t := target.value;
      var requestUrl := ReqURL(req);
      var headers := new HeaderMap(map[]);
      headers.Set(MethodHeader, req.httpMethod);
      headers.Set(RequestUrlHeader, requestUrl);
      headers.Set(IntentHeader, IntentHttpRequest);
      req.header := headers;
      ghost var buf;
      r, buf := FnInvokeFunctionWithResult(headers, req, t.app, t.fn, Some(t.trigger));
    }

    /** getCallOptions. */
    method GetCallOptions(req: Request, app: App, fn: Fn, trig: Option<FnTrigger>) returns (opts: seq<CallOpt>)
      ensures opts == CallOptions(app, fn, View(req), trig)
    {
      opts := [];
      opts := opts + [WithWriter];
      opts := opts + [FromHTTPFnRequest(app, fn, View(req))];
      if HeaderGet(req.header.m, InvokeTypeHeader) == TypeDetached {
        opts := opts + [InvokeDetached];
      }
      if trig.Some? {
        opts := opts + [WithTrigger(trig.value)];
      }
    }

    /**
     * fnInvokeFunctionWithResult: call the function with a buffering writer
     * over `header`, and return what it wrote.  The pooled buffer goes back
     * to the pool on every exit.
     */
    method FnInvokeFunctionWithResult(header: HeaderMap, req: Request, app: App, fn: Fn, trig: Option<FnTrigger>)
      returns (r: Result<string>, ghost buf: Buffer)
      modifies pool, pool.free, header
      ensures r == CallResult(agent, CallOptions(app, fn, old(View(req)), trig))
      ensures buf in pool.free
      ensures fresh(pool.free - old(pool.free))
      ensures var call := agent.getCall(CallOptions(app, fn, old(View(req)), trig));
              header.m == if call.Err? then old(header.m)
                          else AddValue(old(header.m), CallIdHeader, call.value.id) + agent.run(call.value).headers
    {
      ghost var opts0 := CallOptions(app, fn, View(req), trig);
      var b := pool.Get();
      buf := b;
      b.Reset();
      var writer := new ResponseBuffer.Sync(header, b);
      var opts := GetCallOptions(req, app, fn, trig);
      assert opts == opts0;
      var call := agent.getCall(opts);
      if call.Err? {
        pool.Put(b);
        return Err(call.error), b;
      }
      var err := TagAndSubmit(writer, call.value);
      if err.Some? {
        pool.Put(b);
        return Err(err.value), b;
      }
      assert b.data == agent.run(call.value).body;
      r := Ok(b.data);
      pool.Put(b);
    }

    /** Tie the call id to the response, then Submit: Fn-Call-Id is present even when Submit fails. */
    method TagAndSubmit(writer: ResponseBuffer, call: Call) returns (err: Option<Error>)
      modifies writer, writer.headers, writer.buffer
      ensures err == agent.run(call).err
      ensures writer.headers.m == AddValue(old(writer.headers.m), CallIdHeader, call.id) + agent.run(call).headers
      ensures CallIdHeader in writer.headers.m
      ensures writer.status == if writer.buffer != null && agent.run(call).status.Some? then agent.run(call).status.value else old(writer.status)
      ensures writer.buffer != null ==> writer.buffer.data == old(writer.buffer.data) + agent.run(call).body
    {
      writer.Header().Add(CallIdHeader, call.id);
      err := Submit(agent, call, writer);
    }

    /**
     * fnInvoke: call the function with a buffering writer over resp's
     * headers, then hand the result to resp: Content-Length, the status when
     * positive, and (unless detached) the body, after which the buffer goes
     * back to the pool.  No error path, and not the detached path, returns
     * the buffer.
     */
    method FnInvoke(resp: ResponseWriter, req: Request, app: App, fn: Fn, trig: Option<FnTrigger>)
      returns (err: Option<Error>, ghost buf: Buffer)
      modifies pool, pool.free, Objects(resp)
      ensures fresh(pool.free - old(pool.free))
      ensures var opts := CallOptions(app, fn, old(View(req)), trig);
              var call := agent.getCall(opts);
              && (call.Err? ==>
                    && err == Some(call.error)
                    && RespHeader(resp).m == old(RespHeader(resp).m)
                    && buf !in pool.free)
              && (call.Ok? && agent.run(call.value).err.Some? ==>
                    && err == agent.run(call.value).err
                    && RespHeader(resp).m == AddValue(old(RespHeader(resp).m), CallIdHeader, call.value.id) + agent.run(call.value).headers
                    && buf !in pool.free)
      ensures err.Some? ==>
                && Sink(resp).body == old(Sink(resp).body)
                && Sink(resp).status == old(Sink(resp).status)
                && Sink(resp).written == old(Sink(resp).written)
                && Committed(resp) == old(Committed(resp))
      ensures var opts := CallOptions(app, fn, old(View(req)), trig);
              var call := agent.getCall(opts);
              var detached := old(IsDetached(req.header.m));
              call.Ok? && agent.run(call.value).err.None? ==>
                var out := agent.run(call.value);
                var s := WriterStatus(detached, out);
                var pre := Prepared(old(RespHeader(resp).m), call.value.id, out, if detached then 0 else |out.body|);
                && err.None?
                && (buf in pool.free <==> !detached)
                && Sink(resp).body == old(Sink(resp).body) + (if detached then "" else out.body)
                && Handed(resp, pre, s, !detached && out.body != "", old(Sink(resp).written), old(Sink(resp).status), old(Committed(resp)))
    {
      var detached := HeaderGet(req.header.m, InvokeTypeHeader) == TypeDetached;
      var b, writer := Acquire(resp, detached);
      buf := b;
      var opts := GetCallOptions(req, app, fn, trig);
      var call := agent.getCall(opts);
      if call.Err? {
        return Some(call.error), b;
      }
      err := Complete(resp, writer, b, detached, call.value);
    }

    /**
     * fnInvoke once GetCall has succeeded: tie the call id to the response,
     * Submit, and on success hand the result to resp.
     */
    method Complete(resp: ResponseWriter, writer: ResponseBuffer, b: Buffer, detached: bool, call: Call)
      returns (err: Option<Error>)
      requires writer.headers == RespHeader(resp)
      requires writer.buffer == if detached then null else b
      requires writer.status == if detached then 202 else 200
      requires b.data == ""
      modifies pool, Objects(resp), writer, b
      ensures var out := agent.run(call);
              out.err.Some? ==>
                && err == out.err
                && RespHeader(resp).m == AddValue(old(RespHeader(resp).m), CallIdHeader, call.id) + out.headers
                && pool.free == old(pool.free)
                && Sink(resp).body == old(Sink(resp).body)
                && Sink(resp).status == old(Sink(resp).status)
                && Sink(resp).written == old(Sink(resp).written)
                && Committed(resp) == old(Committed(resp))
      ensures var out := agent.run(call);
              out.err.None? ==>
                && err.None?
                && pool.free == (if detached then old(pool.free) else old(pool.free) + {b})
                && Sink(resp).body == old(Sink(resp).body) + (if detached then "" else out.body)
                && Handed(resp, Prepared(old(RespHeader(resp).m), call.id, out, if detached then 0 else |out.body|),
                          WriterStatus(detached, out), !detached && out.body != "",
                          old(Sink(resp).written), old(Sink(resp).status), old(Committed(resp)))
    {
      err := TagAndSubmit(writer, call);
      if err.Some? {
        return;
      }
      ghost var out := agent.run(call);
      assert b.data == if detached then "" else out.body;
      ghost var pre := Prepared(old(RespHeader(resp).m), call.id, out, if detached then 0 else |out.body|);
      Deliver(resp, writer, b, detached, pre, WriterStatus(detached, out));
    }

    /**
     * The rest of fnInvoke after a successful Submit: set Content-Length to
     * the buffer's length, forward the writer's status when positive, and
     * unless detached copy the buffer to resp and put it back in the pool.
     * Copying an empty buffer does not call Write.
     */
    method Deliver(resp: ResponseWriter, writer: ResponseBuffer, b: Buffer, detached: bool, ghost pre: Header, ghost s: int)
      requires writer.headers == RespHeader(resp)
      requires writer.buffer == if detached then null else b
      requires detached ==> writer.status == 202
      requires s == writer.status
      requires pre == RespHeader(resp).m[ContentLengthHeader := [Decimal.Itoa(|b.data|)]]
      modifies pool, Objects(resp)
      ensures pool.free == if detached then old(pool.free) else old(pool.free) + {b}
      ensures Sink(resp).body == old(Sink(resp).body) + (if detached then "" else b.data)
      ensures Handed(resp, pre, s, !detached && b.data != "", old(Sink(resp).written), old(Sink(resp).status), old(Committed(resp)))
    {
      writer.Header().Set(ContentLengthHeader, Decimal.Itoa(|b.data|));
      if writer.Status() > 0 {
        match resp {
          case Plain(t) => t.WriteHeader(writer.Status());
          case Triggered(w) => w.WriteHeader(writer.Status());
        }
      }
      if detached {
        return;
      }
      if b.data != "" {
        match resp {
          case Plain(t) => t.Write(b.data);
          case Triggered(w) => w.Write(b.data);
        }
      }
      pool.Put(b);
    }

    /**
     * ServeHTTPTrigger: strip the hop-by-hop headers from the request in
     * place, give the request the transposed headers plus the method, the
     * defaulted URL and the intent, and invoke the function through a fresh
     * trigger writer around the connection.
     */
    method ServeHTTPTrigger(req: Request, conn: Transport, app: App, fn: Fn, trig: FnTrigger)
      returns (err: Option<Error>, ghost rw: TriggerResponseWriter)
      requires req.header != conn.header
      modifies req`url, req`header, req.header, conn, conn.header, pool, pool.free
      ensures fresh(rw) && rw.inner == conn
      ensures fresh(req.header)
      ensures req.url == DefaultUrl(old(req.url), old(req.tls), old(req.host))
      ensures req.header.m == Inbound(old(req.header.m), hop, old(req.httpMethod), UrlString(req.url))
      ensures !IsDetached(req.header.m)
      ensures fresh(pool.free - old(pool.free))
      ensures var view := RequestView(old(req.httpMethod), UrlString(req.url), req.header.m, old(req.body));
              TriggerServed(agent, agent.getCall(CallOptions(app, fn, view, Some(trig))), err, conn,
                            old(conn.header.m), old(conn.status), old(conn.written), old(conn.body), rw.committed)
    {
      DecorateRequest(req);
      assert View(req) == RequestView(old(req.httpMethod), UrlString(req.url), req.header.m, old(req.body));
      err, rw := ServeTriggered(req, conn, app, fn, trig);
    }

    /**
     * The start of fnInvoke: take a buffer from the pool, reset it, and wrap
     * the response's header map in a detached writer (status 202, no buffer)
     * or a synchronous one (status 200, writing into the buffer).
     */
    method Acquire(resp: ResponseWriter, detached: bool) returns (b: Buffer, writer: ResponseBuffer)
      modifies pool, pool.free
      ensures b !in pool.free && pool.free == old(pool.free) - {b}
      ensures b in old(pool.free) || fresh(b)
      ensures b.data == ""
      ensures fresh(writer)
      ensures writer.headers == RespHeader(resp)
      ensures writer.buffer == if detached then null else b
      ensures writer.status == if detached then 202 else 200
    {
      b := pool.Get();
      b.Reset();
      if detached {
        writer := new ResponseBuffer.Detached(RespHeader(resp));
      } else {
        writer := new ResponseBuffer.Sync(RespHeader(resp), b);
      }
    }

    /**
     * The second half of ServeHTTPTrigger: invoke the function with the
     * decorated request through a fresh trigger writer around the
     * connection, which is never detached.
     */
    method ServeTriggered(req: Request, conn: Transport, app: App, fn: Fn, trig: FnTrigger)
      returns (err: Option<Error>, ghost rw: TriggerResponseWriter)
      requires req.header != conn.header
      requires !IsDetached(req.header.m)
      modifies conn, conn.header, pool, pool.free
      ensures fresh(rw) && rw.inner == conn
      ensures fresh(pool.free - old(pool.free))
      ensures TriggerServed(agent, agent.getCall(CallOptions(app, fn, old(View(req)), Some(trig))), err, conn,
                            old(conn.header.m), old(conn.status), old(conn.written), old(conn.body), rw.committed)
    {
      var writer := new TriggerResponseWriter(conn);
      rw := writer;
      ghost var buf;
      err, buf := FnInvoke(Triggered(writer), req, app, fn, Some(trig));
    }

    /**
     * The first half of ServeHTTPTrigger: strip the hop-by-hop headers in
     * place, transpose the rest, default the URL, and replace the request's
     * headers by the transposed ones plus method, URL and intent.
     */
    method DecorateRequest(req: Request)
      modifies req`url, req`header, req.header
      ensures fresh(req.header)
      ensures req.url == DefaultUrl(old(req.url), old(req.tls), old(req.host))
      ensures req.header.m == Inbound(old(req.header.m), hop, old(req.httpMethod), UrlString(req.url))
      ensures !IsDetached(req.header.m)
      ensures req.httpMethod == old(req.httpMethod) && req.body == old(req.body)
      ensures old(req.header).m == StripHop(old(req.header.m), hop)
    {
      req.header.m := StripHop(req.header.m, hop);
      var headers := TransposeHeaders(req.header.m);
      var requestUrl := ReqURL(req);
      var hm := new HeaderMap(headers);
      hm.Set(MethodHeader, req.httpMethod);
      hm.Set(RequestUrlHeader, requestUrl);
      hm.Set(IntentHeader, IntentHttpRequest);
      req.header := hm;
      InboundNeverDetached(old(req.header.m), hop, req.httpMethod, requestUrl);
      assert HeaderGet(req.header.m, InvokeTypeHeader) == "";
    }

    /**
     * handleTriggerHTTPFunctionCall2: an empty trigger source means "/";
     * resolve the app and the function through the http trigger at that
     * source, default the status to 200 without writing it, and serve the
     * trigger.  A failed lookup leaves the connection untouched.
     */
    method HandleTriggerHTTPFunctionCall(req: Request, conn: Transport, appName: string, source: string)
      returns (err: Option<Error>, ghost rw: TriggerResponseWriter?)
      requires req.header != conn.header
      modifies req`url, req`header, req.header, conn, conn.header, pool, pool.free
      ensures var target := ResolveTarget(store, appName, if source == "" then "/" else source);
              target.Err? ==>
                && err == Some(target.error)
                && rw == null
                && unchanged(req, conn, old(req.header), conn.header)
                && pool.free == old(pool.free)
      ensures var target := ResolveTarget(store, appName, if source == "" then "/" else source);
              target.Ok? ==>
                && rw != null && fresh(rw) && rw.inner == conn
                && req.url == DefaultUrl(old(req.url), old(req.tls), old(req.host))
                && req.header.m == Inbound(old(req.header.m), hop, old(req.httpMethod), UrlString(req.url))
      ensures var target := ResolveTarget(store, appName, if source == "" then "/" else source);
              var view := RequestView(old(req.httpMethod), UrlString(req.url), req.header.m, old(req.body));
              target.Ok? && rw != null ==>
                TriggerServed(agent, agent.getCall(CallOptions(target.value.app, target.value.fn, view, Some(target.value.trigger))),
                              err, conn, old(conn.header.m), if old(conn.written) then old(conn.status) else 200,
                              old(conn.written), old(conn.body), rw.committed)
      ensures fresh(pool.free - old(pool.free))
    {
      var path := if source == "" then "/" else source;
      var target := ResolveTarget(store, appName, path);
      if target.Err? {
        return Some(target.error), null;
      }
      var t := target.value;
      conn.WriteHeader(200);
      err, rw := ServeHTTPTrigger(req, conn, t.app, t.fn, t.trigger);
    }
  }
}
