# fn gateway: workflow interpreter, HTTP trigger and invocation pipeline

A Dafny model of the core of the fn gateway's synchronous invocation path.
It covers three parts of the gateway.

- **The workflow interpreter.** `handleStateMachine`, `handleTask` and `handleParallel` walk a user-supplied state machine.
  The machine is made of Task states (call one function) and Parallel states (fan an array out over a nested machine and join the results).
  The meaning of a run is given by pure functions in `Interpreter` (`Run`, `Walk`, `Dispatch`, `RunParallel`, `Branches`, `LastError`, `Join`).
  The imperative methods in `Server.Server` are proved to compute exactly those functions.
  A Task state goes through `syncFunctionInvoke` with the store and the agent.
- **The HTTP trigger.** `ServeHTTPTrigger` strips the hop-by-hop headers and renames every other request header to `Fn-Http-H-<name>`.
  `Content-Type` is the exception and keeps its name.
  It then adds the method, the URL and the intent, and calls the function through a `triggerResponseWriter`.
  On its first `WriteHeader` or `Write`, that writer rewrites the function's headers back into real ones and decides the status.
  `Trigger` defines both directions (`Inbound`, `Outbound`, `Rewritten`) and proves the round trip.
- **The invocation pipeline.** `fnInvoke`, `fnInvokeFunctionWithResult` and `getCallOptions` cover four steps:
  - the pooled buffer;
  - the buffering writer (`syncResponseWriter`, or the detached writer);
  - the `Fn-Call-Id` tag;
  - `Content-Length` and the hand-over of status and body to the client.

The datatypes of `api/models/state_machine.go` are in `Workflow`.
`Base` holds `Option`, `Result` and the error cases.
`Json` holds the dynamic JSON values the interpreter inspects.
`Decimal` holds `strconv.Itoa`/`Atoi`.
`Http` holds header maps, requests and the connection's writer.
`Invoke` holds the store, the agent, the call options and the buffering writer.

Go maps are references, so an `http.Header` is a `HeaderMap` object.
`syncFunctionInvoke` hands the same header map to the request and to the writer, and the model keeps that aliasing.
The `http.ResponseWriter` interface has two implementations here: the connection (`Plain`) and the trigger wrapper (`Triggered`).
The `ResponseBuffer` interface is one class; a null buffer stands for the detached writer.

The metadata store (`lbReadAccess`), the execution agent and `encoding/json` are not part of this model.
They are parameters:
- `Store` is four lookups, each returning a value or an error.
- `Agent` is `GetCall` from the option list, plus what running a call does through its writer (headers, optional status, body, error).
- `Codec` is `json.Unmarshal`/`json.Marshal` of a `Json` value.

## Behaviour worth knowing

- **Parallel error.** A failing Parallel state reports the error of the failing branch with the *highest* index: each later error overwrites `err` as `handleParallel` joins (`LastErrorIsHighestFailure`, `ParallelReportsLastFailure`).
- **Parallel output.** The result is `json.Marshal` of a `[]*string`: a JSON array of JSON *strings*, one per branch output (`ParallelJoinsInOrder`).
- **`null` input.** `json.Unmarshal` of `null` into a map succeeds and leaves the map empty. A Parallel state given `null` therefore fails with "required key not found", not with a type error (`DecodeObject`, `ParallelCheckOrder`).
- **Trigger calls are never detached.** The inbound transposition renames a caller's `Fn-Invoke-Type` to `Fn-Http-H-Fn-Invoke-Type` (`InboundNeverDetached`).
- **Content-Length on the trigger path.** The commit keeps only `Fn-Http-H-*`, `Content-Type` and `Fn-Call-Id`, so the `Content-Length` that `fnInvoke` sets is dropped (`ContentLengthOnlyFromFunction`).
- **Header clash.** The outbound rewrite iterates a Go map. If a function sets both `Content-Type` and `Fn-Http-H-Content-Type`, or both `Fn-Call-Id` and `Fn-Http-H-Fn-Call-Id`, map order decides which value wins. `Rewritten` admits every such outcome, and `RewrittenIsOutbound` pins the result down when there is no clash.
- **Pool on error paths.** `fnInvokeFunctionWithResult` puts its buffer back with `defer`, on error paths too (`FnInvokeFunctionWithResult` ensures `buf in pool.free`). `fnInvoke` returns it only after a non-detached success.
- **Detached calls and the pool.** A detached `fnInvoke` still takes a buffer out of the pool and never returns it. Its `Content-Length` is `"0"`, because nothing writes into that buffer.
- **Empty bodies.** `io.Copy` from an empty `bytes.Buffer` does not call `Write`. The synchronous writer starts at status 200, so a function that sets no status still commits the trigger writer through `WriteHeader(200)`. Only a function that explicitly sets a status of 0 or less and writes no body leaves the trigger writer uncommitted: the connection then keeps the prepared headers and its status (`Handed`, `TriggerServed`).
- **Fn-Call-Id on the trigger path.** `fnInvoke` adds `Fn-Call-Id` to the prepared headers, and the commit keeps it, so the client always receives it. If the caller sent its own `Fn-Call-Id`, a function that echoes its headers returns it as `Fn-Http-H-Fn-Call-Id`, which clashes with the added one, and map order decides the value (`EchoReachesClient`).
- **Errors before the commit.** When GetCall or Submit fails, `fnInvoke` returns before touching the client's status or body, so a trigger writer stays uncommitted (`FnInvoke`, `TriggerServed`).

## Model

| member | source | states |
|---|---|---|
| Workflow.KindOf | api/models/state_machine.go:29-32 | the state type is Task exactly when it is the string "Task", Parallel exactly when "Parallel", and unknown otherwise |
| Json.DecodeObject | api/server/runner_httptrigger.go:216-220 | unmarshalling into a map succeeds exactly on an object (giving its fields) or null (giving the empty map); a syntax error gives InvalidJson and any other value NotAnObject |
| Interpreter.Run | api/server/runner_httptrigger.go:201-202 | definition: a run starts at StartAt (the meaning HandleStateMachine is proved to compute) |
| Interpreter.Walk | api/server/runner_httptrigger.go:203-257 | definition: one turn of the loop (lookup, dispatch, End or Next) and the rest of the run, within the fuel |
| Interpreter.Dispatch | api/server/runner_httptrigger.go:208-248 | definition: the switch on the state type |
| Interpreter.RunParallel | api/server/runner_httptrigger.go:214-245 | definition: a Parallel state's four checks, then the join of its branches |
| Interpreter.Branches | api/server/runner_httptrigger.go:271-295 | definition: the branch outcomes in item order |
| Interpreter.LastError | api/server/runner_httptrigger.go:292-299 | definition: the error the join keeps, each later failure overwriting the earlier |
| Interpreter.Join | api/server/runner_httptrigger.go:235-244 | definition: an error drops every result, otherwise the slots are marshalled |
| Interpreter.BranchInput | api/server/runner_httptrigger.go:276-282 | definition: a branch's input, the marshalled object binding the item name to the item |
| Interpreter.TransitionRules | api/server/runner_httptrigger.go:249-253 | at an existing state, a failure ends the run with that failure, an End state returns its result whatever Next says, and otherwise the result becomes Next's input |
| Interpreter.DispatchRules | api/server/runner_httptrigger.go:208-247 | a Task state's result is its function's result; any type other than Task and Parallel fails with "unknown state type" |
| Interpreter.UnknownStateFails | api/server/runner_httptrigger.go:254-256 | a name that is not a key of States ends the run with "unknown state name", whatever the functions would do |
| Interpreter.UnknownStartFails | api/server/runner_httptrigger.go:202-204 | a StartAt missing from States fails the run before any function is invoked |
| Interpreter.DanglingNextFails | api/server/runner_httptrigger.go:249-255 | a non-End state whose Next is empty or dangling fails with "unknown state name" once it succeeds, instead of ending the run |
| Interpreter.ParallelCheckOrder | api/server/runner_httptrigger.go:215-234 | a Parallel state checks, in order: the input decodes to an object, ParallelExecution is set, the items key is present, and it holds an array |
| Interpreter.BranchesAt | api/server/runner_httptrigger.go:271-288 | there is one branch per item, and branch i runs the nested machine on an object binding the item name to item i |
| Interpreter.LastErrorIsHighestFailure | api/server/runner_httptrigger.go:290-301 | the join reports no error exactly when every branch succeeded, and otherwise the error of the highest-index failing branch |
| Interpreter.LastErrorAt | api/server/runner_httptrigger.go:293-299 | if branch i fails and every later branch succeeds, the join's error is branch i's |
| Interpreter.ParallelJoinsInOrder | api/server/runner_httptrigger.go:235-244 | when every branch succeeds, the Parallel output is a JSON array holding branch i's output as a string at index i, whatever the finishing order |
| Interpreter.ParallelReportsLastFailure | api/server/runner_httptrigger.go:235-238 | if branch k fails and all later branches succeed, the Parallel state fails with branch k's error and discards every result |
| Interpreter.FuelMonotone | api/server/runner_httptrigger.go:203-257 | any outcome other than the step limit is final: with more fuel the run gives the same result |
| Interpreter.WalkMonotone | api/server/runner_httptrigger.go:203-256 | one turn of the loop and the rest of the run are unchanged by more fuel unless they hit the step limit |
| Interpreter.DispatchMonotone | api/server/runner_httptrigger.go:208-248 | the switch on the state type is unchanged by more fuel unless it hits the step limit |
| Interpreter.ParallelMonotone | api/server/runner_httptrigger.go:214-245 | a Parallel state's outcome is unchanged by more fuel unless it hits the step limit |
| Interpreter.BranchesMonotone | api/server/runner_httptrigger.go:271-299 | every branch outcome other than the step limit is unchanged by more fuel |
| Interpreter.MockRunEchoes | api/server/runner_httptrigger.go:176-195 | the shipped two-state example (start, then end) returns its input when its functions echo their input |
| Decimal.Itoa | api/server/runner_fninvoke.go:936 | definition: strconv.Itoa, a minus sign for negatives then the digits without leading zeros; AtoiItoa reads it back |
| Decimal.DigitChar | api/server/runner_fninvoke.go:936 | the digit character of d is a decimal digit whose value is d |
| Decimal.NatToString | api/server/runner_fninvoke.go:936 | the decimal text of a natural number is non-empty and made of digits only |
| Decimal.DigitsValueOfNat | api/server/runner_fninvoke.go:936 | reading the decimal text of n back gives n |
| Decimal.Atoi | api/server/runner_httptrigger.go:498 | strconv.Atoi accepts exactly an optional + or - followed by one or more decimal digits whose signed value fits in a 64-bit int, and returns that value; everything else, the empty string included, is rejected |
| Decimal.AtoiItoa | api/server/runner_httptrigger.go:498 | Atoi of Itoa(n) is n for every n in the int range |
| Http.HeaderGet | api/server/runner_fninvoke.go:910 | Header.Get is the key's first value, or "" when the key is absent or has no values |
| Http.AddValue | api/server/runner_fninvoke.go:928 | Header.Add appends the value to the key's list, keeps the earlier values, and leaves every other key unchanged |
| Http.HeaderMap.Add | api/server/runner_fninvoke.go:928 | adding to a shared header map leaves it as AddValue says |
| Http.HeaderMap.Set | api/server/runner_fninvoke.go:936 | Set replaces the key's list by the single value |
| Http.DefaultUrl | api/server/runner_httptrigger.go:527-537 | an empty scheme becomes https exactly on TLS and http otherwise, an empty host becomes the request's Host, and nothing else changes |
| Http.ReqURL | api/server/runner_httptrigger.go:527-539 | reqURL defaults the request's URL in place and returns that URL's text; its frame is the URL field alone |
| Http.GetHTTPRequest | api/server/runner_httptrigger.go:304-327 | the synthetic request is a POST over HTTP/1.1 with the payload as body and its length as content length, no host, no TLS and empty headers |
| Http.Transport.WriteHeader | api/server/runner_httptrigger.go:524 | the connection takes a positive status only until its body has started |
| Http.Transport.Write | api/server/runner_fninvoke.go:949 | a body write appends to the client's body and marks the response as written |
| Trigger.Inbound | api/server/runner_httptrigger.go:546-564 | definition: the function's request headers, the stripped and transposed caller headers with method, URL and intent Set over them |
| Trigger.Outbound | api/server/runner_httptrigger.go:489-514 | definition: the committed header map when no two kept keys feed one name |
| Trigger.UserStatus | api/server/runner_httptrigger.go:496-502 | definition: the first Fn-Http-Status value when Atoi accepts it, else 0 |
| Trigger.Transposed | api/server/runner_httptrigger.go:551-558 | definition: the request headers with every name but Content-Type given the Fn-Http-H- prefix, values kept |
| Trigger.Rewritten | api/server/runner_httptrigger.go:489-514 | definition: the header maps the commit loop can produce in some map order: exactly the kept names, each with the values of one key feeding it |
| Trigger.Prefixed | api/server/runner_httptrigger.go:551-558 | every request header but Content-Type gets the Fn-Http-H- prefix, and the caller's name can be recovered from the new one |
| Trigger.TransposedAt | api/server/runner_httptrigger.go:551-558 | the transposed map holds each header under its new name with its values, and nothing else |
| Trigger.TransposeHeaders | api/server/runner_httptrigger.go:546-558 | the transposing loop, in any visiting order, builds exactly the transposed map |
| Trigger.FinalStatus | api/server/runner_httptrigger.go:517-522 | a service status of 400 or more wins, then a positive user status, then 200; the result is an error status exactly when either input is |
| Trigger.RewriteHeaders | api/server/runner_httptrigger.go:486-506 | the first commit loop yields one of the possible rewrites (exactly the kept names, each with the values of a key feeding it), the unique one when nothing clashes, and the user status read from Fn-Http-Status |
| Trigger.RewrittenIsOutbound | api/server/runner_httptrigger.go:489-514 | without a clash there is only one possible rewrite |
| Trigger.TriggerResponseWriter.WriteHeader | api/server/runner_httptrigger.go:480-525 | the first call rewrites the live header map and sets the final status; later calls change nothing |
| Trigger.TriggerResponseWriter.Write | api/server/runner_httptrigger.go:473-478 | a write before any commit first commits with service status 200, and then appends the body |
| Trigger.InboundKeys | api/server/runner_httptrigger.go:546-564 | a function called through a trigger sees only Content-Type, Fn-Http-H-* and the method, URL and intent headers |
| Trigger.InboundNeverDetached | api/server/runner_httptrigger.go:551-564 | the decorated request never carries Fn-Invoke-Type, so a trigger call is never detached |
| Trigger.InboundAt | api/server/runner_httptrigger.go:546-564 | each non-hop-by-hop caller header reaches the function under its new name with its values, and every other key is one of the three fixed ones |
| Trigger.InboundNoClash | api/server/runner_httptrigger.go:546-564 | the decorated headers never clash on commit and carry no user status |
| Trigger.RoundTripKeeps | api/server/runner_httptrigger.go:489-514 | a caller header with a non-empty name comes back from the commit under its own name with its own values |
| Trigger.RoundTripOnly | api/server/runner_httptrigger.go:489-514 | every name the commit produces from the decorated headers was a non-hop-by-hop caller header with a non-empty name |
| Trigger.InboundOutboundRoundTrip | api/server/runner_httptrigger.go:541-570 | the two translations compose to the caller's headers minus hop-by-hop ones and an empty name: the commit of the decorated headers alone is Restored(h), without a clash and with no user status |
| Trigger.OutboundKeptOnly | api/server/runner_httptrigger.go:489-514 | the commit reads only the keys it keeps: two maps that agree on those keys commit alike |
| Trigger.OutboundCallId | api/server/runner_httptrigger.go:489-514 | setting Fn-Call-Id adds it to the commit under its own name when no Fn-Http-H-Fn-Call-Id competes |
| Trigger.ContentLengthOnlyFromFunction | api/server/runner_httptrigger.go:489-506 | after the commit a real Content-Length exists exactly when the function set Fn-Http-H-Content-Length |
| Invoke.ResolveTarget | api/server/runner_httptrigger.go:424-445 | the sequence succeeds exactly when all four lookups do, and then yields their chain of answers (app id, app, the http trigger at the source, that trigger's function); otherwise it returns the error of the first lookup that fails |
| Invoke.ResolveStopsAtFirstFailure | api/server/runner_httptrigger.go:436-440 | a failed trigger lookup ends the sequence with its own error, and the function lookup is never consulted |
| Invoke.CallOptions | api/server/runner_fninvoke.go:1076-1089 | definition: the option list getCallOptions builds |
| Invoke.Prepared | api/server/runner_fninvoke.go:928-936 | definition: the response headers after the Fn-Call-Id Add, Submit and the Content-Length Set |
| Invoke.SyncInvoke | api/server/runner_httptrigger.go:329-363 | definition: syncFunctionInvoke's outcome, the lookups' first error or the call's result through the app's http trigger |
| Invoke.TaskResult | api/server/runner_httptrigger.go:260-264 | definition: handleTask's outcome, SyncInvoke of a POST of the input to the defaulted empty URL |
| Invoke.TaskHeaders | api/server/runner_httptrigger.go:352-355 | definition: the fresh header map with the method, the URL and the intent Set |
| Invoke.IsDetached | api/server/runner_fninvoke.go:910 | definition: the first Fn-Invoke-Type value is "detached" (the same test getCallOptions makes at line 1081) |
| Invoke.WriterStatus | api/server/runner_fninvoke.go:939 | definition: the status the buffering writer reports after the call: 202 when detached, else the function's status or the initial 200 |
| Invoke.CallOptionsOrder | api/server/runner_fninvoke.go:1076-1089 | the writer option comes first and the request second; the detached option is present exactly when Fn-Invoke-Type says detached, and the trigger option exactly when there is a trigger, last |
| Invoke.CallResult | api/server/runner_fninvoke.go:1054-1073 | the result is GetCall's error, else Submit's error, else exactly the body the function wrote |
| Invoke.TaskCallShape | api/server/runner_httptrigger.go:351-358 | a Task's call carries exactly the writer, the request and the trigger options (it is never detached), and a failed lookup never reaches the agent |
| Invoke.Buffer.Reset | api/server/runner_fninvoke.go:907 | a reset buffer is empty |
| Invoke.Buffer.Write | api/server/runner_fninvoke.go:43 | a buffer write appends |
| Invoke.BufferPool.Get | api/server/runner_fninvoke.go:906 | Get takes a buffer out of the free set, or makes a new one |
| Invoke.BufferPool.Put | api/server/runner_fninvoke.go:950 | Put adds the buffer to the free set |
| Invoke.ResponseBuffer.Sync | api/server/runner_fninvoke.go:914-918 | the synchronous writer shares the response's header map, writes into the buffer and starts at status 200 |
| Invoke.ResponseBuffer.Detached | api/server/runner_fninvoke.go:912 | the detached writer shares the response's header map, has no buffer and reports status 202 |
| Invoke.ResponseBuffer.WriteHeader | api/server/runner_fninvoke.go:49 | the synchronous writer records any code; the detached one keeps 202 |
| Invoke.ResponseBuffer.Write | api/server/runner_fninvoke.go:40-44 | the synchronous writer appends to its buffer |
| Invoke.Submit | api/server/runner_fninvoke.go:930 | Submit's error is the agent's; the function's headers land in the shared header map, its status in the writer and its body in the buffer |
| Invoke.RespHeader | api/server/runner_fninvoke.go:915 | resp.Header() is the connection's header map, whichever writer wraps it |
| Invoke.PreparedHeaders | api/server/runner_fninvoke.go:928-936 | after a successful Submit the response carries the buffer's length as Content-Length (read back by Atoi), a Fn-Call-Id, and every other header the function set |
| Invoke.PreparedCommit | api/server/runner_fninvoke.go:928-941 | when the response held no key the commit keeps and the function set no Fn-Call-Id, the prepared map commits, and clashes, as the function's headers with Fn-Call-Id set to the call's id |
| Invoke.EchoReachesClient | api/server/runner_httptrigger.go:541-570 | a function that echoes its request headers through a trigger: the commit clashes exactly when the caller sent its own Fn-Call-Id, and otherwise the client gets the caller's headers (minus hop-by-hop ones and an empty name) plus the added Fn-Call-Id |
| Server.ServiceStatus | api/server/runner_httptrigger.go:473-476 | definition: the service status a trigger commit receives: the writer's status when positive, else the 200 of a body write |
| Server.Handed | api/server/runner_fninvoke.go:935-951 | definition: what the client's writer shows after the hand-over: a plain writer takes the headers and a positive status, a trigger writer commits by rewriting them and choosing the final status once a positive status or a body reaches it; the written flag and the commit state follow |
| Server.TriggerServed | api/server/runner_httptrigger.go:566-569 | definition: the connection after a call through a fresh trigger writer: each error with the status, written flag and body unchanged and nothing committed, or on success the body appended and the rewrite, final status and commit exactly when a positive status or a body came |
| Server.Server.HandleStateMachine | api/server/runner_httptrigger.go:201-258 | the loop computes exactly Run with the Task states sent through syncFunctionInvoke |
| Server.Server.HandleTask | api/server/runner_httptrigger.go:260-264 | a Task is a synthetic POST of the input to the state's function through its http trigger |
| Server.Server.HandleParallel | api/server/runner_httptrigger.go:266-302 | the slots hold branch i's output (nil on failure) at index i, and the error is the join's |
| Server.Server.SyncFunctionInvoke | api/server/runner_httptrigger.go:329-363 | the outcome is the lookups' first error, or the call's result with the method, the defaulted URL and the body as the request; a failed lookup leaves the request and the pool unchanged, and otherwise the request gets the defaulted URL and a fresh header map, shared with the writer, that ends as the three Task headers plus Fn-Call-Id and the function's headers once GetCall succeeds; only the URL and the header fields are written |
| Server.Server.GetCallOptions | api/server/runner_fninvoke.go:1076-1089 | the options built are CallOptions of the request as it stands |
| Server.Server.FnInvokeFunctionWithResult | api/server/runner_fninvoke.go:1042-1074 | the result is CallResult, the header map gains Fn-Call-Id and the function's headers once GetCall succeeds, and the buffer is back in the pool on every exit |
| Server.Server.TagAndSubmit | api/server/runner_fninvoke.go:927-933 | Fn-Call-Id is added before Submit, so it is present even when Submit fails |
| Server.Server.Acquire | api/server/runner_fninvoke.go:906-919 | a buffer leaves the pool empty, and the writer is detached at 202 or synchronous at 200 over the response's header map |
| Server.Server.FnInvoke | api/server/runner_fninvoke.go:902-952 | a GetCall error leaves the headers alone, a Submit error leaves them with Fn-Call-Id and the function's headers; either error leaves the client's status, written flag, body and commit state untouched and keeps the buffer out of the pool; success hands the prepared headers and status to resp, writes the body unless detached, and returns the buffer exactly when not detached |
| Server.Server.Complete | api/server/runner_fninvoke.go:927-952 | after GetCall: a Submit error leaves the pool, the client's status, written flag, body and commit state alone, and success delivers as FnInvoke states |
| Server.Server.Deliver | api/server/runner_fninvoke.go:935-951 | Content-Length is the buffer's length, a positive status is forwarded, and unless detached the body is copied and the buffer put back |
| Server.Server.DecorateRequest | api/server/runner_httptrigger.go:544-564 | the request's headers become Inbound of the stripped headers with the defaulted URL, and are never detached; only the URL and the header fields of the request are written |
| Server.Server.ServeTriggered | api/server/runner_httptrigger.go:566-569 | through a fresh trigger writer: a GetCall or Submit error is returned with the connection's status, written flag and body unchanged; a successful call reaches the client as a rewrite of the prepared headers with the final status, or untouched when neither status nor body commits |
| Server.Server.ServeHTTPTrigger | api/server/runner_httptrigger.go:543-570 | the request's headers become the decorated ones, only its URL and header fields are written, and the call through a trigger writer has the outcome ServeTriggered states, error paths included |
| Server.Server.HandleTriggerHTTPFunctionCall | api/server/runner_httptrigger.go:415-449 | an empty source means "/"; a failed lookup returns its error with the request, the connection and the pool unchanged and no trigger writer made; otherwise the request is decorated and the trigger is served after status 200 is set, not written, with the outcome TriggerServed states (errors, rewrite, Outbound headers, final status, written flag, commit) |

## Left out

- Goroutines and channels of `handleParallel`: the branches run one after another. The join waits for every branch and keeps item order, so the outcome is the same.
- `handleParallel`'s early `return` when marshalling an item fails: the `Codec` marshal is total. Goroutines already started by such a return are not modelled.
- HandleStateMachine: the Go loop has no bound. A `fuel` count bounds both the transitions and the Parallel nesting depth, and running out gives `StepLimit`. `FuelMonotone` shows that every other outcome is final.
- A nil `*State` in `States`, a nil `input` pointer and `json.Marshal` errors: none of them can occur in the model's types.
- The byte format of JSON: `Codec` stands for `encoding/json`.
- The metadata store and the execution agent are not part of this model; they are parameters.
- ResponseBuffer.Detached: `agent.NewDetachedResponseWriter` is not part of this model. The detached writer is fixed here as reporting 202, ignoring WriteHeader and discarding the body.
- Submit: what a function does through the writer is fixed to one order: headers, then status if any, then body. Its headers are merged over the map (`m + out.headers`), so a key the gateway already set, Fn-Call-Id included, is replaced rather than appended to as `Header().Add` would. PreparedHeaders' Fn-Call-Id clause rests on this choice.
- Deliver: strings stand for Go byte slices, so Content-Length is the character count of the body.
- Http.Transport: gin's writer is not part of this model. It is assumed to take only positive status codes, and to keep its status once the first body byte is written.
- Http.Transport: `net/http` panics on a status code outside 100-999 (a function answering `Fn-Http-Status: 5`, say). The model forwards any positive code.
- Store and Agent errors: an oracle may return any `Error`, including `StepLimit` and the interpreter's own cases. The gateway's own lookup and platform errors take the `Lookup` and `Platform` forms, but nothing restricts the oracles to them.
- FuelMonotone: an agent that itself returns `StepLimit` cannot be told apart from the bound running out, so the lemma says nothing about such outcomes.
- HeaderGet: header names are compared as given. `textproto` canonicalisation of keys is not modelled.
- The call-option closures: each `CallOpt` is a tag, and `FromHTTPFnRequest` holds a snapshot of the request's method, URL, headers and body.
- `common.StripHopHeaders`: the hop-by-hop names are a set given to the server.
- `url.URL.String`: reduced to scheme, host, path and query.
- Logging (`fmt.Print*`) and the opencensus `tag.Upsert` after `ServeHTTPTrigger`: they do not affect results.
- The benchmark, spike, cache and random-invoke handlers in the same files are not part of this model.
- Integer width: statuses and lengths are unbounded. `Atoi` alone keeps Go's 64-bit `int` range, because `Fn-Http-Status` parsing depends on it.
