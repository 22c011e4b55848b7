# Request dispatch of go-framed-msgpack-rpc, modelled in Dafny

This project models the server-side request layer of the framed MessagePack RPC
library (`request.go`). It has four parts:

- **The factory.** `newRequest` picks one of three request variants from the wire
  message type: Call, Notify or Cancel.
- **The constructors.** Each variant's constructor fixes the envelope: a
  `remainingFields` count and an ordered list of header decode slots.
- **The header decode.** `decodeIntoRequest` fills those slots in order and
  returns the first failure.
- **Serving.** Each variant's `Serve`, `Reply`, `LogInvocation` and
  `LogCompletion` say:
  - whether the argument is decoded;
  - whether the handler runs;
  - what ends up in the request's `err` and `res`;
  - which log calls are made;
  - whether a reply is written to the transmitter.

The project has three files:

- `protocol.dfy` (module `Protocol`) holds the collaborators, seen only at their
  interfaces:
  - the message-type tags;
  - dynamically typed values and errors;
  - a positional `Decoder` over a sequence of wire results, each a value or a
    failure;
  - the handler description (`MakeArg`'s empty container and the handler as a
    function);
  - a `Trace` class. Its ghost `events` sequence records every call made on the
    log sink, the profiler, the handler and the transmitter, in order.
- `rpc.dfy` (module `Rpc`) holds the request layer itself:
  - the `Kind` datatype;
  - a `Request` class with the fields the Go struct has: `seqno`, `methodName`,
    `err`, `res`, `remainingFields` and `decodeSlots`;
  - its constructors and methods, plus the `NewRequest` factory and the
    `DecodeIntoRequest` loop;
  - for each method, a pure function stating its effect. `DecodeHeader`,
    `ArgOf`, the event functions and `ServeSpec` are those functions.
- `rpc_properties.dfy` (module `RpcProperties`) proves what the layer promises,
  as lemmas about those functions.

Each method's postcondition ties its new state and its trace to the function of
its old state, so the lemmas carry over to the methods.

Each `go func()` body is modelled as running to completion, in order, straight
after the synchronous part of its `Serve`. The goroutine bodies are the methods
`Request.RunCall` and `Request.RunNotify`. The fields a body changes belong to
that one request, so for a single request this is the behaviour the code has.

Two behaviours of the code are easy to misread, and the model follows the code
in both:

- One might expect Notify's completion log to receive the wrapped handler
  error, as Call's reply does. The code passes it the handler's error exactly
  as the handler returned it (line 124), without wrapping.
- One might expect a failed Call to reply with a zero result. The code sets
  `res` to whatever the handler returned (line 78), whether or not the handler
  failed.

A third point is how the code is written, and the model keeps it as written.
At `request.go:76`, `res, err :=` declares a new `err` that shadows the outer
one. As a result, Call's completion log (line 81) receives the argument-decode
error, not the handler's error. Notify's assignment at line 124 does not shadow,
so Notify's completion log does receive the handler's error.

## Model

| member | source | states |
|---|---|---|
| Rpc.KindOf | request.go:165-175 | a variant exists exactly for MethodCall, MethodNotify and MethodCancel, and the variant's tag is the message type it was built for |
| RpcProperties.FactoryRoundTrip | request.go:165-175 | each variant is built for its own tag |
| Rpc.NewRequest | request.go:165-175 | nil exactly when the message type is none of the three; otherwise a fresh request of the matching variant, with unset fields and its constructor's shape |
| Rpc.Request.NewCall | request.go:29-42 | a Call with remainingFields 3, slots [seqno, method] and zero-valued fields |
| Rpc.Request.NewNotify | request.go:90-102 | a Notify with remainingFields 2, slots [method] and zero-valued fields |
| Rpc.Request.NewCancel | request.go:135-148 | a Cancel with remainingFields 2, slots [seqno, method] and zero-valued fields |
| Rpc.DecodeHeader | request.go:177-185 | decoding a header never touches err or res, and reads no more values than there are slots |
| Rpc.DecodeIntoRequest | request.go:177-185 | the loop returns the error, leaves the fields and leaves the decoder as the in-order, stop-at-first-failure decode says; the envelope is not changed (under the assumption on decodeMessage stated under Left out) |
| Rpc.Request.DecodeMessage | request.go:180 | one decode into a slot stores a value of the slot's kind, or fails and leaves the fields alone; it consumes one wire value |
| RpcProperties.DecodeSlotFits | request.go:180 | a slot decodes with a nil error exactly when the wire value fits it, and a failed decode changes nothing |
| RpcProperties.DecodeSucceedsIff | request.go:177-185 | decodeIntoRequest returns nil if and only if every slot got a value that fits it, and then it has read exactly one value per slot |
| RpcProperties.DecodeStopsAtFirstFailure | request.go:179-182 | when slot i is the first to fail: that slot's error is returned, the fields are exactly as the first i slots left them, and nothing after the i-th value is read |
| RpcProperties.DecodeLeavesOtherSlots | request.go:177-185 | a slot not in the list keeps its value |
| RpcProperties.DecodeStoresValues | request.go:177-185 | on success, with no slot named twice, each slot holds the value decoded for it |
| RpcProperties.HeaderDecodesInto | request.go:177-185 | a successful header decode fills each variant's seqno and method from the first wire values in order; Notify's seqno is left alone |
| RpcProperties.FieldBudget | request.go:29-163 | dispatching a request reads at most its remainingFields values, and exactly that many when the header decodes and the stream has them |
| Rpc.Request.GetArg | request.go:19-23 | the argument is decoded from the next wire value into the container MakeArg produces; on failure that container comes back unfilled, with the error |
| Rpc.Request.LogInvocation | request.go:44-152 | Call logs ServerCall(seqno, method, err, arg), Notify logs ServerNotifyCall(method, err, arg), Cancel logs ServerCancelCall(seqno, method) |
| Rpc.Request.LogCompletion | request.go:48-155 | Call logs ServerReply(seqno, method, err, res), Notify logs ServerNotifyComplete(method, err), Cancel logs nothing |
| Rpc.Request.Reply | request.go:52-159 | the encoder and log calls and the returned error of each variant's Reply |
| RpcProperties.CallReplyContract | request.go:52-64 | Call's Reply encodes [MethodResponse, seqno, err, res] exactly once, returns the encoder's error unchanged, and warns if and only if that error is non-nil |
| RpcProperties.SilentReplies | request.go:112-159 | Notify's and Cancel's Reply make no call and return nil |
| Rpc.Request.RunCall | request.go:71-83 | Call's goroutine body: its trace, new err and new res are what the Call body function gives; the completion log is given the decode error |
| Rpc.Request.ServeCall | request.go:66-84 | Call's Serve opens the profiler, decodes the argument and runs the body |
| Rpc.Request.RunNotify | request.go:121-128 | Notify's goroutine body: the handler runs only on a decoded argument, and the completion log is given the handler's error in that case |
| Rpc.Request.ServeNotify | request.go:116-129 | Notify's Serve opens the profiler, decodes the argument and runs the body, leaving the fields alone |
| Rpc.Request.ServeCancel | request.go:161-163 | Cancel's Serve only logs the cancel |
| Rpc.Request.Serve | request.go:66-163 | Serve of every variant: new fields, trace and remaining input as the variant's function gives them; the envelope is unchanged (under the assumption on decodeMessage stated under Left out) |
| RpcProperties.RunCallSelections | request.go:71-83 | Call's body calls the handler once if the argument decoded and never otherwise, logs one completion carrying the decode error, and writes one reply |
| RpcProperties.CallEventsShape | request.go:66-84 | the same three facts for Call's whole Serve |
| RpcProperties.CallOnDecodeFailure | request.go:73-74 | when the argument fails to decode: the handler is not invoked, err is the wrapped decode error, res is unchanged, and exactly one reply is written |
| RpcProperties.CallOnDecodeSuccess | request.go:75-79 | when the argument decodes: the handler is invoked once on it, err is its wrapped error, res is its result, and exactly one reply is written |
| RpcProperties.CallRepliesAfterCompletion | request.go:80-82 | Call writes exactly one reply, and every completion log comes before every write |
| RpcProperties.CallReplyFrame | request.go:52-84 | the reply a Call writes carries its seqno, and either the wrapped decode error with the untouched res, or the handler's wrapped error and result |
| RpcProperties.CallSuccessReply | request.go:52-84 | with a nil-preserving wrap, a Call whose handler succeeds replies [MethodResponse, seqno, nil, result] |
| RpcProperties.CompletionLogError | request.go:66-155 | the error each completion log receives: Call gets the decode error; Notify gets the handler's error when the argument decoded and the decode error otherwise; Cancel logs no completion |
| RpcProperties.CallCompletionHidesHandlerError | request.go:76-81 | when the argument decodes, Call's completion log reports a nil error even if the handler fails, while err holds the wrapped handler error |
| RpcProperties.NotifyEventsShape | request.go:116-129 | Notify calls the handler only on a decoded argument, never writes, and logs one completion carrying the error its body ends with |
| RpcProperties.NotifyOutcome | request.go:116-129 | Notify leaves the fields unchanged, and the handler is skipped if and only if decoding the argument failed |
| RpcProperties.CancelOnlyLogs | request.go:161-163 | Cancel's Serve is exactly one ServerCancelCall(seqno, method): no profiler, no argument read, no handler, no reply, and no field changed |
| RpcProperties.OnlyCallWrites | request.go:66-163 | a variant's Serve writes to the transmitter if and only if it is a Call |
| RpcProperties.EchoScenario | request.go:66-84 | the Call [7, "echo", "hi"], with an echoing handler and a nil-preserving wrap, decodes seqno 7 and method "echo" and replies [MethodResponse, 7, nil, "hi"] |
| RpcProperties.FailingNotifyScenario | request.go:116-129 | the Notify ["log", arg], whose handler fails, writes nothing and logs one completion carrying the handler's unwrapped error |

## Left out

- Goroutines and scheduling (`go func()` at lines 71 and 121), and the concurrency between requests. Each body is one sequential step right after its Serve. The mutual exclusion on the shared transmitter is an external contract, not code in this file.
- The `Message()` accessor (lines 15-17). The model reads the request's fields directly.
- The `request` interface (lines 3-9). It becomes a closed `Kind` datatype that is matched on.
- The message type, the envelope struct (`message`), the MethodType constants and the `decodeMessage`, `wrapError`, encoder and decoder code are defined in files that are not part of this model:
  - the MethodType values are assumed to be -1 (invalid), 0 (call), 1 (response), 2 (notify) and 3 (cancel);
  - `decodeMessage` is modelled as reading one wire value and checking its kind against the slot.
- Rpc.Request.DecodeMessage: decodeMessage is assumed to leave remainingFields and decodeSlots unchanged; the real one, in a file not modelled, is handed the message (lines 21 and 180) and may decrement remainingFields. The same assumption covers the argument decode in `Rpc.Request.GetArg`. The envelope clauses of `Rpc.DecodeIntoRequest`, `Rpc.Request.ServeCall` and `Rpc.Request.Serve` rest on it.
- Reflection on `interface{}` decode slots. It is replaced by the slot names `SeqnoSlot` and `MethodSlot`, and a value of the wrong kind fails with `Mismatch`.
- `MakeArg`, the handler, `wrapError` and the encoder are parameters:
  - a fixed empty container;
  - a deterministic function from argument to (result, error);
  - an arbitrary function from error to value;
  - the error the encoder returns.

  Nothing assumes `wrapError` maps nil to nil, except the two lemmas that say so in their precondition.
- `Rpc.Request.GetArg`: an argument that fails to decode is returned as the unfilled container. A partial fill by the codec is not modelled.
- Profiler and log formatting. The profiler and the log calls are recorded as events carrying their arguments. Only the two profiler formats are kept, as the constants `CallProfile` and `NotifyProfile`. The Warning format `"Reply error for %d: %s"` (line 61) is not kept, and the `Warning` event carries the error value rather than its rendered message.
- The trace of events is ghost state. It records what is called, not any output.
