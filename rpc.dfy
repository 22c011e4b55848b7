/** The request-dispatch layer: the three request variants (Call, Notify,
    Cancel), the factory that picks one for a wire message type, the
    positional decode of a request's header, and each variant's Serve, Reply
    and logging behaviour.

    Each `go func()` body is taken to run to completion, in order, straight
    after the synchronous part of its Serve; a request's state belongs to that
    request alone, so for one request this is the behaviour the code has.
 */
module Rpc {
  import opened Protocol

  /** The closed set of request variants. */
  datatype Kind = Call | Notify | Cancel

  /** The wire message type each variant is built for. */
  function Tag(k: Kind): MethodType
  {
    match k
    case Call => MethodCall
    case Notify => MethodNotify
    case Cancel => MethodCancel
  }

  /** The variant newRequest builds for a wire message type; None is Go's nil. */
  function KindOf(mt: MethodType): (k: Option<Kind>)
    ensures k.Some? <==> mt == MethodCall || mt == MethodNotify || mt == MethodCancel
    ensures k.Some? ==> Tag(k.value) == mt
  {
    if mt == MethodCall then Some(Call)
    else if mt == MethodNotify then Some(Notify)
    else if mt == MethodCancel then Some(Cancel)
    else None
  }

  /** The remainingFields count each constructor starts with. */
  function InitialFields(k: Kind): int
  {
    match k
    case Call => 3
    case Notify => 2
    case Cancel => 2
  }

  /** The header slots each constructor declares, in wire order. */
  function HeaderSlots(k: Kind): seq<Slot>
  {
    match k
    case Call => [SeqnoSlot, MethodSlot]
    case Notify => [MethodSlot]
    case Cancel => [SeqnoSlot, MethodSlot]
  }

  /** The part of a request that decoding and serving change: the header
      (seqno, methodName) and the outcome (err, res). */
  datatype Fields = Fields(seqno: int, methodName: string, err: Value, res: Value)

  /** A fresh request's fields: Go's zero values. */
  const Unset := Fields(0, "", Nil, Nil)

  /** One decodeMessage into a header slot: a value of the slot's kind is
      stored there; anything else leaves the fields as they are and fails. */
  function DecodeSlot(f: Fields, slot: Slot, w: WireResult): (Fields, Error)
  {
    match w
    case Broken(e) => (f, e)
    case Item(v) =>
      match slot
      case SeqnoSlot => if v.Int? then (f.(seqno := v.n), NoError) else (f, Mismatch(slot))
      case MethodSlot => if v.Str? then (f.(methodName := v.s), NoError) else (f, Mismatch(slot))
  }

  /** Whether a wire result decodes into a slot. */
  predicate Fits(slot: Slot, w: WireResult)
  {
    w.Item? && match slot
               case SeqnoSlot => w.v.Int?
               case MethodSlot => w.v.Str?
  }

  /** The result of decoding a request's header: its fields, the error
      returned, and the decoder's remaining input. */
  datatype HeaderRun = HeaderRun(fields: Fields, err: Error, rest: seq<WireResult>)

  /** decodeIntoRequest as a function: the slots in declared order, stopping at
      the first failure. It never changes the outcome fields, and it reads no
      more values than there are slots. */
  function DecodeHeader(slots: seq<Slot>, input: seq<WireResult>, f: Fields): (o: HeaderRun)
    ensures o.fields.err == f.err && o.fields.res == f.res
    ensures |o.rest| <= |input| && |input| - |o.rest| <= |slots|
    decreases |slots|
  {
    if slots == [] then HeaderRun(f, NoError, input)
    else
      var (f1, e) := DecodeSlot(f, slots[0], Read(input));
      if e != NoError then HeaderRun(f1, e, Rest(input))
      else DecodeHeader(slots[1..], Rest(input), f1)
  }

  /** getArg's result: the argument, the decode error, and the decoder's
      remaining input. */
  datatype ArgRun = ArgRun(arg: Value, err: Error, rest: seq<WireResult>)

  /** getArg as a function: the argument is decoded into the container
      MakeArg returns; on failure the container is returned as it was. */
  function ArgOf(zeroArg: Value, input: seq<WireResult>): ArgRun
  {
    match Read(input)
    case Item(v) => ArgRun(v, NoError, Rest(input))
    case Broken(e) => ArgRun(zeroArg, e, Rest(input))
  }

  /** The log calls LogInvocation makes for each variant. */
  function InvocationEvents(k: Kind, f: Fields, err: Error, arg: Value): seq<Event>
  {
    match k
    case Call => [ServerCall(f.seqno, f.methodName, err, arg)]
    case Notify => [ServerNotifyCall(f.methodName, err, arg)]
    case Cancel => [ServerCancelCall(f.seqno, f.methodName)]
  }

  /** The log calls LogCompletion makes for each variant. */
  function CompletionEvents(k: Kind, f: Fields, err: Error): seq<Event>
  {
    match k
    case Call => [ServerReply(f.seqno, f.methodName, err, f.res)]
    case Notify => [ServerNotifyComplete(f.methodName, err)]
    case Cancel => []
  }

  /** The tuple a Call's reply encodes. */
  function ReplyFrame(f: Fields): seq<Value>
  {
    [Int(MethodResponse), Int(f.seqno), f.err, f.res]
  }

  /** The encoder and log calls Reply makes, given what the encoder returns. */
  function ReplyEvents(k: Kind, f: Fields, encodeErr: Error): seq<Event>
  {
    match k
    case Call => [Encode(ReplyFrame(f))] + (if encodeErr != NoError then [Warning(f.seqno, encodeErr)] else [])
    case Notify => []
    case Cancel => []
  }

  /** What Reply returns, given what the encoder returns. */
  function ReplyResult(k: Kind, encodeErr: Error): Error
  {
    if k == Call then encodeErr else NoError
  }

  const CallProfile := "serve %s"
  const NotifyProfile := "serve-notify %s"

  /** The effect of serving a request: its new fields, the calls made on the
      log, profiler, handler and transmitter, and the decoder's remaining input. */
  datatype Served = Served(fields: Fields, events: seq<Event>, rest: seq<WireResult>)

  /** What a goroutine body leaves: the request's fields and the calls it made. */
  datatype Ran = Ran(fields: Fields, events: seq<Event>)

  /** The body of Call's goroutine, given the decoded argument and the decode
      error: on success the handler runs and its wrapped error and result become
      the outcome, otherwise the wrapped decode error does. The completion log
      is given the decode error (the handler's error is bound to a new variable
      that shadows it), then the reply is written. */
  function RunCallSpec(f: Fields, arg: Value, argErr: Error, h: HandlerDescription,
                       wrap: Error -> Value, encodeErr: Error): Ran
  {
    var done := if argErr != NoError then f.(err := wrap(argErr))
                else f.(err := wrap(h.run(arg).err), res := h.run(arg).res);
    Ran(done,
        InvocationEvents(Call, f, argErr, arg)
        + (if argErr == NoError then [HandlerCall(arg)] else [])
        + [StopProfiler(CallProfile, f.methodName)]
        + CompletionEvents(Call, done, argErr)
        + ReplyEvents(Call, done, encodeErr))
  }

  /** Call's Serve: open the profiler, decode the argument, run the body. */
  function ServeCallSpec(f: Fields, input: seq<WireResult>, h: HandlerDescription,
                         wrap: Error -> Value, encodeErr: Error): Served
  {
    var a := ArgOf(h.zeroArg, input);
    var body := RunCallSpec(f, a.arg, a.err, h, wrap, encodeErr);
    Served(body.fields, [StartProfiler(CallProfile, f.methodName)] + body.events, a.rest)
  }

  /** The body of Notify's goroutine: the handler runs only if the argument
      decoded, and the completion log is given the handler's error in that case
      (assigned to the same variable), the decode error otherwise. Nothing is
      replied and the fields are left alone. */
  function RunNotifySpec(f: Fields, arg: Value, argErr: Error, h: HandlerDescription): seq<Event>
  {
    var e := if argErr == NoError then h.run(arg).err else argErr;
    InvocationEvents(Notify, f, argErr, arg)
    + (if argErr == NoError then [HandlerCall(arg)] else [])
    + [StopProfiler(NotifyProfile, f.methodName)]
    + CompletionEvents(Notify, f, e)
  }

  /** Notify's Serve: open the profiler, decode the argument, run the body. */
  function ServeNotifySpec(f: Fields, input: seq<WireResult>, h: HandlerDescription): Served
  {
    var a := ArgOf(h.zeroArg, input);
    Served(f, [StartProfiler(NotifyProfile, f.methodName)] + RunNotifySpec(f, a.arg, a.err, h), a.rest)
  }

  /** Cancel's Serve: only the invocation log. */
  function ServeCancelSpec(f: Fields, input: seq<WireResult>): Served
  {
    Served(f, InvocationEvents(Cancel, f, NoError, Nil), input)
  }

  function ServeSpec(k: Kind, f: Fields, input: seq<WireResult>, h: HandlerDescription,
                     wrap: Error -> Value, encodeErr: Error): Served
  {
    match k
    case Call => ServeCallSpec(f, input, h, wrap, encodeErr)
    case Notify => ServeNotifySpec(f, input, h)
    case Cancel => ServeCancelSpec(f, input)
  }

  /** One request: the message envelope (remainingFields, decodeSlots) and the
      variant's fields. */
  class Request {
    const kind: Kind
    var seqno: int
    var methodName: string
    var err: Value
    var res: Value
    var remainingFields: int
    var decodeSlots: seq<Slot>

    function State(): Fields
      reads this
    {
      Fields(seqno, methodName, err, res)
    }

    /** The envelope has the shape its variant's constructor gives it. */
    predicate Shaped()
      reads this
    {
      remainingFields == InitialFields(kind) && decodeSlots == HeaderSlots(kind)
    }

    constructor NewCall()
      ensures kind == Call && State() == Unset
      ensures remainingFields == 3 && decodeSlots == [SeqnoSlot, MethodSlot]
    {
      kind := Call;
      seqno, methodName, err, res := 0, "", Nil, Nil;
      remainingFields := 3;
      new;
      decodeSlots := [SeqnoSlot, MethodSlot];
    }

    constructor NewNotify()
      ensures kind == Notify && State() == Unset
      ensures remainingFields == 2 && decodeSlots == [MethodSlot]
    {
      kind := Notify;
      seqno, methodName, err, res := 0, "", Nil, Nil;
      remainingFields := 2;
      new;
      decodeSlots := [MethodSlot];
    }

    constructor NewCancel()
      ensures kind == Cancel && State() == Unset
      ensures remainingFields == 2 && decodeSlots == [SeqnoSlot, MethodSlot]
    {
      kind := Cancel;
      seqno, methodName, err, res := 0, "", Nil, Nil;
      remainingFields := 2;
      new;
      decodeSlots := [SeqnoSlot, MethodSlot];
    }

    /** decodeMessage into one header slot of this request. */
    method DecodeMessage(dec: Decoder, slot: Slot) returns (e: Error)
      modifies this, dec
      ensures (State(), e) == DecodeSlot(old(State()), slot, Read(old(dec.pending)))
      ensures dec.pending == Rest(old(dec.pending))
      ensures remainingFields == old(remainingFields) && decodeSlots == old(decodeSlots)
    {
      var w := dec.Next();
      match w
      case Broken(cause) =>
        e := cause;
      case Item(v) =>
        match slot
        case SeqnoSlot =>
          if v.Int? { seqno := v.n; e := NoError; } else { e := Mismatch(slot); }
        case MethodSlot =>
          if v.Str? { methodName := v.s; e := NoError; } else { e := Mismatch(slot); }
    }

    /** getArg: a fresh argument container, decoded from the next wire value. */
    method GetArg(receiver: Decoder, handler: HandlerDescription) returns (arg: Value, e: Error)
      modifies receiver
      ensures ArgRun(arg, e, receiver.pending) == ArgOf(handler.zeroArg, old(receiver.pending))
    {
      arg := handler.zeroArg;
      var w := receiver.Next();
      match w
      case Item(v) =>
        arg, e := v, NoError;
      case Broken(cause) =>
        e := cause;
    }

    method LogInvocation(log: Trace, e: Error, arg: Value)
      modifies log
      ensures log.events == old(log.events) + InvocationEvents(kind, State(), e, arg)
    {
      match kind
      case Call => log.Emit(ServerCall(seqno, methodName, e, arg));
      case Notify => log.Emit(ServerNotifyCall(methodName, e, arg));
      case Cancel => log.Emit(ServerCancelCall(seqno, methodName));
    }

    method LogCompletion(log: Trace, e: Error)
      modifies log
      ensures log.events == old(log.events) + CompletionEvents(kind, State(), e)
    {
      match kind
      case Call => log.Emit(ServerReply(seqno, methodName, e, res));
      case Notify => log.Emit(ServerNotifyComplete(methodName, e));
      case Cancel =>
    }

    /** Reply through the transmitter, whose Encode returns encodeErr; the
        same trace records the transmitter's and the log's calls. */
    method Reply(trace: Trace, encodeErr: Error) returns (e: Error)
      modifies trace
      ensures e == ReplyResult(kind, encodeErr)
      ensures trace.events == old(trace.events) + ReplyEvents(kind, State(), encodeErr)
    {
      match kind
      case Call =>
        trace.Emit(Encode(ReplyFrame(State())));
        e := encodeErr;
        if e != NoError {
          trace.Emit(Warning(seqno, e));
        }
      case Notify =>
        e := NoError;
      case Cancel =>
        e := NoError;
    }

    /** The body of Call's goroutine. */
    method RunCall(trace: Trace, handler: HandlerDescription, wrap: Error -> Value,
                   encodeErr: Error, arg: Value, decodeErr: Error)
      requires kind == Call
      modifies this, trace
      ensures var o := RunCallSpec(old(State()), arg, decodeErr, handler, wrap, encodeErr);
        State() == o.fields && trace.events == old(trace.events) + o.events
      ensures remainingFields == old(remainingFields) && decodeSlots == old(decodeSlots)
    {
      LogInvocation(trace, decodeErr, arg);
      if decodeErr != NoError {
        err := wrap(decodeErr);
      } else {
        trace.Emit(HandlerCall(arg));
        // The handler's error lives in a new variable: `decodeErr` is what
        // the completion log below is given.
        var out := handler.run(arg);
        err := wrap(out.err);
        res := out.res;
      }
      trace.Emit(StopProfiler(CallProfile, methodName));
      LogCompletion(trace, decodeErr);
      var ignored := Reply(trace, encodeErr);
    }

    method ServeCall(receiver: Decoder, trace: Trace, handler: HandlerDescription,
                     wrap: Error -> Value, encodeErr: Error)
      requires kind == Call
      modifies this, receiver, trace
      ensures var o := ServeCallSpec(old(State()), old(receiver.pending), handler, wrap, encodeErr);
        State() == o.fields && trace.events == old(trace.events) + o.events && receiver.pending == o.rest
      ensures remainingFields == old(remainingFields) && decodeSlots == old(decodeSlots)
    {
      trace.Emit(StartProfiler(CallProfile, methodName));
      var arg, e := GetArg(receiver, handler);
      RunCall(trace, handler, wrap, encodeErr, arg, e);
    }

    /** The body of Notify's goroutine. */
    method RunNotify(trace: Trace, handler: HandlerDescription, arg: Value, decodeErr: Error)
      requires kind == Notify
      modifies trace
      ensures trace.events == old(trace.events) + RunNotifySpec(State(), arg, decodeErr, handler)
    {
      // One variable, assigned the handler's error when the handler runs.
      var e := decodeErr;
      LogInvocation(trace, e, arg);
      if e == NoError {
        trace.Emit(HandlerCall(arg));
        e := handler.run(arg).err;
      }
      trace.Emit(StopProfiler(NotifyProfile, methodName));
      LogCompletion(trace, e);
    }

    method ServeNotify(receiver: Decoder, trace: Trace, handler: HandlerDescription)
      requires kind == Notify
      modifies receiver, trace
      ensures var o := ServeNotifySpec(State(), old(receiver.pending), handler);
        trace.events == old(trace.events) + o.events && receiver.pending == o.rest
    {
      trace.Emit(StartProfiler(NotifyProfile, methodName));
      var arg, e := GetArg(receiver, handler);
      RunNotify(trace, handler, arg, e);
    }

    method ServeCancel(trace: Trace)
      requires kind == Cancel
      modifies trace
      ensures trace.events == old(trace.events) + ServeCancelSpec(State(), []).events
    {
      LogInvocation(trace, NoError, Nil);
    }

    /** Serve, dispatched on the variant. */
    method Serve(receiver: Decoder, trace: Trace, handler: HandlerDescription,
                 wrap: Error -> Value, encodeErr: Error)
      modifies this, receiver, trace
      ensures var o := ServeSpec(kind, old(State()), old(receiver.pending), handler, wrap, encodeErr);
        State() == o.fields && trace.events == old(trace.events) + o.events && receiver.pending == o.rest
      ensures remainingFields == old(remainingFields) && decodeSlots == old(decodeSlots)
    {
      match kind
      case Call => ServeCall(receiver, trace, handler, wrap, encodeErr);
      case Notify => ServeNotify(receiver, trace, handler);
      case Cancel => ServeCancel(trace);
    }
  }

  /** newRequest: a fresh request of the variant for the message type, or null. */
  method NewRequest(mt: MethodType) returns (r: Request?)
    ensures r == null <==> KindOf(mt) == None
    ensures r != null ==> fresh(r) && KindOf(mt) == Some(r.kind) && r.State() == Unset && r.Shaped()
  {
    var k := KindOf(mt);
    if k == None {
      r := null;
    } else {
      if k.value == Call {
        r := new Request.NewCall();
      } else if k.value == Notify {
        r := new Request.NewNotify();
      } else {
        r := new Request.NewCancel();
      }
    }
  }

  /** decodeIntoRequest: decode every header slot in declared order, returning
      the first failure. */
  method DecodeIntoRequest(dec: Decoder, r: Request) returns (e: Error)
    modifies dec, r
    ensures var o := DecodeHeader(old(r.decodeSlots), old(dec.pending), old(r.State()));
      e == o.err && r.State() == o.fields && dec.pending == o.rest
    ensures r.remainingFields == old(r.remainingFields) && r.decodeSlots == old(r.decodeSlots)
  {
    var slots := r.decodeSlots;
    var i := 0;
    while i < |slots|
      invariant 0 <= i <= |slots|
      invariant r.decodeSlots == slots && r.remainingFields == old(r.remainingFields)
      invariant DecodeHeader(slots, old(dec.pending), old(r.State()))
                == DecodeHeader(slots[i..], dec.pending, r.State())
    {
      e := r.DecodeMessage(dec, slots[i]);
      if e != NoError {
        return;
      }
      i := i + 1;
    }
    e := NoError;
  }
}
