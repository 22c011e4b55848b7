/** What the request-dispatch layer promises, proved about the functions that
    specify it: the factory, the header decode, each variant's Serve and Reply,
    and two end-to-end scenarios.
 */
module RpcProperties {
  import opened Protocol
  import opened Rpc

  /** The events of a trace that satisfy p, in order. */
  function Select(events: seq<Event>, p: Event -> bool): (r: seq<Event>)
    ensures |r| <= |events|
    ensures forall i :: 0 <= i < |r| ==> p(r[i])
  {
    if events == [] then []
    else (if p(events[0]) then [events[0]] else []) + Select(events[1..], p)
  }

  lemma {:induction false} SelectAppend(a: seq<Event>, b: seq<Event>, p: Event -> bool)
    ensures Select(a + b, p) == Select(a, p) + Select(b, p)
  {
    if a == [] {
      assert a + b == b;
    } else {
      assert (a + b)[1..] == a[1..] + b;
      SelectAppend(a[1..], b, p);
    }
  }

  lemma SelectOne(e: Event, p: Event -> bool)
    ensures Select([e], p) == if p(e) then [e] else []
  {
  }

  predicate IsWrite(e: Event) { e.Encode? }
  predicate IsCompletion(e: Event) { e.ServerReply? || e.ServerNotifyComplete? }
  predicate IsHandlerCall(e: Event) { e.HandlerCall? }
  predicate IsWarning(e: Event) { e.Warning? }

  /** The transmitter writes in a trace. */
  function Writes(events: seq<Event>): seq<Event> { Select(events, IsWrite) }

  /** The value each header slot holds. */
  function SlotValue(f: Fields, slot: Slot): Value
  {
    match slot
    case SeqnoSlot => Int(f.seqno)
    case MethodSlot => Str(f.methodName)
  }

  // ---------------------------------------------------------------- factory

  /** newRequest builds each variant for its own tag: with KindOf's contract,
      the factory is exactly the three known tags, and nil for every other. */
  lemma FactoryRoundTrip(k: Kind)
    ensures KindOf(Tag(k)) == Some(k)
  {
  }

  /** Every request reads exactly its remainingFields values when the stream has
      them: its header slots, plus the argument for Call and Notify. It never
      reads more, whatever the stream holds. */
  lemma FieldBudget(k: Kind, f: Fields, input: seq<WireResult>, h: HandlerDescription,
                    wrap: Error -> Value, encodeErr: Error)
    ensures var hd := DecodeHeader(HeaderSlots(k), input, f);
            var s := ServeSpec(k, hd.fields, hd.rest, h, wrap, encodeErr);
            |s.rest| <= |input| && |input| - |s.rest| <= InitialFields(k) &&
            (hd.err == NoError && |input| >= InitialFields(k) ==> |input| - |s.rest| == InitialFields(k))
  {
  }

  // ---------------------------------------------------------- header decode

  /** A header slot decodes exactly when the wire value fits it. */
  lemma DecodeSlotFits(f: Fields, slot: Slot, w: WireResult)
    ensures DecodeSlot(f, slot, w).1 == NoError <==> Fits(slot, w)
    ensures !Fits(slot, w) ==> DecodeSlot(f, slot, w).0 == f
  {
  }

  /** decodeIntoRequest returns nil exactly when every slot got a value that
      fits it, and then it has read one value per slot and no more. */
  lemma {:induction false} DecodeSucceedsIff(slots: seq<Slot>, input: seq<WireResult>, f: Fields)
    ensures DecodeHeader(slots, input, f).err == NoError <==>
            (|slots| <= |input| && forall i :: 0 <= i < |slots| ==> Fits(slots[i], input[i]))
    ensures DecodeHeader(slots, input, f).err == NoError ==>
            |slots| <= |input| && DecodeHeader(slots, input, f).rest == input[|slots|..]
    decreases |slots|
  {
    if slots != [] {
      var (f1, e) := DecodeSlot(f, slots[0], Read(input));
      DecodeSlotFits(f, slots[0], Read(input));
      DecodeSucceedsIff(slots[1..], Rest(input), f1);
      if input != [] {
        assert Rest(input) == input[1..];
        forall i | 0 <= i < |slots| - 1 && i < |input| - 1
          ensures slots[1..][i] == slots[i + 1] && input[1..][i] == input[i + 1]
        {
        }
        if e == NoError && DecodeHeader(slots, input, f).err == NoError {
          assert input[1..][|slots| - 1..] == input[|slots|..];
        }
      }
    }
  }

  /** If slot i is the first that fails, decodeIntoRequest returns that slot's
      error, the fields are as the first i slots left them (no later slot is
      written), and it has read nothing past the i-th value. */
  lemma {:induction false} DecodeStopsAtFirstFailure(slots: seq<Slot>, input: seq<WireResult>, f: Fields, i: nat)
    requires i < |slots| && i <= |input|
    requires forall j :: 0 <= j < i ==> Fits(slots[j], input[j])
    requires !Fits(slots[i], Read(input[i..]))
    ensures var o := DecodeHeader(slots, input, f);
            var before := DecodeHeader(slots[..i], input, f);
            o.err == DecodeSlot(f, slots[i], Read(input[i..])).1 && o.err != NoError &&
            o.fields == before.fields && o.rest == Rest(input[i..])
    decreases i
  {
    var (f1, e) := DecodeSlot(f, slots[0], Read(input));
    DecodeSlotFits(f, slots[0], Read(input));
    if i == 0 {
      assert input[0..] == input;
      DecodeSlotFits(f, slots[0], Read(input));
      assert slots[..0] == [];
    } else {
      assert Read(input) == input[0];
      assert Rest(input) == input[1..];
      assert slots[1..][..i - 1] == slots[..i][1..];
      assert input[1..][i - 1..] == input[i..];
      forall j | 0 <= j < i - 1 ensures Fits(slots[1..][j], input[1..][j]) {
        assert slots[1..][j] == slots[j + 1] && input[1..][j] == input[j + 1];
      }
      DecodeStopsAtFirstFailure(slots[1..], input[1..], f1, i - 1);
      assert slots[..i][0] == slots[0];
    }
  }

  /** A slot the list does not name keeps its value. */
  lemma {:induction false} DecodeLeavesOtherSlots(slots: seq<Slot>, input: seq<WireResult>, f: Fields, s: Slot)
    requires s !in slots
    ensures SlotValue(DecodeHeader(slots, input, f).fields, s) == SlotValue(f, s)
    decreases |slots|
  {
    if slots != [] {
      var (f1, e) := DecodeSlot(f, slots[0], Read(input));
      assert SlotValue(f1, s) == SlotValue(f, s);
      if e == NoError {
        assert s !in slots[1..];
        DecodeLeavesOtherSlots(slots[1..], Rest(input), f1, s);
      }
    }
  }

  /** Distinct slots: the first is not among the rest, and the rest are distinct. */
  lemma DistinctTail(slots: seq<Slot>)
    requires slots != []
    requires forall i, j :: 0 <= i < j < |slots| ==> slots[i] != slots[j]
    ensures slots[0] !in slots[1..]
    ensures forall i, j :: 0 <= i < j < |slots[1..]| ==> slots[1..][i] != slots[1..][j]
  {
  }

  /** On success each slot holds the value decoded for it, provided no slot is
      named twice (true of every variant's header). */
  lemma {:induction false} DecodeStoresValues(slots: seq<Slot>, input: seq<WireResult>, f: Fields)
    requires forall i, j :: 0 <= i < j < |slots| ==> slots[i] != slots[j]
    requires DecodeHeader(slots, input, f).err == NoError
    ensures |slots| <= |input|
    ensures forall i :: 0 <= i < |slots| ==>
              (input[i].Item? && SlotValue(DecodeHeader(slots, input, f).fields, slots[i]) == input[i].v)
    decreases |slots|
  {
    if slots != [] {
      var step := DecodeSlot(f, slots[0], Read(input));
      var f1 := step.0;
      var o := DecodeHeader(slots, input, f);
      assert o == if step.1 != NoError then HeaderRun(f1, step.1, Rest(input))
                  else DecodeHeader(slots[1..], Rest(input), f1);
      assert step.1 == NoError;
      DecodeSlotFits(f, slots[0], Read(input));
      assert input != [];
      assert Read(input) == input[0] && Rest(input) == input[1..];
      assert o == DecodeHeader(slots[1..], input[1..], f1);
      DistinctTail(slots);
      DecodeLeavesOtherSlots(slots[1..], input[1..], f1, slots[0]);
      assert SlotValue(f1, slots[0]) == input[0].v;
      DecodeStoresValues(slots[1..], input[1..], f1);
      forall i | 1 <= i < |slots|
        ensures input[i].Item? && SlotValue(o.fields, slots[i]) == input[i].v
      {
        assert slots[1..][i - 1] == slots[i] && input[1..][i - 1] == input[i];
      }
    }
  }

  /** Each variant's header: the values decoded land in seqno and method. */
  lemma HeaderDecodesInto(k: Kind, input: seq<WireResult>, f: Fields)
    requires DecodeHeader(HeaderSlots(k), input, f).err == NoError
    ensures var o := DecodeHeader(HeaderSlots(k), input, f);
            match k
            case Notify => |input| >= 1 && input[0] == Item(Str(o.fields.methodName)) && o.fields.seqno == f.seqno
            case _ => |input| >= 2 && input[0] == Item(Int(o.fields.seqno)) && input[1] == Item(Str(o.fields.methodName))
  {
    var slots := HeaderSlots(k);
    DecodeStoresValues(slots, input, f);
    if k == Notify {
      DecodeLeavesOtherSlots(slots, input, f, SeqnoSlot);
    }
  }

  // ------------------------------------------------------------------ serve

  /** Call, argument decode failed: the handler is not invoked, the outcome is
      the wrapped decode error, res is left as it was, and one reply is written. */
  lemma CallOnDecodeFailure(f: Fields, input: seq<WireResult>, h: HandlerDescription,
                            wrap: Error -> Value, encodeErr: Error)
    requires ArgOf(h.zeroArg, input).err != NoError
    ensures var a := ArgOf(h.zeroArg, input);
            var o := ServeSpec(Call, f, input, h, wrap, encodeErr);
            o.fields == f.(err := wrap(a.err)) &&
            Select(o.events, IsHandlerCall) == [] &&
            Writes(o.events) == [Encode(ReplyFrame(o.fields))]
  {
    var a := ArgOf(h.zeroArg, input);
    var o := ServeSpec(Call, f, input, h, wrap, encodeErr);
    CallEventsShape(f, input, h, wrap, encodeErr);
  }

  /** Call, argument decoded: the handler is invoked once on it, and its
      wrapped error and its result become the outcome; one reply is written. */
  lemma CallOnDecodeSuccess(f: Fields, input: seq<WireResult>, h: HandlerDescription,
                            wrap: Error -> Value, encodeErr: Error)
    requires ArgOf(h.zeroArg, input).err == NoError
    ensures var a := ArgOf(h.zeroArg, input);
            var o := ServeSpec(Call, f, input, h, wrap, encodeErr);
            o.fields == f.(err := wrap(h.run(a.arg).err), res := h.run(a.arg).res) &&
            Select(o.events, IsHandlerCall) == [HandlerCall(a.arg)] &&
            Writes(o.events) == [Encode(ReplyFrame(o.fields))]
  {
    CallEventsShape(f, input, h, wrap, encodeErr);
  }

  /** Selecting from six concatenated pieces selects from each. */
  lemma SelectSix(a: seq<Event>, b: seq<Event>, c: seq<Event>, d: seq<Event>, e: seq<Event>, g: seq<Event>,
                  p: Event -> bool)
    ensures Select(a + b + c + d + e + g, p) ==
            Select(a, p) + Select(b, p) + Select(c, p) + Select(d, p) + Select(e, p) + Select(g, p)
  {
    SelectAppend(a + b + c + d + e, g, p);
    SelectAppend(a + b + c + d, e, p);
    SelectAppend(a + b + c, d, p);
    SelectAppend(a + b, c, p);
    SelectAppend(a, b, p);
  }

  /** The body of a Call's goroutine, in pieces. */
  lemma RunCallSplit(f: Fields, arg: Value, argErr: Error, h: HandlerDescription,
                     wrap: Error -> Value, encodeErr: Error)
    ensures var r := RunCallSpec(f, arg, argErr, h, wrap, encodeErr);
            r.events ==
              [ServerCall(f.seqno, f.methodName, argErr, arg)]
              + (if argErr == NoError then [HandlerCall(arg)] else [])
              + [StopProfiler(CallProfile, f.methodName)]
              + [ServerReply(f.seqno, f.methodName, argErr, r.fields.res)]
              + [Encode(ReplyFrame(r.fields))]
              + (if encodeErr != NoError then [Warning(f.seqno, encodeErr)] else [])
  {
  }

  /** A Call goroutine's trace, selected by p, event by event. */
  lemma RunCallSelect(f: Fields, arg: Value, argErr: Error, h: HandlerDescription,
                      wrap: Error -> Value, encodeErr: Error, p: Event -> bool)
    ensures var r := RunCallSpec(f, arg, argErr, h, wrap, encodeErr);
            var inv := ServerCall(f.seqno, f.methodName, argErr, arg);
            var stop := StopProfiler(CallProfile, f.methodName);
            var done := ServerReply(f.seqno, f.methodName, argErr, r.fields.res);
            var write := Encode(ReplyFrame(r.fields));
            Select(r.events, p) ==
              (if p(inv) then [inv] else [])
              + (if argErr == NoError && p(HandlerCall(arg)) then [HandlerCall(arg)] else [])
              + (if p(stop) then [stop] else [])
              + (if p(done) then [done] else [])
              + (if p(write) then [write] else [])
              + (if encodeErr != NoError && p(Warning(f.seqno, encodeErr)) then [Warning(f.seqno, encodeErr)] else [])
  {
    var r := RunCallSpec(f, arg, argErr, h, wrap, encodeErr);
    var inv := ServerCall(f.seqno, f.methodName, argErr, arg);
    var run: seq<Event> := if argErr == NoError then [HandlerCall(arg)] else [];
    var stop := StopProfiler(CallProfile, f.methodName);
    var done := ServerReply(f.seqno, f.methodName, argErr, r.fields.res);
    var write := Encode(ReplyFrame(r.fields));
    var warn: seq<Event> := if encodeErr != NoError then [Warning(f.seqno, encodeErr)] else [];
    RunCallSplit(f, arg, argErr, h, wrap, encodeErr);
    SelectSix([inv], run, [stop], [done], [write], warn, p);
    SelectOne(inv, p);
    SelectOne(stop, p);
    SelectOne(done, p);
    SelectOne(write, p);
    SelectOne(HandlerCall(arg), p);
    SelectOne(Warning(f.seqno, encodeErr), p);
  }

  /** The selections of a Call goroutine's trace: the handler call if the
      argument decoded, one completion log carrying the decode error, one write. */
  lemma RunCallSelections(f: Fields, arg: Value, argErr: Error, h: HandlerDescription,
                          wrap: Error -> Value, encodeErr: Error)
    ensures var r := RunCallSpec(f, arg, argErr, h, wrap, encodeErr);
            Select(r.events, IsHandlerCall) == (if argErr == NoError then [HandlerCall(arg)] else []) &&
            Writes(r.events) == [Encode(ReplyFrame(r.fields))] &&
            Select(r.events, IsCompletion) == [ServerReply(f.seqno, f.methodName, argErr, r.fields.res)]
  {
    RunCallSelect(f, arg, argErr, h, wrap, encodeErr, IsHandlerCall);
    RunCallSelect(f, arg, argErr, h, wrap, encodeErr, IsWrite);
    RunCallSelect(f, arg, argErr, h, wrap, encodeErr, IsCompletion);
  }

  /** A Call's whole Serve: the profiler start, then the goroutine's body. */
  lemma CallServeIsBody(f: Fields, input: seq<WireResult>, h: HandlerDescription,
                        wrap: Error -> Value, encodeErr: Error)
    ensures var a := ArgOf(h.zeroArg, input);
            var r := RunCallSpec(f, a.arg, a.err, h, wrap, encodeErr);
            ServeSpec(Call, f, input, h, wrap, encodeErr) ==
              Served(r.fields, [StartProfiler(CallProfile, f.methodName)] + r.events, a.rest)
  {
  }

  /** The selections of a Call's trace. */
  lemma CallEventsShape(f: Fields, input: seq<WireResult>, h: HandlerDescription,
                        wrap: Error -> Value, encodeErr: Error)
    ensures var a := ArgOf(h.zeroArg, input);
            var o := ServeSpec(Call, f, input, h, wrap, encodeErr);
            Select(o.events, IsHandlerCall) == (if a.err == NoError then [HandlerCall(a.arg)] else []) &&
            Writes(o.events) == [Encode(ReplyFrame(o.fields))] &&
            Select(o.events, IsCompletion) == [ServerReply(f.seqno, f.methodName, a.err, o.fields.res)]
  {
    var a := ArgOf(h.zeroArg, input);
    var r := RunCallSpec(f, a.arg, a.err, h, wrap, encodeErr);
    var start := StartProfiler(CallProfile, f.methodName);
    CallServeIsBody(f, input, h, wrap, encodeErr);
    RunCallSelections(f, a.arg, a.err, h, wrap, encodeErr);
    SelectAppend([start], r.events, IsHandlerCall);
    SelectAppend([start], r.events, IsWrite);
    SelectAppend([start], r.events, IsCompletion);
    SelectOne(start, IsHandlerCall);
    SelectOne(start, IsWrite);
    SelectOne(start, IsCompletion);
  }

  /** In a trace made of events that are neither completions nor writes, then
      a completion log and a write, then warnings, every completion log comes
      before every write. */
  lemma CompletionBeforeWrite(before: seq<Event>, done: Event, write: Event, warn: seq<Event>)
    requires forall i :: 0 <= i < |before| ==> !before[i].ServerReply? && !before[i].Encode?
    requires done.ServerReply? && write.Encode?
    requires forall i :: 0 <= i < |warn| ==> warn[i].Warning?
    ensures var ev := before + [done, write] + warn;
            forall i, j :: (0 <= i < |ev| && 0 <= j < |ev| && ev[i].ServerReply? && ev[j].Encode?) ==> i < j
  {
  }

  /** Call writes its reply once, and only after the completion log. */
  lemma CallRepliesAfterCompletion(f: Fields, input: seq<WireResult>, h: HandlerDescription,
                                   wrap: Error -> Value, encodeErr: Error)
    ensures var o := ServeSpec(Call, f, input, h, wrap, encodeErr);
            |Writes(o.events)| == 1 &&
            forall i, j ::
              (0 <= i < |o.events| && 0 <= j < |o.events| && o.events[i].ServerReply? && o.events[j].Encode?) ==> i < j
  {
    var a := ArgOf(h.zeroArg, input);
    var r := RunCallSpec(f, a.arg, a.err, h, wrap, encodeErr);
    var o := ServeSpec(Call, f, input, h, wrap, encodeErr);
    CallEventsShape(f, input, h, wrap, encodeErr);
    CallServeIsBody(f, input, h, wrap, encodeErr);
    RunCallSplit(f, a.arg, a.err, h, wrap, encodeErr);
    var run: seq<Event> := if a.err == NoError then [HandlerCall(a.arg)] else [];
    var before: seq<Event> := [StartProfiler(CallProfile, f.methodName), ServerCall(f.seqno, f.methodName, a.err, a.arg)]
                              + run + [StopProfiler(CallProfile, f.methodName)];
    var warn: seq<Event> := if encodeErr != NoError then [Warning(f.seqno, encodeErr)] else [];
    var done := ServerReply(f.seqno, f.methodName, a.err, r.fields.res);
    var write := Encode(ReplyFrame(r.fields));
    assert o.events == before + [done, write] + warn;
    assert |before| == 3 + |run|;
    assert forall i :: 0 <= i < |before| ==> !before[i].ServerReply? && !before[i].Encode? by {
      forall i | 0 <= i < |before| ensures !before[i].ServerReply? && !before[i].Encode? {
        if i == 2 + |run| { assert before[i] == StopProfiler(CallProfile, f.methodName); }
        else if i >= 2 { assert before[i] == run[i - 2]; }
      }
    }
    CompletionBeforeWrite(before, done, write, warn);
  }

  /** The reply a Call writes: its own seqno, then the wrapped decode error and
      the untouched res, or the handler's wrapped error and result. */
  lemma CallReplyFrame(f: Fields, input: seq<WireResult>, h: HandlerDescription,
                       wrap: Error -> Value, encodeErr: Error)
    ensures var a := ArgOf(h.zeroArg, input);
            var o := ServeSpec(Call, f, input, h, wrap, encodeErr);
            Writes(o.events) ==
              [Encode([Int(MethodResponse), Int(f.seqno),
                       if a.err != NoError then wrap(a.err) else wrap(h.run(a.arg).err),
                       if a.err != NoError then f.res else h.run(a.arg).res])]
  {
    CallEventsShape(f, input, h, wrap, encodeErr);
  }

  /** A successful Call, with a nil-preserving wrap, replies [response, seqno,
      nil, result]. */
  lemma CallSuccessReply(f: Fields, input: seq<WireResult>, h: HandlerDescription,
                         wrap: Error -> Value, encodeErr: Error)
    requires wrap(NoError) == Nil
    requires ArgOf(h.zeroArg, input).err == NoError
    requires h.run(ArgOf(h.zeroArg, input).arg).err == NoError
    ensures var a := ArgOf(h.zeroArg, input);
            Writes(ServeSpec(Call, f, input, h, wrap, encodeErr).events) ==
              [Encode([Int(MethodResponse), Int(f.seqno), Nil, h.run(a.arg).res])]
  {
    CallReplyFrame(f, input, h, wrap, encodeErr);
  }

  /** The error each variant's completion log is given: for Call the decode
      error (the handler's error is shadowed), for Notify the handler's error
      when the argument decoded and the decode error otherwise; Cancel logs no
      completion. */
  lemma CompletionLogError(k: Kind, f: Fields, input: seq<WireResult>, h: HandlerDescription,
                           wrap: Error -> Value, encodeErr: Error)
    ensures var a := ArgOf(h.zeroArg, input);
            var o := ServeSpec(k, f, input, h, wrap, encodeErr);
            Select(o.events, IsCompletion) ==
              match k
              case Call => [ServerReply(f.seqno, f.methodName, a.err, o.fields.res)]
              case Notify => [ServerNotifyComplete(f.methodName, if a.err == NoError then h.run(a.arg).err else a.err)]
              case Cancel => []
  {
    match k
    case Call => CallEventsShape(f, input, h, wrap, encodeErr);
    case Notify => NotifyEventsShape(f, input, h);
    case Cancel =>
  }

  /** When a Call's handler fails, its completion log still reports nil,
      although the reply carries the wrapped handler error. */
  lemma CallCompletionHidesHandlerError(f: Fields, input: seq<WireResult>, h: HandlerDescription,
                                        wrap: Error -> Value, encodeErr: Error)
    requires ArgOf(h.zeroArg, input).err == NoError
    ensures var a := ArgOf(h.zeroArg, input);
            var o := ServeSpec(Call, f, input, h, wrap, encodeErr);
            Select(o.events, IsCompletion) == [ServerReply(f.seqno, f.methodName, NoError, h.run(a.arg).res)] &&
            o.fields.err == wrap(h.run(a.arg).err)
  {
    CallEventsShape(f, input, h, wrap, encodeErr);
  }

  /** A Notify's trace, selected by p: the selections of its pieces. */
  lemma NotifySelect(f: Fields, input: seq<WireResult>, h: HandlerDescription, p: Event -> bool)
    ensures var a := ArgOf(h.zeroArg, input);
            var e := if a.err == NoError then h.run(a.arg).err else a.err;
            Select(ServeNotifySpec(f, input, h).events, p) ==
              Select([StartProfiler(NotifyProfile, f.methodName)], p)
              + Select([ServerNotifyCall(f.methodName, a.err, a.arg)], p)
              + Select(if a.err == NoError then [HandlerCall(a.arg)] else [], p)
              + Select([StopProfiler(NotifyProfile, f.methodName)], p)
              + Select([ServerNotifyComplete(f.methodName, e)], p)
  {
    var a := ArgOf(h.zeroArg, input);
    var e := if a.err == NoError then h.run(a.arg).err else a.err;
    var start := [StartProfiler(NotifyProfile, f.methodName)];
    var inv := [ServerNotifyCall(f.methodName, a.err, a.arg)];
    var run := if a.err == NoError then [HandlerCall(a.arg)] else [];
    var stop := [StopProfiler(NotifyProfile, f.methodName)];
    var done := [ServerNotifyComplete(f.methodName, e)];
    assert ServeNotifySpec(f, input, h).events == start + (inv + run + stop + done);
    SelectAppend(start, inv + run + stop + done, p);
    SelectAppend(inv + run + stop, done, p);
    SelectAppend(inv + run, stop, p);
    SelectAppend(inv, run, p);
  }

  /** The selections of a Notify's trace. */
  lemma NotifyEventsShape(f: Fields, input: seq<WireResult>, h: HandlerDescription)
    ensures var a := ArgOf(h.zeroArg, input);
            var o := ServeNotifySpec(f, input, h);
            Select(o.events, IsHandlerCall) == (if a.err == NoError then [HandlerCall(a.arg)] else []) &&
            Writes(o.events) == [] &&
            Select(o.events, IsCompletion) ==
              [ServerNotifyComplete(f.methodName, if a.err == NoError then h.run(a.arg).err else a.err)]
  {
    NotifySelect(f, input, h, IsHandlerCall);
    NotifySelect(f, input, h, IsWrite);
    NotifySelect(f, input, h, IsCompletion);
  }

  /** Notify leaves the fields alone, and skips the handler when the argument
      fails to decode. */
  lemma NotifyOutcome(f: Fields, input: seq<WireResult>, h: HandlerDescription,
                      wrap: Error -> Value, encodeErr: Error)
    ensures var a := ArgOf(h.zeroArg, input);
            var o := ServeSpec(Notify, f, input, h, wrap, encodeErr);
            o.fields == f && o.rest == a.rest &&
            (Select(o.events, IsHandlerCall) == [] <==> a.err != NoError)
  {
    NotifyEventsShape(f, input, h);
  }

  /** Cancel only logs the cancel: no profiler, no argument read, no handler,
      no reply, nothing changed. */
  lemma CancelOnlyLogs(f: Fields, input: seq<WireResult>, h: HandlerDescription,
                       wrap: Error -> Value, encodeErr: Error)
    ensures ServeSpec(Cancel, f, input, h, wrap, encodeErr) ==
            Served(f, [ServerCancelCall(f.seqno, f.methodName)], input)
  {
  }

  /** Only a Call ever writes to the transmitter. */
  lemma OnlyCallWrites(k: Kind, f: Fields, input: seq<WireResult>, h: HandlerDescription,
                       wrap: Error -> Value, encodeErr: Error)
    ensures Writes(ServeSpec(k, f, input, h, wrap, encodeErr).events) != [] <==> k == Call
  {
    match k
    case Call => CallEventsShape(f, input, h, wrap, encodeErr);
    case Notify => NotifyEventsShape(f, input, h);
    case Cancel =>
  }

  // ------------------------------------------------------------------ reply

  /** Call's Reply encodes the 4-tuple once, returns the encoder's error as it
      is, and warns exactly when that error is non-nil. */
  lemma CallReplyContract(f: Fields, encodeErr: Error)
    ensures var ev := ReplyEvents(Call, f, encodeErr);
            Writes(ev) == [Encode([Int(MethodResponse), Int(f.seqno), f.err, f.res])] &&
            ReplyResult(Call, encodeErr) == encodeErr &&
            (Select(ev, IsWarning) != [] <==> encodeErr != NoError)
  {
    var warn := if encodeErr != NoError then [Warning(f.seqno, encodeErr)] else [];
    SelectAppend([Encode(ReplyFrame(f))], warn, IsWrite);
    SelectAppend([Encode(ReplyFrame(f))], warn, IsWarning);
  }

  /** Notify's and Cancel's Reply do nothing and return nil. */
  lemma SilentReplies(k: Kind, f: Fields, encodeErr: Error)
    requires k != Call
    ensures ReplyEvents(k, f, encodeErr) == [] && ReplyResult(k, encodeErr) == NoError
  {
  }

  // -------------------------------------------------------------- scenarios

  /** A Call with seqno 7 for "echo" on argument "hi", whose handler echoes it,
      replies [response, 7, nil, "hi"]. */
  lemma EchoScenario(h: HandlerDescription, wrap: Error -> Value, encodeErr: Error)
    requires h.run(Str("hi")) == HandlerResult(Str("hi"), NoError)
    requires wrap(NoError) == Nil
    ensures var input := [Item(Int(7)), Item(Str("echo")), Item(Str("hi"))];
            var hd := DecodeHeader(HeaderSlots(Call), input, Unset);
            var o := ServeSpec(Call, hd.fields, hd.rest, h, wrap, encodeErr);
            hd.err == NoError && hd.fields == Fields(7, "echo", Nil, Nil) &&
            Writes(o.events) == [Encode([Int(MethodResponse), Int(7), Nil, Str("hi")])]
  {
    var input := [Item(Int(7)), Item(Str("echo")), Item(Str("hi"))];
    var f1 := Fields(7, "", Nil, Nil);
    var f2 := Fields(7, "echo", Nil, Nil);
    assert Read(input) == Item(Int(7)) && Rest(input) == input[1..];
    assert DecodeSlot(Unset, SeqnoSlot, Item(Int(7))) == (f1, NoError);
    assert Read(input[1..]) == Item(Str("echo")) && Rest(input[1..]) == [Item(Str("hi"))];
    assert DecodeSlot(f1, MethodSlot, Item(Str("echo"))) == (f2, NoError);
    assert [SeqnoSlot, MethodSlot][1..] == [MethodSlot];
    assert DecodeHeader([MethodSlot], input[1..], f1) == DecodeHeader([], [Item(Str("hi"))], f2);
    var hd := DecodeHeader(HeaderSlots(Call), input, Unset);
    assert hd == HeaderRun(f2, NoError, [Item(Str("hi"))]);
    assert ArgOf(h.zeroArg, hd.rest) == ArgRun(Str("hi"), NoError, []);
    CallSuccessReply(hd.fields, hd.rest, h, wrap, encodeErr);
  }

  /** A Notify for "log" whose handler fails writes nothing, and its one
      completion log carries the handler's error as the handler returned it. */
  lemma FailingNotifyScenario(h: HandlerDescription, wrap: Error -> Value, encodeErr: Error)
    requires h.run(Blob(1)) == HandlerResult(Nil, Fault(9))
    ensures var input := [Item(Str("log")), Item(Blob(1))];
            var hd := DecodeHeader(HeaderSlots(Notify), input, Unset);
            var o := ServeSpec(Notify, hd.fields, hd.rest, h, wrap, encodeErr);
            hd.err == NoError && Writes(o.events) == [] &&
            Select(o.events, IsCompletion) == [ServerNotifyComplete("log", Fault(9))]
  {
    var input := [Item(Str("log")), Item(Blob(1))];
    var f1 := Fields(0, "log", Nil, Nil);
    assert Read(input) == Item(Str("log")) && Rest(input) == [Item(Blob(1))];
    assert DecodeSlot(Unset, MethodSlot, Item(Str("log"))) == (f1, NoError);
    assert [MethodSlot][1..] == [];
    var hd := DecodeHeader(HeaderSlots(Notify), input, Unset);
    assert hd == HeaderRun(f1, NoError, [Item(Blob(1))]);
    assert ArgOf(h.zeroArg, hd.rest) == ArgRun(Blob(1), NoError, []);
    NotifyEventsShape(hd.fields, hd.rest, h);
  }
}
