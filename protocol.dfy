/** The collaborators the request-dispatch layer talks to, seen only at their
    interfaces: the wire message-type tags, the values the codec moves, errors,
    the positional decoder, the handler description, and the log/transmitter
    calls recorded as a trace of events.
 */
module Protocol {

  datatype Option<T> = None | Some(value: T)

  /** The wire-level message-type tag (an integer on the wire). */
  type MethodType = int

  const MethodInvalid: MethodType := -1
  const MethodCall: MethodType := 0
  const MethodResponse: MethodType := 1
  const MethodNotify: MethodType := 2
  const MethodCancel: MethodType := 3

  /** A dynamically typed value as the codec sees it (Go's interface{}):
      nil, an integer, a string, or anything else, kept opaque. */
  datatype Value = Nil | Int(n: int) | Str(s: string) | Blob(id: int)

  /** The typed destinations a header decode writes into. */
  datatype Slot = SeqnoSlot | MethodSlot

  /** Go's error: nil, or one of the failures the model distinguishes.
      EndOfStream is what the decoder reports once it has nothing left;
      Mismatch is a wire value of the wrong kind for its destination;
      Fault stands for every other failure of a collaborator. */
  datatype Error = NoError | EndOfStream | Mismatch(slot: Slot) | Fault(code: int)

  /** A non-nil error. */
  type Failure = e: Error | e != NoError witness EndOfStream

  /** What one positional decode yields: a value, or a failure. */
  datatype WireResult = Item(v: Value) | Broken(cause: Failure)

  /** The next result the decoder hands out for a stream of pending results. */
  function Read(pending: seq<WireResult>): WireResult
  {
    if pending == [] then Broken(EndOfStream) else pending[0]
  }

  /** The stream left after one decode: one result is consumed, if any is left. */
  function Rest(pending: seq<WireResult>): seq<WireResult>
  {
    if pending == [] then [] else pending[1..]
  }

  /** The shared, strictly sequential positional decoder. */
  class Decoder {
    var pending: seq<WireResult>

    constructor (input: seq<WireResult>)
      ensures pending == input
    {
      pending := input;
    }

    /** Decodes the next positional value from the stream. */
    method Next() returns (w: WireResult)
      modifies this
      ensures w == Read(old(pending))
      ensures pending == Rest(old(pending))
    {
      if pending == [] {
        w := Broken(EndOfStream);
      } else {
        w := pending[0];
        pending := pending[1..];
      }
    }
  }

  /** What the application handler returns: a result and an error. */
  datatype HandlerResult = HandlerResult(res: Value, err: Error)

  /** The handler description a request is served with: the empty argument
      container MakeArg produces, and the handler itself. */
  datatype HandlerDescription = HandlerDescription(zeroArg: Value, run: Value -> HandlerResult)

  /** The observable calls made on the log sink, the profiler, the handler and
      the transmitter, in the order they happen. */
  datatype Event =
    | ServerCall(seqno: int, methodName: string, err: Error, arg: Value)
    | ServerReply(seqno: int, methodName: string, err: Error, res: Value)
    | ServerNotifyCall(methodName: string, err: Error, arg: Value)
    | ServerNotifyComplete(methodName: string, err: Error)
    | ServerCancelCall(seqno: int, methodName: string)
    | Warning(seqno: int, err: Error)
    | StartProfiler(format: string, methodName: string)
    | StopProfiler(format: string, methodName: string)
    | HandlerCall(arg: Value)
    | Encode(frame: seq<Value>)

  /** The log sink and the transmitter, as the record of what was called on them. */
  class Trace {
    ghost var events: seq<Event>

    constructor ()
      ensures events == []
    {
      events := [];
    }

    method Emit(e: Event)
      modifies this
      ensures events == old(events) + [e]
    {
      events := events + [e];
    }
  }
}
