/** `IncomingMessage.readToEnd` (index.js:6-60): a per-message body
    accumulator with three phases. The first call attaches one 'readable'
    listener, an 'error' listener when it gives a callback, and one internal
    'end' handler to the transport; every chunk is appended to one buffer;
    on 'end' the phase becomes Ended and every waiting caller receives the
    final buffer; callers after that are served the cached buffer in a
    later turn of the event loop (`setImmediate`). Transport events and the `setImmediate` queue are explicit
    methods of the class `Message`. */
module Accumulator {
  import opened Js

  newtype byte = x: int | 0 <= x < 256

  datatype Option<+T> = None | Some(value: T)

  /** `_readToEnd_state`: undefined, 'reading', 'ended'. */
  datatype Phase = NotStarted | Reading | Ended

  /** The phases in the only order they are entered. */
  function Rank(p: Phase): (k: nat)
    ensures k <= 2
    ensures (k == 0) <==> p.NotStarted?
    ensures (k == 2) <==> p.Ended?
  {
    match p
    case NotStarted => 0
    case Reading => 1
    case Ended => 2
  }

  /** What `self.read()` hands the 'readable' listener: a Buffer, or a
      string when a consumer has set an encoding on the stream. */
  datatype Chunk = BufferChunk(bytes: seq<byte>) | StringChunk(text: string)

  /** The bytes of a chunk; `toBytes` stands for `new Buffer(string)`. */
  function ChunkBytes(c: Chunk, toBytes: string -> seq<byte>): (r: seq<byte>)
    ensures c.BufferChunk? ==> r == c.bytes
    ensures c.StringChunk? ==> r == toBytes(c.text)
  {
    match c
    case BufferChunk(b) => b
    case StringChunk(t) => toBytes(t)
  }

  /** The in-order concatenation of the bytes of all chunks. */
  function Concat(cs: seq<Chunk>, toBytes: string -> seq<byte>): seq<byte>
  {
    if cs == [] then [] else ChunkBytes(cs[0], toBytes) + Concat(cs[1..], toBytes)
  }

  /** Appending one chunk's bytes to the concatenation of the earlier ones
      gives the concatenation of them all. */
  lemma {:induction false} ConcatAppend(cs: seq<Chunk>, c: Chunk, toBytes: string -> seq<byte>)
    ensures Concat(cs + [c], toBytes) == Concat(cs, toBytes) + ChunkBytes(c, toBytes)
  {
    if cs == [] {
      assert [c][1..] == [];
    } else {
      assert (cs + [c])[1..] == cs[1..] + [c];
      ConcatAppend(cs[1..], c, toBytes);
    }
  }

  /** A caller waiting for the body: its callback and, when it asked for
      one, the text encoding its body is decoded with. */
  datatype Waiter = Waiter(callback: nat, encoding: Option<string>)

  /** The arguments after the shift at index.js:12-15: when the second one
      is undefined, the first one is the callback and there is no encoding. */
  function ShiftArgs(first: Value, second: Value): (Value, Value)
  {
    if second == Undefined then (Undefined, first) else (first, second)
  }

  /** The signature `readToEnd([encoding], callback)`: once shifted, a
      truthy callback is a function, and when there is one the encoding is
      not a function. With a falsy callback the encoding is never used. */
  predicate WellFormedCall(first: Value, second: Value) {
    var (encoding, callback) := ShiftArgs(first, second);
    Truthy(callback) ==> callback.Fn? && !encoding.Fn?
  }

  /** Who a call registers: nobody when the callback is falsy, otherwise the
      callback with the encoding when that is truthy. `buffer.toString`
      takes the encoding in its string form, so `readToEnd(5, cb)` asks for
      the encoding "5", which the decoder may reject like any other name. */
  function Registration(first: Value, second: Value): (w: Option<Waiter>)
    requires WellFormedCall(first, second)
    ensures w.Some? <==> Truthy(if second == Undefined then first else second)
    ensures second == Undefined && first.Fn? ==> w == Some(Waiter(first.id, None))
    ensures second.Fn? && !Truthy(first) ==> w == Some(Waiter(second.id, None))
    ensures second.Fn? && Truthy(first) ==> w == Some(Waiter(second.id, Some(ToString(first))))
  {
    var (encoding, callback) := ShiftArgs(first, second);
    if Truthy(callback) then
      Some(Waiter(callback.id, if Truthy(encoding) then Some(ToString(encoding)) else None))
    else
      None
  }

  /** What a callback receives as its second argument. */
  datatype Body = Raw(bytes: seq<byte>) | Text(encoding: string, text: string)

  /** A callback invocation: `callback(null, body)` or `callback(err)`. */
  datatype Outcome = Done(body: Body) | Failed(error: Value)

  datatype Delivery = Delivery(callback: nat, outcome: Outcome)

  /** index.js:24: the text decoding of the buffer when an encoding was
      given, the buffer itself otherwise; `decode` stands for `Buffer.toString`. */
  function BodyFor(encoding: Option<string>, buffer: seq<byte>, decode: (string, seq<byte>) -> string): (b: Body)
    ensures encoding.None? <==> b.Raw?
    ensures b.Raw? ==> b.bytes == buffer
    ensures b.Text? ==> b.encoding == encoding.value && b.text == decode(encoding.value, buffer)
  {
    match encoding
    case None => Raw(buffer)
    case Some(e) => Text(e, decode(e, buffer))
  }

  /** The body was made from exactly this buffer. */
  predicate FromBuffer(b: Body, buffer: seq<byte>, decode: (string, seq<byte>) -> string) {
    match b
    case Raw(bytes) => bytes == buffer
    case Text(e, t) => t == decode(e, buffer)
  }

  /** The `success` closure of index.js:22-25 run for one waiter: that
      waiter's callback, a success, a body made from the buffer, raw
      exactly when the waiter asked for no encoding and otherwise decoded
      with the waiter's own encoding. */
  function Deliver(w: Waiter, buffer: seq<byte>, decode: (string, seq<byte>) -> string): (d: Delivery)
    ensures d.callback == w.callback && d.outcome.Done?
    ensures FromBuffer(d.outcome.body, buffer, decode)
    ensures d.outcome.body.Raw? <==> w.encoding.None?
    ensures d.outcome.body.Text? ==> Some(d.outcome.body.encoding) == w.encoding
  {
    Delivery(w.callback, Done(BodyFor(w.encoding, buffer, decode)))
  }

  /** The deliveries made when the waiters are served, in order. */
  function Serve(ws: seq<Waiter>, buffer: seq<byte>, decode: (string, seq<byte>) -> string): seq<Delivery>
  {
    if ws == [] then [] else [Deliver(ws[0], buffer, decode)] + Serve(ws[1..], buffer, decode)
  }

  /** Serving is done waiter by waiter, in order, each with the same buffer. */
  lemma {:induction false} ServeAt(ws: seq<Waiter>, buffer: seq<byte>, decode: (string, seq<byte>) -> string)
    ensures |Serve(ws, buffer, decode)| == |ws|
    ensures forall i :: 0 <= i < |ws| ==> Serve(ws, buffer, decode)[i] == Deliver(ws[i], buffer, decode)
  {
    if ws != [] {
      ServeAt(ws[1..], buffer, decode);
      forall i | 0 <= i < |ws|
        ensures Serve(ws, buffer, decode)[i] == Deliver(ws[i], buffer, decode)
      {
        if i > 0 {
          assert Serve(ws, buffer, decode)[i] == Serve(ws[1..], buffer, decode)[i - 1];
        }
      }
    }
  }

  /** Every delivery made by serving carries a body made from that buffer
      and goes to one of the waiters. */
  lemma {:induction false} ServeFromBuffer(ws: seq<Waiter>, buffer: seq<byte>, decode: (string, seq<byte>) -> string)
    ensures |Serve(ws, buffer, decode)| == |ws|
    ensures forall i :: 0 <= i < |ws| ==>
      Serve(ws, buffer, decode)[i].outcome.Done? &&
      FromBuffer(Serve(ws, buffer, decode)[i].outcome.body, buffer, decode) &&
      Serve(ws, buffer, decode)[i].callback == ws[i].callback
  {
    ServeAt(ws, buffer, decode);
  }

  /** A listener on the transport's 'end' event: the internal handler of the
      first call (index.js:55-58), which knows the first caller if it gave a
      callback, or the `success` closure of a later call (index.js:32). */
  datatype EndListener = Finish(first: Option<Waiter>) | Notify(w: Waiter)

  function ListenerWaiters(l: EndListener): seq<Waiter>
  {
    match l
    case Finish(None) => []
    case Finish(Some(w)) => [w]
    case Notify(w) => [w]
  }

  /** The callers the 'end' listeners serve, in registration order. */
  function Waiting(ls: seq<EndListener>): seq<Waiter>
  {
    if ls == [] then [] else ListenerWaiters(ls[0]) + Waiting(ls[1..])
  }

  lemma {:induction false} WaitingAppend(ls: seq<EndListener>, l: EndListener)
    ensures Waiting(ls + [l]) == Waiting(ls) + ListenerWaiters(l)
  {
    if ls == [] {
      assert [l][1..] == [];
    } else {
      assert (ls + [l])[1..] == ls[1..] + [l];
      WaitingAppend(ls[1..], l);
    }
  }

  lemma {:induction false} ServeAppend(ws: seq<Waiter>, vs: seq<Waiter>, buffer: seq<byte>, decode: (string, seq<byte>) -> string)
    ensures Serve(ws + vs, buffer, decode) == Serve(ws, buffer, decode) + Serve(vs, buffer, decode)
  {
    if ws == [] {
      assert ws + vs == vs;
    } else {
      assert (ws + vs)[0] == ws[0];
      assert (ws + vs)[1..] == ws[1..] + vs;
      ServeAppend(ws[1..], vs, buffer, decode);
    }
  }

  /** The first call's listeners followed by those of later calls made while
      reading serve the first caller (if it gave a callback) and then the
      later callers, in the order they called. */
  lemma {:induction false} WaitingOfRegistrations(first: Option<Waiter>, later: seq<Waiter>)
    ensures Waiting([Finish(first)] + seq(|later|, i requires 0 <= i < |later| => Notify(later[i])))
         == (if first.Some? then [first.value] else []) + later
    decreases |later|
  {
    var ls := seq(|later|, i requires 0 <= i < |later| => Notify(later[i]));
    if later == [] {
      assert [Finish(first)] + ls == [Finish(first)];
      assert Waiting([Finish(first)][1..]) == [];
    } else {
      var n := |later| - 1;
      var front := seq(n, i requires 0 <= i < n => Notify(later[..n][i]));
      assert ls == front + [Notify(later[n])];
      assert [Finish(first)] + ls == ([Finish(first)] + front) + [Notify(later[n])];
      WaitingAppend([Finish(first)] + front, Notify(later[n]));
      WaitingOfRegistrations(first, later[..n]);
      assert later[..n] + [later[n]] == later;
    }
  }

  /** The 'end' emit: the listeners run one after the other, the internal
      handler setting the phase to Ended before it serves the first caller,
      each later listener serving its own caller. The phase and the log are
      returned so that `Message.OnEnd` can store them back. */
  method RunEndListeners(listeners: seq<EndListener>, log: seq<Delivery>, buffer: seq<byte>,
                         decode: (string, seq<byte>) -> string)
    returns (state: Phase, out: seq<Delivery>)
    requires |listeners| >= 1 && listeners[0].Finish?
    requires forall i :: 1 <= i < |listeners| ==> listeners[i].Notify?
    ensures state == Ended
    ensures out == log + Serve(Waiting(listeners), buffer, decode)
  {
    state, out := Reading, log;
    var i := 0;
    while i < |listeners|
      invariant 0 <= i <= |listeners|
      invariant state == (if i == 0 then Reading else Ended)
      invariant out == log + Serve(Waiting(listeners[..i]), buffer, decode)
    {
      assert listeners[..i + 1] == listeners[..i] + [listeners[i]];
      WaitingAppend(listeners[..i], listeners[i]);
      ServeAppend(Waiting(listeners[..i]), ListenerWaiters(listeners[i]), buffer, decode);
      match listeners[i] {
        case Finish(first) =>
          state := Ended;
          if first.Some? {
            out := out + [Deliver(first.value, buffer, decode)];
          }
        case Notify(w) =>
          assert state == Ended;
          out := out + [Deliver(w, buffer, decode)];
      }
      i := i + 1;
    }
    assert listeners[..i] == listeners;
  }

  /** One inbound message with its accumulator state and the listeners the
      accumulator has put on the message's transport. */
  class Message {
    /** `Buffer.prototype.toString(encoding)`. */
    const decode: (string, seq<byte>) -> string
    /** `new Buffer(string)` for chunks that arrive as strings. */
    const toBytes: string -> seq<byte>

    /** `_readToEnd_state` */
    var phase: Phase
    /** `_readToEnd_buffer` */
    var buffer: seq<byte>
    /** How many 'readable' listeners the accumulator has attached. */
    var readableListeners: nat
    /** The accumulator's 'end' listeners, in the order they were attached. */
    var endListeners: seq<EndListener>
    /** The callbacks attached to the 'error' event. */
    var errorListeners: seq<nat>
    /** `setImmediate(success)` calls not yet run, first scheduled first. */
    var pending: seq<Waiter>
    /** Every callback invocation made so far, in order. */
    var log: seq<Delivery>
    /** The chunks the 'readable' listener has consumed, in order. */
    ghost var chunks: seq<Chunk>

    ghost predicate Valid()
      reads this
    {
      buffer == Concat(chunks, toBytes) &&
      (phase == NotStarted ==>
        chunks == [] && readableListeners == 0 && endListeners == [] &&
        errorListeners == [] && pending == []) &&
      (phase != NotStarted ==>
        readableListeners == 1 && |endListeners| >= 1 && endListeners[0].Finish? &&
        (forall i :: 1 <= i < |endListeners| ==> endListeners[i].Notify?) &&
        errorListeners == (if endListeners[0].first.Some? then [endListeners[0].first.value.callback] else [])) &&
      (phase != Ended ==> pending == []) &&
      OnlyFinalBuffer()
    }

    /** No caller is ever handed a partial buffer: every body delivered so
        far was made after the end, from the final buffer. */
    ghost predicate OnlyFinalBuffer()
      reads this
    {
      forall i :: 0 <= i < |log| && log[i].outcome.Done? ==>
        phase == Ended && FromBuffer(log[i].outcome.body, buffer, decode)
    }

    constructor (decode: (string, seq<byte>) -> string, toBytes: string -> seq<byte>)
      ensures Valid()
      ensures this.decode == decode && this.toBytes == toBytes
      ensures phase == NotStarted && buffer == [] && chunks == []
      ensures readableListeners == 0 && endListeners == [] && errorListeners == []
      ensures pending == [] && log == []
    {
      this.decode := decode;
      this.toBytes := toBytes;
      phase := NotStarted;
      buffer := [];
      chunks := [];
      readableListeners := 0;
      endListeners := [];
      errorListeners := [];
      pending := [];
      log := [];
    }

    /** `req.readToEnd(first, second)`, index.js:6-60. */
    method ReadToEnd(first: Value, second: Value)
      requires Valid() && WellFormedCall(first, second)
      modifies this
      ensures Valid()
      ensures Rank(old(phase)) <= Rank(phase)
      ensures log == old(log)
      // the first call starts reading with an empty buffer and attaches each listener once
      ensures old(phase) == NotStarted ==>
        phase == Reading && buffer == [] && chunks == [] && readableListeners == 1 &&
        endListeners == [Finish(Registration(first, second))] &&
        errorListeners == (if Registration(first, second).Some? then [Registration(first, second).value.callback] else []) &&
        pending == []
      // a later call never touches the transport's 'readable' or 'error' listeners
      ensures old(phase) != NotStarted ==>
        phase == old(phase) && buffer == old(buffer) && chunks == old(chunks) &&
        readableListeners == old(readableListeners) && errorListeners == old(errorListeners)
      // while reading, a caller with a callback waits for 'end'
      ensures old(phase) == Reading ==>
        endListeners == old(endListeners) + (if Registration(first, second).Some? then [Notify(Registration(first, second).value)] else []) &&
        pending == old(pending)
      // once ended, a caller with a callback is served in a later turn (`setImmediate`)
      ensures old(phase) == Ended ==>
        endListeners == old(endListeners) &&
        pending == old(pending) + (if Registration(first, second).Some? then [Registration(first, second).value] else [])
    {
      var w := Registration(first, second);
      if phase == Ended {
        if w.Some? {
          pending := pending + [w.value];
        }
      } else if phase == Reading {
        if w.Some? {
          endListeners := endListeners + [Notify(w.value)];
        }
      } else {
        phase := Reading;
        buffer := [];
        chunks := [];
        readableListeners := readableListeners + 1;
        if w.Some? {
          errorListeners := errorListeners + [w.value.callback];
        }
        endListeners := endListeners + [Finish(w)];
      }
    }

    /** The transport emits 'readable' and `self.read()` returns `chunk`.
        Only the accumulator's listener reacts, and it is attached exactly
        while reading (the stream emits nothing after 'end'). */
    method OnReadable(chunk: Chunk)
      requires Valid()
      modifies this
      ensures Valid()
      ensures phase == old(phase) && log == old(log) && pending == old(pending)
      ensures readableListeners == old(readableListeners) && endListeners == old(endListeners)
      ensures errorListeners == old(errorListeners)
      ensures old(phase) == Reading ==>
        buffer == old(buffer) + ChunkBytes(chunk, toBytes) && chunks == old(chunks) + [chunk]
      ensures old(phase) != Reading ==> buffer == old(buffer) && chunks == old(chunks)
    {
      if phase == Reading {
        ConcatAppend(chunks, chunk, toBytes);
        buffer := buffer + ChunkBytes(chunk, toBytes);
        chunks := chunks + [chunk];
      }
    }

    /** The transport emits 'error' with `e`: only the first caller's
        callback hears it (index.js:50-52); phase and buffer stay as they
        are. `handled` is false when no error listener is attached, where
        Node's event emitter would throw `e` instead. */
    method OnError(e: Value) returns (handled: bool)
      requires Valid()
      modifies this
      ensures Valid()
      ensures handled == (errorListeners != [])
      ensures |errorListeners| <= 1
      ensures log == old(log) + (if handled then [Delivery(errorListeners[0], Failed(e))] else [])
      ensures phase == old(phase) && buffer == old(buffer) && chunks == old(chunks)
      ensures readableListeners == old(readableListeners) && endListeners == old(endListeners)
      ensures errorListeners == old(errorListeners) && pending == old(pending)
    {
      handled := errorListeners != [];
      if handled {
        log := log + [Delivery(errorListeners[0], Failed(e))];
      }
    }

    /** The transport emits 'end' (once, and only to a reader that is
        attached): the 'end' listeners run in the order they were attached.
        The first is the internal handler, which sets the phase to Ended
        before it serves the first caller; every later caller is then
        served the same final buffer. */
    method OnEnd()
      requires Valid()
      modifies this
      ensures Valid()
      ensures old(phase) == Reading ==>
        phase == Ended && log == old(log) + Serve(Waiting(old(endListeners)), buffer, decode)
      ensures old(phase) != Reading ==> phase == old(phase) && log == old(log)
      ensures buffer == old(buffer) && chunks == old(chunks) && pending == old(pending)
      ensures readableListeners == old(readableListeners) && endListeners == old(endListeners)
      ensures errorListeners == old(errorListeners)
    {
      if phase != Reading {
        return;
      }
      var state, out := RunEndListeners(endListeners, log, buffer, decode);
      ServeFromBuffer(Waiting(endListeners), buffer, decode);
      phase, log := state, out;
    }

    /** The event loop runs every `setImmediate(success)` scheduled so far,
        in the order they were scheduled. */
    method Tick()
      requires Valid()
      modifies this
      ensures Valid()
      ensures pending == []
      ensures log == old(log) + Serve(old(pending), buffer, decode)
      ensures phase == old(phase) && buffer == old(buffer) && chunks == old(chunks)
      ensures readableListeners == old(readableListeners) && endListeners == old(endListeners)
      ensures errorListeners == old(errorListeners)
    {
      ServeFromBuffer(pending, buffer, decode);
      while pending != []
        invariant log + Serve(pending, buffer, decode) == old(log) + Serve(old(pending), buffer, decode)
        invariant pending != [] ==> phase == Ended
        invariant Valid()
        invariant phase == old(phase) && buffer == old(buffer) && chunks == old(chunks)
        invariant readableListeners == old(readableListeners) && endListeners == old(endListeners)
        invariant errorListeners == old(errorListeners)
        decreases |pending|
      {
        assert FromBuffer(Deliver(pending[0], buffer, decode).outcome.body, buffer, decode);
        log := log + [Deliver(pending[0], buffer, decode)];
        pending := pending[1..];
      }
    }
  }
}
