# http-enhanced, modelled in Dafny

http-enhanced adds helpers to Node's `http` module. This project models the two parts of `index.js` that hold logic:

- `IncomingMessage.readToEnd([encoding], callback)` reads the body of a request once, however many consumers ask for it.
  - It is a three-phase state machine: unset, `'reading'`, `'ended'`.
  - The first call attaches one `'readable'` listener and one internal `'end'` handler. It also attaches an `'error'` listener, but only when its callback is truthy.
  - Every chunk is appended to one buffer. A string chunk is first turned into bytes.
  - On `'end'`, every waiting caller gets the final buffer, in the order the callers registered.
  - A caller that arrives after the end gets the cached buffer in a later turn of the event loop (`setImmediate`).
- The `ServerResponse` helpers `writeEnd`, `writeAll`, `json`, `html`, `text`, `die` and `redirect`. Each sends one head, makes one write, and ends.

Files:

- `js.dfy` (module `Js`): the JavaScript values the helpers take as arguments, their truthiness, and their `toString`.
- `accumulator.dfy` (module `Accumulator`): the class `Message`.
  - Its fields are the phase, the buffer, the listeners attached to the transport, the `setImmediate` queue and a log of callback invocations.
  - Its methods are the call `ReadToEnd` and the transport events `OnReadable`, `OnError` and `OnEnd`. `Tick` runs the queued `setImmediate` callbacks.
  - The pure functions `Registration`, `BodyFor`, `Serve`, `Waiting` and `Concat` specify these methods, and lemmas are proved about them.
- `responses.dfy` (module `Responses`): the class `Response`, a response sink holding the status code, the headers, the strings written and an `ended` flag, with the helpers as its methods. The argument shifts and the body strings are pure functions.
- `scenarios.dfy` (module `Scenarios`): drives the model through the routes of `test/server.js` that use `index.js`, and proves that they yield the statuses and bodies the test expects.

Library calls are parameters:

- `Buffer.toString(encoding)` is `decode`.
- `new Buffer(string)` is `toBytes`.
- `JSON.stringify` is `stringify`. It returns a `Serialized` value, which is either the text or `Thrown`.
- `util.inspect` is `inspect`.

A transport event is a method call.

- `OnReadable(chunk)` stands for a `'readable'` event in which `read()` returns `chunk`.
- The stream emits `'readable'` and `'end'` only to an attached reader, and emits nothing after `'end'`. So these events change nothing outside the Reading phase.

Three points where the code is easy to misread:

- `die` and `redirect` shift their arguments and use their default codes (500 and 302) exactly when the second argument is `undefined`, whether it was left out or passed explicitly. They do not look at the current status.
- A transport error leaves the phase where it is. A later `'end'` still serves every waiter. The error goes only to the first caller's callback, and the model keeps that too.
- The test posts `This is only a test, so chill.`. That string has 30 characters, so the response the test expects is `"30"`. `Scenarios.InputRoute` proves that it is `"30"`.

## Model

| member | source | states |
|---|---|---|
| `Accumulator.Rank` | index.js:27 | orders the phases unset < reading < ended; rank 0 exactly for unset and 2 exactly for ended |
| `Accumulator.Registration` | index.js:12-15 | the caller registered by a call: with the second argument undefined, the first is the callback and there is no encoding; with two arguments, the first is the encoding, kept in its string form only when truthy, so `readToEnd(5, cb)` asks for the encoding "5"; nobody is registered exactly when the shifted callback is falsy |
| `Accumulator.ConcatAppend` | index.js:47 | appending one chunk's bytes to the buffer of the earlier chunks gives the concatenation of all the chunks in order |
| `Accumulator.Deliver` | index.js:22-25 | the `success` closure for one waiter: a success to that waiter's callback, with a body made from the buffer (`BodyFor`), raw exactly when the waiter gave no encoding, and otherwise decoded with that waiter's own encoding |
| `Accumulator.ServeAt` | index.js:22-25 | serving a list of waiters makes one delivery per waiter, the i-th to the i-th waiter, each built from the same buffer |
| `Accumulator.ServeFromBuffer` | index.js:23-24 | every delivery made by serving is a success whose body is made from exactly the given buffer |
| `Accumulator.ServeAppend` | index.js:32 | serving two lists of waiters one after the other is serving their concatenation |
| `Accumulator.WaitingAppend` | index.js:32 | attaching one more 'end' listener adds its caller at the end of the callers served |
| `Accumulator.WaitingOfRegistrations` | index.js:31-32 | the internal 'end' handler followed by the later callers' listeners serves the first caller (if it gave a callback), then the later callers in the order they called |
| `Accumulator.RunEndListeners` | index.js:55-58 | the 'end' emit over the attached listeners, the internal handler first: the phase ends up Ended and the callers are served, in the order their listeners were attached, exactly the deliveries `Serve(Waiting(listeners))` from the buffer |
| `Accumulator.Message.constructor` | index.js:27 | a new message is unset, with an empty buffer, no listeners on the transport, nothing queued and nothing delivered |
| `Accumulator.Message.ReadToEnd` | index.js:6-60 | the first call moves unset to reading with an empty buffer and attaches one 'readable' listener, an 'error' listener only for a callback, and the internal 'end' handler; while reading, a call with a callback adds an 'end' listener and nothing else; after the end, a call with a callback queues a deferred delivery and changes neither phase, buffer nor transport listeners; the phase never goes back, and the class invariant holds: all bodies delivered are made from the final buffer |
| `Accumulator.Message.OnReadable` | index.js:40-48 | while reading, the chunk's bytes are appended to the buffer: a Buffer chunk as it is, a string chunk converted with `new Buffer` (`ChunkBytes`), and the buffer stays the concatenation of all chunks consumed; in any other phase nothing changes |
| `Accumulator.Message.OnError` | index.js:50-52 | the error goes to the first caller's callback, if it gave one, and to nobody else; phase, buffer, listeners and queue are unchanged |
| `Accumulator.Message.OnEnd` | index.js:55-58 | while reading, the phase becomes ended, and the 'end' listeners serve their callers the final buffer in registration order; the phase is ended whenever anyone is served; in other phases nothing changes |
| `Accumulator.Message.Tick` | index.js:29 | the queued deferred deliveries are all made, in the order they were queued, from the cached buffer; the queue is empty afterwards and nothing else changes |
| `Responses.Response.constructor` | index.js:63 | a fresh response has status 200, no headers, nothing written and is not ended |
| `Responses.Response.WriteHead` | index.js:68 | the status line and headers go out once, with exactly the code and headers given |
| `Responses.Response.Write` | index.js:64 | one string is appended to the body and the head goes out implicitly if it has not yet |
| `Responses.Response.End` | index.js:65 | the head goes out if it has not yet, and the response ends; status, headers and body are unchanged |
| `Responses.Response.WriteEnd` | index.js:63-66 | exactly one write of the string, then the end; status and headers unchanged |
| `Responses.Response.WriteAll` | index.js:67-70 | exactly the given status, a single Content-Type header with the given type, one write of the body, then the end |
| `Responses.Response.Json` | index.js:71-80 | status 200, a single `application/json` Content-Type, and as the only write the serializer's text, or the inspection text when the serializer throws (`JsonText`); the method itself never throws |
| `Responses.Response.Html` | index.js:81-83 | status 200, a single `text/html` Content-Type, and the string unchanged as the only write |
| `Responses.Response.Text` | index.js:84-86 | status 200, a single `text/plain` Content-Type, and the string unchanged as the only write |
| `Responses.DieOneArgumentDefaults` | index.js:88-92 | `die(err)` acts as `die(500, err)` for every error that is not `undefined` (the shift is `DieArgs`) |
| `Responses.FailureBody` | index.js:93 | starts with "Failure"; is exactly "Failure" if and only if the error is falsy, and otherwise "Failure: " followed by the error's string form (`ToString`: a string as itself, an integer in decimal, an Error as name and message joined by `ErrorToString`) |
| `Responses.Response.Die` | index.js:87-95 | the code (500 when only the error is given), a single `text/plain` Content-Type and the failure text as the only write |
| `Responses.RedirectOneArgumentDefaults` | index.js:97-101 | `redirect(location)` acts as `redirect(302, location)` for every location that is not `undefined` (the shift is `RedirectArgs`) |
| `Responses.RedirectBody` | index.js:103 | the body is "Redirecting to: " followed by exactly the location |
| `Responses.Response.Redirect` | index.js:96-104 | the code (302 when the second argument is undefined), a single Location header with the location's string form, and the redirect text as the only write |
| `Js.IntToString` | test/server.js:31 | the decimal form of an integer: it starts with '-' exactly for a negative one, and the rest is decimal digits whose value is the magnitude |
| `Js.NatToString` | test/server.js:98 | the decimal digits of a natural number, with no leading zero |
| `Js.NatToStringRoundTrip` | test/server.js:98 | reading the decimal digits back gives the number again |
| `Js.NatToStringInjective` | test/server.js:98 | two different numbers never print alike |
| `Js.Truthy` | index.js:24 | a value is falsy exactly when it is `undefined`, `null`, `false`, `0` or the empty string; this is the test at index.js:24, 29, 32, 50, 57 and 93 |
| `Scenarios.InputRoute` | test/server.js:29-33 | a body in two chunks, read as 'utf8' by a two-argument call, is answered with status 200, `text/plain` and the body "30" |
| `Scenarios.NotFoundRoute` | test/server.js:44-45 | `die('Not found, dammit!')` answers 500, `text/plain`, "Failure: Not found, dammit!" |
| `Scenarios.DieEdgeCases` | index.js:89-93 | `die(404, undefined)` shifts and answers 500 with "Failure: 404"; `die(404, '')` answers 404 with "Failure" |
| `Scenarios.RelocatorRoute` | test/server.js:26-27 | `redirect('/elsewhere')` answers 302 with `Location: /elsewhere` and "Redirecting to: /elsewhere" |
| `Scenarios.RedirectEdgeCases` | index.js:98-103 | `redirect(302, undefined)` shifts and answers 302 with `Location: 302` and "Redirecting to: 302"; `redirect(null)` answers "Redirecting to: null" |
| `Scenarios.HtmlAndPlainRoutes` | test/server.js:20-25 | `html` and `text` send the given string unchanged under `text/html` and `text/plain` |
| `Scenarios.FanOutReading` | index.js:31-52 | three calls, an error and two chunks leave one message reading, with the whole input buffered, two callers waiting in call order and the error delivered to the first caller only |
| `Scenarios.FanOut` | index.js:28-58 | one 'readable' listener serves three readers; the error reaches only the first caller; after the end, every caller with a callback gets the whole body in call order; the late caller is served only when the `setImmediate` queue runs |

## Left out

- Node's HTTP server, the network and the `request` client of the test are not modelled. The test is used only as a source of expected values.
- `res.status`, `res.ngjson`, `res.xjson` and `req.readData` are not modelled. The test uses them, but the `index.js` shown does not define them.
- Text decoding, string-to-bytes conversion, `JSON.stringify` and `util.inspect` are parameters with no behaviour of their own. The model shows which one is called and on what.
- `Responses.JsonText`: the case where `JSON.stringify` returns `undefined` instead of text is not modelled. This happens for a function or for `undefined`, and the write that follows would then fail.
- The event loop is not modelled. No callback reenters the model, so a callback that itself calls `readToEnd` is not covered. Deferred deliveries wait in an explicit queue that `Tick` empties, and immediates scheduled from inside a callback are not modelled.
- `Accumulator.Message.OnError`: an `'error'` with no listener makes Node's event emitter throw. The model only reports it as unhandled.
- `Accumulator.Message.OnReadable`: a `read()` that returns `null` is not modelled.
- The patching of `http.IncomingMessage.prototype` and `http.ServerResponse.prototype` is not modelled. The state lives in the fields of the `Message` and `Response` classes instead.
- `Js.ToString`: JavaScript numbers are modelled as unbounded integers printed in plain decimal. JavaScript prints an integer of magnitude 10^21 or more in exponent form (`1e+21`), cannot hold integers above 2^53 exactly, and has fractions and `NaN`. So a `die` or `redirect` with such a number gets a different text in the model.
- `Responses.Response.Die`: the requires excludes a function as the error, because a function's string form is its source text, which is not modelled. It also excludes a code that is not a number, because the sink's status is an integer.
- `Responses.Response.Redirect`: the requires excludes a function as the location and a code that is not a number, for the same reasons. The Location header holds the location's string form. What the sink does with a header value that is not a string is not modelled.
- Calling a helper on a response whose head has already gone out is excluded by `requires`. The helpers are written for a fresh response, and what the sink does with a second head is not modelled.
- `Accumulator.Message.ReadToEnd`: the requires excludes two calls. The first is a truthy callback that is not a function: the source's first call with one sets `'reading'`, attaches the `'readable'` listener and then throws at index.js:51, so no `'end'` handler is attached and later callers would wait forever. That broken state is not modelled. On a later call the source registers it without complaint, either as an `'end'` listener (index.js:32) or by scheduling `success` (index.js:29), and the throw comes only when `success` calls it. The second is a function as the encoding of a call with a callback: the source hands it to `buffer.toString`, which rejects it as an unknown encoding, but a function's string form is its source text, which is not modelled.
- `Accumulator.Registration`: the same exclusions as `Accumulator.Message.ReadToEnd`: a truthy callback that is not a function, and a function as the encoding of a call with a callback. Every other encoding is kept in its string form and later handed to `decode`, which is total: the throw for an unknown name is described under `Accumulator.Message.OnEnd`.
- `Accumulator.Message.OnEnd`: callbacks are assumed not to throw. A callback that throws inside the `'end'` emit stops the listeners after it, so the callers registered later would not be served. The model serves them all. The same holds for the decoding: `decode` is total, while Node's `Buffer.toString` throws "Unknown encoding" for a name it does not know (`readToEnd('bogus', cb)`, or the encoding "5" of `readToEnd(5, cb)`). That throw happens at index.js:24, inside the `'end'` emit for callers waiting there, so the callers after it are not served. For a caller after the end, it happens inside its `setImmediate` callback. The model serves every waiter with `decode(name, buffer)`.
- `Accumulator.Deliver`: every raw caller, including those served from the cache, receives the same mutable `Buffer` object, so a callback that changes it changes what later callers get. The model hands out the buffer as a value and assumes callbacks do not mutate it; the class invariant that every delivered body is made from the final buffer relies on that.
- The sink's header merging with headers set earlier through `setHeader` is not modelled. The helpers never call `setHeader`.
