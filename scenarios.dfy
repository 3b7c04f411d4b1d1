/** The routes of test/server.js that exercise index.js, each driven through
    the model: the request events the client causes, then the handler's
    response. The expected statuses, headers and bodies are the ones the
    test asserts. */
module Scenarios {
  import opened Js
  import opened Accumulator
  import opened Responses

  /** One character per byte: what `Buffer.toString('utf8')` gives on
      bytes below 128, which is all these routes send. */
  function ByteText(encoding: string, bytes: seq<byte>): (t: string)
    ensures |t| == |bytes|
  {
    seq(|bytes|, k requires 0 <= k < |bytes| => bytes[k] as int as char)
  }

  /** One byte per character, keeping the low eight bits. */
  function LowBytes(s: string): (r: seq<byte>)
    ensures |r| == |s|
  {
    seq(|s|, k requires 0 <= k < |s| => (s[k] as int % 256) as byte)
  }

  /** test/server.js:29-33 and 95-99: the body arrives in two chunks, the
      handler reads it as 'utf8' and answers with its length, 30. */
  method InputRoute() returns (status: int, hs: seq<Header>, body: seq<string>)
    ensures status == 200 && hs == [Header("Content-Type", "text/plain")]
    ensures body == ["30"]
  {
    var input := "This is only a test, so chill.";
    var part1, part2 := LowBytes(input[..21]), LowBytes(input[21..]);
    var req := new Message(ByteText, LowBytes);
    var w := Waiter(0, Some("utf8"));
    assert Registration(Str("utf8"), Fn(0)) == Some(w);
    req.ReadToEnd(Str("utf8"), Fn(0));
    assert req.phase == Reading && req.endListeners == [Finish(Some(w))] && req.log == [];
    req.OnReadable(BufferChunk(part1));
    req.OnReadable(BufferChunk(part2));
    assert req.buffer == part1 + part2;
    assert Waiting([Finish(Some(w))]) == [w];
    req.OnEnd();
    ServeAt([w], part1 + part2, ByteText);
    var delivered := req.log[0].outcome.body.text;
    assert |delivered| == 30;
    assert NatToString(30) == NatToString(3) + [Digit(0)] == "30";
    assert IntToString(|delivered|) == "30";
    var res := new Response();
    res.Text(IntToString(|delivered|));
    status, hs, body := res.statusCode, res.headers, res.written;
  }

  /** test/server.js:44-45 and 85-88: `die` with only the error gives 500. */
  method NotFoundRoute() returns (status: int, hs: seq<Header>, body: seq<string>)
    ensures status == 500 && hs == [Header("Content-Type", "text/plain")]
    ensures body == ["Failure: Not found, dammit!"]
  {
    var res := new Response();
    res.Die(Str("Not found, dammit!"), Undefined);
    assert FailureBody(Str("Not found, dammit!")) == "Failure: Not found, dammit!";
    status, hs, body := res.statusCode, res.headers, res.written;
  }

  /** `die(404, undefined)` shifts too: the code becomes the error and the
      status is 500; `die(404, '')` keeps the code and says only "Failure". */
  method DieEdgeCases() returns (shifted: (int, seq<string>), blank: (int, seq<string>))
    ensures shifted == (500, ["Failure: 404"])
    ensures blank == (404, ["Failure"])
  {
    var a := new Response();
    a.Die(Num(404), Undefined);
    assert NatToString(404) == NatToString(40) + [Digit(4)];
    assert NatToString(40) == NatToString(4) + [Digit(0)];
    assert FailureBody(Num(404)) == "Failure: 404";
    shifted := (a.statusCode, a.written);
    var b := new Response();
    b.Die(Num(404), Str(""));
    blank := (b.statusCode, b.written);
  }

  /** test/server.js:26-27 and 90-93: `redirect` with only the location gives 302. */
  method RelocatorRoute() returns (status: int, hs: seq<Header>, body: seq<string>)
    ensures status == 302 && hs == [Header("Location", "/elsewhere")]
    ensures body == ["Redirecting to: /elsewhere"]
  {
    var res := new Response();
    res.Redirect(Str("/elsewhere"), Undefined);
    assert RedirectBody("/elsewhere") == "Redirecting to: /elsewhere";
    status, hs, body := res.statusCode, res.headers, res.written;
  }

  /** `redirect(302, undefined)` shifts: the 302 becomes the location and
      the code is 302 by default; `redirect(null)` redirects to "null". */
  method RedirectEdgeCases() returns (shifted: (int, seq<Header>, seq<string>), nullLocation: seq<string>)
    ensures shifted == (302, [Header("Location", "302")], ["Redirecting to: 302"])
    ensures nullLocation == ["Redirecting to: null"]
  {
    var a := new Response();
    a.Redirect(Num(302), Undefined);
    assert NatToString(302) == NatToString(30) + [Digit(2)];
    assert NatToString(30) == NatToString(3) + [Digit(0)];
    assert ToString(Num(302)) == "302";
    assert RedirectBody("302") == "Redirecting to: 302";
    shifted := (a.statusCode, a.headers, a.written);
    var b := new Response();
    b.Redirect(Null, Undefined);
    assert RedirectBody("null") == "Redirecting to: null";
    nullLocation := b.written;
  }

  /** test/server.js:20-25 and 75-83: `html` and `text` send the string as it is. */
  method HtmlAndPlainRoutes() returns (html: (seq<Header>, seq<string>), plain: (seq<Header>, seq<string>))
    ensures html == ([Header("Content-Type", "text/html")], ["<h1>Hello tests!</h1>"])
    ensures plain == ([Header("Content-Type", "text/plain")], ["Hello test suite."])
  {
    var a := new Response();
    a.Html("<h1>Hello tests!</h1>");
    html := (a.headers, a.written);
    var b := new Response();
    b.Text("Hello test suite.");
    plain := (b.headers, b.written);
  }

  /** The part of `FanOut` before the end: three calls, an error and two
      chunks, the second of them a string. */
  method FanOutReading(decode: (string, seq<byte>) -> string, toBytes: string -> seq<byte>,
                       c1: seq<byte>, t2: string, e: Value)
    returns (m: Message)
    ensures fresh(m) && m.Valid() && m.decode == decode && m.toBytes == toBytes
    ensures m.phase == Reading && m.buffer == c1 + toBytes(t2) && m.readableListeners == 1
    ensures m.endListeners == [Finish(Some(Waiter(1, None))), Notify(Waiter(2, Some("utf8")))]
    ensures m.log == [Delivery(1, Failed(e))] && m.pending == []
  {
    m := new Message(decode, toBytes);
    var w1, w2 := Waiter(1, None), Waiter(2, Some("utf8"));
    assert Registration(Fn(1), Undefined) == Some(w1);
    m.ReadToEnd(Fn(1), Undefined);
    assert m.endListeners == [Finish(Some(w1))] && m.errorListeners == [1];
    m.OnReadable(BufferChunk(c1));
    assert Registration(Str("utf8"), Fn(2)) == Some(w2);
    m.ReadToEnd(Str("utf8"), Fn(2));
    assert Registration(Null, Undefined) == None;
    m.ReadToEnd(Null, Undefined);
    assert m.endListeners == [Finish(Some(w1)), Notify(w2)] && m.log == [];
    var handled := m.OnError(e);
    assert m.log == [Delivery(1, Failed(e))];
    m.OnReadable(StringChunk(t2));
  }

  /** Several readers of one message: a callback-only call, a call with an
      encoding, a call without a callback, an error, a chunk that arrives as
      a string, the end, and a call after the end. The transport gets one
      'readable' listener; the error reaches only the first caller; every
      caller with a callback gets the whole body, in the order they called;
      the late caller is served by `setImmediate`, not during its call. */
  method FanOut(decode: (string, seq<byte>) -> string, toBytes: string -> seq<byte>,
                c1: seq<byte>, t2: string, e: Value)
    returns (readable: nat, beforeTick: seq<Delivery>, log: seq<Delivery>)
    ensures readable == 1
    ensures var b := c1 + toBytes(t2);
      log == [Delivery(1, Failed(e)),
              Delivery(1, Done(Raw(b))),
              Delivery(2, Done(Text("utf8", decode("utf8", b)))),
              Delivery(3, Done(Raw(b)))]
    ensures beforeTick == log[..3]
  {
    var m := FanOutReading(decode, toBytes, c1, t2, e);
    var b := c1 + toBytes(t2);
    var w1, w2, w3 := Waiter(1, None), Waiter(2, Some("utf8")), Waiter(3, None);
    WaitingOfRegistrations(Some(w1), [w2]);
    assert [Finish(Some(w1))] + seq(1, i requires 0 <= i < 1 => Notify([w2][i]))
        == [Finish(Some(w1)), Notify(w2)];
    ServeAt([w1, w2], b, decode);
    m.OnEnd();
    assert m.log == [Delivery(1, Failed(e)), Deliver(w1, b, decode), Deliver(w2, b, decode)];
    assert Registration(Fn(3), Undefined) == Some(w3);
    m.ReadToEnd(Fn(3), Undefined);
    assert m.pending == [w3];
    beforeTick := m.log;
    ServeAt([w3], b, decode);
    m.Tick();
    readable, log := m.readableListeners, m.log;
  }
}
