/** The response helpers of index.js:63-104 over a response sink that
    records its status, its headers, the strings written and whether it has
    ended. Each helper sends one head, makes one write and ends. */
module Responses {
  import opened Js

  datatype Header = Header(name: string, value: string)

  /** What `JSON.stringify` does with a value: it returns the text, or it throws. */
  datatype Serialized = Serialized(text: string) | Thrown

  /** index.js:72-78: the serializer's output, or the inspection text when
      the serializer throws; never an exception. */
  function JsonText<T>(obj: T, stringify: T -> Serialized, inspect: T -> string): (r: string)
    ensures stringify(obj).Serialized? ==> r == stringify(obj).text
    ensures stringify(obj).Thrown? ==> r == inspect(obj)
  {
    match stringify(obj)
    case Serialized(text) => text
    case Thrown => inspect(obj)
  }

  /** `die(http_code, err)`: a code is given whenever the second argument is. */
  predicate DieCallOk(first: Value, second: Value) {
    (second == Undefined ==> (Truthy(first) ==> !first.Fn?)) &&
    (second != Undefined ==> first.Num? && (Truthy(second) ==> !second.Fn?))
  }

  /** index.js:89-92: with the second argument undefined, the first one is
      the error and the code is 500. */
  function DieArgs(first: Value, second: Value): (r: (int, Value))
    requires DieCallOk(first, second)
    ensures second == Undefined ==> r.0 == 500 && r.1 == first
    ensures second != Undefined ==> r.0 == first.n && r.1 == second
  {
    if second == Undefined then (500, first) else (first.n, second)
  }

  /** `die(err)` acts as `die(500, err)` for every error that is not
      `undefined` (an explicit `undefined` error shifts the code instead). */
  lemma DieOneArgumentDefaults(err: Value)
    requires err != Undefined && (Truthy(err) ==> !err.Fn?)
    ensures DieCallOk(err, Undefined) && DieCallOk(Num(500), err)
    ensures DieArgs(err, Undefined) == DieArgs(Num(500), err)
  {
  }

  /** index.js:93: "Failure" alone for a falsy error, otherwise followed by
      ": " and the error's string form. */
  function FailureBody(err: Value): (r: string)
    requires Truthy(err) ==> !err.Fn?
    ensures |r| >= 7 && r[..7] == "Failure"
    ensures (r == "Failure") <==> !Truthy(err)
    ensures Truthy(err) ==> r == "Failure: " + ToString(err)
  {
    if Truthy(err) then "Failure: " + ToString(err) else "Failure"
  }

  /** `redirect(http_code, location)`: the location is not a function, and
      a code is given whenever the second argument is defined. */
  predicate RedirectCallOk(first: Value, second: Value) {
    (second == Undefined ==> !first.Fn?) &&
    (second != Undefined ==> first.Num? && !second.Fn?)
  }

  /** index.js:98-101: with the second argument undefined, the first one is
      the location and the code is 302. The location is used in its string
      form, as the concatenation at index.js:103 uses it. */
  function RedirectArgs(first: Value, second: Value): (r: (int, string))
    requires RedirectCallOk(first, second)
    ensures second == Undefined ==> r.0 == 302 && r.1 == ToString(first)
    ensures second != Undefined ==> r.0 == first.n && r.1 == ToString(second)
  {
    if second == Undefined then (302, ToString(first)) else (first.n, ToString(second))
  }

  /** `redirect(location)` acts as `redirect(302, location)` for every
      location that is not `undefined`. */
  lemma RedirectOneArgumentDefaults(location: Value)
    requires location != Undefined && !location.Fn?
    ensures RedirectCallOk(location, Undefined) && RedirectCallOk(Num(302), location)
    ensures RedirectArgs(location, Undefined) == RedirectArgs(Num(302), location)
  {
  }

  const RedirectPrefix: string := "Redirecting to: "

  /** index.js:103: the fixed prefix followed by the location itself. */
  function RedirectBody(location: string): (r: string)
    ensures |r| == |RedirectPrefix| + |location|
    ensures r[..|RedirectPrefix|] == RedirectPrefix && r[|RedirectPrefix|..] == location
  {
    RedirectPrefix + location
  }

  /** The response sink: Node's `ServerResponse` as far as the helpers use it. */
  class Response {
    /** `statusCode`, 200 until a head is sent with another code. */
    var statusCode: int
    /** The headers of the head that was sent. */
    var headers: seq<Header>
    /** Whether the status line and headers have gone out. */
    var headSent: bool
    /** The strings written to the body, in order. */
    var written: seq<string>
    /** Whether `end()` has been called. */
    var ended: bool

    /** Nothing is written or ended before the head is out. */
    ghost predicate Valid()
      reads this
    {
      !headSent ==> written == [] && !ended
    }

    /** A response nothing has been sent on. */
    ghost predicate Untouched()
      reads this
    {
      !headSent && written == [] && !ended
    }

    constructor ()
      ensures Valid() && Untouched()
      ensures statusCode == 200 && headers == []
    {
      statusCode := 200;
      headers := [];
      headSent := false;
      written := [];
      ended := false;
    }

    /** `writeHead(code, headers)`: the head can go out only once. */
    method WriteHead(code: int, hs: seq<Header>)
      requires Valid() && !headSent
      modifies this
      ensures Valid() && headSent
      ensures statusCode == code && headers == hs
      ensures written == old(written) && ended == old(ended)
    {
      statusCode, headers, headSent := code, hs, true;
    }

    /** `write(s)`: sends the head implicitly, with the current status code,
        if it has not gone out yet. Nothing can be written after the end. */
    method Write(s: string)
      requires Valid() && !ended
      modifies this
      ensures Valid() && headSent && !ended
      ensures written == old(written) + [s]
      ensures statusCode == old(statusCode) && headers == old(headers)
    {
      headSent := true;
      written := written + [s];
    }

    /** `end()` */
    method End()
      requires Valid() && !ended
      modifies this
      ensures Valid() && headSent && ended
      ensures written == old(written)
      ensures statusCode == old(statusCode) && headers == old(headers)
    {
      headSent, ended := true, true;
    }

    /** index.js:63-66: one write, then the end. */
    method WriteEnd(s: string)
      requires Valid() && !ended
      modifies this
      ensures Valid() && headSent && ended
      ensures written == old(written) + [s]
      ensures statusCode == old(statusCode) && headers == old(headers)
    {
      Write(s);
      End();
    }

    /** index.js:67-70: a head with the code and a single Content-Type
        header, then one write of the body, then the end. */
    method WriteAll(code: int, contentType: string, body: string)
      requires Valid() && !headSent
      modifies this
      ensures Valid() && headSent && ended
      ensures statusCode == code && headers == [Header("Content-Type", contentType)]
      ensures written == [body]
    {
      WriteHead(code, [Header("Content-Type", contentType)]);
      WriteEnd(body);
    }

    /** index.js:71-80: status 200, `application/json`, the JSON text of the
        value or its inspection text when serializing throws. */
    method Json<T>(obj: T, stringify: T -> Serialized, inspect: T -> string)
      requires Valid() && !headSent
      modifies this
      ensures Valid() && headSent && ended
      ensures statusCode == 200 && headers == [Header("Content-Type", "application/json")]
      ensures written == [JsonText(obj, stringify, inspect)]
    {
      var json := JsonText(obj, stringify, inspect);
      WriteAll(200, "application/json", json);
    }

    /** index.js:81-83: status 200, `text/html`, the string unchanged. */
    method Html(s: string)
      requires Valid() && !headSent
      modifies this
      ensures Valid() && headSent && ended
      ensures statusCode == 200 && headers == [Header("Content-Type", "text/html")]
      ensures written == [s]
    {
      WriteAll(200, "text/html", s);
    }

    /** index.js:84-86: status 200, `text/plain`, the string unchanged. */
    method Text(s: string)
      requires Valid() && !headSent
      modifies this
      ensures Valid() && headSent && ended
      ensures statusCode == 200 && headers == [Header("Content-Type", "text/plain")]
      ensures written == [s]
    {
      WriteAll(200, "text/plain", s);
    }

    /** index.js:87-95: `die(err)` fails with 500, `die(code, err)` with the
        code; the body is the failure text, as plain text. */
    method Die(first: Value, second: Value)
      requires Valid() && !headSent && DieCallOk(first, second)
      modifies this
      ensures Valid() && headSent && ended
      ensures statusCode == (if second == Undefined then 500 else first.n)
      ensures headers == [Header("Content-Type", "text/plain")]
      ensures written == [FailureBody(if second == Undefined then first else second)]
    {
      var (code, err) := DieArgs(first, second);
      WriteAll(code, "text/plain", FailureBody(err));
    }

    /** index.js:96-104: `redirect(location)` with 302, `redirect(code,
        location)` with the code; a single Location header and the
        "Redirecting to: " body. */
    method Redirect(first: Value, second: Value)
      requires Valid() && !headSent && RedirectCallOk(first, second)
      modifies this
      ensures Valid() && headSent && ended
      ensures statusCode == (if second == Undefined then 302 else first.n)
      ensures var location := ToString(if second == Undefined then first else second);
        headers == [Header("Location", location)] && written == [RedirectBody(location)]
    {
      var (code, location) := RedirectArgs(first, second);
      WriteHead(code, [Header("Location", location)]);
      WriteEnd(RedirectBody(location));
    }
  }
}
