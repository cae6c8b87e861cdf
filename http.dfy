/** The transport boundary. Every HTTP round trip an adapter makes is one
    recorded `Request` answered by one `Reply` that the caller supplies, so
    the status, headers and body of a response are arbitrary. Nothing is
    sent: an operation returns the requests it would have made together with
    its result. */
module Http {
  import opened Php

  datatype Method = GET | POST | PUT | PATCH | DELETE

  /** A URL as handed to the transport: literal text, or a prefix followed by
      '?' and the `http_build_query` encoding of an array (kept as the array). */
  datatype Url =
    | Given(text: string)
    | WithQuery(prefix: string, query: Assoc<Value>)

  /** A request body:
      - `Payload`: the array handed to the adapter base class's `call()`/`execute()`
        or to the fetch library, which serialise it themselves;
      - `Form`: the `http_build_query` encoding of an array;
      - `Text`: a string sent verbatim. */
  datatype Body =
    | NoBody
    | Payload(params: Value)
    | Form(fields: Assoc<Value>)
    | Text(text: string)

  /** Header lists such as `['Content-Type: text/plain']` are kept as
      (name, value) pairs. */
  datatype Request = Request(verb: Method, url: Url, headers: Assoc<string>, body: Body)

  /** One response: `failure` is the transport's error message (curl_errno set,
      or the HTTP helper throwing), otherwise the status code, the raw header
      lines and the body. */
  datatype Reply = Reply(failure: Option<string>, status: int, headerLines: seq<string>, body: string)

  /** A thrown PHP exception (`new Exception($message, $code)`), or the
      TypeError PHP raises when a declared return type is not met. */
  datatype Error =
    | Exception(message: string, code: int)
    | TypeError(message: string)

  datatype Result<T> = Ok(value: T) | Err(error: Error)

  /** What an operation did: the requests, in order, and what it returned or threw. */
  datatype Outcome<T> = Outcome(calls: seq<Request>, result: Result<T>)

  /** An operation that returns before any request. */
  function Return<T>(v: T): (o: Outcome<T>)
    ensures o.calls == [] && o.result == Ok(v)
  {
    Outcome([], Ok(v))
  }

  /** An operation that throws before any request. */
  function Throw<T>(message: string): (o: Outcome<T>)
    ensures o.calls == [] && o.result.Err?
  {
    Outcome([], Err(Exception(message, 0)))
  }

  /** What the adapters' unsupported setters and checks always throw. */
  function NotImplemented<T>(): (r: Result<T>)
    ensures r.Err? && r.error.Exception? && r.error.message == "Not implemented"
  {
    Err(Exception("Not implemented", 0))
  }

  /** The error a failed round trip surfaces as, when the helper throws it. */
  function TransportError(reply: Reply): (e: Error)
    requires reply.failure.Some?
    ensures e.Exception? && e.message == reply.failure.value
  {
    Exception(reply.failure.value, reply.status)
  }
}
