/**
 The request/response exchange: the request an operation sends, the reply the
 transport gives back, and the steps every operation except `DeleteRoom` runs
 after dispatch (read the body, gate on the status, decode the result).
 */
module Http {
  import opened Wrappers
  import opened Errors

  datatype Method = Get | Post | Put | Delete

  datatype Header = Header(name: string, value: string)

  /** A request: the client's base URL joined with path segments, headers in `Add` order, optional JSON body. */
  datatype Request = Request(
    verb: Method,
    base: string,
    segments: seq<string>,
    headers: seq<Header>,
    body: Option<Bytes>)

  /** What the transport gives back: a failure of `Do`, or a status with the outcome of reading the body. */
  datatype Reply =
    | TransportFail(failure: TransportError)
    | Response(status: int, body: Result<Bytes, ReadError>)

  /** A parsed identifier; `text` is its canonical rendering, the one joined into paths. */
  datatype Uuid = Uuid(text: string)

  /**
   The libraries the operations delegate to: google/uuid's `Parse`, and
   encoding/json's `Unmarshal` into the error envelope and into the result type.
   */
  datatype Collaborators<T> = Collaborators(
    parseUuid: string -> Result<Uuid, UuidError>,
    decodeEnvelope: Bytes -> Result<Envelope, DecodeError>,
    decodeResult: Bytes -> Result<T, DecodeError>)

  /** An operation's Go return pair: the value, or a non-nil error with the zero value. */
  datatype Outcome<T> = Ok(value: T) | Err(error: Error)

  /** What one call of an operation did: the request it dispatched, if any, and its outcome. */
  datatype Call<T> = Call(sent: Option<Request>, outcome: Outcome<T>)

  /** The status range the operations treat as success. */
  predicate IsSuccess(status: int)
  {
    !(status < 200 || status > 299)
  }

  /** The final `json.Unmarshal` into the result type. */
  function FromDecode<T>(decoded: Result<T, DecodeError>): (r: Outcome<T>)
    ensures r.Ok? <==> decoded.Success?
    ensures r.Ok? ==> r.value == decoded.value
    ensures r.Err? ==> r.error == Decode(decoded.error)
  {
    match decoded
    case Success(v) => Ok(v)
    case Failure(e) => Err(Decode(e))
  }

  /**
   The status check: outside 200..299 the body goes through `parseError`, whose
   error (when non-nil) ends the operation. The result is nil exactly on success.
   */
  function StatusGate(status: int, body: Bytes, decodeEnvelope: Bytes -> Result<Envelope, DecodeError>): (r: GoError)
    ensures r.None? <==> IsSuccess(status)
    ensures r.Some? ==> r == ParseError(decodeEnvelope(body))
  {
    if status < 200 || status > 299 then ParseError(decodeEnvelope(body)) else None
  }

  /**
   What the response classifier promises for a reply: transport and read
   failures surface unchanged; a 2xx body is decoded into the result; any other
   status ends in the error `parseError` gives for the body, never in a value.
   */
  ghost predicate Classified<T>(reply: Reply, json: Collaborators<T>, o: Outcome<T>)
  {
    match reply
    case TransportFail(e) => o == Err(Transport(e))
    case Response(status, read) =>
      match read
      case Failure(e) => o == Err(Read(e))
      case Success(body) =>
        if IsSuccess(status) then o == FromDecode(json.decodeResult(body))
        else o.Err? && Some(o.error) == ParseError(json.decodeEnvelope(body))
  }

  /** The same promise for an operation that never looks at the status. */
  ghost predicate DecodedRegardless<T>(reply: Reply, json: Collaborators<T>, o: Outcome<T>)
  {
    match reply
    case TransportFail(e) => o == Err(Transport(e))
    case Response(_, read) =>
      match read
      case Failure(e) => o == Err(Read(e))
      case Success(body) => o == FromDecode(json.decodeResult(body))
  }

  /**
   What every operation except `DeleteRoom` does after building its request:
   dispatch, read the body, optionally gate on the status, then decode the
   result. `DeleteRoom` only switches on the status (`Rooms.DeleteStatus`).
   */
  function Exchange<T>(reply: Reply, checkStatus: bool, json: Collaborators<T>): (r: Outcome<T>)
    ensures checkStatus ==> Classified(reply, json, r)
    ensures !checkStatus ==> DecodedRegardless(reply, json, r)
    ensures r.Ok? ==> reply.Response? && reply.body.Success? && json.decodeResult(reply.body.value) == Success(r.value)
  {
    match reply
    case TransportFail(e) => Err(Transport(e))
    case Response(status, read) =>
      match read
      case Failure(e) => Err(Read(e))
      case Success(body) =>
        var gate := if checkStatus then StatusGate(status, body, json.decodeEnvelope) else None;
        if gate.Some? then Err(gate.value) else FromDecode(json.decodeResult(body))
  }

  /** The values of every header with the given name, in the order they were added. */
  function HeaderValues(headers: seq<Header>, name: string): (r: seq<string>)
    ensures forall v :: v in r <==> Header(name, v) in headers
  {
    if |headers| == 0 then []
    else (if headers[0].name == name then [headers[0].value] else []) + HeaderValues(headers[1..], name)
  }

  /** Adding headers after others appends their values after the earlier ones. */
  lemma {:induction false} HeaderValuesAppend(a: seq<Header>, b: seq<Header>, name: string)
    ensures HeaderValues(a + b, name) == HeaderValues(a, name) + HeaderValues(b, name)
  {
    if |a| > 0 {
      assert (a + b)[1..] == a[1..] + b;
      HeaderValuesAppend(a[1..], b, name);
    } else {
      assert a + b == b;
    }
  }

  /** Under the classifier's promise a status outside 200..299 never yields a decoded value. */
  lemma Non2xxNeverOk<T>(reply: Reply, json: Collaborators<T>, o: Outcome<T>)
    requires Classified(reply, json, o)
    requires reply.Response? && !IsSuccess(reply.status)
    ensures o.Err?
    ensures reply.body.Success? ==> o.error.Domain? || o.error == Unknown || o.error.Decode?
  {
  }

  /** Ignoring the status agrees with classifying it on 2xx replies and on failed exchanges. */
  lemma RegardlessAgreesOnSuccess<T>(reply: Reply, json: Collaborators<T>, o: Outcome<T>)
    requires DecodedRegardless(reply, json, o)
    requires reply.TransportFail? || reply.body.Failure? || IsSuccess(reply.status)
    ensures Classified(reply, json, o)
  {
  }
}
