/**
 The service's wire contract for each operation of the client, written as a
 table independent of the operations themselves: method, path under the base
 URL, whether a JSON body travels, and the headers a request must carry.
 */
module Wire {
  import opened Wrappers
  import opened Http

  datatype Op =
    | GetNomis | GetNomi | SendMessage
    | GetRooms | CreateRoom | GetRoom | SendRoomMessage | RequestNomiRoomMessage | UpdateRoom | DeleteRoom

  const ApiBase := "https://api.nomi.ai/v1/"

  function MethodOf(op: Op): Method
  {
    match op
    case GetNomis | GetNomi | GetRooms | GetRoom => Get
    case SendMessage | CreateRoom | SendRoomMessage | RequestNomiRoomMessage => Post
    case UpdateRoom => Put
    case DeleteRoom => Delete
  }

  /** The path segments joined onto the base URL; `id` is the canonical identifier. */
  function PathOf(op: Op, id: string): seq<string>
  {
    match op
    case GetNomis => ["nomis"]
    case GetNomi => ["nomis", id]
    case SendMessage => ["nomis", id, "chat"]
    case GetRooms | CreateRoom => ["rooms"]
    case GetRoom | UpdateRoom | DeleteRoom => ["rooms", id]
    case SendRoomMessage => ["rooms", id, "chat"]
    case RequestNomiRoomMessage => ["rooms", id, "chat", "request"]
  }

  /** The operations whose request carries a JSON body. */
  predicate CarriesBody(op: Op)
  {
    op in {SendMessage, CreateRoom, SendRoomMessage, RequestNomiRoomMessage, UpdateRoom}
  }

  /** The operations that take an identifier and put it into the path. */
  predicate TakesId(op: Op)
  {
    !(op in {GetNomis, GetRooms, CreateRoom})
  }

  /**
   A request matches the contract for `op`: right method, base and path, the
   credential in exactly one `Authorization` header, and a JSON body announced
   by exactly one `Content-Type` header precisely when the operation carries one.
   */
  predicate Conforms(op: Op, apiKey: string, id: string, req: Request)
  {
    && req.verb == MethodOf(op)
    && req.base == ApiBase
    && req.segments == PathOf(op, id)
    && HeaderValues(req.headers, "Authorization") == [apiKey]
    && HeaderValues(req.headers, "Content-Type") == (if CarriesBody(op) then ["application/json"] else [])
    && req.body.Some? == CarriesBody(op)
  }

  /** Bodies travel exactly on the POST and PUT requests. */
  lemma BodyExactlyOnPostAndPut(op: Op)
    ensures CarriesBody(op) <==> MethodOf(op) == Post || MethodOf(op) == Put
  {
  }

  /** The identifier is joined into the path, right after the resource, exactly for the operations that take one. */
  lemma IdInPathExactlyWhenTaken(op: Op, id: string)
    ensures TakesId(op) <==> |PathOf(op, id)| > 1
    ensures TakesId(op) ==> PathOf(op, id)[1] == id
  {
  }
}
