/**
 The room operations (rooms.go): list, create, fetch, update and delete rooms,
 send a message into a room, and ask one Nomi of a room to reply.
 */
module Rooms {
  import opened Wrappers
  import opened Errors
  import opened Http
  import opened Base
  import Wire

  /** GET rooms: the status is never consulted; whatever body arrives is decoded. */
  function GetRooms<T>(c: ApiClient, json: Collaborators<T>, reply: Reply): (r: Call<T>)
    ensures r.sent.Some? && Wire.Conforms(Wire.GetRooms, c.apiKey, "", r.sent.value)
    ensures DecodedRegardless(reply, json, r.outcome)
  {
    var req := Request(Get, c.baseUrl, ["rooms"], [Authorization(c)], None);
    Call(Some(req), Exchange(reply, false, json))
  }

  /** POST rooms with the encoded room description. */
  function CreateRoom<B, T>(c: ApiClient, body: B, encode: B -> Bytes, json: Collaborators<T>, reply: Reply): (r: Call<T>)
    ensures r.sent.Some? && Wire.Conforms(Wire.CreateRoom, c.apiKey, "", r.sent.value)
    ensures r.sent.value.body == Some(encode(body))
    ensures Classified(reply, json, r.outcome)
  {
    var req := Request(Post, c.baseUrl, ["rooms"], JsonHeaders(c), Some(encode(body)));
    Call(Some(req), Exchange(reply, true, json))
  }

  /** GET rooms/{id}: a malformed id is `InvalidRouteParams` and nothing is sent. */
  function GetRoom<T>(c: ApiClient, roomId: string, json: Collaborators<T>, reply: Reply): (r: Call<T>)
    ensures r.sent.None? <==> json.parseUuid(roomId).Failure?
    ensures json.parseUuid(roomId).Failure? ==> r.outcome == Err(Domain(InvalidRouteParams))
    ensures json.parseUuid(roomId).Success? ==>
              && Wire.Conforms(Wire.GetRoom, c.apiKey, json.parseUuid(roomId).value.text, r.sent.value)
              && Classified(reply, json, r.outcome)
  {
    match json.parseUuid(roomId)
    case Failure(_) => Call(None, Err(Domain(InvalidRouteParams)))
    case Success(id) =>
      var req := Request(Get, c.baseUrl, ["rooms", id.text], [Authorization(c)], None);
      Call(Some(req), Exchange(reply, true, json))
  }

  /** POST rooms/{id}/chat: a malformed id returns the parser's own error and nothing is sent. */
  function SendRoomMessage<B, T>(c: ApiClient, roomId: string, body: B, encode: B -> Bytes, json: Collaborators<T>, reply: Reply): (r: Call<T>)
    ensures r.sent.None? <==> json.parseUuid(roomId).Failure?
    ensures json.parseUuid(roomId).Failure? ==> r.outcome == Err(BadUuid(json.parseUuid(roomId).error))
    ensures json.parseUuid(roomId).Success? ==>
              && Wire.Conforms(Wire.SendRoomMessage, c.apiKey, json.parseUuid(roomId).value.text, r.sent.value)
              && r.sent.value.body == Some(encode(body))
              && Classified(reply, json, r.outcome)
  {
    match json.parseUuid(roomId)
    case Failure(e) => Call(None, Err(BadUuid(e)))
    case Success(id) =>
      var req := Request(Post, c.baseUrl, ["rooms", id.text, "chat"], JsonHeaders(c), Some(encode(body)));
      Call(Some(req), Exchange(reply, true, json))
  }

  /** POST rooms/{id}/chat/request: a malformed id returns the parser's own error and nothing is sent. */
  function RequestNomiRoomMessage<B, T>(c: ApiClient, roomId: string, body: B, encode: B -> Bytes, json: Collaborators<T>, reply: Reply): (r: Call<T>)
    ensures r.sent.None? <==> json.parseUuid(roomId).Failure?
    ensures json.parseUuid(roomId).Failure? ==> r.outcome == Err(BadUuid(json.parseUuid(roomId).error))
    ensures json.parseUuid(roomId).Success? ==>
              && Wire.Conforms(Wire.RequestNomiRoomMessage, c.apiKey, json.parseUuid(roomId).value.text, r.sent.value)
              && r.sent.value.body == Some(encode(body))
              && Classified(reply, json, r.outcome)
  {
    match json.parseUuid(roomId)
    case Failure(e) => Call(None, Err(BadUuid(e)))
    case Success(id) =>
      var req := Request(Post, c.baseUrl, ["rooms", id.text, "chat", "request"], JsonHeaders(c), Some(encode(body)));
      Call(Some(req), Exchange(reply, true, json))
  }

  /** PUT rooms/{id}: a malformed id returns the parser's own error and nothing is sent. */
  function UpdateRoom<B, T>(c: ApiClient, roomId: string, body: B, encode: B -> Bytes, json: Collaborators<T>, reply: Reply): (r: Call<T>)
    ensures r.sent.None? <==> json.parseUuid(roomId).Failure?
    ensures json.parseUuid(roomId).Failure? ==> r.outcome == Err(BadUuid(json.parseUuid(roomId).error))
    ensures json.parseUuid(roomId).Success? ==>
              && Wire.Conforms(Wire.UpdateRoom, c.apiKey, json.parseUuid(roomId).value.text, r.sent.value)
              && r.sent.value.body == Some(encode(body))
              && Classified(reply, json, r.outcome)
  {
    match json.parseUuid(roomId)
    case Failure(e) => Call(None, Err(BadUuid(e)))
    case Success(id) =>
      var req := Request(Put, c.baseUrl, ["rooms", id.text], JsonHeaders(c), Some(encode(body)));
      Call(Some(req), Exchange(reply, true, json))
  }

  /**
   The status switch of a delete: 204 is success, 400 and 404 name their
   sentinels, and every other status is silently "not deleted, no error".
   */
  function DeleteStatus(status: int): (r: Outcome<bool>)
    ensures r == Ok(true) <==> status == 204
    ensures r.Err? <==> status == 400 || status == 404
    ensures r.Err? ==> r.error == Domain(if status == 400 then InvalidRouteParams else RoomNotFound)
    ensures r.Ok? && status != 204 ==> r == Ok(false)
  {
    match status
    case 204 => Ok(true)
    case 400 => Err(Domain(InvalidRouteParams))
    case 404 => Err(Domain(RoomNotFound))
    case _ => Ok(false)
  }

  /**
   DELETE rooms/{id}: a malformed id is `InvalidRouteParams` and nothing is sent;
   the body is never read, so only the status decides the outcome.
   */
  function DeleteRoom(c: ApiClient, roomId: string, parseUuid: string -> Result<Uuid, UuidError>, reply: Reply): (r: Call<bool>)
    ensures r.sent.None? <==> parseUuid(roomId).Failure?
    ensures parseUuid(roomId).Failure? ==> r.outcome == Err(Domain(InvalidRouteParams))
    ensures parseUuid(roomId).Success? ==> Wire.Conforms(Wire.DeleteRoom, c.apiKey, parseUuid(roomId).value.text, r.sent.value)
    ensures r.outcome == Ok(true) <==> r.sent.Some? && reply.Response? && reply.status == 204
    ensures r.sent.Some? && reply.TransportFail? ==> r.outcome == Err(Transport(reply.failure))
    ensures r.sent.Some? && reply.Response? ==> r.outcome == DeleteStatus(reply.status)
  {
    match parseUuid(roomId)
    case Failure(_) => Call(None, Err(Domain(InvalidRouteParams)))
    case Success(id) =>
      var req := Request(Delete, c.baseUrl, ["rooms", id.text], [Authorization(c)], None);
      match reply
      case TransportFail(e) => Call(Some(req), Err(Transport(e)))
      case Response(status, _) => Call(Some(req), DeleteStatus(status))
  }

  /**
   Since `parseError` never returns nil, a room operation that checks the status
   never hands back a decoded value for a status outside 200..299.
   */
  lemma ErrorStatusNeverDecoded<B, T>(c: ApiClient, roomId: string, body: B, encode: B -> Bytes, json: Collaborators<T>, reply: Reply)
    requires reply.Response? && !IsSuccess(reply.status)
    ensures CreateRoom(c, body, encode, json, reply).outcome.Err?
    ensures GetRoom(c, roomId, json, reply).outcome.Err?
    ensures SendRoomMessage(c, roomId, body, encode, json, reply).outcome.Err?
    ensures RequestNomiRoomMessage(c, roomId, body, encode, json, reply).outcome.Err?
    ensures UpdateRoom(c, roomId, body, encode, json, reply).outcome.Err?
  {
    Non2xxNeverOk(reply, json, CreateRoom(c, body, encode, json, reply).outcome);
    if json.parseUuid(roomId).Success? {
      Non2xxNeverOk(reply, json, GetRoom(c, roomId, json, reply).outcome);
      Non2xxNeverOk(reply, json, SendRoomMessage(c, roomId, body, encode, json, reply).outcome);
      Non2xxNeverOk(reply, json, RequestNomiRoomMessage(c, roomId, body, encode, json, reply).outcome);
      Non2xxNeverOk(reply, json, UpdateRoom(c, roomId, body, encode, json, reply).outcome);
    }
  }

  /** Listing rooms gives the same outcome whatever status accompanies the body. */
  lemma GetRoomsIgnoresStatus<T>(c: ApiClient, json: Collaborators<T>, s1: int, s2: int, read: Result<Bytes, ReadError>)
    ensures GetRooms(c, json, Response(s1, read)).outcome == GetRooms(c, json, Response(s2, read)).outcome
  {
  }

  /** Deleting a room never reads the body: only the status (or a transport failure) matters. */
  lemma DeleteRoomIgnoresBody(c: ApiClient, roomId: string, parseUuid: string -> Result<Uuid, UuidError>, status: int, b1: Result<Bytes, ReadError>, b2: Result<Bytes, ReadError>)
    ensures DeleteRoom(c, roomId, parseUuid, Response(status, b1)) == DeleteRoom(c, roomId, parseUuid, Response(status, b2))
  {
  }
}
