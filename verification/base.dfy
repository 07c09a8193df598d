/**
 The client and the three single-Nomi operations (base.go): list Nomis, fetch
 one Nomi, and send it a chat message.
 */
module Base {
  import opened Wrappers
  import opened Errors
  import opened Http
  import Wire

  /** The client configuration: the credential and the base URL, fixed at construction. */
  datatype Client = Client(apiKey: string, baseUrl: string)

  /** Clients only come from `NewClient`, so their base URL is always the service's. */
  type ApiClient = c: Client | c.baseUrl == Wire.ApiBase witness Client("", Wire.ApiBase)

  function NewClient(apiKey: string): (c: ApiClient)
    ensures c.apiKey == apiKey
    ensures c.baseUrl == "https://api.nomi.ai/v1/"
  {
    Client(apiKey, Wire.ApiBase)
  }

  /** The single header every request carries. */
  function Authorization(c: Client): (h: Header)
    ensures HeaderValues([h], "Authorization") == [c.apiKey]
    ensures HeaderValues([h], "Content-Type") == []
  {
    Header("Authorization", c.apiKey)
  }

  /** The headers of a body-carrying request, in the order the source adds them. */
  function JsonHeaders(c: Client): (hs: seq<Header>)
    ensures HeaderValues(hs, "Authorization") == [c.apiKey]
    ensures HeaderValues(hs, "Content-Type") == ["application/json"]
  {
    var hs := [Header("Content-Type", "application/json")] + [Authorization(c)];
    HeaderValuesAppend([Header("Content-Type", "application/json")], [Authorization(c)], "Authorization");
    HeaderValuesAppend([Header("Content-Type", "application/json")], [Authorization(c)], "Content-Type");
    hs
  }

  /** GET nomis: the status is never consulted; whatever body arrives is decoded. */
  function GetNomis<T>(c: ApiClient, json: Collaborators<T>, reply: Reply): (r: Call<T>)
    ensures r.sent.Some? && Wire.Conforms(Wire.GetNomis, c.apiKey, "", r.sent.value)
    ensures DecodedRegardless(reply, json, r.outcome)
  {
    var req := Request(Get, c.baseUrl, ["nomis"], [Authorization(c)], None);
    Call(Some(req), Exchange(reply, false, json))
  }

  /** GET nomis/{id}: a malformed id is `InvalidRouteParams` and nothing is sent. */
  function GetNomi<T>(c: ApiClient, nomiId: string, json: Collaborators<T>, reply: Reply): (r: Call<T>)
    ensures r.sent.None? <==> json.parseUuid(nomiId).Failure?
    ensures json.parseUuid(nomiId).Failure? ==> r.outcome == Err(Domain(InvalidRouteParams))
    ensures json.parseUuid(nomiId).Success? ==>
              && Wire.Conforms(Wire.GetNomi, c.apiKey, json.parseUuid(nomiId).value.text, r.sent.value)
              && Classified(reply, json, r.outcome)
  {
    match json.parseUuid(nomiId)
    case Failure(_) => Call(None, Err(Domain(InvalidRouteParams)))
    case Success(id) =>
      var req := Request(Get, c.baseUrl, ["nomis", id.text], [Authorization(c)], None);
      Call(Some(req), Exchange(reply, true, json))
  }

  /**
   POST nomis/{id}/chat with the encoded message: a malformed id returns the
   parser's own error and nothing is sent.
   */
  function SendMessage<B, T>(c: ApiClient, nomiId: string, body: B, encode: B -> Bytes, json: Collaborators<T>, reply: Reply): (r: Call<T>)
    ensures r.sent.None? <==> json.parseUuid(nomiId).Failure?
    ensures json.parseUuid(nomiId).Failure? ==> r.outcome == Err(BadUuid(json.parseUuid(nomiId).error))
    ensures json.parseUuid(nomiId).Success? ==>
              && Wire.Conforms(Wire.SendMessage, c.apiKey, json.parseUuid(nomiId).value.text, r.sent.value)
              && r.sent.value.body == Some(encode(body))
              && Classified(reply, json, r.outcome)
  {
    match json.parseUuid(nomiId)
    case Failure(e) => Call(None, Err(BadUuid(e)))
    case Success(id) =>
      var req := Request(Post, c.baseUrl, ["nomis", id.text, "chat"], JsonHeaders(c), Some(encode(body)));
      Call(Some(req), Exchange(reply, true, json))
  }

  /**
   Since `parseError` never returns nil, fetching a Nomi or sending it a message
   never hands back a decoded value for a status outside 200..299.
   */
  lemma ErrorStatusNeverDecoded<B, T>(c: ApiClient, nomiId: string, body: B, encode: B -> Bytes, json: Collaborators<T>, reply: Reply)
    requires reply.Response? && !IsSuccess(reply.status)
    ensures GetNomi(c, nomiId, json, reply).outcome.Err?
    ensures SendMessage(c, nomiId, body, encode, json, reply).outcome.Err?
  {
    if json.parseUuid(nomiId).Success? {
      Non2xxNeverOk(reply, json, GetNomi(c, nomiId, json, reply).outcome);
      Non2xxNeverOk(reply, json, SendMessage(c, nomiId, body, encode, json, reply).outcome);
    }
  }

  /** Listing Nomis gives the same outcome whatever status accompanies the body. */
  lemma GetNomisIgnoresStatus<T>(c: ApiClient, json: Collaborators<T>, s1: int, s2: int, read: Result<Bytes, ReadError>)
    ensures GetNomis(c, json, Response(s1, read)).outcome == GetNomis(c, json, Response(s2, read)).outcome
  {
  }
}
