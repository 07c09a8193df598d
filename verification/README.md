# Request pipeline and error classification of the Nomi Go SDK

This project models, in Dafny, the request pipeline of the Nomi Go client and
its error classification. An operation runs some of these steps, in this order:
validate the route identifier (the seven operations that take one), build the
request (method, path under `https://api.nomi.ai/v1/`, headers, JSON body),
dispatch it, read the body and gate on the HTTP status (all but `GetNomis` and
`GetRooms`, which skip the gate, and `DeleteRoom`, which only switches on the
status), classify a failing response's error envelope into one of the SDK's 18
sentinel errors, and decode the body into the result (all but `DeleteRoom`).

The transport, `encoding/json` and `google/uuid` are collaborators the model
does not look inside: the transport's answer is an input value (`Reply`: a
failure of `Do`, or a status with the result of reading the body), and the
UUID parser and the JSON decoders are function-valued parameters
(`Http.Collaborators`). Each operation is a pure function returning a `Call`:
the request it dispatched (`None` when it returned before building one) and its
`Outcome` (`Ok(value)`, or `Err(error)` standing for Go's zero value plus a
non-nil error).

Modules follow the source files:

- `Errors` (errors.go): the sentinels, the envelope record, the ordered case
  table of `parseError`'s switch, and `ParseError`. `TagOf` is an independent
  inverse (sentinel to tag); the lemmas prove the table against it: every
  recognised tag maps to its own sentinel and only to it, the mapping is
  injective, every other tag gives one and the same unknown error, a decode
  failure is passed through, and the result is never nil.
- `LegacyErrors` (base.go:185-217): the older ten-case `parseError`, whose table
  is proved to be the first ten cases of the current one. The two revisions
  agree on decode failures and on the ten shared tags; on a tag neither
  revision recognises, both fall back to an unknown error, but not the same one (`LegacyUnknown` against
  `Unknown`); the eight room tags are unknown only to the older revision.
- `Http`: requests, replies, outcomes, the status gate and the tail of the
  pipeline that every operation except `DeleteRoom` repeats in the source
  (`Exchange`: read the body, optionally gate on the status, decode), plus two
  reference predicates of what the classifier promises (`Classified`, and
  `DecodedRegardless` for the two list operations that never look at the
  status).
- `Wire`: the service's method, path, body and header contract for each
  operation, written as a table separate from the operations.
- `Base` (base.go): `NewClient`, `GetNomis`, `GetNomi`, `SendMessage`.
- `Rooms` (rooms.go): `GetRooms`, `CreateRoom`, `GetRoom`, `SendRoomMessage`,
  `RequestNomiRoomMessage`, `UpdateRoom`, `DeleteRoom` and its status switch.

Four behaviours of the code a caller might not expect:

- An unrecognised tag does not keep the raw tag: the current `parseError`
  returns `fmt.Errorf("unknown error: %w", err)` with `err` nil (errors.go:100),
  modelled as the single value `Errors.Unknown`.
- A malformed identifier is not reported uniformly: `GetNomi`, `GetRoom` and
  `DeleteRoom` return the `InvalidRouteParams` sentinel, while `SendMessage`,
  `SendRoomMessage`, `RequestNomiRoomMessage` and `UpdateRoom` return the UUID
  parser's own error (`BadUuid`).
- `GetNomis` and `GetRooms` do not classify the status: whatever body arrives is
  decoded, whatever the status.
- `DeleteRoom` does not consult the error table: 204 is success, 400 and 404
  map to fixed sentinels and every other status (200 and 500 included) is
  `(false, nil)`.

## Model

| member | source | states |
|---|---|---|
| Errors.Switch | errors.go:62-101 | a matched case pairs the tag with the returned sentinel in the table; no match means no case label equals the tag |
| Errors.ParseError | errors.go:54-102 | never nil; a failed envelope decode returns that decode error itself; a decoded envelope gives a sentinel or the unknown error |
| Errors.SwitchFindsUniqueCase | errors.go:62-101 | when no two cases share a label, the switch selects exactly the case labelled with the tag |
| Errors.SwitchOnPrefix | errors.go:62-101 | a match found among the first cases of a switch is unchanged by the cases after them |
| Errors.TableTagsDistinct | errors.go:62-98 | no two cases of the switch share a label |
| Errors.TableAgreesWithTagOf | errors.go:62-98 | every case of the switch pairs a sentinel with that sentinel's tag |
| Errors.TagOfInjective | errors.go:62-98 | no two sentinels are selected by the same tag |
| Errors.TableCoversSentinels | errors.go:9-31 | each of the 18 sentinels has a case in the switch |
| Errors.SwitchedTagIsTagOf | errors.go:62-98 | a tag the switch matches is exactly the tag of the sentinel it returns |
| Errors.ClassifyTagOf | errors.go:62-98 | each recognised tag (e.g. NomiNotFound, RoomNotFound, InsufficientPlan) yields its fixed sentinel |
| Errors.ClassifyDomainIff | errors.go:62-98 | a tag is classified as sentinel s if and only if it is s's tag |
| Errors.ClassifyUnknownIff | errors.go:99-100 | a tag falls to the unknown error if and only if it is not one of the 18 recognised tags |
| Errors.ParseErrorOnEnvelope | errors.go:54-102 | on a decoded envelope the result is sentinel s iff the tag is s's tag, and the unknown error iff the tag (the empty one included) is unrecognised |
| Errors.ParseErrorInjective | errors.go:62-98 | distinct recognised tags yield distinct sentinels |
| Errors.ParseErrorUnknownUniform | errors.go:57-100 | every unrecognised tag gives the same unknown error, equal to none of the sentinels; the tag is not retained |
| Errors.ParseErrorIgnoresIssues | errors.go:42-62 | the issues payload never changes the classification; only the tag does |
| LegacyErrors.LegacyParseError | base.go:185-217 | never nil; a failed envelope decode returns the decode error; a decoded envelope gives a sentinel or the plain unknown error |
| LegacyErrors.LegacyTableIsPrefix | base.go:193-213 | the older switch's ten cases are the first ten cases of the current switch |
| LegacyErrors.LegacyTableContents | base.go:193-213 | the older switch has a case for a sentinel exactly when it is not one of the eight room sentinels, and each case carries that sentinel's tag |
| LegacyErrors.LegacyAgreesWithCurrent | base.go:185-217 | both revisions agree on decode failures and on every tag the older one recognises; where the older one gives up the current one gives up too or names a room sentinel |
| LegacyErrors.LegacyMissesRoomTags | base.go:214-215 | each room tag is unknown to the older switch but classified as its sentinel by the current one |
| Http.FromDecode | rooms.go:128-133 | the result is the decoded body when decoding succeeds, otherwise that decode error with no value |
| Http.StatusGate | rooms.go:121-126 | the status check lets the pipeline continue exactly for statuses 200..299; otherwise it stops with parseError's error |
| Http.Exchange | rooms.go:110-133 | with the status check, a transport or read failure surfaces unchanged, a 2xx body is decoded and any other status ends in parseError's error; without it the body is decoded whatever the status; a value is returned only from a successfully decoded body |
| Http.Non2xxNeverOk | rooms.go:121-126 | under the classifier's promise a status outside 200..299 never yields a value, only a sentinel, the unknown error or the envelope's decode error |
| Http.RegardlessAgreesOnSuccess | rooms.go:26-42 | ignoring the status gives the same outcome as checking it on 2xx replies and on failed exchanges |
| Http.HeaderValues | base.go:135-136 | a value is listed for a header name exactly when a header with that name and value was added |
| Http.HeaderValuesAppend | rooms.go:62-63 | headers added later contribute their values after those of headers added earlier |
| Wire.IdInPathExactlyWhenTaken | rooms.go:99-104 | the identifier is joined into the path, right after the resource name, exactly for the operations that take one |
| Wire.BodyExactlyOnPostAndPut | rooms.go:256-261 | the operations that carry a JSON body are exactly the POST and PUT ones |
| Base.NewClient | base.go:28-33 | the client keeps the API key unchanged and the base URL fixed to https://api.nomi.ai/v1/ |
| Base.Authorization | base.go:47 | a request without a body carries the key in one Authorization header and no Content-Type |
| Base.JsonHeaders | base.go:135-136 | a body-carrying request has one Content-Type application/json header and one Authorization header holding the key |
| Base.GetNomis | base.go:35-66 | always dispatches GET nomis with the key; the outcome is transport, read or decode result, whatever the status |
| Base.GetNomi | base.go:68-111 | a non-UUID id returns InvalidRouteParams with nothing sent; otherwise GET nomis/{id} with the key, classified by status |
| Base.SendMessage | base.go:113-162 | a non-UUID id returns the parser's error with nothing sent; otherwise POST nomis/{id}/chat with the encoded body, JSON content type and the key, classified by status |
| Base.ErrorStatusNeverDecoded | base.go:98-103 | GetNomi and SendMessage never return a value for a status outside 200..299 |
| Base.GetNomisIgnoresStatus | base.go:49-65 | listing Nomis gives the same outcome for any status with the same body |
| Rooms.GetRooms | rooms.go:12-43 | always dispatches GET rooms with the key; the outcome is transport, read or decode result, whatever the status |
| Rooms.CreateRoom | rooms.go:45-89 | always dispatches POST rooms with the encoded body, JSON content type and the key; the outcome is classified by status |
| Rooms.GetRoom | rooms.go:91-134 | a non-UUID id returns InvalidRouteParams with nothing sent; otherwise GET rooms/{id} with the key, classified by status |
| Rooms.SendRoomMessage | rooms.go:136-185 | a non-UUID id returns the parser's error with nothing sent; otherwise POST rooms/{id}/chat with the encoded body, classified by status |
| Rooms.RequestNomiRoomMessage | rooms.go:187-236 | a non-UUID id returns the parser's error with nothing sent; otherwise POST rooms/{id}/chat/request with the encoded body, classified by status |
| Rooms.UpdateRoom | rooms.go:238-287 | a non-UUID id returns the parser's error with nothing sent; otherwise PUT rooms/{id} with the encoded body, classified by status |
| Rooms.DeleteStatus | rooms.go:312-321 | success exactly on 204; an error exactly on 400 (InvalidRouteParams) and 404 (RoomNotFound); every other status is "not deleted" with no error |
| Rooms.DeleteRoom | rooms.go:289-322 | a non-UUID id returns InvalidRouteParams with nothing sent; otherwise DELETE rooms/{id} with the key; (true, nil) iff the reply's status is 204; a transport failure surfaces unchanged; a reply is judged by its status alone |
| Rooms.ErrorStatusNeverDecoded | rooms.go:76-81 | CreateRoom, GetRoom, SendRoomMessage, RequestNomiRoomMessage and UpdateRoom never return a value for a status outside 200..299 |
| Rooms.GetRoomsIgnoresStatus | rooms.go:26-42 | listing rooms gives the same outcome for any status with the same body |
| Rooms.DeleteRoomIgnoresBody | rooms.go:306-321 | deleting never reads the body: two replies with the same status give the same result |

## Left out

- Network dispatch (`http.DefaultClient.Do`), `io.ReadAll` and `defer Body.Close`: I/O. The transport's answer is the `Reply` input; closing the body has no observable effect on the outcome.
- `encoding/json` `Marshal`/`Unmarshal`: a foreign library. Decoding is a parameter returning success or a decode error; request bodies are encoded by a parameter. Partially filled results on a failed decode are not modelled because the source always returns the zero value then.
- `google/uuid` `Parse` and `String`: a foreign library. Parsing is a parameter; `Uuid.text` stands for the canonical rendering joined into the path.
- `url.JoinPath` and `http.NewRequest` failures, and `json.Marshal` failures of the request structs: not reachable, since the base URL is always the fixed constant and the methods are constants; `SendMessageBody` holds a single string (types.go:56-58), and the room request types, which are not part of this model, are assumed likewise to hold only strings, booleans and UUIDs, which always marshal. Paths are sequences of segments; escaping and slash normalisation are not modelled.
- `Error()` formatting of the envelope and the sentinels' message texts: presentation only.
- Go error identity: errors are compared structurally. Each call of the unknown-error constructors makes a fresh Go value, so two unknown errors are equal here but not `==` in Go; the sentinels behave the same in both.
- The `API` interface declaration and types.go (entity records, enumerations, a second copy of the sentinels): data declarations with no behaviour. The room request and response types are not part of this model beyond the generic body and result type parameters.
- The integration tests: they run against the live service and are not a model target.
- Wire.Conforms: states which headers a request carries, not the order in which they are added.
