/**
 The error taxonomy of the SDK and `parseError`, the classifier that turns a
 non-2xx response body into one of the sentinel errors (errors.go).
 */
module Errors {
  import opened Wrappers

  /** The 18 sentinel error values, one `errors.New` each. */
  datatype Sentinel =
    | NotFound
    | InvalidRouteParams
    | InvalidContentType
    | NoReply
    | StillResponding
    | NotReady
    | OngoingVoiceCallDetected
    | MessageLengthLimitExceeded
    | LimitExceeded
    | InsufficientPlan
    | ExceededRoomLimit
    | RoomNomiCountTooSmall
    | RoomNomiCountTooLarge
    | RoomNotFound
    | RoomNomiNotFound
    | RoomStillCreating
    | RoomNomiNotReadyForMessage
    | InvalidBody

  /** Failures reported by collaborators whose inside the model does not look at. */
  datatype DecodeError = DecodeError(detail: string)       // encoding/json
  datatype UuidError = UuidError(detail: string)           // google/uuid Parse
  datatype TransportError = TransportError(detail: string) // http.Client.Do
  datatype ReadError = ReadError(detail: string)           // io.ReadAll

  /** Every error value an operation of the SDK can hand back. */
  datatype Error =
    | Domain(sentinel: Sentinel)
      /** `fmt.Errorf("unknown error: %w", err)` with `err` nil: the tag is not kept. */
    | Unknown
      /** `errors.New("unknown error")`, the older classifier's fallback. */
    | LegacyUnknown
    | Decode(decode: DecodeError)
    | BadUuid(uuid: UuidError)
    | Transport(transport: TransportError)
    | Read(read: ReadError)

  /** A Go `error`: `None` is `nil`. */
  type GoError = Option<Error>

  /** The error envelope `{"error": {"type": ..., "issues": {...}}}`. */
  datatype Issues = Issues(
    code: string,
    expected: string,
    received: string,
    path: seq<string>,
    message: string,
    validation: string)

  datatype ApiError = ApiError(tag: string, issues: Issues)

  datatype Envelope = Envelope(err: ApiError)

  /** The cases of the `switch` on the envelope's tag, in source order. */
  const Table: seq<(string, Sentinel)> := [
    ("NomiNotFound", NotFound),
    ("InvalidRouteParams", InvalidRouteParams),
    ("InvalidContentType", InvalidContentType),
    ("NoReply", NoReply),
    ("NomiStillResponding", StillResponding),
    ("NomiNotReady", NotReady),
    ("OngoingVoiceCallDetected", OngoingVoiceCallDetected),
    ("MessageLengthLimitExceeded", MessageLengthLimitExceeded),
    ("LimitExceeded", LimitExceeded),
    ("InvalidBody", InvalidBody),
    ("InsufficientPlan", InsufficientPlan),
    ("ExceededRoomLimit", ExceededRoomLimit),
    ("RoomNomiCountTooSmall", RoomNomiCountTooSmall),
    ("RoomNomiCountTooLarge", RoomNomiCountTooLarge),
    ("RoomNotFound", RoomNotFound),
    ("RoomNomiNotFound", RoomNomiNotFound),
    ("RoomStillCreating", RoomStillCreating),
    ("RoomNomiNotReadyForMessage", RoomNomiNotReadyForMessage)
  ]

  /**
   A Go expression `switch` over string cases: the first case whose label equals
   the tag wins; `None` stands for falling through to `default`.
   */
  function Switch(cases: seq<(string, Sentinel)>, tag: string): (r: Option<Sentinel>)
    ensures r.Some? ==> (tag, r.value) in cases
    ensures r.None? ==> forall i :: 0 <= i < |cases| ==> cases[i].0 != tag
  {
    if |cases| == 0 then None
    else if cases[0].0 == tag then Some(cases[0].1)
    else Switch(cases[1..], tag)
  }

  /** No two cases share a label, so the order of the cases cannot change the outcome. */
  ghost predicate DistinctTags(cases: seq<(string, Sentinel)>)
  {
    forall i, j :: 0 <= i < j < |cases| ==> cases[i].0 != cases[j].0
  }

  /** With distinct labels, the switch selects the one case labelled with the tag. */
  lemma SwitchFindsUniqueCase(cases: seq<(string, Sentinel)>, tag: string, s: Sentinel)
    requires DistinctTags(cases)
    requires (tag, s) in cases
    ensures Switch(cases, tag) == Some(s)
  {
  }

  /**
   Cutting cases off the end of a switch never changes a match it still makes:
   the first matching case is found before the cut.
   */
  lemma {:induction false} SwitchOnPrefix(cases: seq<(string, Sentinel)>, n: nat, tag: string)
    requires n <= |cases|
    ensures Switch(cases[..n], tag).Some? ==> Switch(cases, tag) == Switch(cases[..n], tag)
  {
    if n > 0 && cases[0].0 != tag {
      assert cases[..n][1..] == cases[1..][..n - 1];
      SwitchOnPrefix(cases[1..], n - 1, tag);
    }
  }

  /** The tag a well-formed envelope carries for each sentinel, written independently of `Table`. */
  function TagOf(s: Sentinel): string
  {
    match s
    case NotFound => "NomiNotFound"
    case InvalidRouteParams => "InvalidRouteParams"
    case InvalidContentType => "InvalidContentType"
    case NoReply => "NoReply"
    case StillResponding => "NomiStillResponding"
    case NotReady => "NomiNotReady"
    case OngoingVoiceCallDetected => "OngoingVoiceCallDetected"
    case MessageLengthLimitExceeded => "MessageLengthLimitExceeded"
    case LimitExceeded => "LimitExceeded"
    case InvalidBody => "InvalidBody"
    case InsufficientPlan => "InsufficientPlan"
    case ExceededRoomLimit => "ExceededRoomLimit"
    case RoomNomiCountTooSmall => "RoomNomiCountTooSmall"
    case RoomNomiCountTooLarge => "RoomNomiCountTooLarge"
    case RoomNotFound => "RoomNotFound"
    case RoomNomiNotFound => "RoomNomiNotFound"
    case RoomStillCreating => "RoomStillCreating"
    case RoomNomiNotReadyForMessage => "RoomNomiNotReadyForMessage"
  }

  /** The set of tags the classifier recognises. */
  predicate Recognised(tag: string)
  {
    exists s :: TagOf(s) == tag
  }

  /** Classification of a decoded envelope's tag: a sentinel, or the unknown error. */
  function Classify(tag: string): (r: Error)
  {
    match Switch(Table, tag)
    case Some(s) => Domain(s)
    case None => Unknown
  }

  /**
   `parseError`: given the result of decoding the response body as an envelope,
   the error the operation returns.
   */
  function ParseError(decoded: Result<Envelope, DecodeError>): (r: GoError)
    ensures r.Some?
    ensures decoded.Failure? ==> r == Some(Decode(decoded.error))
    ensures decoded.Success? ==> r.value.Domain? || r.value == Unknown
  {
    match decoded
    case Failure(e) => Some(Decode(e))
    case Success(envelope) => Some(Classify(envelope.err.tag))
  }

  /** Every case of the table pairs a sentinel with that sentinel's tag. */
  lemma TableAgreesWithTagOf()
    ensures forall i :: 0 <= i < |Table| ==> Table[i].0 == TagOf(Table[i].1)
  {
  }

  /** No two sentinels share a tag. */
  lemma TagOfInjective(s1: Sentinel, s2: Sentinel)
    ensures TagOf(s1) == TagOf(s2) ==> s1 == s2
  {
  }

  /** The labels of the switch are pairwise distinct. */
  lemma TableTagsDistinct()
    ensures DistinctTags(Table)
  {
    TableAgreesWithTagOf();
    forall i, j | 0 <= i < j < |Table|
      ensures Table[i].0 != Table[j].0
    {
      TagOfInjective(Table[i].1, Table[j].1);
    }
  }

  /** Every sentinel has a case in the table. */
  lemma TableCoversSentinels(s: Sentinel)
    ensures (TagOf(s), s) in Table
  {
  }

  /** A tag the table matches is the tag of the sentinel it matches to. */
  lemma SwitchedTagIsTagOf(tag: string)
    ensures Switch(Table, tag).Some? ==> tag == TagOf(Switch(Table, tag).value)
  {
    TableAgreesWithTagOf();
  }

  /** Each recognised tag maps to its own sentinel. */
  lemma ClassifyTagOf(s: Sentinel)
    ensures Classify(TagOf(s)) == Domain(s)
  {
    TableCoversSentinels(s);
    TableTagsDistinct();
    SwitchFindsUniqueCase(Table, TagOf(s), s);
  }

  /** Classification yields a sentinel exactly for that sentinel's tag. */
  lemma ClassifyDomainIff(tag: string, s: Sentinel)
    ensures Classify(tag) == Domain(s) <==> tag == TagOf(s)
  {
    if tag == TagOf(s) {
      ClassifyTagOf(s);
    }
    if Classify(tag) == Domain(s) {
      SwitchedTagIsTagOf(tag);
    }
  }

  /** Classification falls back to the unknown error exactly on unrecognised tags. */
  lemma ClassifyUnknownIff(tag: string)
    ensures Classify(tag) == Unknown <==> !Recognised(tag)
  {
    if Recognised(tag) {
      var s :| TagOf(s) == tag;
      ClassifyTagOf(s);
    } else {
      SwitchedTagIsTagOf(tag);
    }
  }

  /**
   On a decoded envelope, `parseError` returns the sentinel whose tag the envelope
   carries and the unknown error for any other tag, the empty tag included.
   */
  lemma ParseErrorOnEnvelope(envelope: Envelope, s: Sentinel)
    ensures ParseError(Success(envelope)) == Some(Domain(s)) <==> envelope.err.tag == TagOf(s)
    ensures ParseError(Success(envelope)) == Some(Unknown) <==> !Recognised(envelope.err.tag)
  {
    ClassifyDomainIff(envelope.err.tag, s);
    ClassifyUnknownIff(envelope.err.tag);
  }

  /** Distinct recognised tags are classified as distinct sentinels. */
  lemma ParseErrorInjective(e1: Envelope, e2: Envelope)
    requires Recognised(e1.err.tag) && Recognised(e2.err.tag)
    requires e1.err.tag != e2.err.tag
    ensures ParseError(Success(e1)) != ParseError(Success(e2))
    ensures ParseError(Success(e1)).value.Domain? && ParseError(Success(e2)).value.Domain?
  {
    var s1 :| TagOf(s1) == e1.err.tag;
    var s2 :| TagOf(s2) == e2.err.tag;
    ClassifyTagOf(s1);
    ClassifyTagOf(s2);
  }

  /**
   Every unrecognised tag gives the same error, which is none of the sentinels:
   neither the tag nor the issues survive into the result.
   */
  lemma ParseErrorUnknownUniform(e1: Envelope, e2: Envelope)
    requires !Recognised(e1.err.tag) && !Recognised(e2.err.tag)
    ensures ParseError(Success(e1)) == ParseError(Success(e2)) == Some(Unknown)
    ensures forall s :: ParseError(Success(e1)) != Some(Domain(s))
  {
    ClassifyUnknownIff(e1.err.tag);
    ClassifyUnknownIff(e2.err.tag);
  }

  /** Only the tag routes the classification; the issues payload never influences it. */
  lemma ParseErrorIgnoresIssues(tag: string, i1: Issues, i2: Issues)
    ensures ParseError(Success(Envelope(ApiError(tag, i1)))) == ParseError(Success(Envelope(ApiError(tag, i2))))
  {
  }
}

