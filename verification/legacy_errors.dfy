/**
 The older revision of `parseError` that base.go still carries: the same switch,
 but only over the ten tags of the single-Nomi endpoints, and a plain
 "unknown error" fallback.
 */
module LegacyErrors {
  import opened Wrappers
  import opened Errors

  /** The ten cases of the older switch, in source order. */
  const LegacyTable: seq<(string, Sentinel)> := [
    ("NomiNotFound", NotFound),
    ("InvalidRouteParams", InvalidRouteParams),
    ("InvalidContentType", InvalidContentType),
    ("NoReply", NoReply),
    ("NomiStillResponding", StillResponding),
    ("NomiNotReady", NotReady),
    ("OngoingVoiceCallDetected", OngoingVoiceCallDetected),
    ("MessageLengthLimitExceeded", MessageLengthLimitExceeded),
    ("LimitExceeded", LimitExceeded),
    ("InvalidBody", InvalidBody)
  ]

  /** The sentinels introduced for rooms and plans, unknown to the older switch. */
  predicate IsRoomSentinel(s: Sentinel)
  {
    || s == InsufficientPlan
    || s == ExceededRoomLimit
    || s == RoomNomiCountTooSmall
    || s == RoomNomiCountTooLarge
    || s == RoomNotFound
    || s == RoomNomiNotFound
    || s == RoomStillCreating
    || s == RoomNomiNotReadyForMessage
  }

  /** The older `parseError`. */
  function LegacyParseError(decoded: Result<Envelope, DecodeError>): (r: GoError)
    ensures r.Some?
    ensures decoded.Failure? ==> r == Some(Decode(decoded.error))
    ensures decoded.Success? ==> r.value.Domain? || r.value == LegacyUnknown
  {
    match decoded
    case Failure(e) => Some(Decode(e))
    case Success(envelope) =>
      match Switch(LegacyTable, envelope.err.tag)
      case Some(s) => Some(Domain(s))
      case None => Some(LegacyUnknown)
  }

  /** The older table is exactly the first ten cases of the current one. */
  lemma LegacyTableIsPrefix()
    ensures LegacyTable == Table[..10]
  {
  }

  /** The older table pairs each of the non-room sentinels with that sentinel's tag. */
  lemma LegacyTableContents(s: Sentinel)
    ensures (TagOf(s), s) in LegacyTable <==> !IsRoomSentinel(s)
    ensures forall i :: 0 <= i < |LegacyTable| ==> LegacyTable[i].0 == TagOf(LegacyTable[i].1)
  {
  }

  /**
   The two revisions agree wherever the older one recognises the tag or the
   envelope fails to decode; where the older one gives up, the current one either
   gives up too or names one of the room sentinels.
   */
  lemma LegacyAgreesWithCurrent(decoded: Result<Envelope, DecodeError>)
    ensures decoded.Failure? ==> LegacyParseError(decoded) == ParseError(decoded)
    ensures LegacyParseError(decoded).value.Domain? ==> LegacyParseError(decoded) == ParseError(decoded)
    ensures LegacyParseError(decoded) == Some(LegacyUnknown) ==>
              ParseError(decoded) == Some(Unknown)
              || (ParseError(decoded).value.Domain? && IsRoomSentinel(ParseError(decoded).value.sentinel))
    ensures ParseError(decoded).value.Domain? && !IsRoomSentinel(ParseError(decoded).value.sentinel) ==>
              LegacyParseError(decoded) == ParseError(decoded)
  {
    if decoded.Success? {
      var tag := decoded.value.err.tag;
      LegacyTableIsPrefix();
      SwitchOnPrefix(Table, 10, tag);
      LegacyTableContents(NotFound);
      var legacy := Switch(LegacyTable, tag);
      var current := ParseError(decoded).value;
      if current.Domain? {
        ClassifyDomainIff(tag, current.sentinel);
        LegacyTableContents(current.sentinel);
        if legacy.Some? {
          TagOfInjective(legacy.value, current.sentinel);
        }
      }
    }
  }

  /** A tag only the current revision knows is a room tag, and the older one calls it unknown. */
  lemma LegacyMissesRoomTags(s: Sentinel, issues: Issues)
    requires IsRoomSentinel(s)
    ensures LegacyParseError(Success(Envelope(ApiError(TagOf(s), issues)))) == Some(LegacyUnknown)
    ensures ParseError(Success(Envelope(ApiError(TagOf(s), issues)))) == Some(Domain(s))
  {
    LegacyTableContents(s);
    ClassifyTagOf(s);
    var legacy := Switch(LegacyTable, TagOf(s));
    if legacy.Some? {
      LegacyTableContents(legacy.value);
      TagOfInjective(s, legacy.value);
    }
  }
}
