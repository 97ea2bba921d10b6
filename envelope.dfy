/**
 * The league.v2 message envelope of the player agent's protocol package:
 * its two field validators, conversation ids and `create_envelope`.
 */
module ProtocolEnvelope {
  import opened Wrappers
  import opened Text
  import Helpers

  const ProtocolName: string := "league.v2"

  /** Why a field validator raised (the exception message carries these values). */
  datatype EnvelopeError =
    | NotUtc(value: string)          // neither `Z` nor `+00:00` at the end
    | NotIso8601(value: string)      // `datetime.fromisoformat` refused it
    | SenderShape(value: string)     // neither `league_manager` nor `type:id`
    | SenderType(senderType: string) // the type is not player or referee

  datatype Envelope = Envelope(
    protocol: string,
    messageType: string,
    sender: string,
    timestamp: string,
    conversationId: string,
    authToken: Option<string>,
    leagueId: Option<string>,
    roundId: Option<int>,
    matchId: Option<string>)

  /** The text handed to `fromisoformat`: a `Z` timestamp has every `Z` replaced by `+00:00`. */
  function IsoText(v: string): string
  {
    if EndsWith(v, "Z") then ReplaceChar(v, 'Z', "+00:00") else v
  }

  predicate HasUtcSuffix(v: string)
  {
    EndsWith(v, "Z") || EndsWith(v, "+00:00")
  }

  /**
   * `validate_utc_timestamp`: the suffix is checked first, then the standard
   * library's ISO-8601 parser (the parameter `fromIsoFormat`) must accept the text.
   */
  function ValidateUtcTimestamp(v: string, fromIsoFormat: string -> bool): (r: Result<string, EnvelopeError>)
    ensures r.Ok? ==> r.value == v
    ensures !HasUtcSuffix(v) ==> r == Err(NotUtc(v))
    ensures HasUtcSuffix(v) ==> (r.Ok? <==> fromIsoFormat(IsoText(v)))
    ensures HasUtcSuffix(v) && r.Err? ==> r.error == NotIso8601(v)
  {
    if !EndsWith(v, "Z") && !EndsWith(v, "+00:00") then Err(NotUtc(v))
    else if !fromIsoFormat(IsoText(v)) then Err(NotIso8601(v))
    else Ok(v)
  }

  /** A timestamp with the wrong suffix is refused whatever the parser would say: it is never consulted. */
  lemma SuffixCheckedBeforeParsing(v: string, parserA: string -> bool, parserB: string -> bool)
    requires !HasUtcSuffix(v)
    ensures ValidateUtcTimestamp(v, parserA) == ValidateUtcTimestamp(v, parserB)
  {
  }

  /**
   * Against the SDK's regex check: a timestamp the SDK accepts has a UTC suffix
   * here unless it ends in the newline the SDK's `$` tolerates, which this
   * validator refuses outright.
   */
  lemma AgainstSdkCheck(v: string, fromIsoFormat: string -> bool)
    requires Helpers.ValidateUtc(v)
    ensures |v| > 0 && v[|v| - 1] != '\n' ==> HasUtcSuffix(v)
    ensures |v| > 0 && v[|v| - 1] == '\n' ==> ValidateUtcTimestamp(v, fromIsoFormat) == Err(NotUtc(v))
  {
    Helpers.ValidateUtcExactly(v);
    if v[|v| - 1] != '\n' {
      PlainSuffix(v);
    } else {
      NewlineSuffix(v);
    }
  }

  lemma PlainSuffix(v: string)
    requires |v| >= 20 && (v[19..] == "Z" || v[19..] == "+00:00")
    ensures HasUtcSuffix(v)
  {
    if v[19..] == "Z" {
      assert v[|v| - 1..] == v[19..];
    } else {
      assert v[|v| - 6..] == v[19..];
    }
  }

  lemma NewlineSuffix(v: string)
    requires |v| >= 20 && (v[19..] == "Z\n" || v[19..] == "+00:00\n")
    ensures !HasUtcSuffix(v)
  {
    var last := v[|v| - 1];
    assert last == v[19..][|v[19..]| - 1] == '\n';
    assert v[|v| - 1..] != "Z" by { assert v[|v| - 1..][0] == last; }
    assert v[|v| - 6..] != "+00:00" by { assert v[|v| - 6..][5] == last; }
  }

  /** `validate_sender_format`. */
  function ValidateSenderFormat(v: string): (r: Result<string, EnvelopeError>)
    ensures r.Ok? ==> r.value == v
    ensures v == "league_manager" ==> r.Ok?
    ensures v != "league_manager" && ':' !in v ==> r == Err(SenderShape(v))
    ensures ':' in v && v != "league_manager" ==>
      (r.Ok? <==> SplitFirst(v, ':').0 in {"player", "referee"})
  {
    if v == "league_manager" then Ok(v)
    else if ':' !in v then Err(SenderShape(v))
    else
      var (senderType, _) := SplitFirst(v, ':');
      if senderType !in {"player", "referee"} then Err(SenderType(senderType))
      else Ok(v)
  }

  /** A formatted `type:id` sender passes exactly when its type is player or referee; the id is free, even empty. */
  lemma FormattedSenders(agentType: string, agentId: string)
    requires ':' !in agentType
    ensures ValidateSenderFormat(Helpers.FormatSender(agentType, agentId)).Ok?
      <==> agentType == "player" || agentType == "referee"
  {
    var s := Helpers.FormatSender(agentType, agentId);
    assert s == agentType + [':'] + agentId;
    SplitFirstAfter(agentType, ':', agentId);
    BareManagerHasNoColon();
    assert s != "league_manager";
    assert ValidateSenderFormat(s).Ok? <==> agentType in {"player", "referee"};
  }

  /** The bare "league_manager" sender holds no ':'. */
  lemma BareManagerHasNoColon()
    ensures ':' !in "league_manager"
  {
    var v := "league_manager";
    forall i | 0 <= i < |v| ensures v[i] != ':' {
    }
  }

  /** `generate_conversation_id`: the prefix, a dash and the first twelve characters of a uuid4 hex string. */
  function GenerateConversationId(prefix: string, uuidHex: string): (r: string)
    ensures StartsWith(r, prefix + "-")
    ensures |uuidHex| >= 12 ==> |r| == |prefix| + 13
    ensures r[|prefix| + 1..] == Take(uuidHex, 12)
  {
    prefix + "-" + Take(uuidHex, 12)
  }

  /** The conversation id `create_envelope` uses: the caller's when it is non-empty. */
  function ConversationIdOrFresh(conversationId: Option<string>, uuidHex: string): (r: string)
    ensures conversationId.Some? && conversationId.value != "" ==> r == conversationId.value
    ensures conversationId.None? || conversationId.value == "" ==> r == GenerateConversationId("conv", uuidHex)
  {
    if conversationId.Some? && conversationId.value != "" then conversationId.value
    else GenerateConversationId("conv", uuidHex)
  }

  /**
   * `create_envelope`: the clock reading `now` gives the timestamp and `uuidHex`
   * the fresh conversation id; pydantic runs both field validators and reports
   * every failure, sender first.
   */
  function CreateEnvelope(
    messageType: string, sender: string, conversationId: Option<string>,
    authToken: Option<string>, leagueId: Option<string>, roundId: Option<int>, matchId: Option<string>,
    now: Helpers.DateTime, uuidHex: string, fromIsoFormat: string -> bool): (r: Result<Envelope, seq<EnvelopeError>>)
    requires now.Valid()
    ensures r.Ok? <==> ValidateSenderFormat(sender).Ok? && fromIsoFormat(IsoText(Helpers.UtcNow(now)))
    ensures r.Ok? ==>
      && r.value.protocol == ProtocolName
      && r.value.messageType == messageType && r.value.sender == sender
      && Helpers.ValidateUtc(r.value.timestamp)
      && r.value.conversationId == ConversationIdOrFresh(conversationId, uuidHex)
      && r.value.authToken == authToken && r.value.leagueId == leagueId
      && r.value.roundId == roundId && r.value.matchId == matchId
    ensures r.Err? ==> 1 <= |r.error| <= 2
  {
    var timestamp := Helpers.UtcNow(now);
    Helpers.UtcNowValidates(now);
    assert HasUtcSuffix(timestamp) by {
      assert timestamp[|timestamp| - 1..] == "Z";
    }
    var senderCheck := ValidateSenderFormat(sender);
    var timeCheck := ValidateUtcTimestamp(timestamp, fromIsoFormat);
    var errors := (if senderCheck.Err? then [senderCheck.error] else [])
      + (if timeCheck.Err? then [timeCheck.error] else []);
    if errors == [] then
      Ok(Envelope(ProtocolName, messageType, sender, timestamp,
        ConversationIdOrFresh(conversationId, uuidHex), authToken, leagueId, roundId, matchId))
    else Err(errors)
  }
}
