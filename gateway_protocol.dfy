/** The pure parts of the Discord Gateway (API v10) client in
    apps/gateway/src/index.ts: the frames it reads and writes, its
    constants, the reconnect back-off, the connect URL, the choice between
    Identify and Resume, and the decision whether to answer a message. */
module GatewayProtocol {

  import opened JsValues
  import opened JsStrings
  import opened GatewayConfig

  // Gateway opcodes.
  const OpDispatch := 0
  const OpHeartbeat := 1
  const OpIdentify := 2
  const OpResume := 6
  const OpReconnect := 7
  const OpInvalidSession := 9
  const OpHello := 10
  const OpHeartbeatAck := 11

  // Intent bits requested at Identify, and their union.
  const GuildMessages: bv32 := 1 << 9
  const MessageContent: bv32 := 1 << 15
  const Intents: int := (GuildMessages | MessageContent) as int

  const NormalClosure := 1000
  const GatewayVersion := 10
  const BaseDelayMs := 1000
  const MaxDelayMs := 30000

  /** `author` of a message. */
  datatype Author = Author(id: string, username: string, globalName: Option<string>, bot: Option<bool>)

  /** An entry of `mentions`. */
  datatype UserRef = UserRef(id: string)

  /** The payload of MESSAGE_CREATE and MESSAGE_UPDATE. */
  datatype MessageCreateData = MessageCreateData(
    id: string,
    channelId: string,
    author: Author,
    content: string,
    mentions: seq<UserRef>,
    timestamp: string,
    guildId: Option<string>)

  /** A Dispatch frame's event, routed by its name `t`. */
  datatype DispatchEvent =
    | Ready(sessionId: string, resumeGatewayUrl: string)
    | MessageCreate(message: MessageCreateData)
    | MessageUpdate(message: MessageCreateData)
    | OtherEvent(name: string)  // any other event name

  function EventName(e: DispatchEvent): string {
    match e
    case Ready(_, _) => "READY"
    case MessageCreate(_) => "MESSAGE_CREATE"
    case MessageUpdate(_) => "MESSAGE_UPDATE"
    case OtherEvent(name) => name
  }

  /** A frame received from the gateway, already parsed. */
  datatype InboundFrame =
    | Hello(heartbeatInterval: int)
    | HeartbeatAck
    | Dispatch(s: int, event: DispatchEvent)
    | Reconnect
    | InvalidSession(d: bool)
    | Unhandled(op: int)  // an opcode none of the handlers matches (for one, 1)

  function InboundOpcode(f: InboundFrame): int {
    match f
    case Hello(_) => OpHello
    case HeartbeatAck => OpHeartbeatAck
    case Dispatch(_, _) => OpDispatch
    case Reconnect => OpReconnect
    case InvalidSession(_) => OpInvalidSession
    case Unhandled(op) => op
  }

  /** The opcodes `handleGatewayEvent` has a handler for. */
  predicate HandledOpcode(op: int) {
    op in {OpHello, OpHeartbeatAck, OpDispatch, OpReconnect, OpInvalidSession}
  }

  /** The event names `handleDispatch` routes. */
  predicate RoutedEvent(name: string) {
    name in {"READY", "MESSAGE_CREATE", "MESSAGE_UPDATE"}
  }

  /** A frame as parsed from the wire: `Unhandled` carries only opcodes
      without a handler, and `OtherEvent` only names that are not routed. */
  predicate WellFormed(f: InboundFrame) {
    && (f.Unhandled? ==> !HandledOpcode(f.op))
    && (f.Dispatch? && f.event.OtherEvent? ==> !RoutedEvent(f.event.name))
  }

  /** On a parsed frame, the opcode decides which handler runs, and the
      event name decides how a Dispatch is routed. */
  lemma OpcodeSelectsHandler(f: InboundFrame)
    requires WellFormed(f)
    ensures f.Unhandled? <==> !HandledOpcode(InboundOpcode(f))
    ensures f.Dispatch? ==> (f.event.OtherEvent? <==> !RoutedEvent(EventName(f.event)))
  {
  }

  /** `properties` of Identify. */
  datatype ClientProperties = ClientProperties(os: string, browser: string, device: string)

  const Properties := ClientProperties("linux", "bun", "bun")

  /** A frame the client sends; `None` stands for JSON `null`. */
  datatype OutboundFrame =
    | HeartbeatFrame(d: Option<int>)
    | IdentifyFrame(token: string, intents: int, properties: ClientProperties)
    | ResumeFrame(token: string, sessionId: Option<string>, sequence: Option<int>)

  function OutboundOpcode(f: OutboundFrame): (op: int)
    ensures op == OpHeartbeat <==> f.HeartbeatFrame?
    ensures op == OpIdentify <==> f.IdentifyFrame?
    ensures op == OpResume <==> f.ResumeFrame?
  {
    match f
    case HeartbeatFrame(_) => OpHeartbeat
    case IdentifyFrame(_, _, _) => OpIdentify
    case ResumeFrame(_, _, _) => OpResume
  }

  /** The Identify request carries exactly the guild-messages bit (9) and
      the message-content bit (15). */
  lemma IntentsValue()
    ensures Intents == 512 + 32768
  {
  }

  function Pow2(k: nat): (r: nat)
    ensures r >= 1
  {
    if k == 0 then 1 else 2 * Pow2(k - 1)
  }

  lemma {:induction false} Pow2Monotone(a: nat, b: nat)
    requires a <= b
    ensures Pow2(a) <= Pow2(b)
  {
    if a < b {
      Pow2Monotone(a, b - 1);
    }
  }

  /** `Math.min(1000 * Math.pow(2, attempt - 1), 30000)` for the attempt
      counter after its increment, so attempt >= 1: never below the base
      delay, never above the cap. */
  function BackoffDelay(attempt: nat): (delay: nat)
    requires attempt >= 1
    ensures BaseDelayMs <= delay <= MaxDelayMs
  {
    var d := BaseDelayMs * Pow2(attempt - 1);
    if d < MaxDelayMs then d else MaxDelayMs
  }

  /** The first retry waits one second. */
  lemma BackoffFirstAttempt()
    ensures BackoffDelay(1) == 1000
  {
  }

  /** Below the cap each further attempt doubles the delay: 1000, 2000,
      4000, 8000, 16000 ms for attempts 1 to 5. */
  lemma BackoffDoubles(attempt: nat)
    requires 1 <= attempt < 5
    ensures BackoffDelay(attempt + 1) == 2 * BackoffDelay(attempt)
  {
    Pow2Monotone(attempt - 1, 3);
  }

  /** From the sixth attempt on, the delay is the 30 s cap. */
  lemma {:induction false} BackoffCapped(attempt: nat)
    requires attempt >= 6
    ensures BackoffDelay(attempt) == MaxDelayMs
  {
    Pow2Monotone(5, attempt - 1);
  }

  /** The delay never shrinks as failures accumulate. */
  lemma {:induction false} BackoffMonotone(a: nat, b: nat)
    requires 1 <= a <= b
    ensures BackoffDelay(a) <= BackoffDelay(b)
  {
    Pow2Monotone(a - 1, b - 1);
  }

  /** The URL `connect` opens: the gateway URL with the protocol version
      and the JSON encoding appended as query parameters. */
  function ConnectUrl(gatewayUrl: string): (url: string)
    ensures url == gatewayUrl + "?v=10&encoding=json"
  {
    assert DecimalText(GatewayVersion) == "10";
    gatewayUrl + "?v=" + DecimalText(GatewayVersion) + "&encoding=json"
  }

  /** JavaScript truthiness of a `string | null` variable. */
  predicate IsSet(v: Option<string>) {
    v.Some? && v.value != ""
  }

  /** `IsSet` is JavaScript truthiness: `null` and "" are falsy, every
      other string is truthy. */
  lemma IsSetIsTruthiness(v: Option<string>)
    ensures IsSet(v) <==> Truthy(if v.Some? then JString(v.value) else JNull)
  {
  }

  /** The frame Hello answers with: Resume when both the session id and
      the resume URL are truthy, Identify otherwise. */
  function HelloReply(token: string, sessionId: Option<string>, resumeUrl: Option<string>,
                      lastSequence: Option<int>): (f: OutboundFrame)
    ensures f.ResumeFrame? <==> IsSet(sessionId) && IsSet(resumeUrl)
    ensures f.ResumeFrame? ==> f == ResumeFrame(token, sessionId, lastSequence)
    ensures f.IdentifyFrame? ==> f == IdentifyFrame(token, Intents, Properties)
    ensures !f.HeartbeatFrame?
  {
    if IsSet(sessionId) && IsSet(resumeUrl) then ResumeFrame(token, sessionId, lastSequence)
    else IdentifyFrame(token, Intents, Properties)
  }

  /** `resumeGatewayUrl || (await getGatewayUrl())`: the URL a reconnect
      uses. `discovered` is what the discovery call gave (`None` when it
      threw); it is only consulted when no resume URL is set. */
  function ReconnectTarget(resumeUrl: Option<string>, discovered: Option<string>): (target: Option<string>)
    ensures IsSet(resumeUrl) ==> target == resumeUrl
    ensures !IsSet(resumeUrl) ==> target == discovered
  {
    if IsSet(resumeUrl) then resumeUrl else discovered
  }

  /** `isBotMentioned`: some entry of `mentions` has the bot's id. */
  function IsBotMentioned(mentions: seq<UserRef>, botUserId: string): (r: bool)
    ensures r <==> exists k :: 0 <= k < |mentions| && mentions[k].id == botUserId
  {
    if mentions == [] then false
    else mentions[0].id == botUserId || IsBotMentioned(mentions[1..], botUserId)
  }

  datatype IgnoreReason = OwnMessage | ChannelNotAllowed | AuthorNotAllowed
  datatype RespondReason = Mentioned | Allowlisted

  /** What `handleMessageCreate` does with a message. */
  datatype Decision = Ignore(why: IgnoreReason) | Respond(because: RespondReason)

  /** The early-return chain of `handleMessageCreate`: own messages are
      ignored; a mention of the bot is answered wherever it is and whoever
      wrote it; otherwise the channel and then the author must be on the
      allow-lists. */
  function Decide(config: BotConfig, m: MessageCreateData): (d: Decision)
    ensures d.Respond? <==>
      m.author.id != config.botUserId
      && ((exists k :: 0 <= k < |m.mentions| && m.mentions[k].id == config.botUserId)
          || (m.channelId in config.channels && m.author.id in config.allowedUsers))
    ensures d == Ignore(OwnMessage) <==> m.author.id == config.botUserId
    ensures d == Respond(Mentioned) <==>
      m.author.id != config.botUserId && exists k :: 0 <= k < |m.mentions| && m.mentions[k].id == config.botUserId
    ensures d == Ignore(ChannelNotAllowed) <==>
      m.author.id != config.botUserId && !IsBotMentioned(m.mentions, config.botUserId)
      && m.channelId !in config.channels
    ensures d == Ignore(AuthorNotAllowed) <==>
      m.author.id != config.botUserId && !IsBotMentioned(m.mentions, config.botUserId)
      && m.channelId in config.channels && m.author.id !in config.allowedUsers
  {
    if m.author.id == config.botUserId then Ignore(OwnMessage)
    else if IsBotMentioned(m.mentions, config.botUserId) then Respond(Mentioned)
    else if m.channelId !in config.channels then Ignore(ChannelNotAllowed)
    else if m.author.id !in config.allowedUsers then Ignore(AuthorNotAllowed)
    else Respond(Allowlisted)
  }

  /** A message from the bot itself is ignored even when it mentions the
      bot and sits in an allowed channel. */
  lemma OwnMessageNeverAnswered(config: BotConfig, m: MessageCreateData)
    requires m.author.id == config.botUserId
    ensures Decide(config, m).Ignore?
  {
  }

  /** A mention overrides both allow-lists. */
  lemma MentionOverridesAllowLists(config: BotConfig, m: MessageCreateData, k: nat)
    requires m.author.id != config.botUserId
    requires k < |m.mentions| && m.mentions[k].id == config.botUserId
    ensures Decide(config, m) == Respond(Mentioned)
  {
  }

  /** Without a mention, the answer depends on both allow-lists. */
  lemma UnmentionedNeedsBothAllowLists(config: BotConfig, m: MessageCreateData)
    requires m.author.id != config.botUserId
    requires forall k :: 0 <= k < |m.mentions| ==> m.mentions[k].id != config.botUserId
    ensures Decide(config, m).Respond? <==> m.channelId in config.channels && m.author.id in config.allowedUsers
  {
  }
}
