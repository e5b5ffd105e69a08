/**
 * The wire vocabulary shared by client and server: the entities carried in payloads,
 * the commands a client sends and the events the server emits. Envelope ids and
 * timestamps, and the human-readable text of error events, are not modelled; an
 * error event carries its code.
 */
module Protocol {
  import opened Wrappers
  import Config

  datatype ChannelType = Text | Voice | Dm

  /** The `type` column's spelling of a channel type. */
  function ChannelTypeName(t: ChannelType): string {
    match t
    case Text => "text"
    case Voice => "voice"
    case Dm => "dm"
  }

  /** The column's `CHECK(type IN ('text', 'voice', 'dm'))`: the type a string names, if any. */
  function ParseChannelType(s: string): (r: Option<ChannelType>)
    ensures r.Some? ==> ChannelTypeName(r.value) == s
  {
    if s == "text" then Some(Text)
    else if s == "voice" then Some(Voice)
    else if s == "dm" then Some(Dm)
    else None
  }

  lemma ParseChannelTypeName(t: ChannelType)
    ensures ParseChannelType(ChannelTypeName(t)) == Some(t)
  {
  }

  datatype Channel = Channel(
    id: string,
    name: string,
    kind: ChannelType,
    encrypted: bool,
    position: int,
    passwordVerify: Option<string>,
    passwordVerifyNonce: Option<string>,
    createdAt: int,
    participants: Option<seq<string>>)

  datatype ChatMessage = ChatMessage(
    id: string,
    channelId: string,
    senderPublicKey: string,
    content: string,
    signature: string,
    nonce: string,
    hasAttachment: bool,
    createdAt: int)

  /** The sender profile a client attaches to a chat message. */
  datatype MessageProfile = MessageProfile(publicKey: string, name: string, bio: Option<string>)

  datatype UserProfile = UserProfile(publicKey: string, name: string, bio: Option<string>, lastSeen: Option<int>)

  datatype RealmInfo = RealmInfo(
    id: string,
    name: string,
    description: Option<string>,
    encrypted: bool,
    retentionDays: Option<int>,
    fileRetentionDays: Option<int>,
    allowDirectMessages: bool,
    passwordVerify: Option<string>,
    passwordVerifyNonce: Option<string>,
    createdAt: int)

  datatype InviteLink = InviteLink(id: string, key: string, createdAt: int)

  datatype MediaKind = Audio | Video
  datatype ProducerKind = Mic | Webcam | Screen
  datatype Direction = Send | Recv

  /** A voice participant as listed to clients. */
  datatype ParticipantSummary = ParticipantSummary(publicKey: string, name: string)

  datatype ErrorCode =
    | RateLimited | InvalidMessage | NotAuthenticated | UnknownType | CapacityReached
    | Forbidden | NotJoined | IdentityMismatch | AuthFailed | AuthTimeout
    | VoiceError | VoiceFull | DmDisabled | InvalidTarget | NotFound

  function CodeName(c: ErrorCode): string {
    match c
    case RateLimited => "RATE_LIMITED"
    case InvalidMessage => "INVALID_MESSAGE"
    case NotAuthenticated => "NOT_AUTHENTICATED"
    case UnknownType => "UNKNOWN_TYPE"
    case CapacityReached => "CAPACITY_REACHED"
    case Forbidden => "FORBIDDEN"
    case NotJoined => "NOT_JOINED"
    case IdentityMismatch => "IDENTITY_MISMATCH"
    case AuthFailed => "AUTH_FAILED"
    case AuthTimeout => "AUTH_TIMEOUT"
    case VoiceError => "VOICE_ERROR"
    case VoiceFull => "VOICE_FULL"
    case DmDisabled => "DM_DISABLED"
    case InvalidTarget => "INVALID_TARGET"
    case NotFound => "NOT_FOUND"
  }

  /**
   * A client command after JSON parsing. `Other` stands for every envelope whose
   * `type` the dispatcher does not name. An optional field whose JSON value may be
   * absent or null is an `Option<Option<_>>`: `None` for absent, `Some(None)` for null.
   */
  datatype Command =
    | RealmJoin
    | ChannelJoin(channelId: string)
    | ChannelMessage(channelId: string, encrypted: string, signature: string, nonce: string,
                     publicKey: string, profile: MessageProfile)
    | ChannelTyping(channelId: string, publicKey: string)
    | UserProfileClaim(publicKey: string, name: string, bio: Option<string>)
    | AuthResponse(signature: string)
    | VoiceJoin(channelId: string)
    | VoiceLeave(channelId: string)
    | VoiceCreateTransport(channelId: string, direction: Direction)
    | VoiceConnectTransport(channelId: string, transportId: string)
    | VoiceProduce(channelId: string, kind: MediaKind, producerKind: ProducerKind)
    | VoiceConsume(channelId: string, producerId: string)
    | VoiceCloseProducer(channelId: string, producerId: string)
    | RealmUpdate(newName: Option<string>, newDescription: Option<string>, newAllowDirectMessages: Option<bool>,
                  newRetentionDays: Option<Option<int>>, newFileRetentionDays: Option<Option<int>>)
    | RealmSetPasswordVerify(passwordVerify: string, passwordVerifyNonce: string)
    | ChannelCreate(channelName: string, channelKind: string, encryptedChannel: Option<bool>,
                    channelVerify: Option<string>, channelVerifyNonce: Option<string>)
    | ChannelDelete(channelId: string)
    | ChannelFetchHistory(channelId: string, before: Option<int>)
    | ChannelSetPasswordVerify(channelId: string, passwordVerify: string, passwordVerifyNonce: string)
    | DmOpen(targetPublicKey: string)
    | InviteRegenerate(inviteId: string)
    | Other(typeName: string)

  /** The envelope `type` string of a command. */
  function TypeName(c: Command): string {
    match c
    case RealmJoin => "realm:join"
    case ChannelJoin(_) => "channel:join"
    case ChannelMessage(_, _, _, _, _, _) => "channel:message"
    case ChannelTyping(_, _) => "channel:typing"
    case UserProfileClaim(_, _, _) => "user:profile"
    case AuthResponse(_) => "auth:response"
    case VoiceJoin(_) => "voice:join"
    case VoiceLeave(_) => "voice:leave"
    case VoiceCreateTransport(_, _) => "voice:create-transport"
    case VoiceConnectTransport(_, _) => "voice:connect-transport"
    case VoiceProduce(_, _, _) => "voice:produce"
    case VoiceConsume(_, _) => "voice:consume"
    case VoiceCloseProducer(_, _) => "voice:close-producer"
    case RealmUpdate(_, _, _, _, _) => "realm:update"
    case RealmSetPasswordVerify(_, _) => "realm:set-password-verify"
    case ChannelCreate(_, _, _, _, _) => "channel:create"
    case ChannelDelete(_) => "channel:delete"
    case ChannelFetchHistory(_, _) => "channel:fetch-history"
    case ChannelSetPasswordVerify(_, _, _) => "channel:set-password-verify"
    case DmOpen(_) => "dm:open"
    case InviteRegenerate(_) => "invite:regenerate"
    case Other(t) => t
  }

  /** The command types the protocol package declares. */
  const DeclaredTypes: set<string> := {
    "realm:join", "realm:leave", "realm:update", "realm:set-password-verify",
    "channel:join", "channel:message", "channel:typing", "channel:file", "channel:create",
    "channel:delete", "channel:fetch-history", "channel:set-password-verify", "dm:open",
    "user:profile", "auth:response", "voice:join", "voice:leave", "voice:produce",
    "voice:consume", "voice:create-transport", "voice:connect-transport", "voice:close-producer"
  }

  /** The command types the dispatcher's `switch` names. */
  const HandledTypes: set<string> := {
    "realm:join", "channel:join", "channel:message", "channel:typing", "user:profile",
    "auth:response", "voice:join", "voice:leave", "voice:create-transport",
    "voice:connect-transport", "voice:produce", "voice:consume", "voice:close-producer",
    "realm:update", "realm:set-password-verify", "channel:create", "channel:delete",
    "channel:set-password-verify", "channel:fetch-history", "dm:open", "invite:regenerate"
  }

  /** A parsed command is `Other` exactly when the dispatcher does not name its type. */
  predicate WellFormed(c: Command) {
    c.Other? <==> TypeName(c) !in HandledTypes
  }

  /**
   * Two declared command types have no case in the dispatcher, and the dispatcher
   * handles one type the protocol does not declare.
   */
  lemma DeclaredButUnhandled()
    ensures DeclaredTypes - HandledTypes == {"realm:leave", "channel:file"}
    ensures HandledTypes - DeclaredTypes == {"invite:regenerate"}
  {
  }

  /** Every command the dispatcher names is a well-formed non-`Other` command with that type. */
  lemma {:induction false} NamedTypesAreWellFormed(c: Command)
    requires !c.Other?
    ensures TypeName(c) in HandledTypes && WellFormed(c)
  {
  }

  /** A server-to-client event with the payload fields the model tracks. */
  datatype Event =
    | RealmWelcome(realm: RealmInfo, channels: seq<Channel>, members: seq<UserProfile>,
                   onlineKeys: seq<string>, isAdmin: bool,
                   voiceParticipants: seq<(string, seq<ParticipantSummary>)>,
                   screenSharers: seq<(string, seq<string>)>, inviteLinks: seq<InviteLink>)
    | RealmError(code: ErrorCode)
    | RealmSettingsUpdated(name: string, description: Option<string>, allowDirectMessages: bool,
                           retentionDays: Option<int>, fileRetentionDays: Option<int>)
    | RealmVerifyUpdated(name: string, description: Option<string>, allowDirectMessages: bool,
                         passwordVerify: Option<string>, passwordVerifyNonce: Option<string>)
    | AuthChallenge(nonce: string)
    | AuthVerified
    | ChannelHistory(historyChannelId: string, messages: seq<ChatMessage>, hasMore: bool)
    | ChannelMessageEvent(messageChannelId: string, message: ChatMessage, profile: MessageProfile)
    | ChannelTypingEvent(typingChannelId: string, typingPublicKey: string, typingName: string)
    | MemberJoin(member: UserProfile)
    | MemberLeave(leftPublicKey: string)
    | ChannelCreated(channel: Channel)
    | ChannelDeleted(deletedChannelId: string)
    | DmOpened(dmChannel: Channel)
    | VoiceJoined(joinedChannelId: string, iceServers: seq<Config.IceServer>)
    | VoiceProduced(producedId: string, producedKind: ProducerKind)
    | VoiceConsumed(consumerId: string, consumedProducerId: string, consumedKind: MediaKind,
                    consumedProducerKind: ProducerKind, consumedPublicKey: string)
    | VoiceParticipantJoined(pjChannelId: string, pjPublicKey: string, pjName: string)
    | VoiceParticipantLeft(plChannelId: string, plPublicKey: string)
    | VoiceTransportCreated(tcChannelId: string, tcDirection: Direction, transportId: string)
    | VoiceNewProducer(npChannelId: string, npProducerId: string, npPublicKey: string,
                       npKind: MediaKind, npProducerKind: ProducerKind)
    | VoiceProducerClosed(pcChannelId: string, pcProducerId: string, pcPublicKey: string,
                          pcProducerKind: ProducerKind)
    | InviteRegenerated(links: seq<InviteLink>)

  /** The envelope `type` string of an event. */
  function EventTypeName(e: Event): string {
    match e
    case RealmWelcome(_, _, _, _, _, _, _, _) => "realm:welcome"
    case RealmError(_) => "realm:error"
    case RealmSettingsUpdated(_, _, _, _, _) => "realm:update"
    case RealmVerifyUpdated(_, _, _, _, _) => "realm:update"
    case AuthChallenge(_) => "auth:challenge"
    case AuthVerified => "auth:verified"
    case ChannelHistory(_, _, _) => "channel:history"
    case ChannelMessageEvent(_, _, _) => "channel:message"
    case ChannelTypingEvent(_, _, _) => "channel:typing"
    case MemberJoin(_) => "member:join"
    case MemberLeave(_) => "member:leave"
    case ChannelCreated(_) => "channel:create"
    case ChannelDeleted(_) => "channel:delete"
    case DmOpened(_) => "dm:opened"
    case VoiceJoined(_, _) => "voice:joined"
    case VoiceProduced(_, _) => "voice:produced"
    case VoiceConsumed(_, _, _, _, _) => "voice:consumed"
    case VoiceParticipantJoined(_, _, _) => "voice:participant:joined"
    case VoiceParticipantLeft(_, _) => "voice:participant:left"
    case VoiceTransportCreated(_, _, _) => "voice:transport-created"
    case VoiceNewProducer(_, _, _, _, _) => "voice:new-producer"
    case VoiceProducerClosed(_, _, _, _) => "voice:producer-closed"
    case InviteRegenerated(_) => "invite:regenerated"
  }
}
