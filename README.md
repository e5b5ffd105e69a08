# Concord server core, modelled in Dafny

This project models the core of the Concord chat server. Concord is a realm of text, voice
and direct-message channels. Members prove their identity by signing a challenge with their
key, and voice runs through a media server (SFU). The model covers the WebSocket layer and
the rules behind it:

- The connection registry (`connections.ts`) and each connection's sliding-window rate
  limiter (`rate-limit.ts`).
- The message dispatcher with its authentication gate, the close handler and every command
  handler (`handler.ts`): the handshake (`user:profile`, `auth:response`, the
  authentication timer), chat, direct messages, admin commands and voice.
- The voice rooms with their transports, producers and consumers (`rooms.ts`).
- The table-backed rules: channels, messages and history paging, retention, invites, the
  realm row and the profile cache.
- The configuration helpers (`config.ts`) and hex encoding (`utils.ts` of the crypto
  package).

Each core source file has its own Dafny module, except `handler.ts`, which is divided by
concern: `Server` holds the state the handlers share and the send helpers, `AuthHandlers`
the handshake, `ChatHandlers` chat and direct messages, `AdminHandlers` the admin
commands, `VoiceHandlers` voice, and `Dispatcher` the message dispatcher, the
authentication gate and the close handler. A few shared modules have no source file of
their own. `Wrappers` holds
Option and Result. `Text` holds JavaScript's string operations. `Sequences` holds `WHERE`,
`ORDER BY`, `LIMIT` and `reverse`. `OrderedMaps` holds JavaScript's insertion-ordered
`Map`. `Tables` holds the SQLite tables and the constraints on them.

The model works as follows:

- **The process state.** The state the handlers change in place is held by classes.
  `Registry` holds the connection records and the sockets. `Database` holds the tables.
  `VoiceRooms` holds the rooms. `RateLimiter` holds the admitted readings. `Server` ties
  them together with the configuration, the signature check and the armed authentication
  timers.
- **Sending.** Everything a handler writes to a socket is appended to the registry's
  `outbox` as a `(socket, event)` pair, but only while the socket is open. Broadcasts go
  out in registry order.
- **Outside values.** What one event draws from outside the process is a parameter: the
  clock, `uuid()`, `randomBytes`, the id of a new timer, and what the media engine answers.
  The signature check (`verify` over base58 and hex decoding) is an uninterpreted function.
- **Quirks kept.**
  - A second `user:profile` before authentication arms a second timer and leaves the first
    one armed.
  - A rejected `auth:response` clears the name but keeps the bio.
  - `voice:join` counts the room's participants before it creates the room.
  - `removeParticipant` deletes an empty room even when the key was not in it.
  - `before = 0` means "no bound" in the history query.
  - `isPrivateIp` accepts every address starting with `172.2` or `172.3`. The
    "## Model" rows for `Config.PrivateIpOverMatch`, `Config.IntendedAccepts172` and
    `Config.AgreeOutside172` say exactly how far this reaches.

## Model

| member | source | states |
|---|---|---|
| AdminHandlers.UpdateNeverBlanksName | Client/apps/concord-server/src/ws/handler.ts:932-938 | a missing or blank name leaves the realm's name as it was, any other name is stored trimmed and non-empty; a given description is stored trimmed and a missing one is kept |
| AdminHandlers.HandleRealmUpdate | Client/apps/concord-server/src/ws/handler.ts:920-952 | a caller without an admin key gets `FORBIDDEN` and nothing changes; an admin's patch is applied to the ensured realm and the new settings go to every authenticated socket |
| AdminHandlers.HandleChannelCreate | Client/apps/concord-server/src/ws/handler.ts:954-980 | non-admin: `FORBIDDEN`; admin: the channel table becomes `createChannel`'s result, the call throws exactly when the insert is refused, and otherwise the new last row goes to every authenticated socket |
| AdminHandlers.HandleChannelDelete | Client/apps/concord-server/src/ws/handler.ts:982-1011 | non-admin: `FORBIDDEN`; admin: the channel is gone with its messages and their attachments, and the caller gets `NOT_FOUND` when it did not exist, else every authenticated socket gets `channel:delete` |
| AdminHandlers.DropChannel | Client/apps/concord-server/src/ws/handler.ts:994 | `deleteChannel` reports a deletion exactly when the channel existed, and afterwards no row has its id and the cascade removed its messages and their attachments only |
| AdminHandlers.VerifyBroadcastCarriesBlob | Client/apps/concord-server/src/ws/handler.ts:1025-1040 | the broadcast after a set-password carries the new blob and nonce when a realm row existed, and none when the realm had to be created by the read |
| AdminHandlers.HandleRealmSetPasswordVerify | Client/apps/concord-server/src/ws/handler.ts:1013-1041 | non-admin: `FORBIDDEN`; admin: the blob set on the realm row, the realm ensured and its info with the blob sent to every authenticated socket |
| AdminHandlers.HandleChannelSetPasswordVerify | Client/apps/concord-server/src/ws/handler.ts:1043-1067 | non-admin: `FORBIDDEN`; unknown channel: `NOT_FOUND`; otherwise the blob set on that channel's row and nothing sent |
| AdminHandlers.HandleInviteRegenerate | Client/apps/concord-server/src/ws/handler.ts:1069-1099 | non-admin: `FORBIDDEN`; unknown invite: `NOT_FOUND`; otherwise the invite replaced by a fresh one and the new links sent to every authenticated socket |
| AdminHandlers.Regenerate | Client/apps/concord-server/src/ws/handler.ts:1081-1098 | the admin branch of `handleInviteRegenerate` as above |
| AdminHandlers.NewInvite | Client/apps/concord-server/src/invites/invites.ts:39-52 | `regenerateInvite` answers nothing and changes nothing for an unknown id, and otherwise answers a link and replaces the invite |
| Auth.ChallengeBinds | Client/apps/concord-server/src/ws/handler.ts:487 | for nonces of one length, equal challenge texts `concord:auth:<nonce>:<key>` have the same nonce and the same key |
| Auth.ClaimThenAccept | Client/apps/concord-server/src/ws/handler.ts:443-527 | a claim with a non-empty key is pending, its response is checked against a signature over its own nonce and key, and accepting it gives an authenticated record with the claimed key, name and bio, no nonce, no timer and the same joined channels |
| Auth.EmptyKeyNeverAuthenticates | Client/apps/concord-server/src/ws/handler.ts:476 | a claim with the empty key is never pending (`!conn.publicKey`), so no response changes the record |
| Auth.RejectionNeedsNewClaim | Client/apps/concord-server/src/ws/handler.ts:503-511 | a rejected response leaves the record unauthenticated with no key, no name and no timer but its bio kept, and every later response changes nothing until a new claim |
| Auth.AuthenticatedIsSettled | Client/apps/concord-server/src/ws/handler.ts:476-516 | an authenticated record has no pending nonce, so a further response leaves it as it is |
| Auth.RespondKeepsOk | Client/apps/concord-server/src/ws/handler.ts:496-520 | a response keeps the record's invariant, and only an accepted response to a pending claim makes a record authenticated |
| AuthHandlers.HandleUserProfile | Client/apps/concord-server/src/ws/handler.ts:407-470 | no record: nothing changes; an authenticated record: the profile update below and no timer change; an unauthenticated one: the claim below and no profile change |
| AuthHandlers.UpdateOwnProfile | Client/apps/concord-server/src/ws/handler.ts:412-441 | another key gets `IDENTITY_MISMATCH` and nothing else; its own key sets the record's name (not its bio), upserts the profile seen now and announces `member:join` to every other authenticated socket |
| AuthHandlers.ClaimIdentity | Client/apps/concord-server/src/ws/handler.ts:443-469 | the record carries the claimed key, name, bio, nonce and new timer, the challenge is sent to it, and the new timer is armed beside every earlier one (a second claim does not disarm the first) |
| AuthHandlers.HandleAuthResponse | Client/apps/concord-server/src/ws/handler.ts:472-546 | no pending claim: `AUTH_FAILED` and nothing else; a bad signature: `AUTH_FAILED`, key, name, nonce and timer cleared, no profile change; a good one: authenticated, timer disarmed, the profile upserted, `auth:verified` to the caller then `member:join` to every other member |
| AuthHandlers.Reject | Client/apps/concord-server/src/ws/handler.ts:496-511 | the caller gets `AUTH_FAILED`, its record loses key, name, nonce and timer, and its timer is disarmed |
| AuthHandlers.Accept | Client/apps/concord-server/src/ws/handler.ts:514-545 | the record is authenticated, its timer disarmed, its profile (name defaulting to `Unknown`) upserted, the caller confirmed and the member announced to every other member |
| AuthHandlers.OnAuthTimer | Client/apps/concord-server/src/ws/handler.ts:459-469 | the fired timer is disarmed; if its socket's record is still unauthenticated the socket gets `AUTH_TIMEOUT` and is closed, otherwise nothing is sent or closed |
| Config.ParseAdmins | Client/apps/concord-server/src/config.ts:109-112 | an unset `REALM_ADMINS` gives no admins; every listed key is trimmed, non-empty and free of `;` |
| Config.ParseAdminsOfJoin | Client/apps/concord-server/src/config.ts:109-112 | parsing the `;`-join of trimmed non-empty keys without `;` gives back exactly those keys, in order |
| Config.TrimNonEmptyOfClean | Client/apps/concord-server/src/config.ts:111-112 | trimming and dropping empty pieces leaves a list of already-trimmed non-empty pieces unchanged |
| Config.CleanTrim | Client/apps/concord-server/src/config.ts:111 | trimming an already-trimmed non-empty string changes nothing |
| Config.TrimOrNull | Client/apps/concord-server/src/config.ts:113-114 | `?.trim() \|\| null`: null exactly when the variable is unset or all whitespace, otherwise a trimmed non-empty value |
| Config.BuildIceServers | Client/apps/concord-server/src/config.ts:17-50 | at most two entries, each with at least one trimmed non-empty URL without `,`, and only the last entry (the TURN one) carries credentials |
| Config.StunEntry | Client/apps/concord-server/src/config.ts:20-32 | with `STUN_SERVERS` set, the first entry is exactly its split, trimmed, non-empty pieces without credentials, precisely when there is at least one such piece |
| Config.DefaultStun | Client/apps/concord-server/src/config.ts:22-32 | with `STUN_SERVERS` unset the first entry is Google's public STUN server without credentials |
| Config.StunDisabled | Client/apps/concord-server/src/config.ts:21-32 | a `STUN_SERVERS` made of commas and blanks (the empty string included) yields no STUN entry, so every entry is the TURN one |
| Config.SplitOfSeparatorsAndBlanks | Client/apps/concord-server/src/config.ts:25-28 | splitting on `,`, trimming and dropping empties gives nothing for a string of separators and blanks |
| Config.SplitPiecesBlank | Client/apps/concord-server/src/config.ts:25-26 | every piece of such a string is all whitespace |
| Config.TrimNonEmptyOfBlank | Client/apps/concord-server/src/config.ts:27-28 | all-whitespace pieces are all dropped |
| Config.TurnEntry | Client/apps/concord-server/src/config.ts:34-47 | the list ends with a TURN entry carrying the split URLs and the given username and credential exactly when `TURN_SERVERS` is truthy and yields at least one URL |
| Config.FromEnv | Client/apps/concord-server/src/config.ts:91-130 | `encrypted` iff `REALM_PASSWORD_VERIFY` is truthy, a password blob only when encrypted, DMs allowed iff `ALLOW_DM` is exactly `"true"`, and a key is an admin (`isAdmin`, lines 145-147) iff it is in the parsed admin list |
| Config.UnsetIsPrivate | Client/apps/concord-server/src/config.ts:134 | an unset or empty address counts as private |
| Config.TwoDigits | Client/apps/concord-server/src/config.ts:137-138 | the decimal text of a two-digit octet: two digits, the first non-zero |
| Config.TwoDigitsInjective | Client/apps/concord-server/src/config.ts:137-138 | different two-digit octets have different texts |
| Config.PrefixFixesOctet | Client/apps/concord-server/src/config.ts:137-138 | an address `172.<n>.…` starts with `172.<m>.` only when `n == m` |
| Config.PrivateIpOverMatch | Client/apps/concord-server/src/config.ts:138 | the `"172.2"` and `"172.3"` prefixes accept public addresses such as `172.217.0.1` and `172.32.0.1`, which the RFC 1918 range 172.16.0.0/12 does not contain |
| Config.IntendedAccepts172 | Client/apps/concord-server/src/config.ts:137-138 | the intended test accepts `172.<n>.…` for a two-digit octet exactly when `16 <= n <= 31` |
| Config.AgreeOutside172 | Client/apps/concord-server/src/config.ts:133-143 | outside `172.` the test as written and the intended one agree on every address |
| Channels.MapRows | Client/apps/concord-server/src/realm/channels.ts:11 | one channel per row, in row order |
| Channels.GetChannelsPublicSorted | Client/apps/concord-server/src/realm/channels.ts:6-12 | `getChannels` holds no DM channel and is ordered by ascending position |
| Channels.GetChannelsComplete | Client/apps/concord-server/src/realm/channels.ts:6-12 | every non-DM row is listed |
| Channels.GetChannelsEmptyIff | Client/apps/concord-server/src/realm/channels.ts:6-12 | the listing is empty iff every row is a DM channel |
| Channels.FindChannel | Client/apps/concord-server/src/realm/channels.ts:14-20 | a row is found iff the id exists, and it is a row with that id |
| Channels.MaxPosition | Client/apps/concord-server/src/realm/channels.ts:31-33 | `COALESCE(MAX(position), -1)`: no row has a greater position, an existing row has this one, -1 on an empty table |
| Channels.ChannelIdsAppend | Client/apps/concord-server/src/realm/channels.ts:35-39 | appending a row adds exactly its id |
| Channels.CreateChannel | Client/apps/concord-server/src/realm/channels.ts:22-45 | the insert fails iff the type is not one of the three (`text`, `voice`, `dm`) or the id is taken, and then changes nothing; otherwise it appends the new row and returns it as a channel |
| Channels.CreatePlacesLast | Client/apps/concord-server/src/realm/channels.ts:31-41 | a successful create appends exactly one row with the new id and type, at a position greater than every existing one (max + 1, 0 on an empty table) |
| Channels.CascadeKeepsKeys | Client/apps/concord-server/src/realm/channels.ts:47-52 | deleting a channel with its messages and their attachments keeps every message in a channel and every attachment on a message |
| Channels.CascadeConsistent | Client/apps/concord-server/src/realm/channels.ts:47-52 | that cascade keeps the whole database consistent |
| Channels.DeletedIdGone | Client/apps/concord-server/src/realm/channels.ts:48-50 | after the delete no row has the id |
| Channels.DeleteChannel | Client/apps/concord-server/src/realm/channels.ts:47-52 | returns true iff a channel with the id existed; afterwards it is gone, with its messages and their attachments, and the rest is kept |
| Channels.MaxPositionAppend | Client/apps/concord-server/src/realm/channels.ts:31-41 | a row placed after all others becomes the maximum position |
| Channels.EnsureDefaultChannels | Client/apps/concord-server/src/realm/channels.ts:55-61 | with a public channel present nothing changes and no error; otherwise `general` (text) is created and then `voice` (voice); a refused `general` insert ends the call with the table unchanged and `voice` not tried; an error is returned exactly when there is no public channel and `generalId` is taken, or `voiceId` is taken or equal to `generalId` |
| Channels.DefaultsAppended | Client/apps/concord-server/src/realm/channels.ts:55-61 | the two defaults are appended in that order at positions max + 1 and max + 2 |
| Channels.AddedPublicIsListed | Client/apps/concord-server/src/realm/channels.ts:55-61 | after a public channel is added the listing is non-empty, so a second `ensureDefaultChannels` adds nothing |
| Channels.SortedPair | Client/apps/concord-server/src/realm/channels.ts:68 | `[keyA, keyB].sort()`: two elements in code-point order, the same two keys |
| Channels.DmKeySymmetric | Client/apps/concord-server/src/realm/channels.ts:67-75 | `(a, b)` and `(b, a)` give the same sorted pair and the same stored key, so they find the same channel |
| Channels.FindDm | Client/apps/concord-server/src/realm/channels.ts:71-73 | a found row is a DM row with exactly that participants string; none is found only when no row is |
| Channels.FindOrCreateDmChannel | Client/apps/concord-server/src/realm/channels.ts:67-94 | an existing DM row for the sorted key is returned unchanged; otherwise one row is appended (type dm, position 0, unencrypted, name `dm:` + key, participants the sorted pair), or the insert fails on a taken id; after success the pair's row exists |
| Channels.FindDmAfterInsert | Client/apps/concord-server/src/realm/channels.ts:71-83 | after the insert, the lookup finds the new row, so repeating the call for the pair creates nothing |
| Channels.DmParticipantsRoundTrip | Client/apps/concord-server/src/realm/channels.ts:67-132 | for keys without `:`, splitting the stored participants string gives back the sorted pair |
| Channels.DmChannelsFor | Client/apps/concord-server/src/realm/channels.ts:97-106 | every returned channel is a DM channel listing the key exactly |
| Channels.ListedPassesLike | Client/apps/concord-server/src/realm/channels.ts:99-104 | a DM row listing the key always passes the `LIKE '%key%'` pre-filter, so the pre-filter loses nothing |
| Channels.DmChannelsForExact | Client/apps/concord-server/src/realm/channels.ts:97-106 | the result is exactly the DM rows whose split participants list the key, despite the `LIKE` over-match |
| Channels.SetVerifyRows | Client/apps/concord-server/src/realm/channels.ts:109-113 | the row with the id gets the blob and nonce together; every other row is unchanged |
| Channels.SetChannelPasswordVerify | Client/apps/concord-server/src/realm/channels.ts:108-113 | stores the blob on the matching row, keeps the set of ids and the database consistent |
| ChatHandlers.MembersCountCaller | Client/apps/concord-server/src/ws/handler.ts:243 | when the caller's record is authenticated, the authenticated connections are the other members plus the caller |
| ChatHandlers.AllDistinct | Client/apps/concord-server/src/ws/connections.ts:18 | the registry lists each socket's record once |
| ChatHandlers.RefusedOneEarly | Client/apps/concord-server/src/ws/handler.ts:241-252 | the cap test as written refuses an authenticated caller as soon as `maxMembers - 1` other members are online |
| ChatHandlers.SoleMemberRefused | Client/apps/concord-server/src/ws/handler.ts:241-252 | with `maxMembers = 1` the only member online is refused by the test as written and admitted by the intended one |
| ChatHandlers.AdmittedWithinCap | Client/apps/concord-server/src/ws/handler.ts:241-252 | the intended test admits an authenticated caller exactly when the members online, the caller included, are at most `maxMembers` |
| ChatHandlers.DmsOf | Client/apps/concord-server/src/ws/handler.ts:264 | the DM channels the welcome adds are all DM channels that list the caller's key, and there are none without a key |
| ChatHandlers.WelcomeChannels | Client/apps/concord-server/src/ws/handler.ts:256-265 | the welcome lists every non-DM channel, and a DM channel exactly when it lists the caller's key |
| ChatHandlers.HandleRealmJoin | Client/apps/concord-server/src/ws/handler.ts:238-282 | over the cap, tested with the corrected count that leaves the caller out (see "## Findings"): `CAPACITY_REACHED` and nothing else; otherwise the realm and invite ensured, the caller joined to its DM channels and sent the welcome with the realm, channels, profiles, the keys online before it, its admin flag, voice rooms, screen sharers and invite links |
| ChatHandlers.Welcome | Client/apps/concord-server/src/ws/handler.ts:255-281 | the admitted branch: the welcome state above |
| ChatHandlers.JoinAndSend | Client/apps/concord-server/src/ws/handler.ts:267-281 | the caller's record, if any, joins the given channels, and the caller is sent the event |
| ChatHandlers.HistoryHasMore | Client/apps/concord-server/src/ws/handler.ts:303-335 | a history page holds the newest 100 matching messages at most, all of that channel, and `hasMore` is set exactly when at least 100 match |
| ChatHandlers.DmJoinableByPair | Client/apps/concord-server/src/ws/handler.ts:288-300 | a DM channel created for two keys without `:` can be joined by exactly those two keys |
| ChatHandlers.HandleChannelJoin | Client/apps/concord-server/src/ws/handler.ts:284-312 | no record: nothing; a DM channel not listing the record's key: `FORBIDDEN`; otherwise the channel joined, even one that does not exist, and the first history page sent |
| ChatHandlers.HandleFetchHistory | Client/apps/concord-server/src/ws/handler.ts:314-337 | no record: nothing; a channel not joined: `NOT_JOINED`; otherwise the page before `before` sent; the state is unchanged |
| ChatHandlers.HandleChannelMessage | Client/apps/concord-server/src/ws/handler.ts:339-382 | no record: nothing; another key: `IDENTITY_MISMATCH`; a message `saveMessage` refuses throws with nothing changed; otherwise stored, the sender's profile upserted and the message sent to every open socket joined to the channel, the sender's included |
| ChatHandlers.Post | Client/apps/concord-server/src/ws/handler.ts:368-381 | after the message is stored, the sender's profile is upserted and the message broadcast to the channel |
| ChatHandlers.PostedReaches | Client/apps/concord-server/src/ws/handler.ts:376-381 | a posted message reaches a socket exactly when it is open and joined to the channel, and it is then in the channel's history |
| ChatHandlers.HandleTyping | Client/apps/concord-server/src/ws/handler.ts:384-405 | a key other than the record's is dropped silently; otherwise `channel:typing` with the record's name (or `Unknown`) goes to the channel's other sockets |
| ChatHandlers.TypingReaches | Client/apps/concord-server/src/ws/handler.ts:391-404 | the typist never hears its own typing, and every other open socket joined to the channel does |
| ChatHandlers.OpenedDmSymmetric | Client/apps/concord-server/src/ws/handler.ts:894 | opening a DM from either side gives the same channel |
| ChatHandlers.OpenedDmListsPair | Client/apps/concord-server/src/ws/handler.ts:894 | a newly created DM channel lists both keys and no other |
| ChatHandlers.HandleDmOpen | Client/apps/concord-server/src/ws/handler.ts:867-918 | no key: nothing; otherwise the realm ensured, then `DM_DISABLED` or `INVALID_TARGET` with nothing else, a refused insert throws, and an opened channel is joined by the caller and by the target's first authenticated record, each told `dm:opened` |
| ChatHandlers.Filed | Client/apps/concord-server/src/ws/connections.ts:37-39 | a record the registry lists is the one `getConnection` finds under its socket |
| ChatHandlers.DeliverDm | Client/apps/concord-server/src/ws/handler.ts:896-917 | the caller joins and is told, then the target, if online, joins and is told |
| ChatHandlers.JoinAndTell | Client/apps/concord-server/src/ws/handler.ts:897-905 | one side of a DM: the record joins the channel and is sent `dm:opened` |
| Connections.NewConn | Client/apps/concord-server/src/ws/connections.ts:20-26 | the record `addConnection` builds: unauthenticated, with no key, name, bio, nonce, timer or voice room, an empty joined set and an empty 30-per-10000 ms limiter |
| Connections.ConnectionByPublicKey | Client/apps/concord-server/src/ws/connections.ts:54-56 | a found record is registered, authenticated and carries the key; nothing is found iff no record is authenticated with that key |
| Connections.ConnectionByPublicKeyIsFirst | Client/apps/concord-server/src/ws/connections.ts:54-56 | when some record matches, the one returned is the first match in registry order |
| Connections.UnicastAllExact | Client/apps/concord-server/src/ws/connections.ts:59-63 | sending a list of events to one socket writes exactly that list to it when it is open, nothing otherwise |
| Connections.OnlineKeys | Client/apps/concord-server/src/ws/connections.ts:49-51 | one key per authenticated record |
| Connections.DeliveriesExact | Client/apps/concord-server/src/ws/connections.ts:59-88 | a broadcast writes only its own event, and writes it to a socket iff the socket is open, not excluded and one of the targets' |
| Connections.ChannelBroadcastReaches | Client/apps/concord-server/src/ws/connections.ts:66-76 | `broadcastToChannel` reaches socket `w` iff `w`'s record joined the channel, `w` is open and `w` is not the excluded socket |
| Connections.AllBroadcastReaches | Client/apps/concord-server/src/ws/connections.ts:79-88 | `broadcastToAll` reaches socket `w` iff `w`'s record is authenticated with a key, `w` is open and not excluded: an unauthenticated record never hears it |
| Connections.ReachedRecords | Client/apps/concord-server/src/ws/connections.ts:45-51 | a filter of the registry lists a record for `w` iff `w`'s record passes the filter's test |
| Connections.Registry.constructor | Client/apps/concord-server/src/ws/connections.ts:18 | the registry starts empty, with no open socket and nothing sent |
| Connections.Registry.All | Client/apps/concord-server/src/ws/connections.ts:41-43 | one record per socket, in the order the sockets connected |
| Connections.Registry.Get | Client/apps/concord-server/src/ws/connections.ts:37-39 | a record is found iff the socket is registered, and it is that socket's record |
| Connections.Registry.AddConnection | Client/apps/concord-server/src/ws/connections.ts:20-29 | files `NewConn(ws)` under the new socket, which is open; nothing is sent |
| Connections.Registry.RemoveConnection | Client/apps/concord-server/src/ws/connections.ts:31-35 | returns the record the socket had, or nothing; afterwards the socket has no record and every other socket's record is unchanged |
| Connections.Registry.Update | Client/apps/concord-server/src/ws/connections.ts:5-16 | an assignment to a record's fields: that socket now reads back the new record, the order and every other record are unchanged |
| Connections.Registry.Send | Client/apps/concord-server/src/ws/connections.ts:59-63 | `send` appends the event for the socket when it is open and is a no-op otherwise |
| Connections.Registry.SendEach | Client/apps/concord-server/src/ws/connections.ts:59-63 | sends a list of events to one socket in order |
| Connections.Registry.CloseSocket | Client/apps/concord-server/src/ws/connections.ts:59-63 | `ws.close()` takes the socket out of the open state, so later sends to it are dropped |
| Connections.Registry.SendAll | Client/apps/concord-server/src/ws/connections.ts:71-87 | the broadcast loop: one `send` per target in order, skipping the excluded socket |
| Connections.Registry.BroadcastToChannel | Client/apps/concord-server/src/ws/connections.ts:66-76 | `broadcastToChannel` is that loop over the records that joined the channel |
| Connections.Registry.BroadcastToAll | Client/apps/concord-server/src/ws/connections.ts:79-88 | `broadcastToAll` is that loop over the authenticated records |
| Connections.Registry.BroadcastEach | Client/apps/concord-server/src/ws/connections.ts:79-88 | several `broadcastToAll` calls in a row |
| Connections.Registry.SendAllEach | Client/apps/concord-server/src/ws/connections.ts:71-87 | one broadcast loop per event, in order |
| Dispatcher.Connect | Client/apps/concord-server/src/ws/handler.ts:61-62 | a new socket is open and registered with a fresh record, and nothing is sent |
| Dispatcher.OnMessage | Client/apps/concord-server/src/ws/handler.ts:64-87 | the rate limiter is checked first: a refusal sends `RATE_LIMITED`; a message that does not parse sends `INVALID_MESSAGE`; an unauthenticated record sending anything but `user:profile` or `auth:response` gets `NOT_AUTHENTICATED`; in these cases only the record's limiter changes, and an unauthenticated record never changes the database or the voice rooms |
| Dispatcher.HandleMessage | Client/apps/concord-server/src/ws/handler.ts:147-236 | the authentication gate answers `NOT_AUTHENTICATED` and changes nothing; an unknown type answers `UNKNOWN_TYPE` and changes nothing; an unauthenticated record reaches only the handshake handlers, which touch neither the database's shared tables nor the voice rooms |
| Dispatcher.RouteVoice | Client/apps/concord-server/src/ws/handler.ts:180-200 | routes each voice command to its handler, keeping the registry and voice invariants |
| Dispatcher.RouteRealm | Client/apps/concord-server/src/ws/handler.ts:161-224 | splits the remaining routed commands between the member handlers and the admin handlers, keeping the registry and database invariants |
| Dispatcher.RouteChat | Client/apps/concord-server/src/ws/handler.ts:162-221 | routes `realm:join`, the channel commands and `dm:open` to their handlers, keeping the invariants |
| Dispatcher.RouteAdmin | Client/apps/concord-server/src/ws/handler.ts:201-224 | routes the admin commands to their handlers, keeping the invariants |
| Dispatcher.OnClose | Client/apps/concord-server/src/ws/handler.ts:89-144 | the record is removed and the socket closed, its timer disarmed; a record with a key leaves its voice room as `voice:leave` would, and every other member is told `member:leave`; a record without a key sends nothing and leaves the rooms alone |
| Dispatcher.Depart | Client/apps/concord-server/src/ws/handler.ts:94-143 | with a voice channel: the producers held are announced closed, the participant removed and `voice:participant:left` announced; then `member:leave` goes to every other authenticated socket |
| Hex.HexDigit | Client/packages/crypto/src/utils.ts:16 | a digit value prints as a lowercase hex character |
| Hex.HexValueOfDigit | Client/packages/crypto/src/utils.ts:16-24 | `parseInt` reads a printed digit back as its value |
| Hex.HexDigitOfValue | Client/packages/crypto/src/utils.ts:16-24 | a lowercase hex character is the printed form of its own value |
| Hex.ToString16 | Client/packages/crypto/src/utils.ts:16 | `toString(16)` prints at least one digit |
| Hex.PadStart | Client/packages/crypto/src/utils.ts:16 | `padStart` output has the target width, or the string's own length when longer |
| Hex.ByteToHexDigits | Client/packages/crypto/src/utils.ts:16 | each byte prints as exactly two lowercase digits, high nibble first, zero-padded |
| Hex.ToHex | Client/packages/crypto/src/utils.ts:14-18 | `toHex` output has length `2n` and only characters 0-9a-f |
| Hex.ToHexAt | Client/packages/crypto/src/utils.ts:14-18 | characters `2i` and `2i+1` of the output are the two digits of byte `i` |
| Hex.LeadingHexDigits | Client/packages/crypto/src/utils.ts:24 | the digit run `parseInt` reads is a prefix of the input made only of hex digits |
| Hex.ToUint8 | Client/packages/crypto/src/utils.ts:24 | storing into a `Uint8Array` keeps any value in 0..255 as it is |
| Hex.ParsePair | Client/packages/crypto/src/utils.ts:24 | `parseInt` of two hex digits in base 16 is their two-digit value |
| Hex.DecodePair | Client/packages/crypto/src/utils.ts:24 | byte `k` of a hex string with hex digits at `2k` and `2k+1` is their two-digit value |
| Hex.HexDecode | Client/packages/crypto/src/utils.ts:21-27 | `fromHex` yields `|hex| / 2` bytes (rounded down), byte `k` parsed from characters `2k..2k+1` |
| Hex.FromHex | Client/packages/crypto/src/utils.ts:21-27 | the loop fills a fresh zeroed array of `|hex| / 2` bytes with exactly `HexDecode(hex)` |
| Hex.StorePiece | Client/packages/crypto/src/utils.ts:24 | one step of the loop writes byte `i / 2`, and a write past the end changes nothing |
| Hex.DecodeDigitsOfByte | Client/packages/crypto/src/utils.ts:14-27 | the two digits `toHex` prints for a byte decode back to that byte |
| Hex.DecodeOfDigits | Client/packages/crypto/src/utils.ts:14-27 | a string holding each byte's two digits, in order, decodes to those bytes |
| Hex.DecodeEncode | Client/packages/crypto/src/utils.ts:14-27 | `fromHex(toHex(b)) == b` for every byte sequence |
| Hex.EncodeOfDigits | Client/packages/crypto/src/utils.ts:14-27 | bytes whose digits are those of `h`, pair by pair, encode to `h` |
| Hex.DecodedDigits | Client/packages/crypto/src/utils.ts:14-27 | each pair of lowercase digits decodes to the byte that prints as that pair |
| Hex.DivMod16 | Client/packages/crypto/src/utils.ts:16 | a two-digit value splits back into its high and low digit |
| Hex.EncodeDecode | Client/packages/crypto/src/utils.ts:14-27 | `toHex(fromHex(h)) == h` for every even-length lowercase hex string |
| Invites.MapRows | Client/apps/concord-server/src/invites/invites.ts:24-28 | one link per row, in row order |
| Invites.EnsureDefaultInvite | Client/apps/concord-server/src/invites/invites.ts:11-21 | an empty table gets exactly one link with the fresh id, key and time; a non-empty table is untouched; either way the table is non-empty |
| Invites.InviteLinksListed | Client/apps/concord-server/src/invites/invites.ts:24-28 | one link per row, oldest first, every row listed and nothing else |
| Invites.GetInviteKey | Client/apps/concord-server/src/invites/invites.ts:31-36 | a key is found iff an invite has this id, and it is a key stored with that id |
| Invites.InviteKeyExact | Client/apps/concord-server/src/invites/invites.ts:31-36 | with ids unique, the key found for an id is the key stored with it |
| Invites.RegenerateInvite | Client/apps/concord-server/src/invites/invites.ts:39-52 | an unknown id gives null and leaves the table unchanged; otherwise the old row is deleted, the new link appended and returned |
| Invites.RegenerateReplaces | Client/apps/concord-server/src/invites/invites.ts:44-51 | after regeneration the old id has no key, the new id has the new key, every other id keeps its key and the number of links is unchanged |
| Invites.DropsOneRow | Client/apps/concord-server/src/invites/invites.ts:48 | ids are unique, so deleting one id removes exactly one row |
| Messages.MessageRowOf | Client/apps/concord-server/src/messages/store.ts:40-51 | the stored row reads back (`rowToMessage`) as exactly the message saved, `hasAttachment` included |
| Messages.MapRows | Client/apps/concord-server/src/messages/store.ts:37 | one message per row, in row order |
| Messages.MessageIdsAppend | Client/apps/concord-server/src/messages/store.ts:4-20 | appending a row adds exactly its id to the message ids |
| Messages.SaveMessage | Client/apps/concord-server/src/messages/store.ts:4-20 | the insert fails (foreign key) iff the channel does not exist, or (primary key) iff the id is taken, and then changes nothing; otherwise it appends the message's row |
| Messages.PageMatches | Client/apps/concord-server/src/messages/store.ts:27-35 | every row of the page belongs to the channel, is older than a truthy `before`, and the page runs newest first |
| Messages.HistoryShape | Client/apps/concord-server/src/messages/store.ts:22-38 | a page holds only the channel's messages, older than a truthy `before` (0 is no bound), `min(limit, matching)` of them (all when `LIMIT` is negative), oldest first |
| Messages.HistoryIsNewest | Client/apps/concord-server/src/messages/store.ts:28-29 | a matching message left off the page is no newer than any message on it |
| Messages.SavedIsListed | Client/apps/concord-server/src/messages/store.ts:4-38 | a saved message is on its channel's unbounded history |
| Profiles.Upserted | Client/apps/concord-server/src/users/cache.ts:4-11 | the upserted table still holds one row per key, filed under that key |
| Profiles.UpsertProfile | Client/apps/concord-server/src/users/cache.ts:4-11 | `upsertProfile` replaces the profile table with `Upserted(old, p, now)` and keeps the database consistent |
| Profiles.GetProfile | Client/apps/concord-server/src/users/cache.ts:13-26 | a profile is found iff the key is cached; it carries that key and a last-seen time |
| Profiles.UpsertThenGet | Client/apps/concord-server/src/users/cache.ts:4-26 | after an upsert the key reads back as the claimed profile with last-seen `now` (whatever was supplied, bio unset stays unset); other keys read back as before; a row is added only for a new key |
| Profiles.AllProfilesListed | Client/apps/concord-server/src/users/cache.ts:28-39 | `getAllProfiles` lists one profile per cached key, each as `getProfile` gives it, most recently seen first |
| Profiles.ListingOrdered | Client/apps/concord-server/src/users/cache.ts:30 | the listing has one entry per row, ordered by last-seen time descending |
| Profiles.ListingCovers | Client/apps/concord-server/src/users/cache.ts:28-39 | every cached key's profile is listed |
| Profiles.ListingSound | Client/apps/concord-server/src/users/cache.ts:33-38 | every listed profile is the one `getProfile` gives for its key |
| Protocol.ParseChannelType | Client/apps/concord-server/src/db/database.ts:60 | a string the `type` column accepts names exactly one channel type, whose name is that string |
| Protocol.ParseChannelTypeName | Client/packages/protocol/src/channel.ts:1 | every channel type's name parses back to that type |
| Protocol.DeclaredButUnhandled | Client/packages/protocol/src/commands.ts:122-144 | the protocol declares `realm:leave` and `channel:file`, which the dispatcher does not route, and the dispatcher routes `invite:regenerate`, which the protocol does not declare |
| Protocol.NamedTypesAreWellFormed | Client/apps/concord-server/src/ws/handler.ts:161-224 | every routed command's type name is one the dispatcher switches on |
| Server.Server.constructor | Client/apps/concord-server/src/ws/connections.ts:18 | a process that has just started has no connections, no open sockets, an empty outbox, no timers, no voice rooms, and no channels or messages |
| Server.Tell | Client/apps/concord-server/src/ws/connections.ts:59-63 | `send`: the event is appended for the socket if it is open, and nothing else changes |
| Server.Announce | Client/apps/concord-server/src/ws/connections.ts:79-88 | `broadcastToAll`: the event is appended once for each open authenticated record other than the excluded one, in registry order |
| Server.ToChannel | Client/apps/concord-server/src/ws/connections.ts:66-76 | `broadcastToChannel`: the event is appended once for each open record that joined the channel, other than the excluded one, in registry order |
| Server.Rewrite | Client/apps/concord-server/src/ws/connections.ts:37-39 | a handler's change to a record it got from `getConnection` replaces that record and nothing else |
| Server.RefreshProfile | Client/apps/concord-server/src/users/cache.ts:4-11 | the profile table becomes the upsert of the profile, seen now |
| Tables.Database.constructor | Client/apps/concord-server/src/db/database.ts:48-95 | a fresh database has every table empty and is consistent |
| Tables.MessageIdsSplit | Client/apps/concord-server/src/db/database.ts:69 | when every message satisfies one of two tests, each message id is kept by one of the two filters |
| Tables.CascadeAttachments | Client/apps/concord-server/src/db/database.ts:83 | after `ON DELETE CASCADE` removes the attachments of the deleted messages, every remaining attachment refers to a kept message |
| RateLimit.InWindowMembers | Client/apps/concord-server/src/ws/rate-limit.ts:13 | the filter keeps exactly the readings less than `windowMs` old, never adds one, and every kept reading is in the window |
| RateLimit.InWindowAscending | Client/apps/concord-server/src/ws/rate-limit.ts:13 | the filter keeps ascending readings in ascending order |
| RateLimit.InWindowIdempotent | Client/apps/concord-server/src/ws/rate-limit.ts:13 | filtering the readings a second time at the same clock reading removes nothing more |
| RateLimit.RefusedStaysRefused | Client/apps/concord-server/src/ws/rate-limit.ts:15-20 | a refused request stores no reading, so a second check at the same clock reading leaves the readings unchanged and any number of further checks at that reading are all refused |
| RateLimit.WindowBound | Client/apps/concord-server/src/ws/rate-limit.ts:13-20 | after a check every stored reading is less than `windowMs` old and is either an old reading or `now` |
| RateLimit.CountBounded | Client/apps/concord-server/src/ws/rate-limit.ts:13-20 | a limiter holding at most `maxRequests` readings still holds at most `maxRequests` after a check |
| RateLimit.AdmitsAfterQuietPeriod | Client/apps/concord-server/src/ws/rate-limit.ts:13-20 | once every stored reading is at least `windowMs` old, the next check is admitted and leaves exactly `[now]` |
| RateLimit.KeepsAscending | Client/apps/concord-server/src/ws/rate-limit.ts:13-19 | under a clock that does not go back, the stored readings stay ascending and none is later than `now` |
| RateLimit.InWindowOfRepeat | Client/apps/concord-server/src/ws/rate-limit.ts:13 | readings all taken at `now` all survive a window of positive width |
| RateLimit.FixedClockFrom | Client/apps/concord-server/src/ws/rate-limit.ts:15-20 | with the clock standing still, a limiter holding `k` readings admits `maxRequests - k` more requests and refuses the next |
| RateLimit.FixedClockBurst | Client/apps/concord-server/src/ws/rate-limit.ts:15-20 | with the clock standing still, a fresh limiter admits its first `maxRequests` requests and refuses the next |
| RateLimit.Repeat | Client/apps/concord-server/src/ws/rate-limit.ts:15-20 | `n` copies of one value: length `n`, every element that value (the clock readings of a burst) |
| RateLimit.RateLimiter.constructor | Client/apps/concord-server/src/ws/rate-limit.ts:2-8 | a new limiter stores its two limits and no readings |
| RateLimit.RateLimiter.Check | Client/apps/concord-server/src/ws/rate-limit.ts:11-21 | `check()`: admitted iff fewer than `maxRequests` readings are in the window; the stored readings become the filtered ones, plus `now` on admission; afterwards all lie in the window and there are at most `maxRequests` of them |
| Realm.NewRealmRow | Client/apps/concord-server/src/realm/realm.ts:8-35 | the first-boot row reports the configured name, description, flags and retention, no password blob, and the given id and time |
| Realm.EnsuredHasOneRow | Client/apps/concord-server/src/realm/realm.ts:8-35 | after `ensureRealm` there is exactly one realm row, an existing row is kept, and a second call changes nothing |
| Realm.EnsureRealm | Client/apps/concord-server/src/realm/realm.ts:8-35 | inserts the configured row only when none exists, returns the stored row's info, and ensures the default invite |
| Realm.UpdateRows | Client/apps/concord-server/src/realm/realm.ts:73-87 | each `UPDATE realm` applies to every row |
| Realm.UpdateReflected | Client/apps/concord-server/src/realm/realm.ts:65-88 | after an update each given field has its new value (an explicit null clears a retention field), each absent field and the id, time, encryption and password columns keep theirs |
| Realm.UpdatesCompose | Client/apps/concord-server/src/realm/realm.ts:73-87 | two updates in a row are one merged update, and repeating an update changes nothing more |
| Realm.UpdateRealm | Client/apps/concord-server/src/realm/realm.ts:65-89 | applies the conditional updates to the row, then `ensureRealm`; returns the realm as it stands after the update |
| Realm.SetVerify | Client/apps/concord-server/src/realm/realm.ts:92-96 | sets the ciphertext and the nonce together on every row, nothing else |
| Realm.SetEncrypted | Client/apps/concord-server/src/realm/realm.ts:48 | sets only the encryption flag on every row |
| Realm.SetRealmPasswordVerify | Client/apps/concord-server/src/realm/realm.ts:92-96 | `setRealmPasswordVerify` stores the blob and nonce and keeps the database consistent |
| Realm.SyncMatchesConfig | Client/apps/concord-server/src/realm/realm.ts:38-58 | after a sync the stored encryption flag is the configured one; with both password variables set the blob is the configured one; otherwise blob and nonce are untouched; the other columns are untouched and a second sync changes nothing |
| Realm.SyncRealmConfig | Client/apps/concord-server/src/realm/realm.ts:38-58 | `syncRealmConfig` replaces the realm table with `Synced(old, cfg)` |
| Rooms.VoiceRooms.constructor | Client/apps/concord-server/src/media/rooms.ts:30 | the process starts with no voice rooms and no closed engine object |
| Rooms.VoiceRooms.GetRoom | Client/apps/concord-server/src/media/rooms.ts:47-49 | a room is found exactly when one is registered for the channel, and it is that room |
| Rooms.VoiceRooms.GetOrCreateRoom | Client/apps/concord-server/src/media/rooms.ts:32-45 | an existing room is returned unchanged; otherwise a router failure throws with nothing changed, and a new router gives a new empty room registered under the channel |
| Rooms.VoiceRooms.SetParticipant | Client/apps/concord-server/src/ws/handler.ts:580-586 | the participant (key, name, socket, no transports, no producers or consumers) is put in the room under its key, replacing any earlier entry for that key |
| Rooms.VoiceRooms.RemoveParticipant | Client/apps/concord-server/src/media/rooms.ts:51-72 | a missing room: nothing; otherwise the participant, if present, is removed with its producers, consumers and transports closed, and a room left empty is closed and deleted even when the key was not a participant |
| Rooms.RemoveParticipantEffect | Client/apps/concord-server/src/media/rooms.ts:51-72 | removal closes every handle of the removed participant, removes the room exactly when no other participant is in it (closing its router), keeps the other participants and leaves every other room as it was |
| Rooms.RemoveKeepsOk | Client/apps/concord-server/src/media/rooms.ts:51-72 | removal keeps every remaining engine object live and owned by its room and participant |
| Rooms.VoiceRooms.ParticipantList | Client/apps/concord-server/src/media/rooms.ts:75-84 | no room: empty; otherwise one summary per participant, in insertion order |
| Rooms.Summaries | Client/apps/concord-server/src/media/rooms.ts:80-83 | one `{publicKey, name}` summary per participant, in insertion order |
| Rooms.VoiceParticipantsExact | Client/apps/concord-server/src/media/rooms.ts:87-98 | a channel is listed, with its participants' summaries, exactly when its room has at least one participant |
| Rooms.Sharers | Client/apps/concord-server/src/media/rooms.ts:104-112 | a key is listed exactly when its participant has at least one screen producer |
| Rooms.ScreenSharesExact | Client/apps/concord-server/src/media/rooms.ts:101-118 | a listed channel has a non-empty list of exactly its screen-sharing keys, and every channel with a screen sharer is listed |
| Rooms.OtherProducersExact | Client/apps/concord-server/src/media/rooms.ts:121-141 | a listing is returned exactly when it describes a producer of a participant other than the excluded key, with that producer's kinds |
| Rooms.ListProducers | Client/apps/concord-server/src/media/rooms.ts:131-138 | one listing per producer of the participant, in insertion order, with its id, owner and kinds |
| Rooms.VoiceRooms.CreateTransport | Client/apps/concord-server/src/media/rooms.ts:145-191 | `Room not found`, `Participant not found` or an engine failure leave the rooms unchanged; otherwise the new transport becomes the participant's send or receive transport and its id is returned |
| Rooms.SelectTransport | Client/apps/concord-server/src/media/rooms.ts:193-212 | `connectTransport`'s lookup: the send transport when its id matches, else the receive transport when its id matches, else `Transport not found` exactly when the participant exists and neither matches |
| Rooms.SelectedIsLive | Client/apps/concord-server/src/media/rooms.ts:205-212 | a selected transport is a live transport of that participant in that direction |
| Rooms.CreatedThenSelected | Client/apps/concord-server/src/media/rooms.ts:179-210 | a transport just created for a direction is the one `connectTransport` selects by its id |
| Rooms.Produce | Client/apps/concord-server/src/media/rooms.ts:217-239 | `Room not found`, `Participant not found` and `No send transport` exactly in those cases; success exactly with a send transport and an engine producer, adding it under its id with its kinds; every failure leaves the rooms unchanged |
| Rooms.VoiceRooms.CreateProducer | Client/apps/concord-server/src/media/rooms.ts:217-239 | the rooms and the answer are those of `Produce` |
| Rooms.ProduceOk | Client/apps/concord-server/src/media/rooms.ts:236 | a new producer is owned by its participant and every engine object stays live and owned |
| Rooms.ProducedIsFound | Client/apps/concord-server/src/media/rooms.ts:236-275 | a producer just created is found by the producer search, under its owner and with its kinds |
| Rooms.FindProducer | Client/apps/concord-server/src/media/rooms.ts:266-275 | the search answers the first participant holding the producer with its info, and nothing exactly when no participant holds it |
| Rooms.SearchProducer | Client/apps/concord-server/src/media/rooms.ts:266-275 | the loop over the participants finds what `FindProducer` specifies |
| Rooms.FoundIsHolder | Client/apps/concord-server/src/media/rooms.ts:266-275 | in a well-formed room the search finds the participant that holds the producer |
| Rooms.ProducerOwnerUnique | Client/apps/concord-server/src/media/rooms.ts:236 | in a well-formed room no producer id is held by two participants |
| Rooms.ProducerNotElsewhere | Client/apps/concord-server/src/media/rooms.ts:236 | a producer held by one participant is held by no other |
| Rooms.Consume | Client/apps/concord-server/src/media/rooms.ts:241-309 | no room, no receive transport, an unknown producer or `canConsume` false answer null with nothing changed; an engine failure throws; success adds the consumer to the caller and answers the producer's id, kinds and owner key |
| Rooms.VoiceRooms.CreateConsumer | Client/apps/concord-server/src/media/rooms.ts:241-309 | the rooms and the answer are those of `Consume` |
| Rooms.ConsumeFindsHolder | Client/apps/concord-server/src/media/rooms.ts:266-308 | with a receive transport and `canConsume`, consuming a held producer answers its holder and its kinds |
| Rooms.ConsumeOk | Client/apps/concord-server/src/media/rooms.ts:297 | a new consumer is owned by the caller and every engine object stays live and owned |
| Rooms.CloseOutcome | Client/apps/concord-server/src/media/rooms.ts:311-328 | the producer's info is answered exactly when the participant holds it, and then only that producer is removed; otherwise nothing changes |
| Rooms.VoiceRooms.CloseProducer | Client/apps/concord-server/src/media/rooms.ts:311-328 | the rooms and the answer are those of `CloseOutcome`, and a removed producer is closed |
| Rooms.CloseProducerOk | Client/apps/concord-server/src/media/rooms.ts:325-326 | closing a producer keeps every remaining engine object live and owned |
| Rooms.CloseHeldProducerOk | Client/apps/concord-server/src/media/rooms.ts:325-326 | closing a held producer keeps the rooms well formed with that producer closed |
| Rooms.ClosedProducerGone | Client/apps/concord-server/src/media/rooms.ts:326 | after a producer is closed no participant holds it |
| Rooms.HandlesOwned | Client/apps/concord-server/src/media/rooms.ts:14-22 | every transport, producer and consumer of a participant is live and belongs to that participant in that room |
| Rooms.OkShaped | Client/apps/concord-server/src/media/rooms.ts:20-27 | in a well-formed registry every participant, producer and consumer map is well formed |
| Rooms.ParticipantShape | Client/apps/concord-server/src/media/rooms.ts:20-27 | a registered participant's maps are well formed |
| Rooms.AddOwnerKeeps | Client/apps/concord-server/src/media/rooms.ts:37-44 | an engine object created with a fresh id does not disturb the ownership of the existing ones |
| Rooms.CloseKeeps | Client/apps/concord-server/src/media/rooms.ts:57-70 | closing one participant's objects, and its room's router, leaves every other object live |
| Rooms.RemovedRoomOk | Client/apps/concord-server/src/media/rooms.ts:69-72 | deleting a room keeps the others well formed |
| Rooms.KeptRoomOk | Client/apps/concord-server/src/media/rooms.ts:65 | deleting one participant from a room keeps the registry well formed |
| Rooms.KeptParticipantOk | Client/apps/concord-server/src/media/rooms.ts:179-183 | replacing one participant by a well-formed version keeps the registry well formed |
| Rooms.PutParticipantOk | Client/apps/concord-server/src/media/rooms.ts:236 | putting a well-formed participant in an existing room keeps the registry well formed |
| Rooms.AddHandleOk | Client/apps/concord-server/src/media/rooms.ts:161-183 | a fresh engine object owned by a participant keeps the registry well formed |
| Rooms.AddProducerOk | Client/apps/concord-server/src/media/rooms.ts:236 | adding a fresh producer to a participant keeps the registry well formed |
| Retention.StoragePaths | Client/apps/concord-server/src/messages/retention.ts:40-61 | one storage path per attachment row, in order |
| Retention.FilteredMessagesInChannels | Client/apps/concord-server/src/messages/retention.ts:27-29 | deleting messages keeps every remaining message in an existing channel |
| Retention.PruneConsistent | Client/apps/concord-server/src/messages/retention.ts:19-29 | deleting the messages older than the cutoff, and through the foreign key their attachments, keeps the tables consistent; deleted and kept add up to the old table and every kept message is at or after the cutoff |
| Retention.PruneOldMessages | Client/apps/concord-server/src/messages/retention.ts:11-37 | the realm row (and default invite) ensured as `getRealmInfo()` leaves them, and the retention read from that row; then as `PruneMessages` |
| Retention.PruneMessages | Client/apps/concord-server/src/messages/retention.ts:13-36 | retention unset or 0: returns 0 and deletes nothing; otherwise deletes exactly the messages created before `now - days * 86400000` and their attachments, returns their number and queues exactly the storage paths of those attachments |
| Retention.DeleteByIdsIsExact | Client/apps/concord-server/src/messages/retention.ts:47-56 | with unique ids, deleting the expired rows by id deletes exactly the expired rows |
| Retention.NoneExpired | Client/apps/concord-server/src/messages/retention.ts:51 | when nothing is expired, every row is kept |
| Retention.FilteredAttachmentsOnMessages | Client/apps/concord-server/src/messages/retention.ts:56 | deleting attachments keeps every remaining attachment on an existing message |
| Retention.DeleteExpired | Client/apps/concord-server/src/messages/retention.ts:47-56 | the delete-by-id leaves exactly the unexpired rows, keeps ids unique and attachments on existing messages, and removed plus kept add up to the old table |
| Retention.PruneOldFiles | Client/apps/concord-server/src/messages/retention.ts:40-61 | the realm row (and default invite) ensured as `getRealmInfo()` leaves them, and the file retention read from that row; then as `PruneFiles` |
| Retention.PruneFiles | Client/apps/concord-server/src/messages/retention.ts:42-60 | file retention unset or 0: returns 0 and deletes nothing; otherwise deletes exactly the attachments with a creation time before the cutoff, queues their paths and returns their number |
| Retention.OrphansExact | Client/apps/concord-server/src/messages/retention.ts:75-89 | the sweep never deletes a file an attachment refers to by path or a file whose unlink fails, and deletes every listed file no attachment refers to that it can |
| Retention.PruneOrphanedFiles | Client/apps/concord-server/src/messages/retention.ts:64-92 | with S3 configured (`s3Enabled`) or no upload directory: 0 and no deletion; otherwise deletes the orphans in listing order and returns how many unlinks succeeded |
| VoiceHandlers.RosterExact | Client/apps/concord-server/src/ws/handler.ts:601-614 | the catch-up roster holds exactly one `voice:participant:joined` per other participant of the room, with its key and name |
| VoiceHandlers.NewProducerEvents | Client/apps/concord-server/src/ws/handler.ts:616-631 | one `voice:new-producer` per listed producer, in order, carrying its id, owner and kinds |
| VoiceHandlers.HandleVoiceJoin | Client/apps/concord-server/src/ws/handler.ts:548-653 | no key: nothing; media engine not ready: `VOICE_ERROR`; the room already at `maxVoiceParticipants`, counted before the room is created: `VOICE_FULL`; a router failure: `VOICE_ERROR`; otherwise seated and greeted as below |
| VoiceHandlers.EnterRoom | Client/apps/concord-server/src/ws/handler.ts:580-642 | the caller is seated in the room, its record points at the channel, and it is greeted |
| VoiceHandlers.TakeSeat | Client/apps/concord-server/src/ws/handler.ts:580-588 | the participant (key, name or `Unknown`, socket, nothing open) replaces any earlier entry for the key, and the record's voice channel is set |
| VoiceHandlers.GreetJoiner | Client/apps/concord-server/src/ws/handler.ts:590-642 | the joiner gets `voice:joined` with the ICE servers, then one event per other participant, then one per other participant's producer, and every other authenticated socket gets `voice:participant:joined` |
| VoiceHandlers.LeaveEvents | Client/apps/concord-server/src/ws/handler.ts:674-694 | one `voice:producer-closed` per held producer, in order, then one `voice:participant:left` |
| VoiceHandlers.LeaveAnnouncesProducers | Client/apps/concord-server/src/ws/handler.ts:659-694 | a leave announces every producer the participant held, each once, and ends with `voice:participant:left` |
| VoiceHandlers.LeaveVoice | Client/apps/concord-server/src/ws/handler.ts:659-694 | the producers held are collected first, the participant is removed as `removeParticipant` does (an empty room deleted), and the leave events go to every authenticated socket, the leaver's included |
| VoiceHandlers.HandleVoiceLeave | Client/apps/concord-server/src/ws/handler.ts:655-695 | no key: nothing; otherwise the record's voice channel is cleared and the leave above happens |
| VoiceHandlers.HandleCreateTransport | Client/apps/concord-server/src/ws/handler.ts:697-728 | no key: nothing; otherwise as `CreateTransportFor` |
| VoiceHandlers.CreateTransportFor | Client/apps/concord-server/src/ws/handler.ts:704-727 | a participant and an engine transport: the transport set and `voice:transport-created` sent; any failure: `VOICE_ERROR` and no change |
| VoiceHandlers.HandleConnectTransport | Client/apps/concord-server/src/ws/handler.ts:730-753 | no key: nothing; a transport the lookup selects and the engine connects: nothing sent; otherwise `VOICE_ERROR` |
| VoiceHandlers.HandleProduce | Client/apps/concord-server/src/ws/handler.ts:755-803 | no key: nothing; otherwise as `ProduceFor` |
| VoiceHandlers.ProduceFor | Client/apps/concord-server/src/ws/handler.ts:759-802 | the rooms become `Produce`'s; a failure sends `VOICE_ERROR`; success sends `voice:produced` to the caller and `voice:new-producer` to every other authenticated socket |
| VoiceHandlers.ProducedReachesLateJoiner | Client/apps/concord-server/src/ws/handler.ts:617-631 | a producer created in a room is listed to any later joiner other than its owner |
| VoiceHandlers.HandleConsume | Client/apps/concord-server/src/ws/handler.ts:805-845 | no key: nothing; otherwise as `ConsumeFor` |
| VoiceHandlers.ConsumeFor | Client/apps/concord-server/src/ws/handler.ts:811-844 | the rooms become `Consume`'s; a consumer sends `voice:consumed` with the producer's kinds and owner; a null answer or a failure sends `VOICE_ERROR` |
| VoiceHandlers.HandleCloseProducer | Client/apps/concord-server/src/ws/handler.ts:847-865 | no key: nothing; otherwise as `CloseFor` |
| VoiceHandlers.CloseFor | Client/apps/concord-server/src/ws/handler.ts:851-864 | the rooms become `CloseOutcome`'s; a producer the caller did not hold: nothing sent; otherwise it is closed and `voice:producer-closed` goes to every authenticated socket |
| Text.Trim | Client/apps/concord-server/src/config.ts:111 | `String.prototype.trim`: no longer than its input, and a non-empty result neither starts nor ends with JavaScript whitespace |
| Text.TrimEmptyIffWhitespace | Client/apps/concord-server/src/config.ts:111-112 | a trimmed piece is empty exactly when the piece is all whitespace, so `.filter(Boolean)` drops exactly the blank pieces |
| Text.TrimIdempotent | Client/apps/concord-server/src/config.ts:111 | trimming twice is trimming once |
| Text.Split | Client/apps/concord-server/src/config.ts:110 | `String.prototype.split` on one character: at least one piece, none containing the separator |
| Text.SplitJoin | Client/apps/concord-server/src/realm/channels.ts:67-132 | splitting the join of pieces without the separator gives the pieces back |
| Text.SplitTrimmed | Client/apps/concord-server/src/config.ts:25-28 | `split(c).map(trim).filter(Boolean)`: every piece is trimmed, non-empty and free of the separator |
| Text.TrimNonEmpty | Client/apps/concord-server/src/config.ts:111-112 | `map(trim).filter(Boolean)`: no more pieces than given, each trimmed and non-empty, and free of a character no input piece held |
| Text.LexLeTotal | Client/apps/concord-server/src/realm/channels.ts:68 | the lexicographic code-point order that stands for `Array.prototype.sort`'s default order relates any two keys |
| Text.LexLeAntisymmetric | Client/apps/concord-server/src/realm/channels.ts:68 | two keys ordered both ways are equal, so the sorted pair is determined by the two keys alone |
| Sequences.SortBy | Client/apps/concord-server/src/messages/store.ts:28-29 | `ORDER BY`: the rows sorted on the key, the same rows with the same multiplicities |
| Sequences.Take | Client/apps/concord-server/src/messages/store.ts:28-29 | SQLite `LIMIT n`: the first `n` rows, and every row when `n` is negative or at least the row count |
| Sequences.TakeKeepsSmallest | Client/apps/concord-server/src/messages/store.ts:28-29 | a row a sorted `LIMIT` leaves out sorts after every row it keeps |
| Sequences.Reverse | Client/apps/concord-server/src/messages/store.ts:37 | `.reverse()`: the same rows in the opposite order |
| Sequences.FilterWith | Client/apps/concord-server/src/messages/store.ts:28-29 | `WHERE`: exactly the rows the condition holds for, none added |

## Left out

- Sockets are numbers and are never reused. A closed socket stays in `open`'s complement forever.
- Interleavings of the `async` voice handlers are not modelled. Each handler runs as one atomic step, so the window between the `voice:join` capacity check and the room's creation cannot be raced.
- The media engine's internals are not modelled: RTP capabilities and parameters, ICE and DTLS parameters, and `canConsume`'s reasoning. Each engine call is reduced to the handle it returns, a failure, or the boolean answer.
- Envelope ids, envelope timestamps and the text of error messages are not modelled. Error events carry only their code.
- Console logging is not modelled.
- JSON parsing is not modelled. A message that does not parse is an absent command, and the entry point answers it with `INVALID_MESSAGE`.
- The payload field checks of TypeScript casts are not modelled. Commands arrive already typed, and the gate tests the command's constructor rather than its type string (`Protocol.NamedTypesAreWellFormed` connects the two).
- Dispatcher.OnMessage: for an admitted, parsed, ungated command it promises only the invariants, plus that an unauthenticated record changes no shared table or room. The effect is stated by the routed handler's own contract.
- Dispatcher.HandleMessage: for a routed command it promises only the invariants, plus that an unauthenticated record changes no shared table or room. The effect is stated by the routed handler's own contract.
- Dispatcher.RouteVoice: promises only the invariants. Each voice handler's contract states the effect.
- Dispatcher.RouteRealm: promises only the invariants. The handlers' contracts state the effects.
- Dispatcher.RouteChat: promises only the invariants. The chat handlers' contracts state the effects.
- Dispatcher.RouteAdmin: promises only the invariants. The admin handlers' contracts state the effects.
- AdminHandlers.HandleInviteRegenerate: requires the drawn `uuid()` to differ from every invite id. The uuid generator is trusted to ensure this.
- AdminHandlers.Regenerate: requires a fresh `uuid()`, as `HandleInviteRegenerate` does.
- AdminHandlers.NewInvite: requires a fresh `uuid()`, as `HandleInviteRegenerate` does.
- Dispatcher.OnMessage: requires a fresh `uuid()`, a fresh timer id, 32 random bytes and fresh engine handles for the event.
- VoiceHandlers.HandleVoiceJoin: requires every handle the engine returns to be new. The engine's id generator is trusted to ensure this.
- VoiceHandlers.HandleCreateTransport: requires new engine handles, as `HandleVoiceJoin` does.
- VoiceHandlers.HandleProduce: requires new engine handles, as `HandleVoiceJoin` does.
- VoiceHandlers.HandleConsume: requires new engine handles, as `HandleVoiceJoin` does.
- Rooms.Consume: the consumer's kind is reported as the producer's kind. The engine creates a consumer of the producer's kind, which the model does not otherwise represent.
- ChatHandlers.HandleRealmJoin: refuses with the corrected capacity test (`Refused`, which leaves the caller out of the count). The source counts every authenticated connection, the caller included, so with `maxMembers = 1` the source refuses the only member and this model admits it. `ChatHandlers.RefusedAsWritten` and `ChatHandlers.SoleMemberRefused` state the source's behaviour.
- Sequences.SortBy: rows with equal `ORDER BY` keys keep their table order. SQLite leaves their order unspecified, so the model fixes one of the orders SQLite may return.
- A deleted channel's id stays in the `joinedChannels` of connected records, as in the source. No property about it is stated.
- `database.ts` (the schema and its migrations) is not part of this model. Its constraints appear only as the `Tables` invariant.
- The file uploads and deletions (`files/`) are not part of this model.
- The RSS feed (`rss/`) is not part of this model.
- `index.ts` (HTTP routes, startup, the retention timer) is not part of this model.
- `sfu.ts` is not part of this model.
- The signature primitives and base58 decoding are not part of this model. `verify` is a parameter.
- Retention's `runRetention`, its daily scheduling and the asynchronous removal of physical files are not modelled. The three pruning passes are, each reading its setting from the ensured realm row, and a deletion is reported as the storage paths handed to the cleanup.
- `detectLocalIp` is not modelled, because it reads the host's network interfaces.
- The configuration fields that only the left-out files use are not modelled: ports, file size, storage limits, the S3 credentials and the announced address. Whether S3 is configured is modelled as `s3Enabled`.
- Retention.PruneOrphanedFiles: the data directory is not a configuration field; it enters only as the `uploadsDir` parameter, the directory `path.join(config.dataDir, "uploads")` names.
- Text.LexLe: orders strings by Unicode code point, while `Array.prototype.sort` compares UTF-16 code units. The two orders differ only when a character above U+FFFF meets one in U+E000–U+FFFF. The only caller (`dm:open`, `channels.ts:68`) sorts the caller's key and the requested target key. The target key is any string the client sends, but the caller's key is an authenticated base58 key and so ASCII. When one of the two strings is ASCII the orders agree: the common prefix is ASCII in both encodings, and at the first differing position an ASCII character is below every other character by code point and by code unit alike.
- Integer parsing of environment variables (`parseInt`) is not modelled. Numeric settings arrive as integers.

## Findings

| source | as written | input that shows it | evidently intended | confidence | as-written member | corrected member |
|---|---|---|---|---|---|---|
| Client/apps/concord-server/src/ws/handler.ts:241-252 | `realm:join` counts the caller's own authenticated connection against `maxMembers`, so a member is refused once `maxMembers - 1` others are online | `maxMembers = 1` with the caller as the only authenticated connection: it gets `CAPACITY_REACHED` | admit while the members online, the caller included, number at most `maxMembers` | not executed | ChatHandlers.SoleMemberRefused | ChatHandlers.AdmittedWithinCap |
