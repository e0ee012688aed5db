# Chat room client core — a Dafny model

This project models the stateful core of an Angular chat component built on the Strophe XMPP
library (`src/app/app.component.ts`). The component keeps one connection to a server, joins one
multi-user chat room, and does four things that have real state:

- **Room state.** Inbound presences and groupchat messages update a roster and an event log.
  The roster maps each nick to a participant record. The event log is ordered.
- **Connection lifecycle.** Status changes from the transport are recorded. A disconnect schedules
  a reconnect with linear backoff: one second per attempt, up to thirty seconds. A successful
  connect resets the backoff and joins room `test1@muc.localhost`.
- **Liveness ping.** This is the client-to-server ping of section 4.2 of XEP-0199. At most one ping
  is outstanding. The round-trip time is recorded, or cleared on failure or timeout.
- **`htmlescape`.** It replaces `&`, `>`, `<` and `"` by entities, with `&` first.

Modules:

- `Wrappers` (`wrappers.dfy`): `Option` and the JavaScript truthiness of optional strings.
- `Escape` (`escape.dfy`): `htmlescape` written as the chain of replacements it is. It is proved
  equal to a one-pass, per-character escaping. Its properties, including a round trip through an
  entity decoder, are then proved about that escaping.
- `Backoff` (`backoff.dfy`): the reconnect delay's update and its closed form.
- `RoomState` (`roomstate.dfy`): the roster and event log as values. It holds the update rules
  for presences and messages as functions, and the `Room` object the component mutates.
- `RoomStateAsWritten` (`roomstate.dfy`): the roster lookup as JavaScript evaluates it (see Findings).
- `App` (`app.dfy`): class `AppComponent`, with the component's fields and one method per handler.
  The methods that change the room are proved against the `RoomState` functions. The ghost field
  `outstandingPings` counts pings whose callback has not yet run. `Valid()` keeps it at most one.
- `Scenarios` (`scenarios.dfy`): runs of handler calls checked from the contracts alone. They
  cover backoff, a join followed by a message, message counting, ping gating and re-initialisation.

Inputs the component takes from the browser or the library are parameters:

- the clock (`now`);
- the random colour and the random nick;
- the unique id the library generates for a ping;
- the already-decoded server address.

Requests to the transport are recorded in order in the field `sent`.

### Behaviour as the code has it

- A room presence from an unknown nick creates that participant and logs "`<nick>` joined room".
  This happens whatever the presence type, `unavailable` included. A departure logs nothing.
- A participant created by a groupchat message gets `eventsCount` 1. Nothing increments it later.
  Three messages from a newcomer, with bodies "hi", "" and "yo", leave its `eventsCount` at 1.
  They also log two message events.
- `onConnected` does not clear the roster or the event log. It only sets the room JID and nick.
- `onDisconnected` clears `pingDelay`, not `pingId`.
- `initializeConnection` returns silently, with no error, when the address is missing or empty.
  Otherwise it replaces the room. It does not reset the backoff delay or the ping fields.
- The reconnect waits the `reconnectDelay` read when `onDisconnected` schedules it (line 330).
  The timer's increment (lines 326-328) uses the value current when the timer fires, which a
  successful connect in between may have reset to 0.
- A stanza without a `from` attribute has a null bare JID. That equals the room JID before
  the room is joined, so such a presence does reach the roster.
- A missing nick is used as the property name `"null"`.

## Model

| member | source | states |
|---|---|---|
| `Escape.HtmlEscapeIsPerChar` | src/app/app.component.ts:38-43 | the four chained global replacements equal escaping each character on its own: because `&` goes first, no entity is escaped twice |
| `Escape.HtmlEscapeNoMarkup` | src/app/app.component.ts:38-43 | the output contains no `<`, `>` or `"` |
| `Escape.HtmlEscapeEntities` | src/app/app.component.ts:38-43 | every `&` in the output starts `&amp;`, `&gt;`, `&lt;` or `&quot;` |
| `Escape.HtmlEscapeRoundTrip` | src/app/app.component.ts:38-43 | decoding the four entities gives back the input, so all other characters pass through unchanged and in order |
| `Escape.HtmlEscapePlain` | src/app/app.component.ts:38-43 | an input with none of the four characters is returned unchanged |
| `Backoff.NextDelay` | src/app/app.component.ts:326-328 | the timer adds 1000 ms only below 30000 ms; it keeps the delay a multiple of 1000 within [0, 30000] and never shrinks it |
| `Backoff.DelayBeforeClosedForm` | src/app/app.component.ts:323-331 | starting from 0, the k-th consecutive reconnect is scheduled after min(30000, (k-1)*1000) ms |
| `Backoff.DelayBeforeMonotone` | src/app/app.component.ts:323-331 | along a run of reconnects the scheduled delays never decrease |
| `RoomState.ApplyRoomPresence` | src/app/app.component.ts:261-280 | an unknown nick, of any presence type, is added with a fresh record and exactly one "`<nick>` joined room" event is appended; a known nick is removed by `unavailable` with no event, and any other type changes nothing; other entries and earlier events are kept |
| `RoomState.ApplyPresence` | src/app/app.component.ts:163-165 | a presence whose bare sender JID is not the room JID leaves the room unchanged; otherwise the room presence rule applies |
| `RoomState.ApplyMessage` | src/app/app.component.ts:195-234 | a groupchat message adds its sender only when the nick is non-empty and unknown, with `eventsCount` 1; known records are unchanged; exactly one message event is appended when the body is non-empty, none otherwise; other types change nothing |
| `RoomState.DeliverAllAppendOnly` | src/app/app.component.ts:195-280 | over any sequence of presences and messages, the room JID and nick are kept and earlier events keep their order and values |
| `RoomState.DeliverAllCountsAtMostOne` | src/app/app.component.ts:183-189 | no stanza sequence raises any participant's `eventsCount` above 1 |
| `RoomState.DeliverAllKeepsMember` | src/app/app.component.ts:268-271 | a participant stays in the roster until a presence names it with type `unavailable` |
| `RoomState.Room.constructor` | src/app/app.component.ts:66-73 | a new room has no JID, no nick, no participants and no events |
| `RoomStateAsWritten.ApplyRoomPresenceAsWritten` | src/app/app.component.ts:268-279 | with the inherited property names visible to the lookup, such a nick never joins and logs nothing; for other nicks it agrees with the own-key rule |
| `RoomStateAsWritten.ApplyMessageAsWritten` | src/app/app.component.ts:207-228 | with the inherited property names visible to the creation guard, a groupchat message from such a nick leaves the roster as it was and logs what the own-key rule logs; for other nicks it agrees with the own-key rule |
| `RoomStateAsWritten.ConstructorMessageCreatesNoParticipant` | src/app/app.component.ts:210-213 | a groupchat message from nick "constructor" creates no participant as written, but creates one with `eventsCount` 1 under the own-key rule |
| `RoomStateAsWritten.ConstructorNickNeverJoins` | src/app/app.component.ts:268 | a nick "constructor" entering a room is dropped as written, but joins and is logged under the own-key rule |
| `App.GetRoomJidIgnoresUserName` | src/app/app.component.ts:367-373 | the user name argument has no effect on the room JID: the branch at lines 369-371 only rebinds a local |
| `App.GetRoomJidReadBack` | src/app/app.component.ts:367-373 | for a room name without `@`, splitting the room JID at its first `@` gives back the room name and `muc.localhost` |
| `App.AppComponent.constructor` | src/app/app.component.ts:15-31 | the delay starts at 0 with an empty room; status and ping fields are unset and nothing has been sent |
| `App.AppComponent.InitializeConnection` | src/app/app.component.ts:75-115 | a missing or empty address changes only the address field; otherwise the room is replaced by a fresh empty one and a session is opened and connected; the delay and ping fields are not reset |
| `App.AppComponent.ConnectSession` | src/app/app.component.ts:117-121 | a connect to `localhost` is requested |
| `App.AppComponent.OnPresence` | src/app/app.component.ts:244-259 | the room becomes `ApplyPresence` of the old room |
| `App.AppComponent.OnRoomPresence` | src/app/app.component.ts:261-280 | the given room, updated in place, becomes `ApplyRoomPresence` of its old value |
| `App.AppComponent.OnMessage` | src/app/app.component.ts:195-234 | the room, updated in place, becomes `ApplyMessage` of its old value |
| `App.AppComponent.OnConnectionChange` | src/app/app.component.ts:288-315 | the status is recorded; DISCONNECTED schedules a reconnect after the current delay and clears only `pingDelay`; CONNECTED resets the delay to 0, sets the room JID and nick and sends the join, keeping roster and events; every other status has no effect |
| `App.AppComponent.OnDisconnected` | src/app/app.component.ts:323-331 | `pingDelay` becomes null and the reconnect is scheduled with the current `reconnectDelay`; `pingId` is kept |
| `App.AppComponent.ReconnectTimerFires` | src/app/app.component.ts:325-330 | the delay becomes `NextDelay` of the old delay and a connect is requested |
| `App.AppComponent.OnConnected` | src/app/app.component.ts:357-365 | the delay is reset to 0; the room JID becomes `test1@muc.localhost` and the nick the drawn one; roster and events are kept; an available presence and the join are sent |
| `App.AppComponent.JoinRoom` | src/app/app.component.ts:375-393 | a join presence to `<room>/<nick>` with the password, then an "active" chat state to the room |
| `App.AppComponent.Ping` | src/app/app.component.ts:333-344 | a no-op when a ping id is set or the status is not CONNECTED; otherwise it sets the id and the send time, sends one ping, and the one outstanding ping is this one |
| `App.AppComponent.PingSucceeded` | src/app/app.component.ts:345-348 | the id is cleared and the delay is now minus the send time, not negative under a clock that does not go back |
| `App.AppComponent.PingFailed` | src/app/app.component.ts:349-352 | on error or timeout the id and the delay are cleared |

## Findings

| source | as written | input that shows it | evidently intended | confidence | as-written member | corrected member |
|---|---|---|---|---|---|---|
| src/app/app.component.ts:268 | `room.participants` is a plain object, so `room.participants[nick]` is truthy for names inherited from `Object.prototype` | a room presence from nick `constructor` (or `toString`, `__proto__`, …) into a room without it: no participant is added and no join event is logged | only participants actually added are known, so the nick joins and "constructor joined room" is logged | medium, not executed | `RoomStateAsWritten.ApplyRoomPresenceAsWritten`, shown by `RoomStateAsWritten.ConstructorNickNeverJoins` | `RoomState.ApplyRoomPresence` |
| src/app/app.component.ts:210 | the creation guard `!this.room.participants[nick]` reads the same plain object, so it is false for names inherited from `Object.prototype` | a groupchat message from nick `constructor` with body "hi" in a room without that nick: the message is logged but its sender is never added to the roster | a sender not yet in the roster is added with `eventsCount` 1 | medium, not executed | `RoomStateAsWritten.ApplyMessageAsWritten`, shown by `RoomStateAsWritten.ConstructorMessageCreatesNoParticipant` | `RoomState.ApplyMessage` |

## Left out

- RoomStateAsWritten.ApplyRoomPresenceAsWritten: for inherited names its contract states only that nobody joins and nothing is logged, not the whole result, because it exists to exhibit the first finding above.
- Transport calls: creating the Strophe connection, `addHandler`, `connect`, `send`, `sendIQ` and `getUniqueId`. They are a foreign library. Requests are recorded in `sent`. Generated ids are inputs, and `Ping` requires one that is non-empty, as the library's ids are.
- Stanza construction: join presence, chat state, ping `iq`. Only the target, the password and the id are recorded. The unused `history` option of `joinRoom` is not modelled.
- `sendMessage`, `onSendClick`, `disconnect`, `query`, `queryInfo` and `queryItems`: outbound wire formatting through library builders, with no effect on the modelled state (`disconnect` also drops the session).
- `isSelfStanza` and `getParticipantColor`: unused by the handlers, or display only.
- Timers: `setInterval` (ping every 10 s), the reconnect `setTimeout` and the 1 s ping timeout. Callbacks are methods that a caller invokes. The model does not say when or in which order they run.
- Which callbacks the library still runs after a disconnect: the ping callbacks require an outstanding ping (`outstandingPings == 1`), since the library runs exactly one callback per request. Whether a pending ping's callbacks are dropped on disconnect is library behaviour, not modelled.
- DOM auto-scroll, `@ViewChild`, routing and `queryParams`, and the namespace registration in `ngOnInit`. They are framework and UI code.
- `atob`: a browser built-in. The decoded address is the input of `InitializeConnection`.
- `Strophe.getText` and `Strophe.getBareJidFromJid`/`getResourceFromJid`: a stanza is given as its bare sender JID, resource, type and body text, as those library functions return them.
- Randomness and clock: `randomColorHex`, the random nick, `Date.now()` and `getId()` are parameters.
- Clock readings within one handler: `newParticipant` reads `Date.now()` for `joinedAt` (line 185), and the handler reads it again for the event timestamp (line 216 or 275). The model passes one `now` for both, so a participant created together with an event has `joinedAt` equal to that event's timestamp. The source only makes them nearly equal.
- Logging-only code: `handleErrors`, `onSubscriptionRequest`, `onPing`, the empty `onConnecting`/`onConnectionFailure`/`onDisconnecting`, and `getSessionStatus`. Statuses other than the five the component dispatches on are `OtherStatus`.
