# Presence registry and event router of a chat back end

This project models the real-time core of a direct-messaging server: the
socket.io `connection` handler in `socket/socket.js`. The handler keeps a
presence map `userSocketMap` from user id to connection id. Connecting
writes the handshake's user id into the map. Disconnecting deletes it. Both
broadcast the online users. Three handlers turn client events into
notifications for the connections that map names:

- `sendMessage` relays a message to its receiver. It tells the sender
  `messageSent` and, 800 ms later, `messageDelivered`.
- `markAsRead` and `markAsSeen` relay read and seen receipts to the
  original sender.

Layout, one module per concern:

- `js_values.dfy` (`JsValues`): payload fields as JavaScript values, either
  `undefined` or a string. Also JavaScript's property-key coercion
  (`map[undefined]` touches the key `"undefined"`) and truthiness.
- `number_text.dfy` (`NumberText`): the decimal text that
  `Date.now().toString()` produces, and its inverse.
- `presence.dfy` (`Presence`): user ids, connection handles and the history
  of connects and disconnects. `OnlineBy` says who is online after a
  history, independently of the map.
- `events.dfy` (`Events`): outbound emits and their payloads, inbound
  payloads, and what each message handler emits, as functions of the
  presence map.
- `socket.dfy` (`SocketServer`): the class `Server`. Its fields are the
  presence map, the live connections with their handshake ids, the outbox
  of emits, and the timers still pending. There is one method per event and
  one for a timer firing. The invariant `Valid` ties the map both to the
  live connections and to `OnlineBy` of the history.
- `scenarios.dfy` (`Scenarios`): three short runs that pin down
  behaviour the code has on purpose or by accident.

An emit is an abstract record (target, event name, payload). The target is
either every connection (`io.emit`) or one handle (`socket.to(h).emit`).
`setTimeout(…, 800)` becomes a `Timer` entry with delay 800. `FireTimer`
later moves the oldest entry to the outbox. The clock value `Date.now()`
and the `createdAt` timestamp are parameters.

Four behaviours of the code are easy to miss, and the model keeps each of
them:

- Malformed payloads are not dropped. A missing `senderId` or `receiverId`
  is `undefined`, and the lookup reads the key `"undefined"`. Missing fields
  are copied into the payloads unchanged.
- `messageDelivered` is not re-checked against the presence map when the
  timer fires. It goes to the handle captured at send time, even if that
  connection has closed (`Scenarios.DeliveredAfterSenderLeft`).
- A connection without a handshake id still deletes a key when it
  disconnects: the key `"undefined"` (`Scenarios.AnonymousDisconnect`).
- Disconnect deletes the user's key even when a newer connection of the
  same user has overwritten it (`Scenarios.ReconnectThenOldDisconnect`).

## Model

| member | source | states |
|---|---|---|
| `NumberText.Digits` | socket/socket.js:53 | The decimal text of a natural number is canonical and denotes that number. Canonical means non-empty, digits only, and no leading zero unless the text is `"0"` itself. |
| `NumberText.FormatIntRoundTrip` | socket/socket.js:53 | The text `Date.now().toString()` gives a clock reading is canonical: no leading zero and no `"-0"`. It reads back as the same reading. |
| `NumberText.CanonicalIntUnique` | socket/socket.js:53 | A canonical text that reads back as a time value is exactly the text `toString` writes for that value. |
| `Events.MessageId` | socket/socket.js:53 | `_id` is `tempId` when that is truthy, else the clock's text. Either way it is non-empty. The fallback is a canonical text that reads back as the clock reading, so by `CanonicalIntUnique` it is exactly `Date.now().toString()`. |
| `Events.SendMessageEffects` | socket/socket.js:49-99 | `newMessage` goes to the receiver's handle iff the receiver is online. `messageSent {messageId, receiverId}` goes to the sender's handle iff the sender is online, whatever the receiver's state. `newMessage` comes first and nothing else is emitted. Exactly one `messageDelivered` with the same payload is scheduled, 800 ms later, to the sender's handle of that moment, iff both users are online. |
| `Events.DeliveredMirrorsSent` | socket/socket.js:73-86 | The scheduled `messageDelivered` has the target and payload of the immediate `messageSent`. There is one exactly when the message reached the receiver and the sender was told `messageSent`. |
| `Events.AckEmits` | socket/socket.js:103-136 | If the sender is online, exactly one `messageRead` or `messageSeen` goes to the sender's handle. Its `messageIds` is the input array, or a one-element array of a single id. `readBy` or `seenBy` is `receiverId`. If the sender is offline, nothing is emitted. |
| `Presence.OnlineByStep` | socket/socket.js:27-29 | One more event leaves a user online iff it registers them, or they were online and the event does not unregister them. Register means connect with that handshake id. Unregister means the disconnect of any connection whose handshake id has that key (line 140). |
| `Presence.LatestHandleSome` | socket/socket.js:27-28 | The latest handle of a user is `h` iff some connect registered that user on `h` and no later connect registered them again. |
| `Presence.LatestHandleNone` | socket/socket.js:27-28 | A user has no latest handle iff no connect ever registered them. |
| `SocketServer.Server.constructor` | socket/socket.js:20 | The registry starts empty: no users, no connections, no emits, no timers. |
| `SocketServer.Server.GetReceiverSocketId` | socket/socket.js:16-18 | The lookup takes any payload value and coerces it to a property key. It finds a handle iff the history leaves that user online. The handle it returns is the one of the LATEST connection that registered the user, and that connection is still live with that very handshake id. So it is never stale and never an anonymous connection. |
| `SocketServer.Server.OnlineUsers` | socket/socket.js:32 | The broadcast key set is exactly the set of users that some connect registered and no later disconnect unregistered. |
| `SocketServer.Server.Connect` | socket/socket.js:22-32 | A defined handshake id now maps to the new handle, overwriting any earlier one. Every other entry is unchanged. An `undefined` id leaves the map alone. The lookup of that id then gives the new handle. Either way exactly one `getOnlineUsers` goes to everyone, carrying `OnlineUsers()` after the update. The invariant is kept, including that each entry is the user's latest handle. |
| `SocketServer.Server.Disconnect` | socket/socket.js:138-142 | The key of this connection's handshake id is removed, whichever handle it maps to. Nothing happens to the map if the key is absent. Other keys are unchanged, and the lookup of that key then fails. Exactly one `getOnlineUsers` goes to everyone, carrying `OnlineUsers()` after the delete. The invariant is kept. |
| `SocketServer.Server.SendMessage` | socket/socket.js:41-100 | Appends exactly what `SendMessageEffects` describes to the outbox and the timers. It never touches the presence map. Every emit goes to a live connection. |
| `SocketServer.Server.MarkAsRead` | socket/socket.js:103-118 | Appends exactly the `messageRead` that `AckEmits` describes. It never touches the presence map, and the emit goes to a live connection. |
| `SocketServer.Server.MarkAsSeen` | socket/socket.js:121-136 | Appends exactly the `messageSeen` that `AckEmits` describes. It never touches the presence map, and the emit goes to a live connection. |
| `SocketServer.Server.FireTimer` | socket/socket.js:80-86 | The oldest pending emit goes out unchanged, to the handle it captured, with no new lookup. Nothing happens when no timer is pending. |
| `Scenarios.ReconnectThenOldDisconnect` | socket/socket.js:138-141 | After a reconnect, the lookup gives the newer handle. When the older connection then closes, the user goes offline although the newer one is still live. |
| `Scenarios.DeliveredAfterSenderLeft` | socket/socket.js:70-86 | A sender who disconnects before the timer fires is still the target of `messageDelivered`, at the handle that has closed. |
| `Scenarios.SendThenSenderLeaves` | socket/socket.js:70-86 | With Alice on `"a"` and Bob on `"b"`, Alice sends to Bob and then disconnects. Connection `"a"` is then gone, yet the only pending timer is the `messageDelivered` addressed to `"a"`. |
| `Scenarios.AnonymousDisconnect` | socket/socket.js:138-141 | A connection with no handshake id is never registered. Its disconnect still deletes the key `"undefined"`. |

## Left out

- socket.io server construction and its CORS settings (socket/socket.js:6-14): configuration only.
- `joinUser` (socket/socket.js:35-38): it only joins a socket.io room, and no handler in this file addresses that room.
- Delivery semantics of `socket.to(h)` and `io.emit`: an emit is a record, not a delivery. In particular, socket.io's rule that `socket.to` skips the calling socket is not modelled. That rule means a sender whose own connection is `h` never receives `messageSent` or `messageDelivered`.
- Real time: a timer is a queue entry with its delay. Timers fire oldest first, which matches Node for equal delays. How firings interleave with other events is left to the caller of `FireTimer`.
- `Date.now()` and `new Date().toISOString()` are parameters (`now`, `createdAt`).
- Logging (`console.log`), including `messageIds.length` at socket/socket.js:114 and 132. That log line runs after the emit. When `messageIds` is `undefined` it throws a `TypeError`. Nothing in the program catches it, so by default the Node process ends, and the presence map, every connection and every pending timer go with it. The model does not follow the throw: it continues as if the handler had returned after its emit.
- Payload fields that are neither a string nor `undefined` (numbers, objects, `null`) are not modelled. A handler called with no payload object throws before emitting anything; that path is not modelled either.
- Inherited properties of a plain JavaScript object, for lookups and for writes. A lookup of a key such as `"constructor"` in `userSocketMap` returns an inherited value in the real program; the model treats every absent key as offline. A write `userSocketMap["__proto__"] = socket.id` (socket/socket.js:28) goes through the inherited `__proto__` setter, which ignores a string. So the real program registers nothing and broadcasts no such key. `SocketServer.Server.Connect` and `SocketServer.Server.Disconnect` treat `"__proto__"` as an ordinary key: it is registered, broadcast and deleted like any other user id.
- `Object.keys` ordering: the broadcast payload is a set.
- Concurrency: none. Node runs each handler to completion.
- The HTTP controllers, authentication middleware and server start-up (`index.js`, `node_modules/backend/…`) are not part of this model.
