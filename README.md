# OBS remote client: request/reply correlation engine

A Dafny model of the connection object of an OBS remote-control WebSocket
client (`OBSRemote` in `src/javascripts/obs-remote/index.js`). The client
sends requests over one socket and tags each with a fresh `message-id`: the
decimal text of a counter that starts at 1. It keeps one pending promise per
identifier in `_promises`. Each inbound frame is classified:

- a frame with a truthy `update-type` is routed to an application event;
- any other frame settles the pending promise its `message-id` names, or
  reports an orphaned error reply.

On top of that sit the connect handshake (`_connecting`, a version query and
an authentication query on open, close-code reasons on close) and the `login`
decision.

Modules, leaf first:

- `Wrappers` (`wrappers.dfy`): `Option`, with `None` standing for JavaScript `undefined`.
- `Ids` (`ids.dfy`): identifier text (`Decimal`), its inverse (`ParseId`), and
  proofs that ids round-trip and are never repeated.
- `Json` (`json.dfy`): decoded values and the JavaScript operations the client
  applies to them:
  - truthiness;
  - `obj[key]` reads, and `obj[key] = v` writes for keys that are not array
    indices (such as `message-id`), keeping insertion order;
  - `String(v)`, which decides which `_promises` entry a `message-id` names,
    including the cases where the conversion throws.
- `Events` (`events.dfy`): the emitted-event log entries, the closed
  `handleUpdate` table with its inverse, and `disconnectReasons`.
- `Requests` (`requests.dfy`): the fixed bodies the convenience methods pass to `send`.
- `Login` (`login.dfy`): the pure branching of `login` and of the handshake continuation.
- `Remote` (`remote.dfy`): class `OBSRemote`. Its fields are `_idCounter`,
  `_promises`, `_connecting` and the socket, plus logs for frames sent,
  `close()` calls, promise settlements, emitted events and connect outcomes.
  Sockets are numbered in creation order, so "is there a `_socket`" is
  `sockets > 0`.

Behaviour kept as the code has it:

- **Teardown in `connect` is incomplete.** The teardown at index.js:32 clears
  `onopen` and `onerror`. It also writes `_onmessage` and `_onclose`, which are
  not the handler properties. So every socket ever created keeps delivering
  messages and close events (`HandlerAttached`). `ReconnectScenario` shows one
  result: reconnecting while the old socket is open lets the old socket's close
  event reject the new connect promise.
- **Classification uses `update-type`.** A frame counts as an event when
  `update-type` is truthy, not when `message-id` is absent. A truthy
  non-string tag goes to `handleUpdate` and emits nothing.
- **Lookup in `_promises` goes through `String(message-id)`.** A numeric id 3,
  or `[3]`, settles request "3". `_promises` is a plain object, so an id equal
  to an inherited `Object.prototype` name (`"constructor"`, `"toString"`, …)
  finds a truthy value with no `resolve`/`reject`. The handler then throws a
  TypeError and changes nothing (`thrown`). That includes an error reply,
  which then emits no `error` event. A `message-id` that is, or holds in an
  array at any depth, an object with an own `toString` property also throws,
  in the key conversion itself: the property is never callable, and the
  inherited `valueOf` returns the object rather than a primitive.
- **Socket errors do not reject a pending connect.** Only a close event
  rejects a pending connect. `socketOnError` only emits `socket.error`.
- **A failed handshake query leaves connect unsettled.** If either handshake
  query is rejected, the `then` in `socketOnOpen` never runs. The connect
  promise never settles, and `_connecting` is already cleared.
- **`login` can reject with `undefined`.** If `authenticate` cannot be sent,
  `login` rejects with `error.error`, and an `Error` object has no such field.
- **`close()` keeps the socket reference.** After `close()`, `send` still
  registers a pending entry and sends a frame.

## Model

| member | source | states |
|---|---|---|
| Remote.OBSRemote.constructor | src/javascripts/obs-remote/index.js:12-23 | A new connection has no socket, no connect in progress, counter 1, no pending entries and empty logs. |
| Remote.OBSRemote.NextId | src/javascripts/obs-remote/index.js:182-184 | Returns the decimal text of the counter and advances the counter by exactly one. |
| Ids.DecimalCanonical | src/javascripts/obs-remote/index.js:183 | An identifier is non-empty, all digits, and has no leading zero. |
| Ids.DigitsValueOfDecimal | src/javascripts/obs-remote/index.js:183 | Reading an identifier's digits gives back the counter it was made from. |
| Ids.ParseIdOfDecimal | src/javascripts/obs-remote/index.js:183 | `ParseId` inverts `Decimal` on every counter value. |
| Ids.DecimalOfParseId | src/javascripts/obs-remote/index.js:183 | `Decimal` inverts `ParseId` on every text it accepts. |
| Ids.DecimalInjective | src/javascripts/obs-remote/index.js:183 | Two counters with the same identifier text are equal. |
| Ids.IssuedIdsDistinct | src/javascripts/obs-remote/index.js:182-184 | No two identifiers issued from the counter are the same. |
| Ids.IssuedIdsNext | src/javascripts/obs-remote/index.js:182-184 | Issuing one more identifier appends the next decimal text, which was never issued before. |
| Ids.FirstIds | src/javascripts/obs-remote/index.js:20 | Starting from 1, the first identifiers are "1", "2", "3". |
| Remote.OBSRemote.Send | src/javascripts/obs-remote/index.js:55-68 | With a socket, the counter advances by one and exactly one pending entry is added, keyed by the new id. No earlier request was ever given that id (`issued`), and no pending entry has it. `message-id` is set to that id and exactly one frame carrying it is appended. Without a socket, it rejects with "Connection isn't opened" and counter, pending entries and frames are unchanged. Nothing else changes either way. |
| Remote.OBSRemote.SendRequest | src/javascripts/obs-remote/index.js:120-174 | A convenience request sends its fixed body followed by `message-id`, with `send`'s effects. |
| Requests.Body | src/javascripts/obs-remote/index.js:120-174 | Every request body starts with a string `request-type` and has no `message-id` of its own. |
| Requests.RequestTypesDistinct | src/javascripts/obs-remote/index.js:120-174 | Two request kinds never share a `request-type` tag. |
| Requests.StampedBody | src/javascripts/obs-remote/index.js:61 | Stamping the id appends `message-id` after the body's own fields. `setCurrentScene("Scene A")` goes out as request-type, scene-name, message-id in that order. |
| Json.LookupPutSame | src/javascripts/obs-remote/index.js:61 | After `message['message-id'] = id`, reading `message-id` gives `id`. |
| Json.LookupPutOther | src/javascripts/obs-remote/index.js:61 | Setting `message-id` leaves every other field of the message unchanged. |
| Json.Put | src/javascripts/obs-remote/index.js:61 | Setting a key the object lacks appends it as the last field. |
| Json.Lookup | src/javascripts/obs-remote/index.js:229 | A property read is `undefined` exactly when the key is absent, and otherwise returns a value stored under that key. |
| Remote.OBSRemote.Connect | src/javascripts/obs-remote/index.js:30-47 | Closes the current socket if there is one and creates the next socket. `_connecting` now names the new socket. Counter, pending entries and frames are unchanged. Every older socket keeps its message and close handlers and loses its open and error handlers. |
| Remote.OBSRemote.Close | src/javascripts/obs-remote/index.js:108-112 | Logs a close of the current socket if one exists, and otherwise does nothing. |
| Remote.OBSRemote.DeliverOpen | src/javascripts/obs-remote/index.js:32-42 | Only the current socket's open event reaches `socketOnOpen`, with its full effect: during a connect, GetVersion then GetAuthRequired go out with the next two ids and become pending. An older socket's open event changes nothing. |
| Remote.OBSRemote.SocketOnOpen | src/javascripts/obs-remote/index.js:190-206 | If a connect is in progress, sends GetVersion then GetAuthRequired with the next two ids and clears `_connecting`. Otherwise it sends nothing. Either way it emits `socket.open`. |
| Remote.OBSRemote.QueryCapabilities | src/javascripts/obs-remote/index.js:193 | The two handshake queries take consecutive ids and add one pending entry and one frame each. |
| Remote.OBSRemote.HandshakeReplied | src/javascripts/obs-remote/index.js:193-202 | Resolves the connect with `{version, auth}`. Emits `ready` exactly when `authRequired` is falsy. |
| Login.HandshakeInfo | src/javascripts/obs-remote/index.js:194-197 | `version` is `obs-websocket-version` when truthy and `version` otherwise. `auth` is the reply's `authRequired`. |
| Login.HandshakeReadyAgreesWithLogin | src/javascripts/obs-remote/index.js:199-200 | The handshake emits `ready` exactly when `login` would need no authentication. |
| Remote.OBSRemote.DeliverError | src/javascripts/obs-remote/index.js:242-244 | An error on the current socket emits one `socket.error`. An older socket's error emits nothing. |
| Remote.OBSRemote.DeliverClose | src/javascripts/obs-remote/index.js:45 | A close from any socket ever created reaches `socketOnClose`, so an old socket's close rejects the new connect. |
| Remote.OBSRemote.SocketOnClose | src/javascripts/obs-remote/index.js:255-266 | A close while connecting rejects that connect once, with the code's reason, and clears `_connecting`. A later close rejects nothing. Either way it emits `socket.close`. |
| Events.DisconnectReason | src/javascripts/obs-remote/index.js:246-260 | The reason is "Server not reachable" exactly for code 1006, and "Unknown Error" for every other code. |
| Remote.Classify | src/javascripts/obs-remote/index.js:215-234 | A parse failure and a falsy decoded value are set apart first. A truthy `update-type` makes an update. Everything else is a reply carrying the raw `message-id`. |
| Remote.OBSRemote.DeliverMessage | src/javascripts/obs-remote/index.js:32-43 | A message from any socket ever created has `socketOnMessage`'s full effect (`MessageEffect`), so a reply arriving on a replaced socket still settles its request. A socket never created changes nothing. |
| Remote.OBSRemote.ReplySettlesPending | src/javascripts/obs-remote/index.js:229-233 | A reply whose key names a pending entry removes that entry alone, settles it with the message, emits nothing and does not throw. |
| Remote.OBSRemote.SocketOnMessage | src/javascripts/obs-remote/index.js:213-235 | An undecodable frame emits exactly one `error` event and leaves pending entries and settlements unchanged. A falsy value changes nothing. An update only emits its routed event and never settles a pending entry. A reply has `handleCallback`'s effect. No inbound frame touches the counter or the frames sent. |
| Remote.OBSRemote.HandleCallback | src/javascripts/obs-remote/index.js:274-286 | When `String(id)` throws, it throws and nothing changes. When `String(id)` is pending, that entry alone is removed. It is rejected with the full message if `status === 'error'` and resolved otherwise. When it is not pending, the pending map never changes. An inherited Object.prototype name throws. An error status emits exactly one `error` event with `message.error` and the message. Anything else is dropped silently. |
| Remote.InheritedNamesAreNotIds | src/javascripts/obs-remote/index.js:275 | No issued identifier is an inherited Object.prototype name, so the throwing path never hides a pending entry. |
| Json.NumericKeys | src/javascripts/obs-remote/index.js:275 | A numeric `message-id` n, or `[n]`, names the same entry as the text of n. |
| Json.NonNumericKeys | src/javascripts/obs-remote/index.js:275 | An absent, null, boolean or object `message-id` names no issued identifier: its key is not canonical, or its conversion throws. |
| Json.JsStringThrows | src/javascripts/obs-remote/index.js:275 | `String(v)` throws exactly when `v` is, or holds at any array depth, an object with an own `toString`. |
| Json.JoinElementsThrows | src/javascripts/obs-remote/index.js:275 | Joining array elements throws exactly when one of them throws. |
| Json.OwnToStringKeysThrow | src/javascripts/obs-remote/index.js:275 | `{"toString": x}`, bare or inside an array, makes the key conversion throw. |
| Remote.OBSRemote.HandleUpdate | src/javascripts/obs-remote/index.js:294-326 | Appends the routed event for the tag, carrying the message, or nothing for an unknown tag. |
| Remote.OBSRemote.UpdateEvents | src/javascripts/obs-remote/index.js:294-326 | An update emits at most one event. It emits none exactly when the tag is unknown; otherwise the event is the table's entry for the tag, carrying the message. |
| Events.UpdateEventName | src/javascripts/obs-remote/index.js:295-324 | A tag is routed exactly when it is one of the nine strings in the table, and then to that string's event. |
| Events.UpdateRoutingInvertible | src/javascripts/obs-remote/index.js:295-324 | Every routed event maps back to its tag. |
| Events.RoutedEventsAreNotLifecycle | src/javascripts/obs-remote/index.js:295-324 | No routed event is `ready`, `error` or a `socket.*` event. |
| Events.UpdateRoutingInjective | src/javascripts/obs-remote/index.js:295-324 | Different tags are routed to different events. |
| Login.LoginDecision | src/javascripts/obs-remote/index.js:77-101 | It needs no authentication exactly when `authRequired` is falsy. It fails with "Password Required" exactly when authentication is required and the password is falsy. Otherwise it sends the two-stage digest of password, salt and challenge. |
| Login.EmptyPasswordNeverAuthenticates | src/javascripts/obs-remote/index.js:79-81 | An absent or empty password never produces an Authenticate request. |
| Remote.OBSRemote.Login | src/javascripts/obs-remote/index.js:77 | `login` starts by sending GetAuthRequired, with `send`'s effect on the counter and pending entries. Without a socket it fails at once and changes nothing. |
| Remote.OBSRemote.LoginAuthInfo | src/javascripts/obs-remote/index.js:77-102 | A rejected auth query propagates its reply. When authentication is not required, the result is `true` with no frame sent. A missing password fails with "Password Required" and no frame sent. Otherwise exactly one Authenticate frame is sent with the digest, with `send`'s effect on the counter and pending entries. If it cannot be sent, it rejects with `undefined` and changes nothing. |
| Remote.OBSRemote.LoginAuthenticated | src/javascripts/obs-remote/index.js:93-99 | On success it emits `ready` and resolves `true`. On failure it rejects with the reply's `error` field and emits nothing. |

## Left out

- Opening and closing real sockets, building the URL, and `socket.send`. The model replaces them with socket numbers and logs. The browser's refusal to send on a socket that is still connecting is not modelled.
- `JSON.parse` and `JSON.stringify`. Inbound frames arrive as `Option<Value>`, and outbound frames are logged as field lists. JSON numbers are integers only: fractional values and exponent forms are not modelled.
- The counter is an unbounded integer. JavaScript's loss of precision past 2^53, and its exponent notation past 10^21, are not modelled.
- Promises and their scheduling, including `Promise.all` ordering in `socketOnOpen`. Settlements are log entries. Each asynchronous continuation is a separate method the environment calls: `HandshakeReplied`, `LoginAuthInfo`, `LoginAuthenticated`.
- The SHA-256 and base64 steps of `login`. They are an uninterpreted `digest` parameter.
- The EventEmitter machinery. `emit` appends to the event log, and listeners are not modelled.
- The debug `console.log`. The `debug`, `host` and `port` fields are stored and never read.
- The completion handle in `_promises`. Each pending entry records the index of the frame that carried it.
- Remote.OBSRemote.Send: `send` writes `message-id` into the caller's own object (index.js:61). The model takes the message by value, so the caller's object is not shown gaining the field, and aliasing between a reused message object and an earlier frame is not captured.
- Json.Put: JavaScript orders integer-like keys before the others. `Put` always appends a new key, which matches JavaScript only for keys that are not array indices. The client writes only `message-id`.
- A connect promise replaced by a second `connect` before the first finishes never settles. The model records only the current `_connecting`.
