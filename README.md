# Socket server core: auth engine, in-order delivery, server bookkeeping

A Dafny model of three pieces of a real-time WebSocket messaging server:

- **The default auth engine** (`AuthEngine.dfy`, with the JavaScript value helpers in
  `JsValues.dfy`). `signToken` and `verifyToken` are modelled up to the point where they
  call the JSON Web Token library. The model returns either the error raised before that
  call or the exact arguments the library would receive: payload or token, key, and
  options. The library itself is not modelled.
- **The in-order plugin** of the client package (`InOrder.dfy`). The class
  `InOrderPlugin` holds the inbound stream as a queue, the entry whose completion the
  consumer loop is awaiting, and the stream's mode (open, closed or killed). Ghost logs
  record what arrived, what was delivered and what was discarded. The asynchronous
  consumer loop is a sequence of discrete steps: `DeliverNext` and `Complete`.
- **The server's bookkeeping** (`ServerCore.dfy`). This covers constructor option
  defaults, the call-id counter shared by every socket, and the merge of reserved and
  application handlers. It also covers the `pendingClients`/`clients` registries, the
  `socket<Stream>` event names under which socket events are re-emitted, and `close`.

Where the code departs from what its own comments say, or from what a reader would expect, the model follows the code:

- `signToken` and `verifyToken` never generate a key when none is configured. The guard
  `!authOptions.authKey == null` compares a boolean with null, so it is always false.
  `KeyGenerationGuard` models the guard as written. `NoKeyIsGenerated` proves that the
  results do not depend on the random source, and `UndefinedKeyIsPassedOn` proves that
  an undefined key is handed to the library as is.
- `verifyToken` does not restrict verification to `verifyAlgorithms`. The caller's
  verify options reach the library unchanged (`VerifyToken`'s contract).
- `verifyToken` accepts `null` and `undefined` and verifies them as the empty string.
  Only other non-strings are refused, through a rejected promise.
- `signToken` refuses an algorithm in its options whether or not an algorithm is
  configured. It refuses by a synchronous throw, not by a rejected promise.
- A `null` auth key (`typeof null` is `"object"`) makes the `in` test throw a
  `TypeError`. So does a `null` `authEngine` option passed to `isAuthEngine`, and a truthy
  non-object token in `signToken`. The model gives each of these as an error result.

## Model

| member | source | states |
|---|---|---|
| `AuthEngine.IsAuthEngine` | src/server/auth-engine.ts:39-41 | true exactly for an object that has both `verifyToken` and `signToken`; false for every other non-null value; throws a TypeError for null |
| `AuthEngine.DefaultAuthEngine` | src/server/auth-engine.ts:47-53 | the result passes `isAuthEngine`, and its four options are those of the argument (undefined where absent) |
| `AuthEngine.ServerAuthEngine` | src/server/server.ts:80 | the server keeps an `authEngine` option that is already an engine; otherwise it builds a default engine from the option, whose `authAlgorithm`, `authKey`, `defaultExpiry` and `verifyAlgorithms` are the option's own; the result is always an engine; a null option throws |
| `AuthEngine.AuthKeyAfterGuard` | src/server/auth-engine.ts:94-96 | the guarded write never happens: `authKey` is unchanged after the guard, whatever its value |
| `AuthEngine.SelectKey` | src/server/auth-engine.ts:89-99 | the `private` part (for signing; `public` for verifying, lines 118-128) of a key object; otherwise the configured key itself, undefined included (no key generated); TypeError exactly for a null key |
| `AuthEngine.EffectiveExpiry` | src/server/auth-engine.ts:70 | the call's `expiresIn` if truthy, else the configured `defaultExpiry` if truthy, else 86400; always truthy |
| `AuthEngine.SignToken` | src/server/auth-engine.ts:55-109 | a non-null `algorithm` option throws InvalidArgumentsError, and nothing else does; `mutatePayload` is true; `expiresIn` is present iff the payload has no non-null `exp`, and then equals the effective expiry; the configured algorithm is forced; the payload is the token; the key is the `private` selection; every unmanaged option passes through unchanged |
| `AuthEngine.VerifyToken` | src/server/auth-engine.ts:114-146 | a token that is neither a string nor null/undefined gets a rejected promise with InvalidArgumentsError; null/undefined is verified as ""; the caller's options pass unchanged; the key is the `public` selection; TypeError exactly for a null key |
| `AuthEngine.NoKeyIsGenerated` | src/server/auth-engine.ts:94-98 | sign and verify requests are the same whatever the random key source would give |
| `AuthEngine.UndefinedKeyIsPassedOn` | src/server/auth-engine.ts:89-99 | with no key configured, signing any claims `signToken` accepts and verifying any string or null/undefined token go ahead with an undefined key, and verify passes the caller's options on unchanged |
| `AuthEngine.DefaultExpiryApplied` | src/server/auth-engine.ts:66-87 | for any configured algorithm and any non-null key without a `private` part: signing claims without `exp`, with no expiry option, gives exactly the options `mutatePayload` true, `expiresIn` 86400 and the configured algorithm, with the configured key |
| `InOrder.InOrderPlugin.constructor` | packages/client/src/plugins/in-order-plugin.ts:16-21 | a fresh, open, empty stream with nothing in flight or delivered |
| `InOrder.InOrderPlugin.OnMessageRaw` | packages/client/src/plugins/in-order-plugin.ts:70-87 | appends exactly one entry (message plus fresh callback ticket) to an open stream; returns that ticket, whose promise has not resolved yet |
| `InOrder.InOrderPlugin.DeliverNext` | packages/client/src/plugins/in-order-plugin.ts:23-26 | only when nothing is in flight: takes the oldest entry, makes it the one in flight, and resolves its promise with exactly its message |
| `InOrder.InOrderPlugin.Complete` | packages/client/src/plugins/in-order-plugin.ts:27-31 | a completion frees the consumer whether it resolved or rejected |
| `InOrder.InOrderPlugin.OnEnd` | packages/client/src/plugins/in-order-plugin.ts:60-68 | "close" closes the stream and keeps the queue; "kill" discards the queue; any other mode changes nothing |
| `InOrder.InOrderPlugin.RunConsumer` | packages/client/src/plugins/in-order-plugin.ts:23-34 | the consumer loop delivers every queued entry in order and resolves each promise with its message, whatever the completion outcomes |
| `InOrder.DeliveredInArrivalOrder` | packages/client/src/plugins/in-order-plugin.ts:25-26 | delivered entries are the first arrived ones, in arrival order |
| `InOrder.DiscardedNeverDelivered` | packages/client/src/plugins/in-order-plugin.ts:64-66 | an entry discarded by kill is never delivered and its promise never resolves |
| `InOrder.CloseDrainsEverything` | packages/client/src/plugins/in-order-plugin.ts:60-63 | after close, once the consumer is finished, everything that arrived has been delivered |
| `InOrder.InOrderPlugin.CloseAndDrain` | packages/client/src/plugins/in-order-plugin.ts:23-34 | after a "close" cleanup (lines 60-63) the consumer loop finishes, and unless the stream was killed before, every entry written while open has been delivered in order and its promise resolved to its message |
| `InOrder.InFlightIsLatest` | packages/client/src/plugins/in-order-plugin.ts:25-32 | the single entry in flight is the latest delivered one; no later entry is out yet |
| `ServerCore.ResolveSettings` | src/server/server.ts:70-74 | `ackTimeoutMs`, `pingIntervalMs` and `pingTimeoutMs` take the option when it is non-zero, else 10000/8000/20000, and are never zero; `allowClientPublish` defaults to true only when absent; ping timeout is disabled iff the option is `false` |
| `ServerCore.MergeHandlers` | src/server/server.ts:86-96 | the table holds the six reserved names plus the application's names; an application handler wins, also over a reserved name; other reserved names keep their built-in handler |
| `ServerCore.CounterIds` | src/server/server.ts:76-78 | the k-th id of the built-in counter starting at 1 is 1 + k |
| `ServerCore.CounterIdsIncrease` | src/server/server.ts:76-78 | counter ids are positive and strictly increasing |
| `ServerCore.CallIdGenerator.constructor` | src/server/server.ts:58 | the counter starts at 1 with no ids issued |
| `ServerCore.CallIdGenerator.Next` | src/server/server.ts:76-78 | without a supplied generator the n-th call returns n; with one, the supplied generator's value is returned; every id is logged |
| `ServerCore.SocketEventName` | src/server/server.ts:225 | "socket" followed by the stream name with its first character upper-cased and the rest unchanged |
| `ServerCore.EventNameRoundTrip` | src/server/server.ts:224-230 | the stream name is recovered from the event name when it does not start with an upper-case letter |
| `ServerCore.EventNamesDistinct` | src/server/server.ts:224-230 | distinct stream names (not starting upper-case) are re-emitted under distinct event names |
| `ServerCore.ConnectAbortEventName` | src/server/server.ts:216-225 | the `connectAbort` stream, which unregisters a client, is re-emitted as `socketConnectAbort` |
| `ServerCore.DisconnectEventName` | src/server/server.ts:220-225 | the `disconnect` stream, which unregisters a client, is re-emitted as `socketDisconnect` |
| `ServerCore.Server.constructor` | src/server/server.ts:55-96 | settings from `ResolveSettings`, handlers from `MergeHandlers`, one fresh call-id generator, empty registries with zero counts, not listening |
| `ServerCore.Server.OnConnection` | src/server/server.ts:170-186 | the new socket shares the server's generator, ack timeout and handlers; it is filed in `pendingClients` under its id; `pendingClientCount` goes up by exactly one; `connection` and `handshake` are emitted |
| `ServerCore.Server.HandleSocketEvent` | src/server/server.ts:212-232 | for client-type sockets whose listener has not ended: `connectAbort`/`disconnect` remove the socket's id from `clients`; every event is re-emitted under its `socket<Stream>` name; an empty stream name throws, emits nothing and ends the listener for good |
| `ServerCore.Server.HandleChannelEvent` | src/server/server.ts:234-244 | channel events of client-type sockets whose channel listener has not ended are re-emitted under their `socket<Stream>` name; the registries are unchanged; an empty stream name throws, emits nothing and ends the channel listener for good |
| `ServerCore.Server.OnListening` | src/server/server.ts:260-264 | the server is listening and `listening` is emitted |
| `ServerCore.Server.Close` | src/server/server.ts:127-145 | the server stops listening; unless `keepSocketsOpen`, `disconnect` is called on every socket in `clients`, once each and on nothing else |
| `ServerCore.SharedCounterNeverRepeats` | src/server/server.ts:170-182 | every socket the server created draws from the one generator, so ids the built-in counter gave out earlier are strictly smaller than later ones |

## Left out

- `jwt.sign`, `jwt.verify` and their callbacks: foreign library calls. The model stops at their arguments. Signature maths, clock-based expiry and the library's own errors are not modelled.
- `crypto.randomBytes`: a parameter, `randomKey`. It is never used, because the generation guard is always false.
- Promises: `signToken`'s returned promise and rejections from the library are not modelled. Only errors raised before the library call are, each marked as thrown or rejected.
- `JsValues.CopyProps`: an object's properties are modelled without telling own from inherited ones, so `in` and property reads see both (as in JavaScript), but `Object.assign` (auth-engine.ts lines 56 and 115) is modelled as copying inherited properties too, where JavaScript copies only own enumerable ones. Options objects with inherited properties are therefore not modelled exactly.
- `cloneDeep` and `Object.assign({}, …)`: values in Dafny are immutable, so the caller's token and options can never be changed. Copying a string's index properties into the options is not modelled; only objects carry properties here.
- JavaScript numbers are integers in the model. NaN, fractions and call ids beyond 2^53 are not modelled.
- `ServerCore.SocketEventName`: upper-casing is modelled for ASCII letters only. `toUpperCase` of other characters, including those that map to several characters, is not modelled.
- `ServerCore.Server.HandleSocketEvent` and `ServerCore.Server.HandleChannelEvent`: the exception that ends a listener loop on an empty stream name is recorded as the end of that loop. The resulting unhandled promise rejection is not modelled.
- `ServerCore.Server.Close`: the disconnect calls are shown as a set, each once. The insertion order of `Object.values` is not modelled. The `wss.close` callback and the promise are I/O.
- `ServerCore.CallIdGenerator.Next`: a supplied generator is modelled as a function of how many ids were requested before. Any other state it keeps is not modelled.
- The write-after-end behaviour of the stream library is assumed, not proved: entries written after close or kill are never delivered; close drains; kill discards the queue. The library is not part of this model.
- Who fills `clients` and `clientCount`: no code in `server.ts` does it (the handshake handler does, and it is not part of this model). Their fields are public, as in the source, so other code may assign them.
- Constructor wiring that depends on collaborators: `brokerEngine`, `codecEngine`, `middleware` and `httpServer` defaults, the WebSocket server and its `close`/`error`/`headers` handlers, and the `options.clientTracking = true` write to the caller's options.
- Also out: the readiness timer and broker `ready` wait, the broker-error forwarding loop, and the `exchange`/`isReady` getters.
- `onError` and `onUnhandledRequest` have no effect. The commented-out middleware and outbound-stream code is not modelled, nor are the `emit`/`listen` overloads, which are type-level only.
- A handler entry whose value is `undefined` still replaces the built-in handler under `Object.assign`. The model gives every application entry a handler value.
- The connection state machine, the broker and exchange, pending calls and ack timeouts, channel limits, and `server-socket-state.ts` (a type declaration) are not part of this model.
