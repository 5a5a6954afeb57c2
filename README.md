# MobileController relay, modelled in Dafny

MobileController is a Socket.IO server. It relays input from phone or web
controllers to a Unity game. Its only logic is in `server.js`:

- a connection registry, the `clients` Map keyed by socket id;
- four socket handlers:
  - `connection` registers the socket as `{ connected: true }` and broadcasts `controllerConnected`;
  - `playerInput` broadcasts the input as `inputToUnity`, stamped with the sender's `clientId`;
  - `unityResponse` only logs;
  - `disconnect` removes the socket if it is registered and broadcasts `controllerDisconnected`.

The model has four modules:

- `JsValues` (`js_values.dfy`): the JSON values a controller can send, and what
  the object spread `{ ...data }` copies out of each kind of value.
- `Handlers` (`handlers.dfy`): the relay state as a value (`RelayState`: the
  registry and the log of broadcast events), one pure function per handler,
  and `Step`, which dispatches a transport event to its handler.
- `Server` (`server.dfy`): the class `Relay`, with the mutable `clients` map
  and the append-only `emitted` log. Its handler methods update them in place.
  Each one is proved to leave exactly the state that `Handlers.Step` gives.
- `Traces` (`traces.dfy`): `Run` folds `Step` over a sequence of transport
  events. Its lemmas cover what the log and the registry hold after any trace.

`io.emit(name, payload)` is modelled as appending `Event(name, payload)` to
the log. A broadcast is one appended event.

In `server.js`, every input is forwarded, stamped with the socket id under
`clientId`, whether or not the socket is registered.

## Model

| member | source | states |
|---|---|---|
| `JsValues.IndexKey` | server.js:36 | the property name of index n is a non-empty string of decimal digits with no leading zero (only index 0 starts with `0`) |
| `JsValues.IndexKeySpellsIndex` | server.js:36 | the property name of index n read back as a decimal number is n, so it is n's canonical decimal form |
| `JsValues.IndexKeyInjective` | server.js:36 | two different indices never share a property name, so no element of a spread array or string is lost |
| `JsValues.Indexed` | server.js:36 | an array-like value spreads to exactly its elements, each under its own index name |
| `JsValues.Spread` | server.js:36 | `{ ...data }` copies an object's own fields unchanged; array elements and string characters under their index names; nothing from null, booleans or numbers |
| `Handlers.Notice` | server.js:26 | a connect or disconnect announcement has the given name and the payload `{ clientId: id }` only |
| `Handlers.Stamp` | server.js:36 | the forwarded payload has every spread field of the input except `clientId`, unchanged, and `clientId` equal to the sender's id even when the input carried one |
| `Handlers.StampKeepsElements` | server.js:36 | stamping an array or string input keeps every element, because no index name is `clientId` |
| `Handlers.RestampOverrides` | server.js:36 | stamping an already stamped payload again gives the same result as stamping the original input with the second id alone |
| `Handlers.Initial` | server.js:18 | a started relay has an empty registry and has broadcast nothing |
| `Handlers.ConnectStep` | server.js:21-26 | after a connect of `id`, the registry maps `id` to `{ connected: true }` and every other entry is unchanged; exactly one `controllerConnected` event with `clientId == id` is appended |
| `Handlers.InputStep` | server.js:29-37 | `playerInput` leaves the registry unchanged, registered or not; it appends exactly one `inputToUnity` event whose payload keeps the input's fields and has `clientId == id` |
| `Handlers.ResponseStep` | server.js:40-43 | `unityResponse` changes neither the registry nor the log |
| `Handlers.DisconnectStep` | server.js:46-54 | a disconnect removes `id`, keeps every other entry, and leaves the registry unchanged if `id` was absent; it always appends exactly one `controllerDisconnected` event with `clientId == id` |
| `Handlers.Step` | server.js:21-55 | every handler keeps the log as a prefix and appends at most one event; no event exactly for `unityResponse` |
| `Handlers.ConnectThenDisconnectRestores` | server.js:23-50 | a connect then a disconnect of an id that was not registered gives back the original registry |
| `Server.Relay.constructor` | server.js:18 | the `clients` Map starts empty and nothing has been broadcast |
| `Server.Relay.Emit` | server.js:36 | a broadcast appends exactly one event and leaves the registry alone |
| `Server.Relay.OnConnect` | server.js:21-26 | sets `clients[id]` to `{ connected: true }` in place and broadcasts `controllerConnected`; the new state is `Step` of the old one |
| `Server.Relay.OnPlayerInput` | server.js:29-37 | broadcasts the stamped input and leaves `clients` as it was; the new state is `Step` of the old one |
| `Server.Relay.OnUnityResponse` | server.js:40-43 | leaves `clients` and `emitted` as they were; the state is `Step` of the old one |
| `Server.Relay.OnDisconnect` | server.js:46-54 | deletes `id` from `clients` if present and broadcasts `controllerDisconnected`; the new state is `Step` of the old one |
| `Traces.RunLog` | server.js:21-55 | over any trace the log is only appended to, with one event per non-response transport event, in arrival order, each named after that event and carrying its socket id as `clientId` |
| `Traces.RunRegistry` | server.js:21-54 | after any trace a socket is registered exactly when its last lifecycle event was a connect, or the trace has none and it was registered before; inputs and responses play no part |
| `Traces.FreshRegistry` | server.js:18-50 | from a fresh start the registry holds exactly the sockets whose last lifecycle event was a connect, each as `{ connected: true }` |
| `Traces.TrafficKeepsRegistry` | server.js:29-43 | any run of inputs and Unity responses leaves the registry unchanged |

## Left out

- Express static serving, the `/` route and `res.sendFile` (server.js:15, 58-60): HTTP and file I/O.
- `http.createServer`, `server.listen` and the `PORT` lookup (server.js:9, 12, 62-65): process and network startup.
- Every `console.log`: logging has no observable state.
- The Socket.IO transport: socket id generation, delivery to the game engine, fan-out of `io.emit`, and binary payloads. Socket ids are plain strings. Handlers may be invoked for any id in any order, which allows more traces than the transport produces.
- Concurrency: each handler is one atomic step, handled in arrival order.
- The order of properties in the broadcast objects: payloads are maps.
- Numbers are exact reals, not IEEE doubles. The relay never inspects them.
- A missing argument (`undefined`) is modelled as `Null`; the spread treats both the same.
- JsValues.Spread: a string spreads into Dafny characters (Unicode scalar values), not UTF-16 code units. A character outside the Basic Multilingual Plane is one property here but two in JavaScript.
