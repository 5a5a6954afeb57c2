/**
 * The relay's state and what each Socket.IO handler does to it, as pure
 * functions: the connection registry `clients` and the log of events
 * broadcast to the game engine with `io.emit`.
 */
module Handlers {
  import opened JsValues

  /** The property every relayed event carries to name the controller's socket. */
  const ClientIdKey: string := "clientId"

  /** Names of the events broadcast to the game engine. */
  const ControllerConnected: string := "controllerConnected"
  const InputToUnity: string := "inputToUnity"
  const ControllerDisconnected: string := "controllerDisconnected"

  /** The record the registry keeps per socket (`{ connected: true }`). */
  datatype ClientInfo = ClientInfo(connected: bool)

  /** One `io.emit(name, payload)` call. */
  datatype Event = Event(name: string, payload: map<string, Json>)

  /** The relay's whole state: the registry keyed by socket id, and everything emitted so far. */
  datatype RelayState = RelayState(clients: map<string, ClientInfo>, emitted: seq<Event>)

  /** What the transport delivers to the relay, each with the id of the socket it concerns. */
  datatype Incoming =
    | Connect(id: string)
    | PlayerInput(id: string, data: Json)
    | UnityResponse(id: string, data: Json)
    | Disconnect(id: string)

  /** The state of a freshly started relay: no clients, nothing emitted. */
  function Initial(): (r: RelayState)
    ensures |r.clients| == 0 && |r.emitted| == 0
  {
    RelayState(map[], [])
  }

  /** An event whose payload is just `{ clientId: id }`. */
  function Notice(name: string, id: string): (e: Event)
    ensures e.name == name
    ensures e.payload.Keys == {ClientIdKey} && e.payload[ClientIdKey] == Str(id)
  {
    Event(name, map[ClientIdKey := Str(id)])
  }

  /**
   * The payload `{ ...data, clientId: id }`: every property the spread copies
   * out of `data` except `clientId`, which is overridden by the sender's id
   * whether or not `data` carried one.
   */
  function Stamp(data: Json, id: string): (r: map<string, Json>)
    ensures ClientIdKey in r && r[ClientIdKey] == Str(id)
    ensures r.Keys == Spread(data).Keys + {ClientIdKey}
    ensures forall k :: k in Spread(data) && k != ClientIdKey ==> r[k] == Spread(data)[k]
  {
    Spread(data)[ClientIdKey := Str(id)]
  }

  /** No index name is `clientId`, so stamping an array or a string keeps every element. */
  lemma StampKeepsElements(items: seq<Json>, s: string, id: string)
    ensures forall i :: 0 <= i < |items| ==> Stamp(Arr(items), id)[IndexKey(i)] == items[i]
    ensures forall i :: 0 <= i < |s| ==> Stamp(Str(s), id)[IndexKey(i)] == Str([s[i]])
  {
  }

  /** Restamping a payload by a second sender leaves the payload the second sender alone would produce. */
  lemma RestampOverrides(data: Json, first: string, second: string)
    ensures Stamp(Obj(Stamp(data, first)), second) == Stamp(data, second)
  {
  }

  /** `io.on("connection")`: register the socket as `{ connected: true }` and announce it. */
  function ConnectStep(st: RelayState, id: string): (r: RelayState)
    ensures r.clients.Keys == st.clients.Keys + {id}
    ensures r.clients[id] == ClientInfo(true)
    ensures forall k :: k in st.clients && k != id ==> r.clients[k] == st.clients[k]
    ensures r.emitted == st.emitted + [Notice(ControllerConnected, id)]
  {
    RelayState(st.clients[id := ClientInfo(true)], st.emitted + [Notice(ControllerConnected, id)])
  }

  /** `playerInput`: forward the stamped input, whether or not the socket is registered. */
  function InputStep(st: RelayState, id: string, data: Json): (r: RelayState)
    ensures r.clients == st.clients
    ensures |r.emitted| == |st.emitted| + 1 && r.emitted[..|st.emitted|] == st.emitted
    ensures var e := r.emitted[|st.emitted|];
      && e.name == InputToUnity
      && e.payload.Keys == Spread(data).Keys + {ClientIdKey}
      && e.payload[ClientIdKey] == Str(id)
      && forall k :: k in Spread(data) && k != ClientIdKey ==> e.payload[k] == Spread(data)[k]
  {
    RelayState(st.clients, st.emitted + [Event(InputToUnity, Stamp(data, id))])
  }

  /** `unityResponse`: only logged, so the state is left as it was. */
  function ResponseStep(st: RelayState, id: string, data: Json): (r: RelayState)
    ensures r == st
  {
    st
  }

  /** `disconnect`: drop the socket from the registry if present, and announce it in any case. */
  function DisconnectStep(st: RelayState, id: string): (r: RelayState)
    ensures r.clients.Keys == st.clients.Keys - {id}
    ensures forall k :: k in r.clients ==> r.clients[k] == st.clients[k]
    ensures id !in st.clients ==> r.clients == st.clients
    ensures r.emitted == st.emitted + [Notice(ControllerDisconnected, id)]
  {
    var clients := if id in st.clients then st.clients - {id} else st.clients;
    RelayState(clients, st.emitted + [Notice(ControllerDisconnected, id)])
  }

  /** The handler the transport invokes for `ev`. */
  function Step(st: RelayState, ev: Incoming): (r: RelayState)
    ensures |st.emitted| <= |r.emitted| <= |st.emitted| + 1
    ensures r.emitted[..|st.emitted|] == st.emitted
    ensures |r.emitted| == |st.emitted| <==> ev.UnityResponse?
  {
    match ev
    case Connect(id) => ConnectStep(st, id)
    case PlayerInput(id, data) => InputStep(st, id, data)
    case UnityResponse(id, data) => ResponseStep(st, id, data)
    case Disconnect(id) => DisconnectStep(st, id)
  }

  /** A connect followed by a disconnect of a new socket leaves the registry as it was. */
  lemma ConnectThenDisconnectRestores(st: RelayState, id: string)
    requires id !in st.clients
    ensures DisconnectStep(ConnectStep(st, id), id).clients == st.clients
  {
  }
}
