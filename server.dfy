/**
 * The relay as the server runs it: one object holding the `clients` Map,
 * whose handlers update it in place and broadcast through `io.emit`,
 * which here appends to the `emitted` log.
 */
module Server {
  import opened JsValues
  import opened Handlers

  class Relay {
    /** The registry of sockets, keyed by socket id. */
    var clients: map<string, ClientInfo>
    /** Every event broadcast to the game engine, oldest first. */
    var emitted: seq<Event>

    /** The relay's state as a value, for stating the handlers against Handlers.Step. */
    function State(): RelayState
      reads this
    {
      RelayState(clients, emitted)
    }

    /** A server that has just started: an empty Map and nothing broadcast. */
    constructor ()
      ensures clients == map[] && emitted == []
      ensures State() == Initial()
    {
      clients := map[];
      emitted := [];
    }

    /** `io.emit(e.name, e.payload)`. */
    method Emit(e: Event)
      modifies this
      ensures clients == old(clients)
      ensures emitted == old(emitted) + [e]
    {
      emitted := emitted + [e];
    }

    /** The `connection` handler for socket `id`. */
    method OnConnect(id: string)
      modifies this
      ensures clients == old(clients)[id := ClientInfo(true)]
      ensures emitted == old(emitted) + [Notice(ControllerConnected, id)]
      ensures State() == Step(old(State()), Connect(id))
    {
      clients := clients[id := ClientInfo(true)];
      Emit(Notice(ControllerConnected, id));
    }

    /** The `playerInput` handler of socket `id`: the registry is neither read nor changed. */
    method OnPlayerInput(id: string, data: Json)
      modifies this
      ensures clients == old(clients)
      ensures emitted == old(emitted) + [Event(InputToUnity, Stamp(data, id))]
      ensures State() == Step(old(State()), PlayerInput(id, data))
    {
      Emit(Event(InputToUnity, Stamp(data, id)));
    }

    /** The `unityResponse` handler of socket `id`: it only logs, so it changes nothing. */
    method OnUnityResponse(id: string, data: Json)
      ensures clients == old(clients) && emitted == old(emitted)
      ensures State() == Step(old(State()), UnityResponse(id, data))
    {
    }

    /** The `disconnect` handler of socket `id`: a missing entry is not an error. */
    method OnDisconnect(id: string)
      modifies this
      ensures clients == old(clients) - {id}
      ensures emitted == old(emitted) + [Notice(ControllerDisconnected, id)]
      ensures State() == Step(old(State()), Disconnect(id))
    {
      if id in clients {
        clients := clients - {id};
      }
      Emit(Notice(ControllerDisconnected, id));
    }
  }
}
