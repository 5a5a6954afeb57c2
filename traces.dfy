/**
 * What the relay does over a whole sequence of transport events, handled one
 * at a time in the order they arrive.
 */
module Traces {
  import opened JsValues
  import opened Handlers

  /** The state after handling every event of `trace`, in order, starting from `st`. */
  function Run(st: RelayState, trace: seq<Incoming>): RelayState
    decreases |trace|
  {
    if trace == [] then st else Step(Run(st, trace[..|trace| - 1]), trace[|trace| - 1])
  }

  /** The name of the event broadcast in response to `ev` (meaningless for a Unity response). */
  function NameFor(ev: Incoming): string {
    match ev
    case Connect(_) => ControllerConnected
    case PlayerInput(_, _) => InputToUnity
    case UnityResponse(_, _) => ""
    case Disconnect(_) => ControllerDisconnected
  }

  /** The events of `trace` that cause a broadcast, in order. */
  function Forwarded(trace: seq<Incoming>): (r: seq<Incoming>)
    ensures |r| <= |trace|
    ensures forall i :: 0 <= i < |r| ==> !r[i].UnityResponse?
    decreases |trace|
  {
    if trace == [] then []
    else
      var rest := Forwarded(trace[..|trace| - 1]);
      if trace[|trace| - 1].UnityResponse? then rest else rest + [trace[|trace| - 1]]
  }

  /**
   * Handling a trace appends to the log and never rewrites it: one event per
   * forwarded transport event, in the same order, each named after it and
   * carrying its socket id as `clientId`.
   */
  lemma {:induction false} RunLog(st: RelayState, trace: seq<Incoming>)
    ensures var log := Run(st, trace).emitted;
      && |log| == |st.emitted| + |Forwarded(trace)|
      && log[..|st.emitted|] == st.emitted
      && forall i :: 0 <= i < |Forwarded(trace)| ==>
           && log[|st.emitted| + i].name == NameFor(Forwarded(trace)[i])
           && ClientIdKey in log[|st.emitted| + i].payload
           && log[|st.emitted| + i].payload[ClientIdKey] == Str(Forwarded(trace)[i].id)
    decreases |trace|
  {
    if trace != [] {
      var init, last := trace[..|trace| - 1], trace[|trace| - 1];
      RunLog(st, init);
      var before := Run(st, init);
      assert Run(st, trace) == Step(before, last);
      assert Forwarded(trace) == if last.UnityResponse? then Forwarded(init) else Forwarded(init) + [last];
      var log := Run(st, trace).emitted;
      forall i | 0 <= i < |Forwarded(trace)|
        ensures log[|st.emitted| + i].name == NameFor(Forwarded(trace)[i])
        ensures ClientIdKey in log[|st.emitted| + i].payload
        ensures log[|st.emitted| + i].payload[ClientIdKey] == Str(Forwarded(trace)[i].id)
      {
        if i < |Forwarded(init)| {
          assert log[|st.emitted| + i] == before.emitted[|st.emitted| + i];
        }
      }
    }
  }

  /** How `trace` last touched socket `k`'s registration, if at all. */
  datatype Lifecycle = Untouched | LastConnected | LastDisconnected

  function LastLifecycle(trace: seq<Incoming>, k: string): Lifecycle
    decreases |trace|
  {
    if trace == [] then Untouched
    else
      match trace[|trace| - 1]
      case Connect(id) => if id == k then LastConnected else LastLifecycle(trace[..|trace| - 1], k)
      case Disconnect(id) => if id == k then LastDisconnected else LastLifecycle(trace[..|trace| - 1], k)
      case _ => LastLifecycle(trace[..|trace| - 1], k)
  }

  /**
   * A socket is registered after a trace exactly when its last connect came
   * after its last disconnect, or the trace never mentions its lifecycle and it
   * was registered before; inputs and Unity responses play no part.
   */
  lemma {:induction false} RunRegistry(st: RelayState, trace: seq<Incoming>, k: string)
    ensures var clients := Run(st, trace).clients;
      && (k in clients <==>
            LastLifecycle(trace, k) == LastConnected
            || (LastLifecycle(trace, k) == Untouched && k in st.clients))
      && (k in clients && LastLifecycle(trace, k) == LastConnected ==> clients[k] == ClientInfo(true))
      && (k in clients && LastLifecycle(trace, k) == Untouched ==> clients[k] == st.clients[k])
    decreases |trace|
  {
    if trace != [] {
      var init := trace[..|trace| - 1];
      RunRegistry(st, init, k);
      assert Run(st, trace) == Step(Run(st, init), trace[|trace| - 1]);
    }
  }

  /** In a freshly started relay, the registered sockets are those connected and not since disconnected, all `{ connected: true }`. */
  lemma FreshRegistry(trace: seq<Incoming>, k: string)
    ensures k in Run(Initial(), trace).clients <==> LastLifecycle(trace, k) == LastConnected
    ensures k in Run(Initial(), trace).clients ==> Run(Initial(), trace).clients[k] == ClientInfo(true)
  {
    RunRegistry(Initial(), trace, k);
  }

  /** Inputs and Unity responses never change the registry. */
  lemma {:induction false} TrafficKeepsRegistry(st: RelayState, trace: seq<Incoming>)
    requires forall i :: 0 <= i < |trace| ==> trace[i].PlayerInput? || trace[i].UnityResponse?
    ensures Run(st, trace).clients == st.clients
    decreases |trace|
  {
    if trace != [] {
      TrafficKeepsRegistry(st, trace[..|trace| - 1]);
      assert Run(st, trace) == Step(Run(st, trace[..|trace| - 1]), trace[|trace| - 1]);
    }
  }
}
