/** The server-side game of src/server/lib/Game.ts: the common phase machine
    together with the sockets of the players that joined, the callbacks to run
    when the game ends, and the broadcast of phase switches. The sockets'
    `emit` and the end callbacks reach code outside this model, so the game
    keeps a log of what it asked of them, in order. */
module ServerGame {
  import opened Wrappers
  import opened JsValues
  import PhaseRegistry
  import opened SocketListeners

  /** One request the game makes of the outside world. */
  datatype Effect =
    | RanCallback(callback: nat)
    | RemovedAllListeners(socket: nat)
    | Disconnected(socket: nat, close: bool)
    | Emitted(socket: nat, event: string, payload: Value)

  /** The event name a phase switch is broadcast under. */
  const SwitchPhaseEvent: string := "ludumjs_switchPhase"

  // ---------------------------------------------------------------------
  // What `end` and `emitSwitchPhase` ask for

  /** The end callbacks, each called once, in registration order. */
  function CallbackEffects(callbacks: seq<nat>): (r: seq<Effect>)
    ensures |r| == |callbacks|
    ensures forall i :: 0 <= i < |callbacks| ==> r[i] == RanCallback(callbacks[i])
  {
    seq(|callbacks|, i requires 0 <= i < |callbacks| => RanCallback(callbacks[i]))
  }

  /** The teardown of one socket: all listeners dropped, then a closing disconnect. */
  function Teardown(socket: nat): seq<Effect> {
    [RemovedAllListeners(socket), Disconnected(socket, true)]
  }

  /** The teardown of every socket, in join order. */
  function TeardownEffects(sockets: seq<nat>): (r: seq<Effect>)
    ensures |r| == 2 * |sockets|
  {
    if |sockets| == 0 then [] else TeardownEffects(sockets[..|sockets| - 1]) + Teardown(sockets[|sockets| - 1])
  }

  /** The message a phase switch carries. */
  function SwitchPayload(phaseName: Value, data: seq<Value>): (p: Value)
    ensures p.Obj? && p.fields.Keys == {"phaseName", "data"}
    ensures p.fields["phaseName"] == phaseName && p.fields["data"] == Arr(data)
  {
    Obj(map["phaseName" := phaseName, "data" := Arr(data)])
  }

  /** One emission of `payload` to each socket, in join order. */
  function Broadcast(sockets: seq<nat>, payload: Value): (r: seq<Effect>)
    ensures |r| == |sockets|
    ensures forall i :: 0 <= i < |sockets| ==> r[i] == Emitted(sockets[i], SwitchPhaseEvent, payload)
  {
    seq(|sockets|, i requires 0 <= i < |sockets| => Emitted(sockets[i], SwitchPhaseEvent, payload))
  }

  /** The identities of a sequence of sockets. */
  function Ids(sockets: seq<Socket>): (r: seq<nat>)
    ensures |r| == |sockets|
    ensures forall i :: 0 <= i < |sockets| ==> r[i] == sockets[i].id
  {
    seq(|sockets|, i requires 0 <= i < |sockets| => sockets[i].id)
  }

  lemma IdsSnoc(sockets: seq<Socket>, k: nat)
    requires k < |sockets|
    ensures Ids(sockets[..k + 1]) == Ids(sockets[..k]) + [sockets[k].id]
  {
  }

  // ---------------------------------------------------------------------
  // Properties of the effect sequences

  /** Socket `i`'s teardown sits at positions `2i` and `2i + 1`: every socket
      loses its listeners before it is disconnected, and the sockets are
      handled in join order. */
  lemma {:induction false} TeardownOrder(sockets: seq<nat>)
    ensures forall i :: 0 <= i < |sockets| ==>
      TeardownEffects(sockets)[2 * i] == RemovedAllListeners(sockets[i]) &&
      TeardownEffects(sockets)[2 * i + 1] == Disconnected(sockets[i], true)
  {
    if |sockets| > 0 {
      var n := |sockets| - 1;
      TeardownOrder(sockets[..n]);
      var before := TeardownEffects(sockets[..n]);
      assert TeardownEffects(sockets) == before + Teardown(sockets[n]);
      forall i | 0 <= i < |sockets|
        ensures TeardownEffects(sockets)[2 * i] == RemovedAllListeners(sockets[i])
        ensures TeardownEffects(sockets)[2 * i + 1] == Disconnected(sockets[i], true)
      {
        if i < n {
          assert sockets[..n][i] == sockets[i];
        }
      }
    }
  }

  /** Every teardown request closes the connection; none is a callback or an emission. */
  lemma {:induction false} TeardownOnlyTouchesSockets(sockets: seq<nat>)
    ensures forall e :: e in TeardownEffects(sockets) ==> e.RemovedAllListeners? || (e.Disconnected? && e.close)
  {
    if |sockets| > 0 {
      TeardownOnlyTouchesSockets(sockets[..|sockets| - 1]);
    }
  }

  /** What `end` asks for: all callbacks first, then the sockets. */
  function EndEffects(callbacks: seq<nat>, sockets: seq<nat>): (r: seq<Effect>)
    ensures |r| == |callbacks| + 2 * |sockets|
  {
    CallbackEffects(callbacks) + TeardownEffects(sockets)
  }

  /** Every end callback runs before any socket is touched. */
  lemma CallbacksBeforeSockets(callbacks: seq<nat>, sockets: seq<nat>)
    ensures forall i :: 0 <= i < |callbacks| ==> EndEffects(callbacks, sockets)[i] == RanCallback(callbacks[i])
    ensures forall i :: |callbacks| <= i < |callbacks| + 2 * |sockets| ==> !EndEffects(callbacks, sockets)[i].RanCallback?
  {
    TeardownOnlyTouchesSockets(sockets);
    var r := EndEffects(callbacks, sockets);
    forall i | |callbacks| <= i < |r|
      ensures !r[i].RanCallback?
    {
      assert r[i] == TeardownEffects(sockets)[i - |callbacks|];
      assert r[i] in TeardownEffects(sockets);
    }
  }

  /** A broadcast reaches each socket exactly as often as it has joined. */
  lemma {:induction false} BroadcastCount(sockets: seq<nat>, payload: Value, s: nat)
    ensures multiset(Broadcast(sockets, payload))[Emitted(s, SwitchPhaseEvent, payload)] == multiset(sockets)[s]
  {
    if |sockets| > 0 {
      var n := |sockets| - 1;
      BroadcastCount(sockets[..n], payload, s);
      assert Broadcast(sockets, payload) == Broadcast(sockets[..n], payload) + [Emitted(sockets[n], SwitchPhaseEvent, payload)];
      assert sockets == sockets[..n] + [sockets[n]];
    }
  }

  // ---------------------------------------------------------------------
  // The loops of `end`

  /** `onEndCallbacks.forEach(cb => cb())`. */
  method RunCallbacks(callbacks: seq<nat>) returns (effects: seq<Effect>)
    ensures effects == CallbackEffects(callbacks)
  {
    effects := [];
    var i := 0;
    while i < |callbacks|
      invariant 0 <= i <= |callbacks|
      invariant effects == CallbackEffects(callbacks[..i])
    {
      effects := effects + [RanCallback(callbacks[i])];
      i := i + 1;
    }
    assert callbacks[..i] == callbacks;
  }

  /** `sockets.forEach(s => { s.removeAllListeners(); s.disconnect(true); })`. */
  method StripAndClose(sockets: seq<Socket>) returns (effects: seq<Effect>)
    modifies sockets
    ensures effects == TeardownEffects(Ids(sockets))
    ensures forall i :: 0 <= i < |sockets| ==> sockets[i].listeners == [] && !sockets[i].connected
  {
    effects := [];
    var k := 0;
    while k < |sockets|
      invariant 0 <= k <= |sockets|
      invariant effects == TeardownEffects(Ids(sockets[..k]))
      invariant forall j :: 0 <= j < k ==> sockets[j].listeners == [] && !sockets[j].connected
    {
      var s := sockets[k];
      s.RemoveAllListeners();
      s.Disconnect(true);
      IdsSnoc(sockets, k);
      effects := effects + Teardown(s.id);
      k := k + 1;
    }
    assert sockets[..k] == sockets;
  }

  // ---------------------------------------------------------------------
  // The game

  class Game {
    /** The phase machine the game inherits from `GameCommon`. */
    const common: PhaseRegistry.Game
    /** The static tables the mixed-in `attachSocketEvent` reads. */
    const statics: Statics
    /** The game's constructor followed by its ancestors. */
    const chain: seq<ClassId>
    /** The identity `this` has in the listeners bound to it. */
    const instance: nat
    var sockets: seq<Socket>
    var onEndCallbacks: seq<nat>
    var log: seq<Effect>

    /** `new Game(socket?)`: an empty common game that joins `socket` when one is given. */
    constructor (socket: Option<Socket>, statics: Statics, chain: seq<ClassId>, instance: nat)
      modifies statics, if socket.Some? then {socket.value} else {}
      ensures fresh(common) && common.variant == PhaseRegistry.Common
      ensures common.phases == [] && common.currentPhase == None && common.calls == []
      ensures this.statics == statics && this.chain == chain && this.instance == instance
      ensures onEndCallbacks == [] && log == []
      ensures socket.None? ==> sockets == [] && statics.nextSerial == old(statics.nextSerial)
      ensures socket.Some? ==> sockets == [socket.value]
      ensures socket.Some? ==>
                socket.value.listeners == old(socket.value.listeners) + Listen(Level(statics.socketEvents, chain, 0), old(statics.nextSerial), instance, None)
      ensures statics.socketEvents == old(statics.socketEvents) && statics.socketHandlers == old(statics.socketHandlers)
    {
      common := new PhaseRegistry.Game(PhaseRegistry.Common);
      this.statics := statics;
      this.chain := chain;
      this.instance := instance;
      sockets := [];
      onEndCallbacks := [];
      log := [];
      new;
      if socket.Some? {
        Join(socket.value);
      }
    }

    /** `getSockets()`. */
    method GetSockets() returns (r: seq<Socket>)
      ensures r == sockets
    {
      r := sockets;
    }

    /** `join(socket)`: remember the socket and bind the game's declared
        socket events on it. */
    method Join(socket: Socket)
      modifies this, statics, socket
      ensures sockets == old(sockets) + [socket]
      ensures onEndCallbacks == old(onEndCallbacks) && log == old(log)
      ensures socket.listeners == old(socket.listeners) + Listen(Level(statics.socketEvents, chain, 0), old(statics.nextSerial), instance, None)
      ensures socket.connected == old(socket.connected)
      ensures statics.socketEvents == old(statics.socketEvents) && statics.socketHandlers == old(statics.socketHandlers)
      ensures statics.nextSerial == old(statics.nextSerial) + |Level(statics.socketEvents, chain, 0)|
    {
      sockets := sockets + [socket];
      statics.PlainAttach(instance, chain, socket);
    }

    /** `onEnd(callback)`. */
    method OnEnd(callback: nat)
      modifies this
      ensures onEndCallbacks == old(onEndCallbacks) + [callback]
      ensures sockets == old(sockets) && log == old(log)
    {
      onEndCallbacks := onEndCallbacks + [callback];
    }

    /** `end()`: run every end callback, then strip and close every socket,
        then forget the sockets. The callbacks stay registered. */
    method End()
      modifies this, sockets
      ensures log == old(log) + EndEffects(onEndCallbacks, Ids(old(sockets)))
      ensures sockets == [] && onEndCallbacks == old(onEndCallbacks)
      ensures forall i :: 0 <= i < |old(sockets)| ==> old(sockets)[i].listeners == [] && !old(sockets)[i].connected
      ensures common.phases == old(common.phases) && common.currentPhase == old(common.currentPhase)
    {
      var ran := RunCallbacks(onEndCallbacks);
      var closed := StripAndClose(sockets);
      AppendAssoc(log, ran, closed);
      log := log + ran + closed;
      sockets := [];
    }

    /** `emitSwitchPhase(phaseName, ...data)`: tell every socket, in join
        order, which phase to switch to and with what data. */
    method EmitSwitchPhase(phaseName: Value, data: seq<Value>)
      modifies this
      ensures log == old(log) + Broadcast(Ids(sockets), SwitchPayload(phaseName, data))
      ensures sockets == old(sockets) && onEndCallbacks == old(onEndCallbacks)
    {
      var payload := SwitchPayload(phaseName, data);
      var k := 0;
      while k < |sockets|
        invariant 0 <= k <= |sockets|
        invariant sockets == old(sockets) && onEndCallbacks == old(onEndCallbacks)
        invariant log == old(log) + Broadcast(Ids(sockets[..k]), payload)
      {
        IdsSnoc(sockets, k);
        assert Broadcast(Ids(sockets[..k + 1]), payload) == Broadcast(Ids(sockets[..k]), payload) + [Emitted(sockets[k].id, SwitchPhaseEvent, payload)];
        log := log + [Emitted(sockets[k].id, SwitchPhaseEvent, payload)];
        k := k + 1;
      }
      assert sockets[..k] == sockets;
    }
  }
}
