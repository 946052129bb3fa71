/** The shared base phase (src/common/lib/Phase.ts): it keeps the game it was
    built for, replaces a missing `onStart` or `onEnd` by a no-op once in the
    constructor, and `start`/`end` are plain delegations to those hooks. */
module CommonPhase {
  import opened Wrappers
  import opened JsValues

  /** The hooks a phase class declares; `None` when it leaves one out. */
  datatype Hooks = Hooks(onStart: Option<seq<Value> -> Value>, onEnd: Option<() -> Value>)

  /** A constructed phase: the game reference and the two hooks it will call. */
  datatype Phase<G> = Phase(game: G, onStart: seq<Value> -> Value, onEnd: () -> Value)

  /** What one call of `start` or `end` does: the hook calls made, in order,
      and the value returned to the caller. */
  datatype Invocation = Invocation(calls: seq<HookCall>, result: Value)

  /** The `() => {}` put in place of a missing hook. */
  function Noop(data: seq<Value>): Value { Undefined }

  function NoopEnd(): Value { Undefined }

  /** The constructor: store the game, bind declared hooks, default the rest. */
  function NewPhase<G>(game: G, hooks: Hooks): (p: Phase<G>)
    ensures p.game == game
    ensures hooks.onStart.Some? ==> p.onStart == hooks.onStart.value
    ensures hooks.onStart.None? ==> forall data :: p.onStart(data) == Undefined
    ensures hooks.onEnd.Some? ==> p.onEnd == hooks.onEnd.value
    ensures hooks.onEnd.None? ==> p.onEnd() == Undefined
  {
    Phase(game,
          if hooks.onStart.Some? then hooks.onStart.value else Noop,
          if hooks.onEnd.Some? then hooks.onEnd.value else NoopEnd)
  }

  /** `start(...data)`: call `onStart` with the same arguments and hand back its result. */
  function Start<G>(p: Phase<G>, data: seq<Value>): (r: Invocation)
    ensures r.calls == [OnStartCalled(data)]
    ensures r.result == p.onStart(data)
  {
    Invocation([OnStartCalled(data)], p.onStart(data))
  }

  /** `end()`: call `onEnd` once; `end` itself returns nothing. */
  function End<G>(p: Phase<G>): (r: Invocation)
    ensures r.calls == [OnEndCalled]
    ensures r.result == Undefined
  {
    var _ := p.onEnd();
    Invocation([OnEndCalled], Undefined)
  }

  /** A declared `onStart` sees exactly the arguments given to `start`, and
      its return value comes back unchanged. */
  lemma StartForwardsDeclaredHook<G>(game: G, hooks: Hooks, data: seq<Value>)
    requires hooks.onStart.Some?
    ensures Start(NewPhase(game, hooks), data).result == hooks.onStart.value(data)
    ensures Start(NewPhase(game, hooks), data).calls == [OnStartCalled(data)]
  {
  }

  /** Without an `onStart`, `start` returns undefined, which never vetoes. */
  lemma DefaultStartNeverVetoes<G>(game: G, hooks: Hooks, data: seq<Value>)
    requires hooks.onStart.None?
    ensures Start(NewPhase(game, hooks), data).result == Undefined
    ensures !IsFalse(Start(NewPhase(game, hooks), data).result)
  {
  }

  /** `end` calls `onEnd` exactly once, whether declared or defaulted. */
  lemma EndCallsOnEndOnce<G>(game: G, hooks: Hooks)
    ensures |End(NewPhase(game, hooks)).calls| == 1
    ensures End(NewPhase(game, hooks)).calls[0] == OnEndCalled
  {
  }
}
