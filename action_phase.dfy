/** The click-dispatching phase of the top-level library (lib/Phase.ts): a
    phase marks the container with its class name while it runs, may veto its
    own start or end by settling its hook on `false`, and, when it defines
    `onAction`, routes clicks on elements carrying a `data-action` marker to it. */
module ActionPhase {
  import opened Wrappers
  import opened JsValues
  import opened Dom

  /** A DOM element: its identity and its `data-action` marker when the
      attribute is present (an element without a dataset counts as unmarked). */
  datatype Element = Element(id: nat, action: Option<string>)

  /** A click or touch event. `path` is its target followed by the target's
      ancestors, nearest first; an empty path is a null target. */
  datatype ClickEvent = ClickEvent(kind: string, path: seq<Element>)

  datatype ActionPayload = ActionPayload(action: string, event: ClickEvent, target: Element)

  /** What one click does: nothing, a call of `onAction`, or the TypeError of
      calling an `onAction` the phase never defined. */
  datatype Dispatch = Ignored | Invoked(payload: ActionPayload) | MissingOnAction

  predicate Marked(e: Element) { e.action.Some? }

  /** Index of the first marked element of `path`, or |path| when none is. */
  function FirstMarked(path: seq<Element>): (k: nat)
    ensures k <= |path|
    ensures forall i :: 0 <= i < k ==> !Marked(path[i])
    ensures k < |path| ==> Marked(path[k])
  {
    if path == [] then 0
    else if Marked(path[0]) then 0
    else 1 + FirstMarked(path[1..])
  }

  /** The walk from the event target up through its ancestors. */
  method FirstElementWithAction(path: seq<Element>) returns (r: Option<Element>)
    ensures r.None? <==> (forall i :: 0 <= i < |path| ==> !Marked(path[i]))
    ensures r.Some? ==> Marked(r.value) && r.value == path[FirstMarked(path)]
  {
    if path == [] {
      return None;
    }
    var i := 0;
    while i < |path|
      invariant 0 <= i <= |path|
      invariant forall j :: 0 <= j < i ==> !Marked(path[j])
      invariant i <= FirstMarked(path)
    {
      if Marked(path[i]) {
        return Some(path[i]);
      }
      i := i + 1;
    }
    return None;
  }

  /** A hook's settled result: `Some(v)` when the hook is defined and settles on `v`. */
  function StartResult(onStart: Option<seq<Value> -> Value>, data: seq<Value>): (r: Option<Value>)
    ensures r.Some? <==> onStart.Some?
  {
    match onStart
    case Some(f) => Some(f(data))
    case None => None
  }

  function EndResult(onEnd: Option<() -> Value>): (r: Option<Value>)
    ensures r.Some? <==> onEnd.Some?
  {
    match onEnd
    case Some(f) => Some(f())
    case None => None
  }

  /** Only a hook that exists and settles on exactly `false` vetoes. */
  predicate Vetoed(result: Option<Value>) {
    result.Some? && IsFalse(result.value)
  }

  /** The container after `start`, given the hook's result. */
  function AfterStart(st: ContainerState, cls: string, ls: set<Listener>, result: Option<Value>): ContainerState {
    if Vetoed(result) then st else Decorate(st, cls, ls)
  }

  /** The container after `end`, given the hook's result. */
  function AfterEnd(st: ContainerState, cls: string, ls: set<Listener>, result: Option<Value>): ContainerState {
    if Vetoed(result) then st else Undecorate(st, cls, ls)
  }

  lemma VetoedStartChangesNothing(st: ContainerState, cls: string, ls: set<Listener>, result: Option<Value>)
    requires Vetoed(result)
    ensures AfterStart(st, cls, ls, result) == st
  {
  }

  /** A hook that is missing, or settles on anything but `false` (undefined,
      true, 0, "", null), lets the start through. */
  lemma StartProceedsUnlessFalse(st: ContainerState, cls: string, ls: set<Listener>, result: Option<Value>)
    requires !Vetoed(result)
    ensures AfterStart(st, cls, ls, result).classes == st.classes + {cls}
    ensures AfterStart(st, cls, ls, result).listeners == st.listeners + ls
  {
  }

  lemma VetoedEndChangesNothing(st: ContainerState, cls: string, ls: set<Listener>, result: Option<Value>)
    requires Vetoed(result)
    ensures AfterEnd(st, cls, ls, result) == st
  {
  }

  lemma EndProceedsUnlessFalse(st: ContainerState, cls: string, ls: set<Listener>, result: Option<Value>)
    requires !Vetoed(result)
    ensures AfterEnd(st, cls, ls, result).classes == st.classes - {cls}
    ensures AfterEnd(st, cls, ls, result).listeners == st.listeners - ls
  {
  }

  /** A start and an end that both go through leave a container that carried
      none of the phase's marks exactly as it was. */
  lemma StartThenEndRestores(st: ContainerState, cls: string, ls: set<Listener>, rs: Option<Value>, re: Option<Value>)
    requires !Vetoed(rs) && !Vetoed(re)
    requires cls !in st.classes && st.listeners !! ls
    ensures AfterEnd(AfterStart(st, cls, ls, rs), cls, ls, re) == st
  {
    UndecorateUndoesDecorate(st, cls, ls);
  }

  class Phase {
    /** `game.domContainer`. */
    const container: Container
    /** `this.constructor.name`. */
    const className: string
    /** The click event name chosen once when the module loads. */
    const clickEvent: string
    /** Identity of this instance's `onActionHandler` arrow function. */
    const handler: nat
    const onStart: Option<seq<Value> -> Value>
    const onEnd: Option<() -> Value>
    const hasOnAction: bool
    var hookCalls: seq<HookCall>

    constructor (container: Container, className: string, clickEvent: string, handler: nat,
                 onStart: Option<seq<Value> -> Value>, onEnd: Option<() -> Value>, hasOnAction: bool)
      ensures this.container == container && this.className == className
      ensures this.clickEvent == clickEvent && this.handler == handler
      ensures this.onStart == onStart && this.onEnd == onEnd && this.hasOnAction == hasOnAction
      ensures hookCalls == []
    {
      this.container := container;
      this.className := className;
      this.clickEvent := clickEvent;
      this.handler := handler;
      this.onStart := onStart;
      this.onEnd := onEnd;
      this.hasOnAction := hasOnAction;
      hookCalls := [];
    }

    /** The listeners the phase attaches: its handler, only when it has `onAction`. */
    function Listeners(): (ls: set<Listener>)
      ensures hasOnAction <==> Listener(clickEvent, handler) in ls
      ensures |ls| <= 1
    {
      if hasOnAction then {Listener(clickEvent, handler)} else {}
    }

    method Start(data: seq<Value>)
      modifies container, this
      ensures container.State() == AfterStart(old(container.State()), className, Listeners(), StartResult(onStart, data))
      ensures hookCalls == old(hookCalls) + (if onStart.Some? then [OnStartCalled(data)] else [])
    {
      if onStart.Some? {
        hookCalls := hookCalls + [OnStartCalled(data)];
        var result := onStart.value(data);
        if IsFalse(result) {
          return;
        }
      }
      if hasOnAction {
        container.AddEventListener(Listener(clickEvent, handler));
      }
      container.AddClass(className);
    }

    method End()
      modifies container, this
      ensures container.State() == AfterEnd(old(container.State()), className, Listeners(), EndResult(onEnd))
      ensures hookCalls == old(hookCalls) + (if onEnd.Some? then [OnEndCalled] else [])
    {
      if onEnd.Some? {
        hookCalls := hookCalls + [OnEndCalled];
        var result := onEnd.value();
        if IsFalse(result) {
          return;
        }
      }
      if hasOnAction {
        container.RemoveEventListener(Listener(clickEvent, handler));
      }
      assert container.listeners == old(container.listeners) - Listeners();
      container.RemoveClass(className);
    }

    /** `onActionHandler`: find the nearest marked element and hand it to `onAction`. */
    method OnActionHandler(event: ClickEvent) returns (d: Dispatch)
      ensures d == Ignored <==> (forall i :: 0 <= i < |event.path| ==> !Marked(event.path[i]))
      ensures d.Invoked? ==> hasOnAction
      ensures d.Invoked? ==>
        var k := FirstMarked(event.path);
        k < |event.path| && d.payload == ActionPayload(event.path[k].action.value, event, event.path[k])
      ensures d == MissingOnAction ==> !hasOnAction
    {
      var target := FirstElementWithAction(event.path);
      if target.None? {
        return Ignored;
      }
      if !hasOnAction {
        return MissingOnAction;
      }
      return Invoked(ActionPayload(target.value.action.value, event, target.value));
    }
  }
}
