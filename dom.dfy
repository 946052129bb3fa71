/** The game's root container as the phases see it: a set of CSS class names
    and a set of attached event listeners. `addEventListener` ignores an
    identical (event, function) pair that is already attached, and
    `classList.add` ignores a class that is already present, so both are sets. */
module Dom {

  /** An attached listener: the event name and the identity of the function. */
  datatype Listener = Listener(event: string, handler: nat)

  datatype ContainerState = ContainerState(classes: set<string>, listeners: set<Listener>)

  /** What a successful start does to the container. */
  function Decorate(st: ContainerState, cls: string, ls: set<Listener>): (r: ContainerState)
    ensures cls in r.classes && ls <= r.listeners
    ensures r.classes - {cls} == st.classes - {cls} && r.listeners - ls == st.listeners - ls
  {
    ContainerState(st.classes + {cls}, st.listeners + ls)
  }

  /** What a successful end does to the container. */
  function Undecorate(st: ContainerState, cls: string, ls: set<Listener>): (r: ContainerState)
    ensures cls !in r.classes && r.listeners !! ls
    ensures r.classes + {cls} == st.classes + {cls} && r.listeners + ls == st.listeners + ls
  {
    ContainerState(st.classes - {cls}, st.listeners - ls)
  }

  /** Removing what was added restores the container, provided none of it was there before. */
  lemma UndecorateUndoesDecorate(st: ContainerState, cls: string, ls: set<Listener>)
    requires cls !in st.classes && st.listeners !! ls
    ensures Undecorate(Decorate(st, cls, ls), cls, ls) == st
  {
  }

  class Container {
    var classes: set<string>
    var listeners: set<Listener>

    constructor ()
      ensures classes == {} && listeners == {}
    {
      classes := {};
      listeners := {};
    }

    function State(): ContainerState
      reads this
    {
      ContainerState(classes, listeners)
    }

    method AddEventListener(l: Listener)
      modifies this
      ensures listeners == old(listeners) + {l} && classes == old(classes)
    {
      listeners := listeners + {l};
    }

    method RemoveEventListener(l: Listener)
      modifies this
      ensures listeners == old(listeners) - {l} && classes == old(classes)
    {
      listeners := listeners - {l};
    }

    method AddClass(cls: string)
      modifies this
      ensures classes == old(classes) + {cls} && listeners == old(listeners)
    {
      classes := classes + {cls};
    }

    method RemoveClass(cls: string)
      modifies this
      ensures classes == old(classes) - {cls} && listeners == old(listeners)
    {
      classes := classes - {cls};
    }
  }
}
