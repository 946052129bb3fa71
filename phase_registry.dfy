/** The phase registry and transition machine of a game: an ordered list of
    registered phases with pairwise-distinct names and an optional current
    phase. Three historical versions share this module and differ only where
    `Variant` says so:
      - Typed  (lib/Game.ts): names are constructor names, an unknown name is
        rejected by goToPhaseByName, start forwards its data;
      - Common (src/common/lib/Game.ts): names are the instances' own `name`
        property, which must be non-empty; no unknown-name check; start
        forwards nothing;
      - Legacy (src/Game.js): constructor names, no unknown-name check, start
        forwards nothing.
    Calls to a phase's `end` and `start` are recorded in order; what those
    hooks do to the page is modelled in ActionPhase, KebabPhase and
    CommonPhase. Nothing is awaited, so only the order of calls is kept. */
module PhaseRegistry {
  import opened Wrappers
  import opened JsValues

  datatype Variant = Typed | Common | Legacy

  /** A class handed to registerPhase. */
  datatype PhaseClass = PhaseClass(
    className: string,            // PhaseClass.name
    extendsPhase: bool,           // its instances pass `instanceof Phase`
    instanceName: Option<string>, // the `name` property its instances carry
    hasGetClassName: bool)        // its instances have a `getClassName` method

  /** A phase instance. In the Common version it answers to `name`,
      elsewhere to its constructor's name. */
  datatype Phase = Phase(className: string, name: Option<string>)

  /** `new PhaseClass(game)` */
  function Instantiate(cls: PhaseClass): Phase {
    Phase(cls.className, cls.instanceName)
  }

  datatype GameError =
    | NotAPhase              // the `instanceof Phase` assertion
    | MissingName            // the non-empty `name` assertion (Common)
    | AlreadyRegistered      // the duplicate assertion
    | UnknownPhase           // goToPhaseByName's assertion (Typed)
    | StartOfUndefined       // `undefined.start(...)` throws a TypeError
    | NoGetClassName         // `phaseInstance.getClassName()` is not a function

  /** `phase.constructor.name === n` or, in the Common version, `phase.name === n`. */
  predicate Named(v: Variant, p: Phase, n: string) {
    if v == Common then p.name == Some(n) else p.className == n
  }

  /** The comparison registerPhase makes between a registered phase and a candidate. */
  predicate SameKey(v: Variant, p: Phase, q: Phase) {
    if v == Common then p.name == q.name else p.className == q.className
  }

  /** Registered names are pairwise distinct. */
  ghost predicate Distinct(v: Variant, phases: seq<Phase>) {
    forall i, j :: 0 <= i < j < |phases| ==> !SameKey(v, phases[i], phases[j])
  }

  predicate AlreadyHas(v: Variant, phases: seq<Phase>, p: Phase) {
    exists i :: 0 <= i < |phases| && SameKey(v, phases[i], p)
  }

  /** The assertions registerPhase makes, in the order it makes them. */
  function RegisterCheck(v: Variant, phases: seq<Phase>, cls: PhaseClass): (r: Outcome<GameError>)
    ensures !cls.extendsPhase ==> r == Fail(NotAPhase)
    ensures r.Pass? ==> cls.extendsPhase && !AlreadyHas(v, phases, Instantiate(cls))
    ensures r.Pass? && v == Common ==> cls.instanceName.Some? && cls.instanceName.value != ""
    ensures r.Fail? ==> r.error == NotAPhase || r.error == MissingName || r.error == AlreadyRegistered
    ensures (cls.extendsPhase && (v == Common ==> cls.instanceName.Some? && cls.instanceName.value != "")
             && !AlreadyHas(v, phases, Instantiate(cls))) ==> r.Pass?
  {
    if !cls.extendsPhase then Fail(NotAPhase)
    else if v == Common && (cls.instanceName.None? || cls.instanceName.value == "") then Fail(MissingName)
    else if AlreadyHas(v, phases, Instantiate(cls)) then Fail(AlreadyRegistered)
    else Pass
  }

  /** registerPhase of lib/Game.ts as written: after the duplicate check it
      calls `phaseInstance.getClassName()`, a method lib/Phase.ts never
      defines, so a subclass that does not add its own throws there. */
  function RegisterCheckAsWritten(v: Variant, phases: seq<Phase>, cls: PhaseClass): (r: Outcome<GameError>)
    ensures RegisterCheck(v, phases, cls).Fail? ==> r == RegisterCheck(v, phases, cls)
    ensures r == Fail(NoGetClassName) <==> v == Typed && RegisterCheck(v, phases, cls).Pass? && !cls.hasGetClassName
    ensures r.Pass? ==> RegisterCheck(v, phases, cls).Pass?
  {
    if RegisterCheck(v, phases, cls).Fail? then RegisterCheck(v, phases, cls)
    else if v == Typed && !cls.hasGetClassName then Fail(NoGetClassName)
    else Pass
  }

  /** A plain subclass of lib/Phase.ts, first to be registered, passes every
      assertion and is still refused as written. */
  lemma PlainTypedPhaseRefused()
    ensures var cls := PhaseClass("Intro", true, None, false);
      RegisterCheck(Typed, [], cls) == Pass && RegisterCheckAsWritten(Typed, [], cls) == Fail(NoGetClassName)
  {
    var cls := PhaseClass("Intro", true, None, false);
    assert !AlreadyHas(Typed, [], Instantiate(cls));
  }

  /** The registered list after registerPhase(cls). */
  function Register(v: Variant, phases: seq<Phase>, cls: PhaseClass): (r: seq<Phase>)
    ensures RegisterCheck(v, phases, cls).Pass? ==> r == phases + [Instantiate(cls)]
    ensures RegisterCheck(v, phases, cls).Fail? ==> r == phases
  {
    if RegisterCheck(v, phases, cls).Pass? then phases + [Instantiate(cls)] else phases
  }

  /** registerPhases: forEach registerPhase, stopping at the first throw. */
  function RegisterAll(v: Variant, phases: seq<Phase>, classes: seq<PhaseClass>): (r: (seq<Phase>, Outcome<GameError>))
    ensures |phases| <= |r.0| <= |phases| + |classes| && r.0[..|phases|] == phases
    ensures r.1.Pass? ==> |r.0| == |phases| + |classes|
    ensures r.1.Fail? ==> |r.0| < |phases| + |classes|
    decreases |classes|
  {
    if classes == [] then (phases, Pass)
    else if RegisterCheck(v, phases, classes[0]).Fail? then (phases, RegisterCheck(v, phases, classes[0]))
    else RegisterAll(v, Register(v, phases, classes[0]), classes[1..])
  }

  function Instances(classes: seq<PhaseClass>): seq<Phase>
  {
    if classes == [] then [] else [Instantiate(classes[0])] + Instances(classes[1..])
  }

  /** getPhaseByName: `phases.filter(named)[0]`, the first phase with that name. */
  function FindByName(v: Variant, phases: seq<Phase>, n: string): (r: Option<Phase>)
    ensures r.None? <==> forall i :: 0 <= i < |phases| ==> !Named(v, phases[i], n)
    ensures r.Some? ==> exists k :: 0 <= k < |phases| && phases[k] == r.value && Named(v, r.value, n)
                          && forall i :: 0 <= i < k ==> !Named(v, phases[i], n)
  {
    if phases == [] then None
    else if Named(v, phases[0], n) then Some(phases[0])
    else
      var r := FindByName(v, phases[1..], n);
      assert r.Some? ==> exists k :: 0 <= k < |phases| && phases[k] == r.value && Named(v, r.value, n)
                          && forall i :: 0 <= i < k ==> !Named(v, phases[i], n) by {
        if r.Some? {
          var k :| 0 <= k < |phases| - 1 && phases[1..][k] == r.value && Named(v, r.value, n)
                   && forall i :: 0 <= i < k ==> !Named(v, phases[1..][i], n);
          assert phases[k + 1] == r.value;
          assert forall i :: 0 <= i < k + 1 ==> !Named(v, phases[i], n) by {
            forall i | 0 <= i < k + 1 ensures !Named(v, phases[i], n) {
              if i > 0 { assert phases[i] == phases[1..][i - 1]; }
            }
          }
        }
      }
      assert (forall i :: 0 <= i < |phases| ==> !Named(v, phases[i], n)) <==>
             (forall i :: 0 <= i < |phases| - 1 ==> !Named(v, phases[1..][i], n)) by {
        assert forall i :: 0 <= i < |phases| - 1 ==> phases[1..][i] == phases[i + 1];
      }
      r
  }

  /** What goToPhase records: the `end` of the current phase, then the `start` of the target. */
  datatype Call = Ended(phase: Phase) | Started(phase: Phase, data: seq<Value>)

  datatype GameState = GameState(phases: seq<Phase>, current: Option<Phase>, calls: seq<Call>)

  /** goToPhase(target, ...data); a `None` target is `undefined`, whose `start` throws
      after the current phase has been ended and replaced. */
  function GoTo(st: GameState, target: Option<Phase>, data: seq<Value>): (r: (GameState, Outcome<GameError>))
    ensures r.0.phases == st.phases && r.0.current == target
    ensures r.1.Pass? <==> target.Some?
    ensures |st.calls| <= |r.0.calls| <= |st.calls| + 2 && r.0.calls[..|st.calls|] == st.calls
  {
    var ended := if st.current.Some? then [Ended(st.current.value)] else [];
    var started := if target.Some? then [Started(target.value, data)] else [];
    (st.(current := target, calls := st.calls + ended + started),
     if target.Some? then Pass else Fail(StartOfUndefined))
  }

  /** goToPhaseByName(name, ...data). */
  function GoToByName(v: Variant, st: GameState, n: string, data: seq<Value>): (r: (GameState, Outcome<GameError>))
    ensures r.0.phases == st.phases
    ensures r.1.Pass? <==> FindByName(v, st.phases, n).Some?
    ensures r.1.Pass? ==> r.0.current == FindByName(v, st.phases, n)
  {
    var target := FindByName(v, st.phases, n);
    if v == Typed && target.None? then (st, Fail(UnknownPhase))
    else GoTo(st, target, data)
  }

  /** start(...data): goToPhase(phases[0]), forwarding the data only in the Typed version. */
  function StartGame(v: Variant, st: GameState, data: seq<Value>): (r: (GameState, Outcome<GameError>))
    ensures r.0.phases == st.phases
    ensures r.0.current == (if st.phases == [] then None else Some(st.phases[0]))
    ensures r.1.Pass? <==> st.phases != []
  {
    GoTo(st, if st.phases == [] then None else Some(st.phases[0]), if v == Typed then data else [])
  }

  // ---------------------------------------------------------------------------
  // Properties of registration

  /** Registering never makes two registered names equal. */
  lemma RegisterKeepsDistinct(v: Variant, phases: seq<Phase>, cls: PhaseClass)
    requires Distinct(v, phases)
    ensures Distinct(v, Register(v, phases, cls))
  {
    var r := Register(v, phases, cls);
    if RegisterCheck(v, phases, cls).Pass? {
      forall i, j | 0 <= i < j < |r| ensures !SameKey(v, r[i], r[j]) {
        if j == |phases| {
          assert !SameKey(v, phases[i], Instantiate(cls));
        }
      }
    }
  }

  /** A duplicate is rejected and the list is left as it was. */
  lemma DuplicateRejected(v: Variant, phases: seq<Phase>, cls: PhaseClass, k: nat)
    requires cls.extendsPhase
    requires v == Common ==> cls.instanceName.Some? && cls.instanceName.value != ""
    requires k < |phases| && SameKey(v, phases[k], Instantiate(cls))
    ensures RegisterCheck(v, phases, cls) == Fail(AlreadyRegistered)
    ensures Register(v, phases, cls) == phases
  {
  }

  /** After a successful registration the phase is found under its own name. */
  lemma {:induction false} RegisteredIsFound(v: Variant, phases: seq<Phase>, cls: PhaseClass)
    requires RegisterCheck(v, phases, cls).Pass?
    ensures var n := if v == Common then cls.instanceName.value else cls.className;
            FindByName(v, Register(v, phases, cls), n) == Some(Instantiate(cls))
  {
    var n := if v == Common then cls.instanceName.value else cls.className;
    var r := Register(v, phases, cls);
    assert r == phases + [Instantiate(cls)];
    forall i | 0 <= i < |phases| ensures !Named(v, r[i], n) {
      assert r[i] == phases[i];
      assert !SameKey(v, phases[i], Instantiate(cls));
    }
    assert Named(v, r[|phases|], n);
  }

  /** How many classes registerPhases gets through before the first throw. */
  function Accepted(v: Variant, phases: seq<Phase>, classes: seq<PhaseClass>): (k: nat)
    ensures k <= |classes|
    decreases |classes|
  {
    if classes == [] || RegisterCheck(v, phases, classes[0]).Fail? then 0
    else 1 + Accepted(v, Register(v, phases, classes[0]), classes[1..])
  }

  /** registerPhases registers in list order and keeps what it registered before a
      failure: the result is the old list plus the first `Accepted` classes. */
  lemma {:induction false} RegisterAllInOrder(v: Variant, phases: seq<Phase>, classes: seq<PhaseClass>)
    ensures RegisterAll(v, phases, classes).0 == phases + Instances(classes[..Accepted(v, phases, classes)])
    decreases |classes|
  {
    if classes == [] || RegisterCheck(v, phases, classes[0]).Fail? {
      assert Instances(classes[..0]) == [];
      assert phases + [] == phases;
    } else {
      var next := phases + [Instantiate(classes[0])];
      var rest := classes[1..];
      RegisterAllInOrder(v, next, rest);
      var k' := Accepted(v, next, rest);
      RegisterAllPass(v, phases, classes);
      InstancesCons(classes, k');
      AppendAssoc(phases, [Instantiate(classes[0])], Instances(rest[..k']));
    }
  }

  /** A class that passes the check is appended, and registration goes on with the rest. */
  lemma RegisterAllPass(v: Variant, phases: seq<Phase>, classes: seq<PhaseClass>)
    requires |classes| > 0 && RegisterCheck(v, phases, classes[0]).Pass?
    ensures RegisterAll(v, phases, classes) == RegisterAll(v, phases + [Instantiate(classes[0])], classes[1..])
    ensures Accepted(v, phases, classes) == 1 + Accepted(v, phases + [Instantiate(classes[0])], classes[1..])
  {
  }

  lemma InstancesCons(classes: seq<PhaseClass>, k: nat)
    requires k < |classes|
    ensures Instances(classes[..k + 1]) == [Instantiate(classes[0])] + Instances(classes[1..][..k])
  {
    var taken := classes[..k + 1];
    assert taken[0] == classes[0] && taken[1..] == classes[1..][..k];
  }

  /** registerPhases fails exactly when it stops short, and then with the check that
      failed on the first class it could not register, against the list built so far. */
  lemma {:induction false} RegisterAllFailsAtFirstRejected(v: Variant, phases: seq<Phase>, classes: seq<PhaseClass>)
    ensures var k := Accepted(v, phases, classes);
      && (RegisterAll(v, phases, classes).1.Pass? <==> k == |classes|)
      && (k < |classes| ==>
            RegisterAll(v, phases, classes).1 == RegisterCheck(v, RegisterAll(v, phases, classes).0, classes[k]))
    decreases |classes|
  {
    if classes != [] && RegisterCheck(v, phases, classes[0]).Pass? {
      var next := Register(v, phases, classes[0]);
      RegisterAllFailsAtFirstRejected(v, next, classes[1..]);
      var k' := Accepted(v, next, classes[1..]);
      if k' < |classes[1..]| {
        assert classes[1..][k'] == classes[k' + 1];
      }
    }
  }

  /** registerPhases keeps the registered names pairwise distinct. */
  lemma {:induction false} RegisterAllKeepsDistinct(v: Variant, phases: seq<Phase>, classes: seq<PhaseClass>)
    requires Distinct(v, phases)
    ensures Distinct(v, RegisterAll(v, phases, classes).0)
    decreases |classes|
  {
    if classes != [] && RegisterCheck(v, phases, classes[0]).Pass? {
      RegisterKeepsDistinct(v, phases, classes[0]);
      RegisterAllKeepsDistinct(v, Register(v, phases, classes[0]), classes[1..]);
    }
  }

  /** With distinct names, the phase found under a name is the only one carrying it. */
  lemma FoundIsUnique(v: Variant, phases: seq<Phase>, n: string, i: nat)
    requires Distinct(v, phases)
    requires i < |phases| && Named(v, phases[i], n)
    ensures FindByName(v, phases, n) == Some(phases[i])
  {
    var r := FindByName(v, phases, n);
    var k :| 0 <= k < |phases| && phases[k] == r.value && Named(v, r.value, n)
             && forall j :: 0 <= j < k ==> !Named(v, phases[j], n);
    if k < i {
      assert SameKey(v, phases[k], phases[i]);
    }
  }

  // ---------------------------------------------------------------------------
  // Properties of transitions

  /** goToPhase ends the current phase before starting the target, forwards
      the data, and leaves the target current; the phases are untouched. */
  lemma GoToOrder(st: GameState, target: Phase, data: seq<Value>)
    ensures var (st', out) := GoTo(st, Some(target), data);
      && out == Pass
      && st'.current == Some(target)
      && st'.phases == st.phases
      && (st.current.Some? ==> st'.calls == st.calls + [Ended(st.current.value), Started(target, data)])
      && (st.current.None? ==> st'.calls == st.calls + [Started(target, data)])
  {
  }

  /** Typed version: an unknown name fails before any end/start and changes nothing. */
  lemma TypedUnknownNameNoEffect(st: GameState, n: string, data: seq<Value>)
    requires forall i :: 0 <= i < |st.phases| ==> st.phases[i].className != n
    ensures GoToByName(Typed, st, n, data) == (st, Fail(UnknownPhase))
  {
  }

  /** Common and Legacy versions: an unknown name still ends the current phase
      and leaves no current phase before `start` throws. */
  lemma UncheckedUnknownName(v: Variant, st: GameState, n: string, data: seq<Value>)
    requires v != Typed
    requires forall i :: 0 <= i < |st.phases| ==> !Named(v, st.phases[i], n)
    ensures var (st', out) := GoToByName(v, st, n, data);
      && out == Fail(StartOfUndefined)
      && st'.current.None?
      && st'.phases == st.phases
      && st'.calls == st.calls + (if st.current.Some? then [Ended(st.current.value)] else [])
  {
  }

  /** A known name goes to the phase registered under it, in every version. */
  lemma GoToKnownName(v: Variant, st: GameState, n: string, data: seq<Value>, i: nat)
    requires Distinct(v, st.phases)
    requires i < |st.phases| && Named(v, st.phases[i], n)
    ensures GoToByName(v, st, n, data) == GoTo(st, Some(st.phases[i]), data)
  {
    FoundIsUnique(v, st.phases, n, i);
  }

  /** start goes to the first registered phase, with the data only in the Typed version;
      with nothing registered it throws after ending the current phase. */
  lemma StartGoesToFirst(v: Variant, st: GameState, data: seq<Value>)
    ensures var (st', out) := StartGame(v, st, data);
      && (st.phases != [] ==>
            out == Pass && st'.current == Some(st.phases[0])
            && st'.calls[|st'.calls| - 1] == Started(st.phases[0], if v == Typed then data else []))
      && (st.phases == [] ==> out == Fail(StartOfUndefined) && st'.current.None?)
  {
  }

  // ---------------------------------------------------------------------------

  /** The game object: the registry and the current phase, updated in place. */
  class Game {
    const variant: Variant
    var phases: seq<Phase>
    var currentPhase: Option<Phase>
    var calls: seq<Call>

    ghost predicate Valid()
      reads this
    {
      Distinct(variant, phases)
    }

    function State(): GameState
      reads this
    {
      GameState(phases, currentPhase, calls)
    }

    constructor (variant: Variant)
      ensures Valid() && this.variant == variant
      ensures phases == [] && currentPhase == None && calls == []
    {
      this.variant := variant;
      phases := [];
      currentPhase := None;
      calls := [];
    }

    method RegisterPhase(cls: PhaseClass) returns (r: Outcome<GameError>)
      requires Valid()
      modifies this
      ensures Valid()
      ensures r == RegisterCheck(variant, old(phases), cls)
      ensures phases == Register(variant, old(phases), cls)
      ensures currentPhase == old(currentPhase) && calls == old(calls)
    {
      var phaseInstance := Instantiate(cls);
      if !cls.extendsPhase {
        return Fail(NotAPhase);
      }
      if variant == Common && (phaseInstance.name.None? || phaseInstance.name.value == "") {
        return Fail(MissingName);
      }
      var i := 0;
      while i < |phases|
        invariant 0 <= i <= |phases|
        invariant forall j :: 0 <= j < i ==> !SameKey(variant, phases[j], phaseInstance)
      {
        if SameKey(variant, phases[i], phaseInstance) {
          return Fail(AlreadyRegistered);
        }
        i := i + 1;
      }
      RegisterKeepsDistinct(variant, phases, cls);
      phases := phases + [phaseInstance];
      r := Pass;
    }

    method RegisterPhases(classes: seq<PhaseClass>) returns (r: Outcome<GameError>)
      requires Valid()
      modifies this
      ensures Valid()
      ensures (phases, r) == RegisterAll(variant, old(phases), classes)
      ensures currentPhase == old(currentPhase) && calls == old(calls)
    {
      var i := 0;
      while i < |classes|
        invariant 0 <= i <= |classes|
        invariant Valid()
        invariant RegisterAll(variant, old(phases), classes) == RegisterAll(variant, phases, classes[i..])
        invariant currentPhase == old(currentPhase) && calls == old(calls)
      {
        assert classes[i..][1..] == classes[i + 1..];
        r := RegisterPhase(classes[i]);
        if r.Fail? {
          return;
        }
        i := i + 1;
      }
      r := Pass;
    }

    method GoToPhase(target: Option<Phase>, data: seq<Value>) returns (r: Outcome<GameError>)
      requires Valid()
      modifies this
      ensures Valid()
      ensures (State(), r) == GoTo(old(State()), target, data)
    {
      ghost var expected := GoTo(State(), target, data);
      if currentPhase.Some? {
        calls := calls + [Ended(currentPhase.value)];
      }
      assert calls == old(calls) + (if old(currentPhase).Some? then [Ended(old(currentPhase).value)] else []);
      currentPhase := target;
      if currentPhase.None? {
        assert calls == expected.0.calls;
        return Fail(StartOfUndefined);
      }
      calls := calls + [Started(currentPhase.value, data)];
      r := Pass;
    }

    method GoToPhaseByName(n: string, data: seq<Value>) returns (r: Outcome<GameError>)
      requires Valid()
      modifies this
      ensures Valid()
      ensures (State(), r) == GoToByName(variant, old(State()), n, data)
    {
      var targetPhase := FindByName(variant, phases, n);
      if variant == Typed && targetPhase.None? {
        return Fail(UnknownPhase);
      }
      r := GoToPhase(targetPhase, data);
    }

    method Start(data: seq<Value>) returns (r: Outcome<GameError>)
      requires Valid()
      modifies this
      ensures Valid()
      ensures (State(), r) == StartGame(variant, old(State()), data)
    {
      var first := if phases == [] then None else Some(phases[0]);
      r := GoToPhase(first, if variant == Typed then data else []);
    }
  }
}
