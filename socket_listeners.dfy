/** Socket listener bookkeeping, in its two versions:
    - src/common/lib/decorators/withSocketListeners.ts: the `@socketEvent`
      method decorator fills a per-class `socketEvents` table, and the
      `withSocketListeners` class decorator adds `attachSocketEvent`, which
      walks the whole constructor chain and records every handler it
      registers in the instance constructor's own `socketHandlers` table,
      and `removeSocketEvent`, which unregisters every recorded handler;
    - src/common/lib/withSocketListeners.ts: the older mixin, whose
      `attachSocketEvent` registers the constructor's `socketEvents` and
      records nothing.
    Classes, methods and instances are identities. Every function value the
    code creates (a `bind`, a wrapper closure) gets a fresh serial number. */
module SocketListeners {
  import opened Wrappers

  type ClassId = nat
  type MethodId = nat

  /** A listener function: `method.bind(instance)`, wrapped with `socket` by
      `socketCallbackWrapper` in the decorator version. */
  datatype Fn = Fn(serial: nat, callback: MethodId, instance: nat, socket: Option<nat>)

  /** `socketCallbackWrapper(callback, socket)`: the event data goes to the
      callback after the socket. */
  function SocketCallbackWrapper<S, D(!new), R>(callback: (S, D) -> R, socket: S): (w: D -> R)
    ensures forall d :: w(d) == callback(socket, d)
  {
    d => callback(socket, d)
  }

  // ---------------------------------------------------------------------
  // Ordered tables (JavaScript objects enumerated by `for...in`)

  /** `table[key] = value` on an object keyed by method name: a new key goes
      last, an existing one keeps its place. */
  function Put(t: seq<(string, MethodId)>, key: string, value: MethodId): (r: seq<(string, MethodId)>)
    ensures (key, value) in r
    ensures forall i :: 0 <= i < |t| && t[i].0 != key ==> i < |r| && r[i] == t[i]
    ensures |r| == |t| || r == t + [(key, value)]
    ensures (exists i :: 0 <= i < |t| && t[i].0 == key) ==> |r| == |t|
    ensures (forall i :: 0 <= i < |t| ==> t[i].0 != key) ==> r == t + [(key, value)]
  {
    if |t| == 0 then [(key, value)]
    else if t[0].0 == key then [(key, value)] + t[1..]
    else
      var rest := Put(t[1..], key, value);
      assert forall i :: 1 <= i < |t| ==> t[i] == t[1..][i - 1];
      assert (exists i :: 0 <= i < |t| && t[i].0 == key) ==> (exists i :: 0 <= i < |t[1..]| && t[1..][i].0 == key);
      [t[0]] + rest
  }

  /** The `socketEvents` table a class sees: its own, else the nearest
      ancestor's (ordinary inherited lookup of a static property). */
  function Level(events: map<ClassId, seq<(string, MethodId)>>, chain: seq<ClassId>, k: nat): (r: seq<(string, MethodId)>)
    ensures k < |chain| && chain[k] in events ==> r == events[chain[k]]
    ensures r != [] ==> exists j :: k <= j < |chain| && chain[j] in events && r == events[chain[j]]
    decreases |chain| - k
  {
    if k >= |chain| then []
    else if chain[k] in events then events[chain[k]]
    else Level(events, chain, k + 1)
  }

  /** Everything the decorator's `attachSocketEvent` registers when it has
      visited the first `n` classes of the chain, in order. Inherited tables
      are visited once per class that inherits them. */
  function Regs(events: map<ClassId, seq<(string, MethodId)>>, chain: seq<ClassId>, n: nat): (r: seq<(string, MethodId)>)
    ensures forall j, x :: 0 <= j < n && x in Level(events, chain, j) ==> x in r
  {
    if n == 0 then [] else Regs(events, chain, n - 1) + Level(events, chain, n - 1)
  }

  /** The socket listeners created for `regs`, serials counting up from `s`. */
  function Listen(regs: seq<(string, MethodId)>, s: nat, instance: nat, socket: Option<nat>): (r: seq<(string, Fn)>)
    ensures |r| == |regs|
    ensures forall i :: 0 <= i < |regs| ==> r[i] == (regs[i].0, Fn(s + i, regs[i].1, instance, socket))
  {
    seq(|regs|, i requires 0 <= i < |regs| => (regs[i].0, Fn(s + i, regs[i].1, instance, socket)))
  }

  /** `socketHandlers[event].push(handler)`, creating the entry on first use. */
  function Push(t: seq<(string, seq<Fn>)>, event: string, f: Fn): (r: seq<(string, seq<Fn>)>)
    ensures Count(r) == Count(t) + 1
  {
    if |t| == 0 then [(event, [f])]
    else if t[0].0 == event then [(event, t[0].1 + [f])] + t[1..]
    else [t[0]] + Push(t[1..], event, f)
  }

  /** A push keeps every recorded handler and adds the new one. */
  lemma {:induction false} PushFlat(t: seq<(string, seq<Fn>)>, event: string, f: Fn)
    ensures (event, f) in Flat(Push(t, event, f))
    ensures forall x :: x in Flat(t) ==> x in Flat(Push(t, event, f))
  {
    if |t| == 0 {
      assert Flat(Push(t, event, f)) == Pairs(event, [f]) + Flat([]);
      assert Pairs(event, [f])[0] == (event, f);
    } else if t[0].0 == event {
      assert Flat(t) == Pairs(t[0].0, t[0].1) + Flat(t[1..]);
      assert Pairs(event, t[0].1 + [f]) == Pairs(event, t[0].1) + [(event, f)];
      assert Flat(Push(t, event, f)) == Pairs(event, t[0].1 + [f]) + Flat(t[1..]);
    } else {
      PushFlat(t[1..], event, f);
      assert Flat(Push(t, event, f)) == Pairs(t[0].0, t[0].1) + Flat(Push(t[1..], event, f));
    }
  }

  /** The recording loop: every listener pushed under its event. */
  function Record(t: seq<(string, seq<Fn>)>, ls: seq<(string, Fn)>): (r: seq<(string, seq<Fn>)>)
    ensures forall x :: x in Flat(t) ==> x in Flat(r)
  {
    if |ls| == 0 then t
    else
      var before := Record(t, ls[..|ls| - 1]);
      PushFlat(before, ls[|ls| - 1].0, ls[|ls| - 1].1);
      Push(before, ls[|ls| - 1].0, ls[|ls| - 1].1)
  }

  /** Recorded handlers in total. */
  function Count(t: seq<(string, seq<Fn>)>): nat {
    if |t| == 0 then 0 else |t[0].1| + Count(t[1..])
  }

  function Pairs(event: string, fs: seq<Fn>): (r: seq<(string, Fn)>)
    ensures |r| == |fs|
    ensures forall i :: 0 <= i < |fs| ==> r[i] == (event, fs[i])
  {
    seq(|fs|, i requires 0 <= i < |fs| => (event, fs[i]))
  }

  /** The `removeListener` calls of `removeSocketEvent`, in order. */
  function Flat(t: seq<(string, seq<Fn>)>): (r: seq<(string, Fn)>)
    ensures |r| == Count(t)
  {
    if |t| == 0 then [] else Pairs(t[0].0, t[0].1) + Flat(t[1..])
  }

  /** Every listener the loop records is counted: the table grows by exactly
      the number of registrations. */
  lemma {:induction false} RecordCounts(t: seq<(string, seq<Fn>)>, ls: seq<(string, Fn)>)
    ensures Count(Record(t, ls)) == Count(t) + |ls|
  {
    if |ls| > 0 {
      RecordCounts(t, ls[..|ls| - 1]);
    }
  }

  /** Every listener the loop records is among those `removeSocketEvent` removes. */
  lemma {:induction false} RecordedAreRemoved(t: seq<(string, seq<Fn>)>, ls: seq<(string, Fn)>)
    ensures forall i :: 0 <= i < |ls| ==> ls[i] in Flat(Record(t, ls))
  {
    if |ls| > 0 {
      var n := |ls| - 1;
      RecordedAreRemoved(t, ls[..n]);
      PushFlat(Record(t, ls[..n]), ls[n].0, ls[n].1);
      assert forall i :: 0 <= i < n ==> ls[i] == ls[..n][i];
    }
  }

  /** Attaching twice doubles the recorded handlers. */
  lemma AttachTwiceDoublesRecords(t: seq<(string, seq<Fn>)>, regs: seq<(string, MethodId)>, s: nat, instance: nat, socket: Option<nat>)
    ensures Count(Record(Record(t, Listen(regs, s, instance, socket)), Listen(regs, s + |regs|, instance, socket)))
         == Count(t) + 2 * |regs|
  {
    RecordCounts(t, Listen(regs, s, instance, socket));
    RecordCounts(Record(t, Listen(regs, s, instance, socket)), Listen(regs, s + |regs|, instance, socket));
  }

  /** A class without an own `socketEvents` table reads its parent's, so the
      parent's events are registered once more for it: no de-duplication. */
  lemma InheritedTableVisitedAgain(events: map<ClassId, seq<(string, MethodId)>>, chain: seq<ClassId>, k: nat)
    requires k + 1 < |chain| && chain[k] !in events
    ensures Level(events, chain, k) == Level(events, chain, k + 1)
    ensures Regs(events, chain, k + 2) == Regs(events, chain, k) + Level(events, chain, k + 1) + Level(events, chain, k + 1)
  {
  }

  /** The class `withSocketListeners` returns has no own `socketEvents`, so
      for an instance of it the table of the decorated class is read at both
      levels of the chain: every event is registered twice. */
  lemma DecoratedClassRegistersTwice(events: map<ClassId, seq<(string, MethodId)>>, decorated: ClassId, target: ClassId)
    requires decorated !in events && target in events
    ensures Regs(events, [decorated, target], 2) == events[target] + events[target]
  {
    InheritedTableVisitedAgain(events, [decorated, target], 0);
  }

  // ---------------------------------------------------------------------
  // removeListener

  /** `emitter.removeListener(event, f)`: the most recently added matching
      registration goes, or nothing when there is none. */
  function RemoveLast(ls: seq<(string, Fn)>, x: (string, Fn)): (r: seq<(string, Fn)>)
    ensures x !in ls ==> r == ls
    ensures x in ls ==> |r| == |ls| - 1
  {
    if |ls| == 0 then []
    else if ls[|ls| - 1] == x then ls[..|ls| - 1]
    else
      var r := RemoveLast(ls[..|ls| - 1], x) + [ls[|ls| - 1]];
      assert ls == ls[..|ls| - 1] + [ls[|ls| - 1]];
      r
  }

  /** The nested loop of `removeSocketEvent`. */
  function RemoveEach(ls: seq<(string, Fn)>, rs: seq<(string, Fn)>): (r: seq<(string, Fn)>)
    ensures |ls| - |rs| <= |r| <= |ls|
  {
    if |rs| == 0 then ls else RemoveLast(RemoveEach(ls, rs[..|rs| - 1]), rs[|rs| - 1])
  }

  /** The elements of `ls` not listed in `rs`, in order. */
  function Keep(ls: seq<(string, Fn)>, rs: seq<(string, Fn)>): (r: seq<(string, Fn)>)
    ensures |r| <= |ls|
  {
    if |ls| == 0 then []
    else Keep(ls[..|ls| - 1], rs) + (if ls[|ls| - 1] in rs then [] else [ls[|ls| - 1]])
  }

  lemma {:induction false} KeepMembers(ls: seq<(string, Fn)>, rs: seq<(string, Fn)>)
    ensures forall y :: y in Keep(ls, rs) <==> y in ls && y !in rs
  {
    if |ls| > 0 {
      var n := |ls| - 1;
      assert ls == ls[..n] + [ls[n]];
      KeepMembers(ls[..n], rs);
    }
  }

  predicate NoDuplicates(ls: seq<(string, Fn)>) {
    forall i, j :: 0 <= i < j < |ls| ==> ls[i] != ls[j]
  }

  lemma {:induction false} KeepNoDuplicates(ls: seq<(string, Fn)>, rs: seq<(string, Fn)>)
    requires NoDuplicates(ls)
    ensures NoDuplicates(Keep(ls, rs))
  {
    if |ls| > 0 {
      var n := |ls| - 1;
      assert NoDuplicates(ls[..n]);
      KeepNoDuplicates(ls[..n], rs);
      KeepMembers(ls[..n], rs);
      assert ls[n] !in ls[..n];
    }
  }

  lemma {:induction false} RemoveLastUnique(ls: seq<(string, Fn)>, x: (string, Fn))
    requires NoDuplicates(ls)
    ensures RemoveLast(ls, x) == Keep(ls, [x])
  {
    if |ls| > 0 {
      var n := |ls| - 1;
      assert ls == ls[..n] + [ls[n]];
      assert NoDuplicates(ls[..n]);
      if ls[n] == x {
        assert x !in ls[..n];
        KeepAll(ls[..n], [x]);
      } else {
        RemoveLastUnique(ls[..n], x);
      }
    }
  }

  lemma {:induction false} KeepAll(ls: seq<(string, Fn)>, rs: seq<(string, Fn)>)
    requires forall y :: y in ls ==> y !in rs
    ensures Keep(ls, rs) == ls
  {
    if |ls| > 0 {
      var n := |ls| - 1;
      assert ls == ls[..n] + [ls[n]];
      KeepAll(ls[..n], rs);
    }
  }

  lemma {:induction false} KeepKeep(ls: seq<(string, Fn)>, rs: seq<(string, Fn)>, x: (string, Fn))
    ensures Keep(Keep(ls, rs), [x]) == Keep(ls, rs + [x])
  {
    if |ls| > 0 {
      var n := |ls| - 1;
      KeepKeep(ls[..n], rs, x);
      if ls[n] in rs {
        assert Keep(ls, rs) == Keep(ls[..n], rs);
      } else {
        assert Keep(ls, rs) == Keep(ls[..n], rs) + [ls[n]];
        assert Keep(ls, rs)[..|Keep(ls, rs)| - 1] == Keep(ls[..n], rs);
      }
    }
  }

  /** On a socket whose registrations are all distinct functions,
      `removeSocketEvent` removes exactly the recorded ones and keeps the
      others in order. */
  lemma {:induction false} RemoveEachKeeps(ls: seq<(string, Fn)>, rs: seq<(string, Fn)>)
    requires NoDuplicates(ls)
    ensures RemoveEach(ls, rs) == Keep(ls, rs)
  {
    if |rs| == 0 {
      KeepAll(ls, rs);
    } else {
      var n := |rs| - 1;
      var init := rs[..n];
      calc {
        RemoveEach(ls, rs);
        RemoveLast(RemoveEach(ls, init), rs[n]);
        { RemoveEachKeeps(ls, init); }
        RemoveLast(Keep(ls, init), rs[n]);
        { KeepNoDuplicates(ls, init); RemoveLastUnique(Keep(ls, init), rs[n]); }
        Keep(Keep(ls, init), [rs[n]]);
        { KeepKeep(ls, init, rs[n]); }
        Keep(ls, init + [rs[n]]);
        { assert init + [rs[n]] == rs; }
        Keep(ls, rs);
      }
    }
  }

  /** Fresh serials make the listeners of one attach pairwise distinct. */
  lemma ListenNoDuplicates(regs: seq<(string, MethodId)>, s: nat, instance: nat, socket: Option<nat>)
    ensures NoDuplicates(Listen(regs, s, instance, socket))
  {
  }

  /** Attaching to a socket and then removing leaves none of the attached
      listeners, whatever else the table had recorded. */
  lemma AttachThenRemove(t: seq<(string, seq<Fn>)>, regs: seq<(string, MethodId)>, s: nat, instance: nat, socket: Option<nat>)
    ensures RemoveEach(Listen(regs, s, instance, socket), Flat(Record(t, Listen(regs, s, instance, socket)))) == []
  {
    var ls := Listen(regs, s, instance, socket);
    var rs := Flat(Record(t, ls));
    ListenNoDuplicates(regs, s, instance, socket);
    RemoveEachKeeps(ls, rs);
    RecordedAreRemoved(t, ls);
    KeepNone(ls, rs);
  }

  lemma {:induction false} KeepNone(ls: seq<(string, Fn)>, rs: seq<(string, Fn)>)
    requires forall i :: 0 <= i < |ls| ==> ls[i] in rs
    ensures Keep(ls, rs) == []
  {
    if |ls| > 0 {
      KeepNone(ls[..|ls| - 1], rs);
    }
  }

  // ---------------------------------------------------------------------
  // Sockets

  /** The parts of a socket.io socket the code touches. */
  class Socket {
    const id: nat
    var listeners: seq<(string, Fn)>
    var connected: bool

    constructor (id: nat)
      ensures this.id == id && listeners == [] && connected
    {
      this.id := id;
      listeners := [];
      connected := true;
    }

    /** `socket.on(event, f)`. */
    method On(event: string, f: Fn)
      modifies this
      ensures listeners == old(listeners) + [(event, f)] && connected == old(connected)
    {
      listeners := listeners + [(event, f)];
    }

    /** `socket.removeListener(event, f)`. */
    method RemoveListener(event: string, f: Fn)
      modifies this
      ensures listeners == RemoveLast(old(listeners), (event, f)) && connected == old(connected)
    {
      listeners := RemoveLast(listeners, (event, f));
    }

    /** `socket.removeAllListeners()`. */
    method RemoveAllListeners()
      modifies this
      ensures listeners == [] && connected == old(connected)
    {
      listeners := [];
    }

    /** `socket.disconnect(close)`. */
    method Disconnect(close: bool)
      modifies this
      ensures !connected && listeners == old(listeners)
    {
      connected := false;
    }
  }

  // ---------------------------------------------------------------------
  // The classes' static tables

  class Statics {
    /** Own `socketEvents` tables. */
    var socketEvents: map<ClassId, seq<(string, MethodId)>>
    /** Own `socketHandlers` tables. */
    var socketHandlers: map<ClassId, seq<(string, seq<Fn>)>>
    /** The serial of the next function value created. */
    var nextSerial: nat

    constructor ()
      ensures socketEvents == map[] && socketHandlers == map[] && nextSerial == 0
    {
      socketEvents := map[];
      socketHandlers := map[];
      nextSerial := 0;
    }

    /** The class `withSocketListeners(target)` defines, with its static
        `socketHandlers = {}`. */
    method DefineDecoratedClass(c: ClassId)
      modifies this
      ensures socketHandlers == old(socketHandlers)[c := []]
      ensures socketEvents == old(socketEvents) && nextSerial == old(nextSerial)
    {
      socketHandlers := socketHandlers[c := []];
    }

    /** `@socketEvent` on method `key` of class `c`: the class gets an own
        table on first use, then the key maps to the method. */
    method SocketEvent(c: ClassId, key: string, m: MethodId)
      modifies this
      ensures socketEvents == old(socketEvents)[c := Put(if c in old(socketEvents) then old(socketEvents)[c] else [], key, m)]
      ensures socketHandlers == old(socketHandlers) && nextSerial == old(nextSerial)
    {
      var own := if c in socketEvents then socketEvents[c] else [];
      socketEvents := socketEvents[c := Put(own, key, m)];
    }

    /** A fresh function value. */
    method NewFn(m: MethodId, instance: nat, socket: Option<nat>) returns (f: Fn)
      modifies this
      ensures f == Fn(old(nextSerial), m, instance, socket) && nextSerial == old(nextSerial) + 1
      ensures socketEvents == old(socketEvents) && socketHandlers == old(socketHandlers)
    {
      f := Fn(nextSerial, m, instance, socket);
      nextSerial := nextSerial + 1;
    }

    /** One class's turn in the decorator's `attachSocketEvent`: a wrapped,
        bound handler per entry of `level`, registered on the socket and
        pushed under its event onto the instance constructor's `table`. */
    method AttachLevel(level: seq<(string, MethodId)>, table: seq<(string, seq<Fn>)>, instance: nat, socket: Socket)
      returns (table': seq<(string, seq<Fn>)>)
      modifies this, socket
      ensures socket.listeners == old(socket.listeners) + Listen(level, old(nextSerial), instance, Some(socket.id))
      ensures table' == Record(table, Listen(level, old(nextSerial), instance, Some(socket.id)))
      ensures socketEvents == old(socketEvents) && socketHandlers == old(socketHandlers)
      ensures socket.connected == old(socket.connected)
      ensures nextSerial == old(nextSerial) + |level|
    {
      ghost var serial0 := nextSerial;
      ghost var listeners0 := socket.listeners;
      ghost var attached: seq<(string, Fn)> := [];
      table' := table;
      var j := 0;
      while j < |level|
        invariant 0 <= j <= |level|
        invariant socketEvents == old(socketEvents) && socketHandlers == old(socketHandlers)
        invariant socket.connected == old(socket.connected)
        invariant attached == Listen(level[..j], serial0, instance, Some(socket.id))
        invariant table' == Record(table, attached)
        invariant socket.listeners == listeners0 + attached
        invariant nextSerial == serial0 + j
      {
        var (event, m) := level[j];
        var handler := NewFn(m, instance, Some(socket.id));
        socket.On(event, handler);
        table' := Push(table', event, handler);
        ListenSnoc(level, j, serial0, instance, Some(socket.id));
        RecordSnoc(table, attached, (event, handler));
        AppendAssoc(listeners0, attached, [(event, handler)]);
        attached := attached + [(event, handler)];
        j := j + 1;
      }
      assert level[..|level|] == level;
    }

    /** One turn of the decorator's walk up the constructor chain. */
    method AttachClass(events: map<ClassId, seq<(string, MethodId)>>, chain: seq<ClassId>, k: nat, instance: nat, socket: Socket,
                       ghost serial0: nat, ghost listeners0: seq<(string, Fn)>, ghost table0: seq<(string, seq<Fn>)>, table: seq<(string, seq<Fn>)>)
      returns (table': seq<(string, seq<Fn>)>)
      requires k < |chain| && AttachedUpTo(events, chain, k, instance, socket.id, serial0, listeners0, table0, nextSerial, socket.listeners, table)
      modifies this, socket
      ensures AttachedUpTo(events, chain, k + 1, instance, socket.id, serial0, listeners0, table0, nextSerial, socket.listeners, table')
      ensures socketEvents == old(socketEvents) && socketHandlers == old(socketHandlers)
      ensures socket.connected == old(socket.connected)
    {
      var level := Level(events, chain, k);
      ghost var serial := nextSerial;
      ghost var listeners := socket.listeners;
      table' := AttachLevel(level, table, instance, socket);
      AttachedNext(events, chain, k, instance, socket.id, serial0, listeners0, table0, serial, listeners, table, nextSerial, socket.listeners, table');
    }

    /** The decorator's `attachSocketEvent(socket)` on an instance whose
        constructor chain, nearest first, is `chain`. The instance
        constructor's own table is created when missing; the pushes go to it. */
    method Attach(instance: nat, chain: seq<ClassId>, socket: Socket)
      requires |chain| > 0
      modifies this, socket
      ensures socket.listeners == old(socket.listeners) + Listen(Regs(socketEvents, chain, |chain|), old(nextSerial), instance, Some(socket.id))
      ensures socketHandlers == old(socketHandlers)[chain[0] :=
        Record(if chain[0] in old(socketHandlers) then old(socketHandlers)[chain[0]] else [],
               Listen(Regs(socketEvents, chain, |chain|), old(nextSerial), instance, Some(socket.id)))]
      ensures socketEvents == old(socketEvents) && socket.connected == old(socket.connected)
      ensures nextSerial == old(nextSerial) + |Regs(socketEvents, chain, |chain|)|
    {
      var self := chain[0];
      var events := socketEvents;
      var table := if self in socketHandlers then socketHandlers[self] else [];
      ghost var table0 := table;
      ghost var serial0 := nextSerial;
      ghost var listeners0 := socket.listeners;
      assert listeners0 + [] == listeners0;
      var k := 0;
      while k < |chain|
        invariant 0 <= k <= |chain|
        invariant socketEvents == old(socketEvents) && socketHandlers == old(socketHandlers)
        invariant socket.connected == old(socket.connected)
        invariant AttachedUpTo(events, chain, k, instance, socket.id, serial0, listeners0, table0, nextSerial, socket.listeners, table)
      {
        table := AttachClass(events, chain, k, instance, socket, serial0, listeners0, table0, table);
        k := k + 1;
      }
      socketHandlers := socketHandlers[self := table];
    }

    /** The `socketHandlers` table a class sees: its own, else the nearest ancestor's. */
    function Handlers(chain: seq<ClassId>, k: nat): (t: seq<(string, seq<Fn>)>)
      reads this
      decreases |chain| - k
    {
      if k >= |chain| then []
      else if chain[k] in socketHandlers then socketHandlers[chain[k]]
      else Handlers(chain, k + 1)
    }

    /** The decorator's `removeSocketEvent(socket)`: every recorded handler,
        whichever socket it was recorded for, is removed from `socket`. The
        table itself is left as it is. */
    method Remove(chain: seq<ClassId>, socket: Socket)
      modifies socket
      ensures socket.listeners == RemoveEach(old(socket.listeners), Flat(Handlers(chain, 0)))
      ensures socket.connected == old(socket.connected)
    {
      var table := Handlers(chain, 0);
      ghost var listeners0 := socket.listeners;
      var e := 0;
      while e < |table|
        invariant 0 <= e <= |table|
        invariant socket.listeners == RemoveEach(listeners0, Flat(table[..e]))
        invariant socket.connected == old(socket.connected)
      {
        var (event, fs) := table[e];
        RemoveHandlers(event, fs, socket);
        FlatPrefix(table, e);
        RemoveEachAppend(listeners0, Flat(table[..e]), Pairs(event, fs));
        e := e + 1;
      }
      assert table[..|table|] == table;
    }

    /** The inner loop of `removeSocketEvent`: the handlers recorded under one event. */
    method RemoveHandlers(event: string, fs: seq<Fn>, socket: Socket)
      modifies socket
      ensures socket.listeners == RemoveEach(old(socket.listeners), Pairs(event, fs))
      ensures socket.connected == old(socket.connected)
    {
      ghost var removed: seq<(string, Fn)> := [];
      var i := 0;
      while i < |fs|
        invariant 0 <= i <= |fs|
        invariant removed == Pairs(event, fs[..i])
        invariant socket.listeners == RemoveEach(old(socket.listeners), removed)
        invariant socket.connected == old(socket.connected)
      {
        socket.RemoveListener(event, fs[i]);
        PairsSnoc(event, fs, i);
        RemoveEachSnoc(old(socket.listeners), removed, (event, fs[i]));
        removed := removed + [(event, fs[i])];
        i := i + 1;
      }
      assert fs[..|fs|] == fs;
    }

    /** The older mixin's `attachSocketEvent(socket)`: one listener per key of
        the `socketEvents` table the instance constructor sees, the method
        bound to the instance; nothing is recorded. */
    method PlainAttach(instance: nat, chain: seq<ClassId>, socket: Socket)
      modifies this, socket
      ensures socket.listeners == old(socket.listeners) + Listen(Level(socketEvents, chain, 0), old(nextSerial), instance, None)
      ensures nextSerial == old(nextSerial) + |Level(socketEvents, chain, 0)|
      ensures socketEvents == old(socketEvents) && socketHandlers == old(socketHandlers)
      ensures socket.connected == old(socket.connected)
    {
      var table := Level(socketEvents, chain, 0);
      ghost var serial0 := nextSerial;
      ghost var listeners0 := socket.listeners;
      var j := 0;
      while j < |table|
        invariant 0 <= j <= |table|
        invariant socketEvents == old(socketEvents) && socketHandlers == old(socketHandlers)
        invariant socket.connected == old(socket.connected)
        invariant socket.listeners == listeners0 + Listen(table[..j], serial0, instance, None)
        invariant nextSerial == serial0 + j
      {
        var (event, m) := table[j];
        var bound := NewFn(m, instance, None);
        socket.On(event, bound);
        assert table[..j + 1][..j] == table[..j];
        j := j + 1;
      }
      assert table[..|table|] == table;
    }
  }

  /** The listeners of one more class continue the serials where the earlier ones stopped. */
  lemma ListenAppend(a: seq<(string, MethodId)>, b: seq<(string, MethodId)>, s: nat, s': nat, instance: nat, socket: Option<nat>)
    requires s' == s + |a|
    ensures Listen(a + b, s, instance, socket) == Listen(a, s, instance, socket) + Listen(b, s', instance, socket)
  {
  }

  lemma RegsNext(events: map<ClassId, seq<(string, MethodId)>>, chain: seq<ClassId>, k: nat)
    requires k < |chain|
    ensures Regs(events, chain, k + 1) == Regs(events, chain, k) + Level(events, chain, k)
  {
  }

  /** What the decorator's `attachSocketEvent` has done once it has visited
      the first `k` classes of `chain`, starting from serial `serial0`, the
      socket's `listeners0` and the instance constructor's `table0`: the
      socket has `listeners`, the table is `table`, the next serial is `serial`. */
  ghost predicate AttachedUpTo(events: map<ClassId, seq<(string, MethodId)>>, chain: seq<ClassId>, k: nat, instance: nat, socket: nat,
                               serial0: nat, listeners0: seq<(string, Fn)>, table0: seq<(string, seq<Fn>)>,
                               serial: nat, listeners: seq<(string, Fn)>, table: seq<(string, seq<Fn>)>)
  {
    var attached := Listen(Regs(events, chain, k), serial0, instance, Some(socket));
    && listeners == listeners0 + attached
    && table == Record(table0, attached)
    && serial == serial0 + |attached|
  }

  /** Attaching the next class's level keeps `AttachedUpTo` one class further. */
  lemma AttachedNext(events: map<ClassId, seq<(string, MethodId)>>, chain: seq<ClassId>, k: nat, instance: nat, socket: nat,
                     serial0: nat, listeners0: seq<(string, Fn)>, table0: seq<(string, seq<Fn>)>,
                     serial: nat, listeners: seq<(string, Fn)>, table: seq<(string, seq<Fn>)>,
                     serial': nat, listeners': seq<(string, Fn)>, table': seq<(string, seq<Fn>)>)
    requires k < |chain| && AttachedUpTo(events, chain, k, instance, socket, serial0, listeners0, table0, serial, listeners, table)
    requires listeners' == listeners + Listen(Level(events, chain, k), serial, instance, Some(socket))
    requires table' == Record(table, Listen(Level(events, chain, k), serial, instance, Some(socket)))
    requires serial' == serial + |Level(events, chain, k)|
    ensures AttachedUpTo(events, chain, k + 1, instance, socket, serial0, listeners0, table0, serial', listeners', table')
  {
    var visited := Regs(events, chain, k);
    var level := Level(events, chain, k);
    var attached := Listen(visited, serial0, instance, Some(socket));
    var more := Listen(level, serial, instance, Some(socket));
    RegsNext(events, chain, k);
    ListenAppend(visited, level, serial0, serial, instance, Some(socket));
    RecordAppend(table0, attached, more);
    AppendAssoc(listeners0, attached, more);
  }

  lemma ListenSnoc(regs: seq<(string, MethodId)>, n: nat, s: nat, instance: nat, socket: Option<nat>)
    requires n < |regs|
    ensures Listen(regs[..n + 1], s, instance, socket) == Listen(regs[..n], s, instance, socket) + [(regs[n].0, Fn(s + n, regs[n].1, instance, socket))]
  {
  }

  lemma RecordSnoc(t: seq<(string, seq<Fn>)>, ls: seq<(string, Fn)>, x: (string, Fn))
    ensures Record(t, ls + [x]) == Push(Record(t, ls), x.0, x.1)
  {
    assert (ls + [x])[..|ls|] == ls;
  }

  lemma PairsSnoc(event: string, fs: seq<Fn>, n: nat)
    requires n < |fs|
    ensures Pairs(event, fs[..n + 1]) == Pairs(event, fs[..n]) + [(event, fs[n])]
  {
  }

  lemma RemoveEachSnoc(ls: seq<(string, Fn)>, rs: seq<(string, Fn)>, x: (string, Fn))
    ensures RemoveEach(ls, rs + [x]) == RemoveLast(RemoveEach(ls, rs), x)
  {
    assert (rs + [x])[..|rs|] == rs;
  }

  lemma {:induction false} RecordAppend(t: seq<(string, seq<Fn>)>, a: seq<(string, Fn)>, b: seq<(string, Fn)>)
    ensures Record(t, a + b) == Record(Record(t, a), b)
  {
    if |b| > 0 {
      var n := |b| - 1;
      assert (a + b)[..|a + b| - 1] == a + b[..n];
      RecordAppend(t, a, b[..n]);
    } else {
      assert a + b == a;
    }
  }

  lemma {:induction false} RemoveEachAppend(ls: seq<(string, Fn)>, a: seq<(string, Fn)>, b: seq<(string, Fn)>)
    ensures RemoveEach(ls, a + b) == RemoveEach(RemoveEach(ls, a), b)
  {
    if |b| > 0 {
      var n := |b| - 1;
      assert (a + b)[..|a + b| - 1] == a + b[..n];
      RemoveEachAppend(ls, a, b[..n]);
    } else {
      assert a + b == a;
    }
  }

  lemma FlatPrefix(t: seq<(string, seq<Fn>)>, e: nat)
    requires e < |t|
    ensures Flat(t[..e + 1]) == Flat(t[..e]) + Pairs(t[e].0, t[e].1)
  {
    FlatAppend(t[..e], t[e]);
    assert t[..e + 1] == t[..e] + [t[e]];
  }

  lemma {:induction false} FlatAppend(t: seq<(string, seq<Fn>)>, x: (string, seq<Fn>))
    ensures Flat(t + [x]) == Flat(t) + Pairs(x.0, x.1)
  {
    if |t| == 0 {
      assert t + [x] == [x];
      assert [x][1..] == [];
    } else {
      assert (t + [x])[1..] == t[1..] + [x];
      FlatAppend(t[1..], x);
    }
  }

  /** The older mixin registers the same keys again on every call: attaching
      twice lists each event twice, in table order. */
  lemma PlainAttachTwiceDuplicates(table: seq<(string, MethodId)>, s: nat, instance: nat)
    ensures |Listen(table, s, instance, None) + Listen(table, s + |table|, instance, None)| == 2 * |table|
    ensures forall i :: 0 <= i < |table| ==>
      (Listen(table, s, instance, None) + Listen(table, s + |table|, instance, None))[i].0 == table[i].0 &&
      (Listen(table, s, instance, None) + Listen(table, s + |table|, instance, None))[|table| + i].0 == table[i].0
  {
    var first: seq<(string, Fn)> := Listen(table, s, instance, None);
    var second: seq<(string, Fn)> := Listen(table, s + |table|, instance, None);
    forall i: int | 0 <= i < |table|
      ensures (first + second)[i].0 == table[i].0 && (first + second)[|table| + i].0 == table[i].0
    {
      assert (first + second)[i] == first[i];
      assert (first + second)[|table| + i] == second[i];
    }
  }
}
