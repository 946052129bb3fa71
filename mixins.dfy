/** `applyMixins` of src/common/utils/applyMixins.ts: copy the own properties
    of each base prototype into the derived prototype, bases in list order and
    names in own-property order, skipping every name the derived prototype
    already owns at that moment. */
module Mixins {
  import opened Wrappers
  import opened JsValues

  /** A base prototype as `Object.getOwnPropertyNames` lists it, with values.
      It is only read. */
  datatype BaseProto = BaseProto(own: seq<(string, Value)>)

  // ---------------------------------------------------------------------
  // The loops' specification

  /** The derived properties after the inner loop has visited `props`. */
  function MergeOne(m: map<string, Value>, props: seq<(string, Value)>): (r: map<string, Value>)
    ensures m.Keys <= r.Keys
  {
    if props == [] then m
    else
      var before := MergeOne(m, props[..|props| - 1]);
      var (name, value) := props[|props| - 1];
      if name in before then before else before[name := value]
  }

  /** The derived properties after the outer loop has visited `bases`. */
  function MergeAll(m: map<string, Value>, bases: seq<BaseProto>): (r: map<string, Value>)
    ensures m.Keys <= r.Keys
  {
    if bases == [] then m
    else MergeOne(MergeAll(m, bases[..|bases| - 1]), bases[|bases| - 1].own)
  }

  // ---------------------------------------------------------------------
  // An independent reading: the first provider of a name wins

  function Get(m: map<string, Value>, k: string): (r: Option<Value>)
    ensures r.Some? <==> k in m
  {
    if k in m then Some(m[k]) else None
  }

  function Or(a: Option<Value>, b: Option<Value>): Option<Value> {
    if a.Some? then a else b
  }

  /** The value of the first entry named `k`. */
  function FirstIn(props: seq<(string, Value)>, k: string): (r: Option<Value>)
    ensures r.Some? <==> exists i :: 0 <= i < |props| && props[i].0 == k
  {
    if props == [] then None
    else if props[0].0 == k then Some(props[0].1)
    else
      var r := FirstIn(props[1..], k);
      assert forall i :: 1 <= i < |props| ==> props[i] == props[1..][i - 1];
      r
  }

  /** The value of `k` in the first base, in list order, that has it. */
  function FirstProvider(bases: seq<BaseProto>, k: string): Option<Value> {
    if bases == [] then None else Or(FirstIn(bases[0].own, k), FirstProvider(bases[1..], k))
  }

  lemma {:induction false} FirstInAppend(a: seq<(string, Value)>, x: (string, Value), k: string)
    ensures FirstIn(a + [x], k) == Or(FirstIn(a, k), if x.0 == k then Some(x.1) else None)
  {
    if a == [] {
      assert a + [x] == [x];
      assert [x][1..] == [];
    } else {
      assert (a + [x])[1..] == a[1..] + [x];
      FirstInAppend(a[1..], x, k);
    }
  }

  lemma {:induction false} FirstProviderAppend(bs: seq<BaseProto>, b: BaseProto, k: string)
    ensures FirstProvider(bs + [b], k) == Or(FirstProvider(bs, k), FirstIn(b.own, k))
  {
    if bs == [] {
      assert bs + [b] == [b];
      assert [b][1..] == [];
    } else {
      assert (bs + [b])[1..] == bs[1..] + [b];
      FirstProviderAppend(bs[1..], b, k);
    }
  }

  /** The inner loop keeps what the derived prototype has and otherwise takes
      the base's first entry of that name. */
  lemma {:induction false} MergeOneFirstWins(m: map<string, Value>, props: seq<(string, Value)>, k: string)
    ensures Get(MergeOne(m, props), k) == Or(Get(m, k), FirstIn(props, k))
  {
    if props != [] {
      var n := |props| - 1;
      MergeOneFirstWins(m, props[..n], k);
      assert props == props[..n] + [props[n]];
      FirstInAppend(props[..n], props[n], k);
    }
  }

  /** The whole merge: a name the derived prototype owns keeps its value;
      any other name takes the value of the first base that has it. */
  lemma {:induction false} MergeAllFirstWins(m: map<string, Value>, bases: seq<BaseProto>, k: string)
    ensures Get(MergeAll(m, bases), k) == Or(Get(m, k), FirstProvider(bases, k))
  {
    if bases != [] {
      var n := |bases| - 1;
      MergeAllFirstWins(m, bases[..n], k);
      MergeOneFirstWins(MergeAll(m, bases[..n]), bases[n].own, k);
      assert bases == bases[..n] + [bases[n]];
      FirstProviderAppend(bases[..n], bases[n], k);
    }
  }

  /** A name already owned by the derived prototype, such as its own
      `constructor`, is never overwritten. */
  lemma OwnNeverOverwritten(m: map<string, Value>, bases: seq<BaseProto>, k: string)
    requires k in m
    ensures k in MergeAll(m, bases) && MergeAll(m, bases)[k] == m[k]
  {
    MergeAllFirstWins(m, bases, k);
  }

  /** Every other name of a base is copied, with the value of the first base providing it. */
  lemma BaseNameCopied(m: map<string, Value>, bases: seq<BaseProto>, k: string)
    requires k !in m && FirstProvider(bases, k).Some?
    ensures k in MergeAll(m, bases) && MergeAll(m, bases)[k] == FirstProvider(bases, k).value
  {
    MergeAllFirstWins(m, bases, k);
  }

  /** Nothing that no base provides is added. */
  lemma NothingInvented(m: map<string, Value>, bases: seq<BaseProto>, k: string)
    requires k !in m && FirstProvider(bases, k).None?
    ensures k !in MergeAll(m, bases)
  {
    MergeAllFirstWins(m, bases, k);
  }

  // ---------------------------------------------------------------------
  // The derived prototype

  class Prototype {
    /** Own properties. */
    var props: map<string, Value>

    constructor (props: map<string, Value>)
      ensures this.props == props
    {
      this.props := props;
    }

    function HasOwnProperty(name: string): (r: bool)
      reads this
      ensures r <==> name in props
    {
      name in props
    }
  }

  /** `applyMixins(derived, bases)`. */
  method ApplyMixins(derived: Prototype, bases: seq<BaseProto>)
    modifies derived
    ensures derived.props == MergeAll(old(derived.props), bases)
  {
    var b := 0;
    while b < |bases|
      invariant 0 <= b <= |bases|
      invariant derived.props == MergeAll(old(derived.props), bases[..b])
    {
      var own := bases[b].own;
      assert bases[..b + 1][..b] == bases[..b];
      var k := 0;
      while k < |own|
        invariant 0 <= k <= |own|
        invariant derived.props == MergeOne(MergeAll(old(derived.props), bases[..b]), own[..k])
      {
        var (name, value) := own[k];
        assert own[..k + 1][..k] == own[..k];
        if !derived.HasOwnProperty(name) {
          derived.props := derived.props[name := value];
        }
        k := k + 1;
      }
      assert own[..|own|] == own;
      b := b + 1;
    }
    assert bases[..|bases|] == bases;
  }
}
