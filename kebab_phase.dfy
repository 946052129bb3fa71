/** The phase of the first-generation browser library (src/Phase.js, and its
    typed twin src/client/lib/Phase.ts): the container carries a kebab-case
    form of the phase's class name while the phase runs, and the click
    handler bound once in the constructor is the one added and removed. */
module KebabPhase {
  import opened JsValues
  import opened Dom

  predicate IsUpper(c: char) { 'A' <= c <= 'Z' }

  predicate NoUpper(s: string) { forall i :: 0 <= i < |s| ==> !IsUpper(s[i]) }

  /** `toLowerCase` on the characters the pattern can capture (A-Z). */
  function Lower(c: char): (d: char)
    ensures !IsUpper(d)
    ensures IsUpper(c) ==> d as int == c as int + 32
    ensures !IsUpper(c) ==> d == c
  {
    if IsUpper(c) then (c as int + 32) as char else c
  }

  function LowerAll(s: string): (r: string)
    ensures |r| == |s| && NoUpper(r)
    ensures forall i :: 0 <= i < |s| ==> r[i] == Lower(s[i])
  {
    if s == [] then [] else [Lower(s[0])] + LowerAll(s[1..])
  }

  /** Length of the maximal run of capitals at the front of `s`. */
  function UpperRun(s: string): (n: nat)
    ensures n <= |s|
    ensures forall i :: 0 <= i < n ==> IsUpper(s[i])
    ensures n < |s| ==> !IsUpper(s[n])
  {
    if s != [] && IsUpper(s[0]) then 1 + UpperRun(s[1..]) else 0
  }

  /** `replace(/\.?([A-Z]+)/g, (x, y) => '-' + y.toLowerCase())`, scanning left
      to right: each maximal run of capitals, together with one dot right
      before it, becomes a hyphen and the run in lower case; a dot that no
      capital follows is kept. */
  function Hyphenate(s: string): (r: string)
    ensures |s| <= |r|
    decreases |s|
  {
    if s == [] then []
    else if IsUpper(s[0]) then
      var n := UpperRun(s);
      "-" + LowerAll(s[..n]) + Hyphenate(s[n..])
    else if s[0] == '.' && |s| > 1 && IsUpper(s[1]) then
      var n := UpperRun(s[1..]);
      "-" + LowerAll(s[1..1 + n]) + Hyphenate(s[1 + n..])
    else
      [s[0]] + Hyphenate(s[1..])
  }

  /** `getClassName`: the hyphenated constructor name with one leading hyphen removed. */
  function ClassName(constructorName: string): (r: string)
    ensures |constructorName| - 1 <= |r|
  {
    var h := Hyphenate(constructorName);
    if |h| > 0 && h[0] == '-' then h[1..] else h
  }

  lemma {:induction false} HyphenateHasNoUpper(s: string)
    ensures NoUpper(Hyphenate(s))
    decreases |s|
  {
    if s == [] {
    } else if IsUpper(s[0]) {
      var n := UpperRun(s);
      HyphenateHasNoUpper(s[n..]);
      NoUpperCapitalStep(s);
    } else if s[0] == '.' && |s| > 1 && IsUpper(s[1]) {
      var n := UpperRun(s[1..]);
      HyphenateHasNoUpper(s[1 + n..]);
      NoUpperDotStep(s);
    } else {
      HyphenateHasNoUpper(s[1..]);
      NoUpperPlainStep(s);
    }
  }

  lemma NoUpperCapitalStep(s: string)
    requires s != [] && IsUpper(s[0]) && NoUpper(Hyphenate(s[UpperRun(s)..]))
    ensures NoUpper(Hyphenate(s))
  {
    var n := UpperRun(s);
    var run, rest := LowerAll(s[..n]), Hyphenate(s[n..]);
    assert Hyphenate(s) == "-" + run + rest;
    NoUpperAppend("-", run);
    NoUpperAppend("-" + run, rest);
  }

  lemma NoUpperDotStep(s: string)
    requires |s| > 1 && s[0] == '.' && IsUpper(s[1]) && NoUpper(Hyphenate(s[1 + UpperRun(s[1..])..]))
    ensures NoUpper(Hyphenate(s))
  {
    var n := UpperRun(s[1..]);
    var run, rest := LowerAll(s[1..1 + n]), Hyphenate(s[1 + n..]);
    assert Hyphenate(s) == "-" + run + rest;
    NoUpperAppend("-", run);
    NoUpperAppend("-" + run, rest);
  }

  lemma NoUpperPlainStep(s: string)
    requires s != [] && !IsUpper(s[0]) && !(s[0] == '.' && |s| > 1 && IsUpper(s[1])) && NoUpper(Hyphenate(s[1..]))
    ensures NoUpper(Hyphenate(s))
  {
    assert Hyphenate(s) == [s[0]] + Hyphenate(s[1..]);
    NoUpperAppend([s[0]], Hyphenate(s[1..]));
  }

  lemma NoUpperAppend(a: string, b: string)
    requires NoUpper(a) && NoUpper(b)
    ensures NoUpper(a + b)
  {
    assert forall i :: 0 <= i < |a + b| ==> (a + b)[i] == if i < |a| then a[i] else b[i - |a|];
  }

  /** The class name put on the container never contains a capital letter. */
  lemma ClassNameHasNoUpper(constructorName: string)
    ensures NoUpper(ClassName(constructorName))
  {
    HyphenateHasNoUpper(constructorName);
  }

  lemma {:induction false} HyphenateKeepsLowercase(s: string)
    requires NoUpper(s)
    ensures Hyphenate(s) == s
    decreases |s|
  {
    if s != [] {
      assert !IsUpper(s[0]);
      assert !(|s| > 1 && IsUpper(s[1]));
      HyphenateKeepsLowercase(s[1..]);
    }
  }

  /** A name without capitals comes back as it is, less one leading hyphen. */
  lemma ClassNameOfLowercase(constructorName: string)
    requires NoUpper(constructorName)
    ensures ClassName(constructorName) ==
      if |constructorName| > 0 && constructorName[0] == '-' then constructorName[1..] else constructorName
  {
    HyphenateKeepsLowercase(constructorName);
  }

  lemma UpperRunOne(c: char, rest: string)
    requires IsUpper(c) && (rest == [] || !IsUpper(rest[0]))
    ensures UpperRun([c] + rest) == 1
  {
    assert ([c] + rest)[1..] == rest;
  }

  /** One capital that no other capital follows. */
  lemma HyphenateCapital(c: char, rest: string)
    requires IsUpper(c) && (rest == [] || !IsUpper(rest[0]))
    ensures Hyphenate([c] + rest) == ['-', Lower(c)] + Hyphenate(rest)
  {
    var s := [c] + rest;
    UpperRunOne(c, rest);
    assert s[..1] == [c] && s[1..] == rest;
    calc {
      Hyphenate(s);
      "-" + LowerAll(s[..1]) + Hyphenate(s[1..]);
      "-" + LowerAll([c]) + Hyphenate(rest);
      { assert LowerAll([c]) == [Lower(c)]; }
      ['-', Lower(c)] + Hyphenate(rest);
    }
  }

  /** A dot right before a capital goes with it: it is dropped. */
  lemma HyphenateSkipsDot(s: string)
    requires |s| > 1 && s[0] == '.' && IsUpper(s[1])
    ensures Hyphenate(s) == Hyphenate(s[1..])
  {
    var n := UpperRun(s[1..]);
    assert s[1..][..n] == s[1..1 + n] && s[1..][n..] == s[1 + n..];
  }

  /** A dot, then one capital that no other capital follows. */
  lemma HyphenateDotCapital(c: char, rest: string)
    requires IsUpper(c) && (rest == [] || !IsUpper(rest[0]))
    ensures Hyphenate(['.', c] + rest) == ['-', Lower(c)] + Hyphenate(rest)
  {
    var s := ['.', c] + rest;
    HyphenateSkipsDot(s);
    assert s[1..] == [c] + rest;
    HyphenateCapital(c, rest);
  }

  /** Lower-case text without dots passes through unchanged. */
  lemma HyphenatePlainHead(s: string)
    requires |s| > 0 && !IsUpper(s[0]) && s[0] != '.'
    ensures Hyphenate(s) == [s[0]] + Hyphenate(s[1..])
  {
  }

  lemma PlainTail(w: string)
    requires |w| > 0 && NoUpper(w) && '.' !in w
    ensures !IsUpper(w[0]) && w[0] != '.' && NoUpper(w[1..]) && '.' !in w[1..]
  {
    assert w[0] in w;
    forall i | 0 <= i < |w[1..]| ensures w[1..][i] != '.' && !IsUpper(w[1..][i]) {
      assert w[1..][i] == w[i + 1];
    }
  }

  lemma {:induction false} HyphenatePlainPrefix(w: string, rest: string)
    requires NoUpper(w) && '.' !in w
    ensures Hyphenate(w + rest) == w + Hyphenate(rest)
    decreases |w|
  {
    if w == [] {
      assert w + rest == rest;
    } else {
      var s := w + rest;
      PlainTail(w);
      assert s[0] == w[0] && s[1..] == w[1..] + rest;
      HyphenatePlainHead(s);
      HyphenatePlainPrefix(w[1..], rest);
      calc {
        Hyphenate(s);
        [w[0]] + Hyphenate(w[1..] + rest);
        [w[0]] + (w[1..] + Hyphenate(rest));
        { assert w == [w[0]] + w[1..]; }
        w + Hyphenate(rest);
      }
    }
  }

  /** A capitalised word: one capital, then lower-case letters. */
  lemma HyphenateWord(c: char, w: string, rest: string)
    requires IsUpper(c) && |w| > 0 && NoUpper(w) && '.' !in w
    ensures Hyphenate([c] + w + rest) == ['-', Lower(c)] + w + Hyphenate(rest)
  {
    assert [c] + w + rest == [c] + (w + rest);
    HyphenateCapital(c, w + rest);
    HyphenatePlainPrefix(w, rest);
  }

  /** A capitalised word: one capital, then at least one character that is
      neither a capital nor a dot. */
  predicate IsWord(w: string) {
    |w| >= 2 && IsUpper(w[0]) && NoUpper(w[1..]) && '.' !in w[1..]
  }

  function Concat(ws: seq<string>): string {
    if ws == [] then [] else ws[0] + Concat(ws[1..])
  }

  /** Each word as a hyphen and the word with its capital lowered. */
  function KebabWords(ws: seq<string>): (r: string)
    requires forall i :: 0 <= i < |ws| ==> IsWord(ws[i])
    ensures ws != [] ==> |r| > 0 && r[0] == '-'
  {
    if ws == [] then []
    else assert IsWord(ws[0]); ['-', Lower(ws[0][0])] + ws[0][1..] + KebabWords(ws[1..])
  }

  lemma {:induction false} HyphenateWords(ws: seq<string>)
    requires forall i :: 0 <= i < |ws| ==> IsWord(ws[i])
    ensures Hyphenate(Concat(ws)) == KebabWords(ws)
  {
    if ws != [] {
      var w := ws[0];
      assert w == [w[0]] + w[1..];
      assert Concat(ws) == [w[0]] + w[1..] + Concat(ws[1..]);
      HyphenateWord(w[0], w[1..], Concat(ws[1..]));
      HyphenateWords(ws[1..]);
    }
  }

  /** A CamelCase name made of capitalised words comes out as those words in
      lower case joined by hyphens. */
  lemma ClassNameOfCamelCase(ws: seq<string>)
    requires |ws| > 0 && forall i :: 0 <= i < |ws| ==> IsWord(ws[i])
    ensures ClassName(Concat(ws)) == KebabWords(ws)[1..]
  {
    HyphenateWords(ws);
  }

  lemma ExampleWords()
    ensures Concat(["My", "Awesome", "Test", "Phase"]) == "MyAwesomeTestPhase"
  {
    assert Concat(["Phase"]) == "Phase";
    assert ["My", "Awesome", "Test", "Phase"][1..] == ["Awesome", "Test", "Phase"];
    assert ["Awesome", "Test", "Phase"][1..] == ["Test", "Phase"];
    assert ["Test", "Phase"][1..] == ["Phase"];
  }

  lemma ExampleKebab()
    ensures KebabWords(["My", "Awesome", "Test", "Phase"]) == "-my-awesome-test-phase"
  {
    assert ["My", "Awesome", "Test", "Phase"][1..] == ["Awesome", "Test", "Phase"];
    assert ["Awesome", "Test", "Phase"][1..] == ["Test", "Phase"];
    assert ["Test", "Phase"][1..] == ["Phase"];
    assert ["Phase"][1..] == [];
  }

  /** The name every phase test uses. */
  lemma ClassNameExample()
    ensures ClassName("MyAwesomeTestPhase") == "my-awesome-test-phase"
  {
    var ws := ["My", "Awesome", "Test", "Phase"];
    ExampleWords();
    ExampleKebab();
    ClassNameOfCamelCase(ws);
  }

  lemma HyphenateLeadingHyphen()
    ensures Hyphenate("-Foo") == "--foo"
  {
    calc {
      Hyphenate("-Foo");
      { assert "-Foo" == "-" + (['F'] + "oo" + ""); }
      Hyphenate("-" + (['F'] + "oo" + ""));
      { HyphenatePlainPrefix("-", ['F'] + "oo" + ""); }
      "-" + Hyphenate(['F'] + "oo" + "");
      { HyphenateWord('F', "oo", ""); }
      "-" + (['-', Lower('F')] + "oo" + "");
      "--foo";
    }
  }

  /** Only one leading hyphen goes: a name that already starts with one keeps a hyphen. */
  lemma ClassNameStripsOneHyphen()
    ensures ClassName("-Foo") == "-foo"
  {
    HyphenateLeadingHyphen();
    assert "--foo"[1..] == "-foo";
  }

  /** A dot before a capital run is swallowed with it. */
  lemma ClassNameSwallowsDot()
    ensures ClassName("A.B") == "a-b"
  {
    assert "A.B" == ['A'] + ".B";
    assert ".B" == ['.', 'B'] + "";
    HyphenateCapital('A', ".B");
    HyphenateDotCapital('B', "");
    assert Hyphenate("A.B") == "-a-b";
  }

  /** The empty `onStart` of the base class, which settles on undefined. */
  function DefaultOnStart(data: seq<Value>): (r: Value)
    ensures !IsFalse(r)
  {
    Undefined
  }

  /** The empty `onEnd` of the base class. */
  function DefaultOnEnd(): (r: Value)
    ensures !IsFalse(r)
  {
    Undefined
  }

  class Phase {
    /** `game.domContainer`. */
    const container: Container
    /** `this.constructor.name`. */
    const constructorName: string
    /** The click event name chosen once when the module loads. */
    const clickEvent: string
    /** Identity of `onClick` as bound in the constructor. */
    const onClick: nat
    const onStart: seq<Value> -> Value
    const onEnd: () -> Value
    var hookCalls: seq<HookCall>

    constructor (container: Container, constructorName: string, clickEvent: string, onClick: nat,
                 onStart: seq<Value> -> Value, onEnd: () -> Value)
      ensures this.container == container && this.constructorName == constructorName
      ensures this.clickEvent == clickEvent && this.onClick == onClick
      ensures this.onStart == onStart && this.onEnd == onEnd
      ensures hookCalls == []
    {
      this.container := container;
      this.constructorName := constructorName;
      this.clickEvent := clickEvent;
      this.onClick := onClick;
      this.onStart := onStart;
      this.onEnd := onEnd;
      hookCalls := [];
    }

    function ClickListener(): Listener {
      Listener(clickEvent, onClick)
    }

    method GetClassName() returns (name: string)
      ensures name == ClassName(constructorName) && NoUpper(name)
    {
      ClassNameHasNoUpper(constructorName);
      name := ClassName(constructorName);
    }

    /** `onStart` is always called; only `false` stops the container from being marked. */
    method Start(data: seq<Value>)
      modifies container, this
      ensures IsFalse(onStart(data)) ==> container.State() == old(container.State())
      ensures !IsFalse(onStart(data)) ==>
        container.State() == Decorate(old(container.State()), ClassName(constructorName), {ClickListener()})
      ensures hookCalls == old(hookCalls) + [OnStartCalled(data)]
    {
      hookCalls := hookCalls + [OnStartCalled(data)];
      if IsFalse(onStart(data)) {
        return;
      }
      container.AddEventListener(ClickListener());
      var name := GetClassName();
      container.AddClass(name);
    }

    /** `end` calls `onEnd` and unmarks the container whatever `onEnd` returns. */
    method End()
      modifies container, this
      ensures container.State() == Undecorate(old(container.State()), ClassName(constructorName), {ClickListener()})
      ensures hookCalls == old(hookCalls) + [OnEndCalled]
    {
      hookCalls := hookCalls + [OnEndCalled];
      var _ := onEnd();
      container.RemoveEventListener(ClickListener());
      var name := GetClassName();
      container.RemoveClass(name);
    }
  }

  /** Because the handler is bound once, an end after a start that went
      through removes exactly the listener and class the start added. */
  lemma StartThenEndRestores(st: ContainerState, constructorName: string, l: Listener)
    requires ClassName(constructorName) !in st.classes && l !in st.listeners
    ensures Undecorate(Decorate(st, ClassName(constructorName), {l}), ClassName(constructorName), {l}) == st
  {
    UndecorateUndoesDecorate(st, ClassName(constructorName), {l});
  }
}
