/** The identifier source of src/common/lib/decorators/withUniqId.ts: a
    millisecond counter that follows the clock but never repeats or goes
    back, and the decorator that stamps every new instance with the counter's
    next value written in base 36. Clock readings are parameters. */
module UniqId {

  // ---------------------------------------------------------------------
  // getLastIdTime

  /** The counter's next value, from its last value and the clock. */
  function NextIdTime(last: nat, now: nat): (r: nat)
    ensures r > last && r >= now
    ensures r == now || r == last + 1
  {
    if now > last then now else last + 1
  }

  /** A clock that is strictly ahead is followed exactly. */
  lemma FollowsClockAhead(last: nat, now: nat)
    requires now > last
    ensures NextIdTime(last, now) == now
  {
  }

  /** A clock that stalls or goes back is overtaken by one. */
  lemma StallsByOne(last: nat, now: nat)
    requires now <= last
    ensures NextIdTime(last, now) == last + 1
  {
  }

  /** The values of successive calls, one clock reading per call. */
  function IdTimes(last: nat, clock: seq<nat>): (r: seq<nat>)
    ensures |r| == |clock|
  {
    if clock == [] then []
    else
      var before := IdTimes(last, clock[..|clock| - 1]);
      var prev := if before == [] then last else before[|before| - 1];
      before + [NextIdTime(prev, clock[|clock| - 1])]
  }

  /** Every value of a run of calls is above the initial value and at least
      its own clock reading, and the values strictly increase. */
  lemma {:induction false} IdTimesIncrease(last: nat, clock: seq<nat>)
    ensures forall i :: 0 <= i < |clock| ==> IdTimes(last, clock)[i] > last
    ensures forall i :: 0 <= i < |clock| ==> IdTimes(last, clock)[i] >= clock[i]
    ensures forall i, j :: 0 <= i < j < |clock| ==> IdTimes(last, clock)[i] < IdTimes(last, clock)[j]
  {
    if clock != [] {
      var n := |clock| - 1;
      IdTimesIncrease(last, clock[..n]);
      var before := IdTimes(last, clock[..n]);
      assert IdTimes(last, clock) == before + [NextIdTime(if before == [] then last else before[|before| - 1], clock[n])];
    }
  }

  /** The closure around `lastIdTime`, seeded with the clock when the module loads. */
  class IdClock {
    var lastIdTime: nat

    constructor (now: nat)
      ensures lastIdTime == now
    {
      lastIdTime := now;
    }

    /** `getLastIdTime()`. */
    method Next(now: nat) returns (id: nat)
      modifies this
      ensures id == NextIdTime(old(lastIdTime), now) && lastIdTime == id
    {
      lastIdTime := if now > lastIdTime then now else lastIdTime + 1;
      id := lastIdTime;
    }

    /** Successive calls, one per clock reading. */
    method NextAll(clock: seq<nat>) returns (ids: seq<nat>)
      modifies this
      ensures ids == IdTimes(old(lastIdTime), clock)
      ensures lastIdTime == if ids == [] then old(lastIdTime) else ids[|ids| - 1]
    {
      ids := [];
      var i := 0;
      while i < |clock|
        invariant 0 <= i <= |clock|
        invariant ids == IdTimes(old(lastIdTime), clock[..i])
        invariant lastIdTime == if ids == [] then old(lastIdTime) else ids[|ids| - 1]
      {
        assert clock[..i + 1][..i] == clock[..i];
        var id := Next(clock[i]);
        ids := ids + [id];
        i := i + 1;
      }
      assert clock[..|clock|] == clock;
    }
  }

  // ---------------------------------------------------------------------
  // Number.prototype.toString(36)

  /** The characters `toString(36)` uses: digits, then lower-case letters. */
  predicate IsDigit36(c: char) {
    '0' <= c <= '9' || 'a' <= c <= 'z'
  }

  function Digit(d: nat): (c: char)
    requires d < 36
    ensures IsDigit36(c)
    ensures d < 10 <==> '0' <= c <= '9'
  {
    if d < 10 then ('0' as int + d) as char else ('a' as int + (d - 10)) as char
  }

  function DigitValue(c: char): (d: nat)
    ensures d < 36
  {
    if '0' <= c <= '9' then (c as int) - ('0' as int)
    else if 'a' <= c <= 'z' then (c as int) - ('a' as int) + 10
    else 0
  }

  lemma DigitRoundTrip(d: nat)
    requires d < 36
    ensures DigitValue(Digit(d)) == d
  {
  }

  /** A non-negative integer written in base 36 with lower-case digits:
      non-empty, and without a leading zero unless it is zero. */
  function ToBase36(n: nat): (s: string)
    ensures |s| >= 1 && (n > 0 ==> s[0] != '0')
    ensures forall i :: 0 <= i < |s| ==> IsDigit36(s[i])
  {
    if n < 36 then [Digit(n)] else ToBase36(n / 36) + [Digit(n % 36)]
  }

  /** Reading a base-36 numeral back. */
  function FromBase36(s: string): nat {
    if s == [] then 0 else FromBase36(s[..|s| - 1]) * 36 + DigitValue(s[|s| - 1])
  }

  lemma {:induction false} Base36RoundTrip(n: nat)
    ensures FromBase36(ToBase36(n)) == n
  {
    if n < 36 {
      DigitRoundTrip(n);
      assert [Digit(n)][..0] == [];
    } else {
      var s := ToBase36(n / 36) + [Digit(n % 36)];
      assert s[..|s| - 1] == ToBase36(n / 36);
      Base36RoundTrip(n / 36);
      DigitRoundTrip(n % 36);
    }
  }

  /** Distinct numbers have distinct renderings. */
  lemma Base36Injective(m: nat, n: nat)
    requires m != n
    ensures ToBase36(m) != ToBase36(n)
  {
    Base36RoundTrip(m);
    Base36RoundTrip(n);
  }

  // ---------------------------------------------------------------------
  // withUniqId

  /** An instance of a class decorated with `withUniqId`. `uniqId` may have
      been set by the wrapped constructor; the decorator sets it afterwards. */
  class Instance {
    var uniqId: string

    constructor (clock: IdClock, now: nat, setBySuper: string)
      modifies clock
      ensures uniqId == ToBase36(NextIdTime(old(clock.lastIdTime), now))
      ensures clock.lastIdTime == NextIdTime(old(clock.lastIdTime), now)
    {
      uniqId := setBySuper;
      var t := clock.Next(now);
      uniqId := ToBase36(t);
    }
  }

  /** The ids a run of constructions receives. */
  function UniqIds(last: nat, clock: seq<nat>): (r: seq<string>)
    ensures |r| == |clock|
  {
    var times := IdTimes(last, clock);
    seq(|clock|, i requires 0 <= i < |clock| => ToBase36(times[i]))
  }

  /** Every instance gets an id distinct from all earlier ones, whatever the
      clock does. */
  lemma UniqIdsDistinct(last: nat, clock: seq<nat>)
    ensures forall i, j :: 0 <= i < j < |clock| ==> UniqIds(last, clock)[i] != UniqIds(last, clock)[j]
  {
    IdTimesIncrease(last, clock);
    forall i, j | 0 <= i < j < |clock|
      ensures UniqIds(last, clock)[i] != UniqIds(last, clock)[j]
    {
      Base36Injective(IdTimes(last, clock)[i], IdTimes(last, clock)[j]);
    }
  }
}
