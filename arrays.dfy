/** The array helpers of src/common/utils/arrays.ts: a Fisher–Yates shuffle
    on a copy of its input, and the conversion of an index into a row-major
    2-D array. The random draw `random(0, i)` comes from a module outside this
    model and is taken as a parameter. */
module Arrays {
  import opened Wrappers

  // ---------------------------------------------------------------------
  // shuffleArray

  /** What the shuffle needs of its random source: each draw `random(0, i)`
      it makes, for `0 < i < n`, lies in `[0, i]`. */
  predicate RandomInRange(random: (int, int) -> int, n: int) {
    forall i :: 0 < i < n ==> 0 <= random(0, i) <= i
  }

  /** The sequence with the elements at `i` and `j` exchanged. */
  function Swap<T>(s: seq<T>, i: nat, j: nat): (r: seq<T>)
    requires i < |s| && j < |s|
    ensures |r| == |s| && r[i] == s[j] && r[j] == s[i]
    ensures forall k :: 0 <= k < |s| && k != i && k != j ==> r[k] == s[k]
  {
    s[i := s[j]][j := s[i]]
  }

  lemma SwapPermutes<T>(s: seq<T>, i: nat, j: nat)
    requires i < |s| && j < |s|
    ensures multiset(Swap(s, i, j)) == multiset(s)
  {
    assert multiset(s[i := s[j]]) == multiset(s) - multiset{s[i]} + multiset{s[j]};
  }

  /** The swaps the loop still has to do with index `i` counting down to 1. */
  function ShuffleFrom<T>(s: seq<T>, i: int, random: (int, int) -> int): (r: seq<T>)
    requires i < |s| && RandomInRange(random, i + 1)
    ensures |r| == |s|
    decreases i
  {
    if i <= 0 then s
    else ShuffleFrom(Swap(s, i, random(0, i)), i - 1, random)
  }

  lemma ShuffleFromStep<T>(s: seq<T>, i: int, random: (int, int) -> int)
    requires 0 < i < |s| && RandomInRange(random, i + 1)
    ensures ShuffleFrom(s, i, random) == ShuffleFrom(Swap(s, i, random(0, i)), i - 1, random)
  {
  }

  /** The result of `shuffleArray` for a given sequence of draws. */
  function Shuffle<T>(s: seq<T>, random: (int, int) -> int): (r: seq<T>)
    requires RandomInRange(random, |s|)
    ensures |r| == |s|
  {
    ShuffleFrom(s, |s| - 1, random)
  }

  lemma {:induction false} ShuffleFromPermutes<T>(s: seq<T>, i: int, random: (int, int) -> int)
    requires i < |s| && RandomInRange(random, i + 1)
    ensures multiset(ShuffleFrom(s, i, random)) == multiset(s)
    decreases i
  {
    if i > 0 {
      SwapPermutes(s, i, random(0, i));
      ShuffleFromPermutes(Swap(s, i, random(0, i)), i - 1, random);
    }
  }

  /** Only swaps are done, so the shuffle is a permutation of its input. */
  lemma ShufflePermutes<T>(s: seq<T>, random: (int, int) -> int)
    requires RandomInRange(random, |s|)
    ensures |Shuffle(s, random)| == |s|
    ensures multiset(Shuffle(s, random)) == multiset(s)
  {
    ShuffleFromPermutes(s, |s| - 1, random);
  }

  /** The loop body never runs on fewer than two elements. */
  lemma ShuffleShort<T>(s: seq<T>, random: (int, int) -> int)
    requires |s| <= 1 && RandomInRange(random, |s|)
    ensures Shuffle(s, random) == s
  {
  }

  lemma {:induction false} ShuffleFromIdentity<T>(s: seq<T>, i: int, random: (int, int) -> int)
    requires i < |s| && forall k :: 0 < k <= i ==> random(0, k) == k
    ensures ShuffleFrom(s, i, random) == s
    decreases i
  {
    if i > 0 {
      assert Swap(s, i, i) == s;
      ShuffleFromIdentity(s, i - 1, random);
    }
  }

  /** Draws that always pick the current index leave every element in place. */
  lemma ShuffleIdentity<T>(s: seq<T>, random: (int, int) -> int)
    requires forall k :: 0 < k < |s| ==> random(0, k) == k
    ensures RandomInRange(random, |s|)
    ensures Shuffle(s, random) == s
  {
    ShuffleFromIdentity(s, |s| - 1, random);
  }

  /** `shuffleArray`: copy the input, then swap from the last index down to 1. */
  method ShuffleArray<T>(a: array<T>, random: (int, int) -> int) returns (r: array<T>)
    requires RandomInRange(random, a.Length)
    ensures fresh(r) && a[..] == old(a[..])
    ensures r[..] == Shuffle(a[..], random)
  {
    r := new T[a.Length](k requires 0 <= k < a.Length reads a => a[k]);
    assert r[..] == a[..];
    var i := r.Length - 1;
    while i > 0
      invariant -1 <= i < r.Length
      invariant ShuffleFrom(r[..], i, random) == Shuffle(a[..], random)
      decreases i
    {
      var j := random(0, i);
      ghost var before := r[..];
      SwapElements(r, i, j);
      ShuffleFromStep(before, i, random);
      i := i - 1;
    }
  }

  /** One turn of the loop: exchange two elements through a temporary. */
  method SwapElements<T>(r: array<T>, i: nat, j: nat)
    requires i < r.Length && j < r.Length
    modifies r
    ensures r[..] == Swap(old(r[..]), i, j)
  {
    var temp := r[i];
    r[i] := r[j];
    r[j] := temp;
  }

  // ---------------------------------------------------------------------
  // convert1DIndexInto2DIndex

  datatype Cell = Cell(row: int, column: int)

  /** `Math.floor(a / b)` on integers. */
  function FloorDiv(a: int, b: int): (q: int)
    requires b != 0
    ensures b > 0 ==> b * q <= a < b * q + b
    ensures b < 0 ==> b * q + b < a <= b * q
  {
    if b > 0 then a / b else (-a) / (-b)
  }

  /** JavaScript's `a % b`: the remainder of the division truncated toward
      zero, which takes the sign of `a`. */
  function TruncRem(a: int, b: int): (r: int)
    requires b != 0
    ensures a >= 0 ==> 0 <= r < (if b > 0 then b else -b)
    ensures a < 0 ==> -(if b > 0 then b else -b) < r <= 0
  {
    var m := if b > 0 then b else -b;
    if a >= 0 then a % m else -((-a) % m)
  }

  /** `convert1DIndexInto2DIndex`. With a zero column count the source
      yields no usable cell: the column `index % 0` is `NaN` and the row is
      an infinity (or `NaN` for index 0). That case is `None` here. */
  function Convert(index: int, cols: int): (r: Option<Cell>)
    ensures r.None? <==> cols == 0
    ensures r.Some? && index >= 0 && cols > 0 ==>
      r.value.row * cols + r.value.column == index && 0 <= r.value.column < cols && r.value.row >= 0
  {
    if cols == 0 then None
    else
      DivisionIdentity(index, cols);
      Some(Cell(FloorDiv(index, cols), TruncRem(index, cols)))
  }

  lemma DivisionIdentity(index: int, cols: int)
    requires cols != 0
    ensures index >= 0 && cols > 0 ==> FloorDiv(index, cols) * cols + TruncRem(index, cols) == index
    ensures index >= 0 && cols > 0 ==> FloorDiv(index, cols) >= 0
  {
    if index >= 0 && cols > 0 {
      var q, r := index / cols, index % cols;
      assert FloorDiv(index, cols) == q && TruncRem(index, cols) == r;
      assert index == q * cols + r;
      assert q >= 0 by {
        if q < 0 {
          MultipleGap(-q, cols);
          assert false;
        }
      }
    }
  }

  /** The row-major index of a cell. */
  function Flatten(c: Cell, cols: int): int {
    c.row * cols + c.column
  }

  /** The conversion inverts `Flatten` on every cell of a grid with a positive column count. */
  lemma ConvertFlatten(c: Cell, cols: int)
    requires cols > 0 && c.row >= 0 && 0 <= c.column < cols
    ensures Convert(Flatten(c, cols), cols) == Some(c)
  {
    var index := Flatten(c, cols);
    assert index >= 0;
    var r := Convert(index, cols).value;
    assert r.row * cols + r.column == index;
    UniqueDivision(index, cols, r.row, r.column, c.row, c.column);
  }

  lemma UniqueDivision(index: int, cols: int, q1: int, r1: int, q2: int, r2: int)
    requires cols > 0 && 0 <= r1 < cols && 0 <= r2 < cols
    requires q1 * cols + r1 == index && q2 * cols + r2 == index
    ensures q1 == q2 && r1 == r2
  {
    if q1 != q2 {
      var lo, hi := if q1 < q2 then q1 else q2, if q1 < q2 then q2 else q1;
      MultipleGap(hi - lo, cols);
      assert false;
    }
  }

  lemma MultipleGap(d: int, cols: int)
    requires d >= 1 && cols > 0
    ensures d * cols >= cols
  {
    assert d * cols == (d - 1) * cols + cols;
    assert (d - 1) * cols >= 0;
  }

  /** Index 4 in a 3-column grid is row 1, column 1. */
  lemma ConvertExample()
    ensures Convert(4, 3) == Some(Cell(1, 1))
  {
  }

  /** A negative index that is not a multiple of the column count mixes a
      floored row with a truncated column, so the pair points one full row
      before the index. */
  lemma NegativeIndexMixesRounding(index: int, cols: int)
    requires index < 0 && cols > 0 && index % cols != 0
    ensures Flatten(Convert(index, cols).value, cols) == index - cols
  {
    var c := Convert(index, cols).value;
    assert c.row == index / cols;
    assert c.column == -((-index) % cols);
    assert (-index) % cols == cols - index % cols by {
      assert index == (index / cols) * cols + index % cols;
      assert -index == (-(index / cols) - 1) * cols + (cols - index % cols);
      UniqueDivision(-index, cols, (-index) / cols, (-index) % cols, -(index / cols) - 1, cols - index % cols);
    }
  }
}
