/**
 `numpy_sum` of src/postprocess.rs. Its order of additions is described by a tree over the
 indices, so that what the code does is the same for every addition, exact or rounded.
 */
module PairwiseSum {

  datatype Tree = Zero | Leaf(index: nat) | Plus(left: Tree, right: Tree)

  predicate Within(t: Tree, n: nat) {
    match t
    case Zero => true
    case Leaf(i) => i < n
    case Plus(l, r) => Within(l, n) && Within(r, n)
  }

  function Eval<T>(t: Tree, values: seq<T>, add: (T, T) -> T, zero: T): T
    requires Within(t, |values|)
  {
    match t
    case Zero => zero
    case Leaf(i) => values[i]
    case Plus(l, r) => add(Eval(l, values, add, zero), Eval(r, values, add, zero))
  }

  function Depth(t: Tree): nat {
    match t
    case Zero => 0
    case Leaf(_) => 0
    case Plus(l, r) => 1 + if Depth(l) >= Depth(r) then Depth(l) else Depth(r)
  }

  /** How often index i is added. */
  function Uses(t: Tree, i: nat): nat {
    match t
    case Zero => 0
    case Leaf(k) => if k == i then 1 else 0
    case Plus(l, r) => Uses(l, i) + Uses(r, i)
  }

  // ---- The tree of the code ----

  /** Indices lo to lo + n added to t one after the other. */
  function Chain(t: Tree, lo: nat, n: nat): Tree {
    if n == 0 then t else Plus(Chain(t, lo, n - 1), Leaf(lo + n - 1))
  }

  /** Lane j after `chunks` chunks of eight. */
  function Lane(lo: nat, j: nat, chunks: nat): Tree
    requires chunks > 0
  {
    if chunks == 1 then Leaf(lo + j) else Plus(Lane(lo, j, chunks - 1), Leaf(lo + 8 * (chunks - 1) + j))
  }

  /** Four lanes from lane j on. */
  function Four(lo: nat, j: nat, c: nat): Tree
    requires c > 0
  {
    Plus(Plus(Lane(lo, j, c), Lane(lo, j + 1, c)), Plus(Lane(lo, j + 2, c), Lane(lo, j + 3, c)))
  }

  function Eight(lo: nat, c: nat): Tree
    requires c > 0
  {
    Plus(Four(lo, 0, c), Four(lo, 4, c))
  }

  /** Where a long slice is split. */
  function Half(n: nat): (h: nat)
    requires n > 128
    ensures 0 < h < n && h % 8 == 0
    ensures n - h <= (n + 1) / 2 + 7 && h <= n / 2
  {
    n / 2 - n / 2 % 8
  }

  function SumTree(lo: nat, n: nat): Tree
    decreases n
  {
    if n > 128 then Plus(SumTree(lo, Half(n)), SumTree(lo + Half(n), n - Half(n)))
    else if n < 8 then Chain(Zero, lo, n)
    else Chain(Eight(lo, n / 8), lo + 8 * (n / 8), n % 8)
  }

  // ---- Each index exactly once ----

  predicate InRange(i: nat, lo: nat, n: nat) { lo <= i < lo + n }

  lemma {:induction false} ChainUses(t: Tree, lo: nat, n: nat, i: nat)
    ensures Uses(Chain(t, lo, n), i) == Uses(t, i) + if InRange(i, lo, n) then 1 else 0
  {
    if n == 0 {
    } else {
      ChainUses(t, lo, n - 1, i);
    }
  }

  /** Lane j adds the indices lo + 8 c + j, and no others. */
  lemma {:induction false} LaneUses(lo: nat, j: nat, chunks: nat, i: nat)
    requires chunks > 0 && j < 8
    ensures Uses(Lane(lo, j, chunks), i) == if InRange(i, lo, 8 * chunks) && (i - lo) % 8 == j then 1 else 0
  {
    if chunks == 1 {
    } else {
      LaneUses(lo, j, chunks - 1, i);
    }
  }

  lemma FourUses(lo: nat, j: nat, c: nat, i: nat)
    requires c > 0 && j <= 4
    ensures Uses(Four(lo, j, c), i) == if InRange(i, lo, 8 * c) && j <= (i - lo) % 8 < j + 4 then 1 else 0
  {
    LaneUses(lo, j, c, i);
    LaneUses(lo, j + 1, c, i);
    LaneUses(lo, j + 2, c, i);
    LaneUses(lo, j + 3, c, i);
    var a, b := Plus(Lane(lo, j, c), Lane(lo, j + 1, c)), Plus(Lane(lo, j + 2, c), Lane(lo, j + 3, c));
    assert Uses(Plus(a, b), i) == Uses(a, i) + Uses(b, i);
  }

  lemma EightUses(lo: nat, c: nat, i: nat)
    requires c > 0
    ensures Uses(Eight(lo, c), i) == if InRange(i, lo, 8 * c) then 1 else 0
  {
    FourUses(lo, 0, c, i);
    FourUses(lo, 4, c, i);
  }

  /** The sum uses every index of its slice exactly once, and no other index. */
  lemma {:induction false} EachIndexOnce(lo: nat, n: nat, i: nat)
    ensures Uses(SumTree(lo, n), i) == if InRange(i, lo, n) then 1 else 0
    decreases n
  {
    if n > 128 {
      EachIndexOnce(lo, Half(n), i);
      EachIndexOnce(lo + Half(n), n - Half(n), i);
    } else if n < 8 {
      ChainUses(Zero, lo, n, i);
    } else {
      EightUses(lo, n / 8, i);
      ChainUses(Eight(lo, n / 8), lo + 8 * (n / 8), n % 8, i);
    }
  }

  lemma {:induction false} UsesBound(t: Tree, n: nat)
    requires forall i: nat | Uses(t, i) > 0 :: i < n
    ensures Within(t, n)
  {
    match t
    case Zero =>
    case Leaf(k) => assert Uses(t, k) > 0;
    case Plus(l, r) =>
      forall i: nat | Uses(l, i) > 0 ensures i < n { assert Uses(t, i) > 0; }
      forall i: nat | Uses(r, i) > 0 ensures i < n { assert Uses(t, i) > 0; }
      UsesBound(l, n);
      UsesBound(r, n);
  }

  lemma SumTreeWithin(lo: nat, n: nat, size: nat)
    requires lo + n <= size
    ensures Within(SumTree(lo, n), size)
  {
    forall i: nat | Uses(SumTree(lo, n), i) > 0 ensures i < size { EachIndexOnce(lo, n, i); }
    UsesBound(SumTree(lo, n), size);
  }

  // ---- The order of additions ----

  /** The indices in the order in which they stand in the tree. */
  function Order(t: Tree): seq<nat> {
    match t
    case Zero => []
    case Leaf(i) => [i]
    case Plus(l, r) => Order(l) + Order(r)
  }

  /** Every addition has a single value on its right: from left to right. */
  predicate LeftToRight(t: Tree) {
    t.Plus? ==> t.right.Leaf? && LeftToRight(t.left)
  }

  /** A lane adds its indices from left to right, in steps of eight. */
  lemma {:induction false} LaneOrder(lo: nat, j: nat, chunks: nat)
    requires chunks > 0
    ensures LeftToRight(Lane(lo, j, chunks)) && |Order(Lane(lo, j, chunks))| == chunks
    ensures forall c | 0 <= c < chunks :: Order(Lane(lo, j, chunks))[c] == lo + 8 * c + j
  {
    if chunks == 1 {
    } else {
      LaneOrder(lo, j, chunks - 1);
    }
  }

  /** A tail is added to what is there from left to right. */
  lemma {:induction false} ChainOrder(t: Tree, lo: nat, n: nat)
    ensures Order(Chain(t, lo, n)) == Order(t) + seq(n, i requires 0 <= i < n => lo + i)
    ensures n > 0 ==> Chain(t, lo, n) == Plus(Chain(t, lo, n - 1), Leaf(lo + n - 1))
    ensures Chain(t, lo, 0) == t
  {
    if n == 0 {
      assert seq(0, i requires 0 <= i < 0 => lo + i) == [];
    } else {
      ChainOrder(t, lo, n - 1);
      assert seq(n, i requires 0 <= i < n => lo + i) == seq(n - 1, i requires 0 <= i < n - 1 => lo + i) + [lo + n - 1];
    }
  }

  /**
   The order of NumPy's sum: less than eight values from left to right, behind the neutral
   start; up to 128 in eight lanes, added in pairs of neighbours, with the rest behind them from
   left to right; more in two halves, of which the first has the largest multiple of eight
   values that is not more than one half.
   */
  lemma OrderIsNumPys(lo: nat, n: nat)
    ensures n < 8 ==> SumTree(lo, n) == Chain(Zero, lo, n)
    ensures 8 <= n <= 128 ==>
      var c := n / 8;
      var lane := (j: nat) requires j < 8 => Lane(lo, j, c);
      SumTree(lo, n) == Chain(
        Plus(Plus(Plus(lane(0), lane(1)), Plus(lane(2), lane(3))), Plus(Plus(lane(4), lane(5)), Plus(lane(6), lane(7)))),
        lo + 8 * c, n - 8 * c)
    ensures n > 128 ==>
      exists h: nat :: h % 8 == 0 && h <= n / 2 < h + 8 && h <= n
        && SumTree(lo, n) == Plus(SumTree(lo, h), SumTree(lo + h, n - h))
  {
    if n > 128 {
      var h := Half(n);
      assert h % 8 == 0 && h <= n / 2 < h + 8 && h <= n
        && SumTree(lo, n) == Plus(SumTree(lo, h), SumTree(lo + h, n - h));
    }
  }

  // ---- The plain sum over the reals ----

  function Add(): (real, real) -> real { (a, b) => a + b }

  /** The sum of the first n values, each as often as the tree uses it. */
  function Weighted(t: Tree, values: seq<real>, n: nat): real
    requires n <= |values|
  {
    if n == 0 then 0.0 else Weighted(t, values, n - 1) + Times(Uses(t, n - 1), values[n - 1])
  }

  function Times(n: nat, v: real): real { if n == 0 then 0.0 else Times(n - 1, v) + v }

  lemma {:induction false} Distribute(a: nat, b: nat, v: real)
    ensures Times(a + b, v) == Times(a, v) + Times(b, v)
  {
    if a == 0 {
    } else {
      Distribute(a - 1, b, v);
    }
  }

  lemma Once(v: real)
    ensures Times(0, v) == 0.0 && Times(1, v) == v
  {
    assert Times(1, v) == Times(0, v) + v;
  }

  lemma {:induction false} WeightedPlus(l: Tree, r: Tree, values: seq<real>, n: nat)
    requires n <= |values|
    ensures Weighted(Plus(l, r), values, n) == Weighted(l, values, n) + Weighted(r, values, n)
  {
    if n == 0 {
    } else {
      WeightedPlus(l, r, values, n - 1);
      Distribute(Uses(l, n - 1), Uses(r, n - 1), values[n - 1]);
    }
  }

  lemma {:induction false} WeightedAtom(t: Tree, values: seq<real>, n: nat)
    requires !t.Plus? && n <= |values|
    ensures Weighted(t, values, n) == if t.Leaf? && t.index < n then values[t.index] else 0.0
  {
    if n == 0 {
    } else {
      WeightedAtom(t, values, n - 1);
      Once(values[n - 1]);
    }
  }

  /** Over the reals a tree depends only on how often it uses each index, not on its shape. */
  lemma {:induction false} EvalIsWeighted(t: Tree, values: seq<real>)
    requires Within(t, |values|)
    ensures Eval(t, values, Add(), 0.0) == Weighted(t, values, |values|)
  {
    match t
    case Plus(l, r) =>
      EvalIsWeighted(l, values);
      EvalIsWeighted(r, values);
      WeightedPlus(l, r, values, |values|);
    case _ => WeightedAtom(t, values, |values|);
  }

  /** values[lo] + ... + values[lo + n - 1] */
  function Plain(values: seq<real>, n: nat): real
    requires n <= |values|
  {
    if n == 0 then 0.0 else Plain(values, n - 1) + values[n - 1]
  }

  lemma {:induction false} WeightedIsPlain(values: seq<real>, n: nat)
    requires n <= |values|
    ensures Weighted(SumTree(0, |values|), values, n) == Plain(values, n)
  {
    if n == 0 {
    } else {
      WeightedIsPlain(values, n - 1);
      EachIndexOnce(0, |values|, n - 1);
      Once(values[n - 1]);
    }
  }

  /** Without rounding, the pairwise sum is the plain sum. */
  lemma PairwiseIsPlain(values: seq<real>)
    ensures Within(SumTree(0, |values|), |values|)
    ensures Eval(SumTree(0, |values|), values, Add(), 0.0) == Plain(values, |values|)
  {
    SumTreeWithin(0, |values|, |values|);
    EvalIsWeighted(SumTree(0, |values|), values);
    WeightedIsPlain(values, |values|);
  }

  // ---- Depth ----

  function Power2(l: nat): nat { if l == 0 then 1 else 2 * Power2(l - 1) }

  lemma {:induction false} ChainDepth(t: Tree, lo: nat, n: nat)
    ensures Depth(Chain(t, lo, n)) == Depth(t) + n
  {
    if n == 0 {
    } else {
      ChainDepth(t, lo, n - 1);
    }
  }

  lemma {:induction false} LaneDepth(lo: nat, j: nat, chunks: nat)
    requires chunks > 0
    ensures Depth(Lane(lo, j, chunks)) == chunks - 1
  {
    if chunks == 1 {
    } else {
      LaneDepth(lo, j, chunks - 1);
    }
  }

  lemma FourDepth(lo: nat, j: nat, c: nat)
    requires c > 0
    ensures Depth(Four(lo, j, c)) == c + 1
  {
    LaneDepth(lo, j, c);
    LaneDepth(lo, j + 1, c);
    LaneDepth(lo, j + 2, c);
    LaneDepth(lo, j + 3, c);
    var a, b := Plus(Lane(lo, j, c), Lane(lo, j + 1, c)), Plus(Lane(lo, j + 2, c), Lane(lo, j + 3, c));
    assert Depth(a) == c && Depth(b) == c;
  }

  lemma EightDepth(lo: nat, c: nat)
    requires c > 0
    ensures Depth(Eight(lo, c)) == c + 2
  {
    FourDepth(lo, 0, c);
    FourDepth(lo, 4, c);
  }

  /** No value passes through more than 24 + l additions, as long as there are at most 112 * 2^l + 16 of them. */
  lemma {:induction false} DepthIsLogarithmic(lo: nat, n: nat, l: nat)
    requires n <= 112 * Power2(l) + 16
    ensures Depth(SumTree(lo, n)) <= 24 + l
    decreases n
  {
    if n > 128 {
      DepthIsLogarithmic(lo, Half(n), l - 1);
      DepthIsLogarithmic(lo + Half(n), n - Half(n), l - 1);
    } else if n < 8 {
      ChainDepth(Zero, lo, n);
    } else {
      EightDepth(lo, n / 8);
      ChainDepth(Eight(lo, n / 8), lo + 8 * (n / 8), n % 8);
    }
  }

  /** The bound is met: 127 values need 24 additions in a row. */
  lemma DepthIsSharp(lo: nat, n: nat)
    requires n == 127
    ensures Depth(SumTree(lo, n)) == 24
  {
    var c, tail := n / 8, n % 8;
    assert c == 15 && tail == 7;
    EightDepth(lo, c);
    ChainDepth(Eight(lo, c), lo + 8 * c, tail);
  }

  // ---- The code ----

  lemma LaneWithin(lo: nat, j: nat, chunks: nat, size: nat)
    requires chunks > 0 && j < 8 && lo + 8 * chunks <= size
    ensures Within(Lane(lo, j, chunks), size)
  {
    forall i: nat | Uses(Lane(lo, j, chunks), i) > 0 ensures i < size { LaneUses(lo, j, chunks, i); }
    UsesBound(Lane(lo, j, chunks), size);
  }

  lemma {:induction false} ChainWithin(t: Tree, lo: nat, n: nat, size: nat)
    requires Within(t, size) && lo + n <= size
    ensures Within(Chain(t, lo, n), size)
  {
    if n == 0 {
    } else {
      ChainWithin(t, lo, n - 1, size);
    }
  }

  /** Add the n values from lo on to `start`, from left to right. */
  method Fold<T>(values: seq<T>, lo: nat, n: nat, add: (T, T) -> T, zero: T, start: T, ghost t: Tree) returns (sum: T)
    requires lo + n <= |values| && Within(t, |values|) && start == Eval(t, values, add, zero)
    ensures Within(Chain(t, lo, n), |values|) && sum == Eval(Chain(t, lo, n), values, add, zero)
  {
    ChainWithin(t, lo, n, |values|);
    sum := start;
    for i := 0 to n
      invariant Within(Chain(t, lo, i), |values|) && sum == Eval(Chain(t, lo, i), values, add, zero)
    {
      ChainWithin(t, lo, i + 1, |values|);
      sum := add(sum, values[lo + i]);
    }
  }

  /** x is what lane j holds after c chunks. */
  ghost predicate LaneIs<T>(values: seq<T>, lo: nat, j: nat, c: nat, add: (T, T) -> T, zero: T, x: T)
    requires c > 0
  {
    Within(Lane(lo, j, c), |values|) && x == Eval(Lane(lo, j, c), values, add, zero)
  }

  lemma LaneStep<T>(values: seq<T>, lo: nat, j: nat, c: nat, add: (T, T) -> T, zero: T)
    requires c > 0 && j < 8 && lo + 8 * (c + 1) <= |values|
    ensures Within(Lane(lo, j, c), |values|) && Within(Lane(lo, j, c + 1), |values|)
    ensures Eval(Lane(lo, j, c + 1), values, add, zero)
         == add(Eval(Lane(lo, j, c), values, add, zero), values[lo + 8 * c + j])
  {
    LaneWithin(lo, j, c, |values|);
    LaneWithin(lo, j, c + 1, |values|);
  }

  lemma FourAdds<T>(values: seq<T>, lo: nat, j: nat, c: nat, add: (T, T) -> T, zero: T, s: seq<T>)
    requires c > 0 && j <= 4 && lo + 8 * c <= |values| && |s| == 8
    requires forall i | j <= i < j + 4 :: LaneIs(values, lo, i, c, add, zero, s[i])
    ensures Within(Four(lo, j, c), |values|)
    ensures Eval(Four(lo, j, c), values, add, zero) == add(add(s[j], s[j + 1]), add(s[j + 2], s[j + 3]))
  {
    var a, b := Plus(Lane(lo, j, c), Lane(lo, j + 1, c)), Plus(Lane(lo, j + 2, c), Lane(lo, j + 3, c));
    assert LaneIs(values, lo, j, c, add, zero, s[j]) && LaneIs(values, lo, j + 1, c, add, zero, s[j + 1]);
    assert LaneIs(values, lo, j + 2, c, add, zero, s[j + 2]) && LaneIs(values, lo, j + 3, c, add, zero, s[j + 3]);
    assert Within(a, |values|) && Within(b, |values|);
    assert Eval(a, values, add, zero) == add(s[j], s[j + 1]);
    assert Eval(b, values, add, zero) == add(s[j + 2], s[j + 3]);
  }

  /** The eight lanes, as far as `chunks` chunks go. */
  method Lanes<T>(values: seq<T>, lo: nat, chunks: nat, add: (T, T) -> T, zero: T) returns (sums: array<T>)
    requires chunks > 0 && lo + 8 * chunks <= |values|
    ensures sums.Length == 8
    ensures forall j | 0 <= j < 8 :: LaneIs(values, lo, j, chunks, add, zero, sums[j])
  {
    sums := new T[8](j requires 0 <= j < 8 => values[lo + j]);
    for c := 1 to chunks
      invariant forall j | 0 <= j < 8 :: LaneIs(values, lo, j, c, add, zero, sums[j])
    {
      for k := 0 to 8
        invariant forall j | 0 <= j < 8 :: LaneIs(values, lo, j, if j < k then c + 1 else c, add, zero, sums[j])
      {
        LaneStep(values, lo, k, c, add, zero);
        sums[k] := add(sums[k], values[lo + 8 * c + k]);
      }
    }
  }

  /** `numpy_sum` of the slice of n values from lo on. */
  method NumpySum<T>(values: seq<T>, lo: nat, n: nat, add: (T, T) -> T, zero: T) returns (sum: T)
    requires lo + n <= |values|
    ensures Within(SumTree(lo, n), |values|) && sum == Eval(SumTree(lo, n), values, add, zero)
    decreases n
  {
    SumTreeWithin(lo, n, |values|);
    if n > 128 {
      var half := n / 2;
      half := half - half % 8;
      var left := NumpySum(values, lo, half, add, zero);
      var right := NumpySum(values, lo + half, n - half, add, zero);
      return add(left, right);
    }
    sum := SumBlock(values, lo, n, add, zero);
  }

  method SumBlock<T>(values: seq<T>, lo: nat, n: nat, add: (T, T) -> T, zero: T) returns (sum: T)
    requires lo + n <= |values| && n <= 128
    ensures Within(SumTree(lo, n), |values|) && sum == Eval(SumTree(lo, n), values, add, zero)
  {
    if n < 8 {
      sum := Fold(values, lo, n, add, zero, zero, Zero);
    } else {
      var chunks := n / 8;
      var s := Lanes(values, lo, chunks, add, zero);
      sum := add(add(add(s[0], s[1]), add(s[2], s[3])), add(add(s[4], s[5]), add(s[6], s[7])));
      FourAdds(values, lo, 0, chunks, add, zero, s[..]);
      FourAdds(values, lo, 4, chunks, add, zero, s[..]);
      sum := Fold(values, lo + 8 * chunks, n % 8, add, zero, sum, Eight(lo, chunks));
    }
  }
}
