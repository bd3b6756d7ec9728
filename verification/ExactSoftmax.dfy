/**
 What post-processing computes when nothing rounds: the softmax of the logits. Only the laws of
 the exponential function are used, not its values.
 */
module ExactSoftmax {
  import opened Wrappers
  import opened RequestModel
  import opened Batch
  import opened PairwiseSum
  import opened Rounding
  import opened Postprocess

  /** exp(x + y) = exp(x) exp(y) */
  predicate Multiplies(exp: real -> real, x: real, y: real) { exp(x + y) == exp(x) * exp(y) }

  ghost predicate IsExponential(exp: real -> real) {
    && (forall x :: exp(x) > 0.0)
    && (forall x, y :: x < y ==> exp(x) < exp(y))
    && (forall x, y :: Multiplies(exp, x, y))
  }

  /** The machine that does not round. */
  function Exact(exp: real -> real, term: Float -> Float, certainty: (Float, nat) -> Float): Machine {
    Machine(x => Float.Number(x), Div(), Sub(), AddF(), Lift(exp), Float.Number(0.0), term, certainty)
  }

  function Div(): (Float, Float) -> Float {
    (a: Float, b: Float) => if a.Number? && b.Number? && b.v != 0.0 then Float.Number(a.v / b.v) else NotFinite
  }

  function Sub(): (Float, Float) -> Float {
    (a: Float, b: Float) => if a.Number? && b.Number? then Float.Number(a.v - b.v) else NotFinite
  }

  function AddF(): (Float, Float) -> Float {
    (a: Float, b: Float) => if a.Number? && b.Number? then Float.Number(a.v + b.v) else NotFinite
  }

  function Lift(f: real -> real): Float -> Float {
    (a: Float) => if a.Number? then Float.Number(f(a.v)) else NotFinite
  }

  function Reals(values: seq<Float>): seq<real>
    requires AllFinite(values)
  {
    seq(|values|, i requires 0 <= i < |values| => values[i].v)
  }

  lemma {:induction false} EvalExact(t: PairwiseSum.Tree, values: seq<Float>)
    requires Within(t, |values|) && AllFinite(values)
    ensures Eval(t, values, AddF(), Float.Number(0.0)) == Float.Number(Eval(t, Reals(values), Add(), 0.0))
  {
    match t
    case Plus(l, r) =>
      EvalExact(l, values);
      EvalExact(r, values);
    case _ =>
  }

  lemma {:induction false} PlainIsRealSum(values: seq<Float>, n: nat)
    requires AllFinite(values) && n <= |values|
    ensures Plain(Reals(values), n) == RealSum(values, n)
  {
    if n == 0 {
    } else {
      PlainIsRealSum(values, n - 1);
    }
  }

  lemma TotalExact(m: Machine, values: seq<Float>)
    requires m.add == AddF() && m.zero == Float.Number(0.0) && AllFinite(values)
    ensures Total(m, values) == Float.Number(RealSum(values, |values|))
  {
    SumTreeWithin(0, |values|, |values|);
    EvalExact(SumTree(0, |values|), values);
    PairwiseIsPlain(Reals(values));
    PlainIsRealSum(values, |values|);
  }

  ghost predicate Positive(values: seq<Float>) {
    AllFinite(values) && forall i | 0 <= i < |values| :: values[i].v > 0.0
  }

  lemma {:induction false} PositiveSum(values: seq<Float>, n: nat, i: nat)
    requires Positive(values) && i < n <= |values|
    ensures 0.0 < values[i].v <= RealSum(values, n)
    decreases n
  {
    if n == 1 {
    } else {
      PositiveSum(values, n - 1, if i < n - 1 then i else 0);
    }
  }

  /** Each of p is that of e over s. */
  ghost predicate Quotients(p: seq<Float>, e: seq<Float>, s: real) {
    && s > 0.0 && AllFinite(e) && AllFinite(p) && |p| == |e|
    && forall i | 0 <= i < |p| :: p[i].v * s == e[i].v
  }

  lemma Undo(a: real, s: real)
    requires s > 0.0
    ensures a / s * s == a
  {
  }

  lemma {:induction false} QuotientSum(p: seq<Float>, e: seq<Float>, s: real, n: nat)
    requires Quotients(p, e, s) && n <= |p|
    ensures RealSum(p, n) * s == RealSum(e, n)
  {
    if n == 0 {
    } else {
      QuotientSum(p, e, s, n - 1);
      Spread(RealSum(p, n - 1), p[n - 1].v, s);
    }
  }

  lemma Spread(a: real, b: real, s: real)
    ensures (a + b) * s == a * s + b * s
  {
  }

  lemma Regroup(a: real, b: real, c: real)
    ensures a * (b * c) == a * b * c
  {
  }

  lemma ScalingOrders(x: real, y: real, s: real)
    requires s > 0.0
    ensures x < y <==> x * s < y * s
  {
    assert (y - x) * s == y * s - x * s;
  }

  lemma OneOf(x: real, s: real)
    requires s > 0.0 && x * s == s
    ensures x == 1.0
  {
    ScalingOrders(x, 1.0, s);
    ScalingOrders(1.0, x, s);
  }

  lemma Share(x: real, s: real, y: real)
    requires s > 0.0 && x * s == y && 0.0 < y <= s
    ensures 0.0 < x <= 1.0
  {
    ScalingOrders(0.0, x, s);
    ScalingOrders(1.0, x, s);
  }

  /** Positive values over their sum are a distribution that sums to one. */
  lemma QuotientsAreDistribution(p: seq<Float>, e: seq<Float>)
    requires e != [] && Positive(e) && Quotients(p, e, RealSum(e, |e|))
    ensures RealSum(p, |p|) == 1.0 && Distribution(p).None? && Positive(p)
  {
    var s := RealSum(e, |e|);
    QuotientSum(p, e, s, |p|);
    OneOf(RealSum(p, |p|), s);
    forall i | 0 <= i < |p| ensures 0.0 < p[i].v <= 1.0 {
      PositiveSum(e, |e|, i);
      Share(p[i].v, s, e[i].v);
    }
  }

  /** exp of each exponent. */
  ghost predicate Exponentials(exp: real -> real, e: seq<Float>, x: seq<Float>, shift: real) {
    && AllFinite(e) && AllFinite(x) && |e| == |x|
    && forall i | 0 <= i < |e| :: e[i].v == exp(x[i].v - shift)
  }

  ghost predicate Scaled(x: seq<Float>, logits: seq<Float>, t: real) {
    && t > 0.0 && AllFinite(x) && AllFinite(logits) && |x| == |logits|
    && forall i | 0 <= i < |x| :: x[i].v == logits[i].v / t
  }

  function ScalePass(t: real, logits: seq<Float>): seq<Float> {
    Mapped(logits, v => Div()(v, Float.Number(t)))
  }

  function ShiftPass(shift: real, x: seq<Float>): seq<Float> {
    Mapped(x, v => Sub()(v, Float.Number(shift)))
  }

  lemma Scales(t: real, logits: seq<Float>)
    requires t > 0.0 && AllFinite(logits)
    ensures Scaled(ScalePass(t, logits), logits, t)
  {
    var x := ScalePass(t, logits);
    forall i | 0 <= i < |x| ensures x[i] == Float.Number(logits[i].v / t) {
      assert x[i] == Div()(logits[i], Float.Number(t));
    }
  }

  lemma Shifts(exp: real -> real, shift: real, x: seq<Float>)
    requires AllFinite(x)
    ensures AllFinite(ShiftPass(shift, x))
    ensures Exponentials(exp, Mapped(ShiftPass(shift, x), Lift(exp)), x, shift)
  {
    var shifted := ShiftPass(shift, x);
    forall i | 0 <= i < |x| ensures shifted[i] == Float.Number(x[i].v - shift) {
      assert shifted[i] == Sub()(x[i], Float.Number(shift));
    }
  }

  lemma Divides(m: Machine, e: seq<Float>)
    requires m.div == Div() && m.add == AddF() && m.zero == Float.Number(0.0) && Positive(e) && e != []
    ensures Quotients(Normalised(m, e), e, RealSum(e, |e|))
  {
    TotalExact(m, e);
    PositiveSum(e, |e|, 0);
    DividePass(e, RealSum(e, |e|));
    assert Normalised(m, e) == Mapped(e, v => Div()(v, Float.Number(RealSum(e, |e|))));
  }

  lemma DividePass(e: seq<Float>, s: real)
    requires s > 0.0 && AllFinite(e)
    ensures Quotients(Mapped(e, v => Div()(v, Float.Number(s))), e, s)
  {
    var p := Mapped(e, v => Div()(v, Float.Number(s)));
    forall i | 0 <= i < |p| ensures p[i].Number? && p[i].v * s == e[i].v {
      assert p[i] == Div()(e[i], Float.Number(s));
      DivUndo(e[i], s);
    }
  }

  lemma DivUndo(a: Float, s: real)
    requires a.Number? && s > 0.0
    ensures var q := Div()(a, Float.Number(s)); q.Number? && q.v * s == a.v
  {
    Undo(a.v, s);
  }

  lemma PositiveExponentials(exp: real -> real, e: seq<Float>, x: seq<Float>, shift: real)
    requires Exponentials(exp, e, x, shift) && forall v :: exp(v) > 0.0
    ensures Positive(e)
  {
  }

  /** The vector after each pass: scaled, exponentials of the shifted values, quotients. */
  lemma ExactPasses(m: Machine, exp: real -> real, t: real, logits: seq<Float>)
    returns (x: seq<Float>, shift: real, e: seq<Float>, p: seq<Float>)
    requires m == Exact(exp, m.entropyTerm, m.certainty) && forall v :: exp(v) > 0.0
    requires t > 0.0 && logits != [] && AllFinite(logits)
    ensures Scaled(x, logits, t) && Exponentials(exp, e, x, shift) && e != [] && Positive(e)
    ensures Quotients(p, e, RealSum(e, |e|))
    ensures Softmax(m, Float.Number(t), logits) == Ok(p)
  {
    x := ScalePass(t, logits);
    Scales(t, logits);
    assert x == Mapped(logits, v => m.div(v, Float.Number(t)));
    shift := Largest(x, |x|);
    var shifted := ShiftPass(shift, x);
    assert shifted == Mapped(x, v => m.sub(v, Float.Number(shift)));
    Shifts(exp, shift, x);
    e := Mapped(shifted, m.exp);
    PositiveExponentials(exp, e, x, shift);
    Divides(m, e);
    p := Normalised(m, e);
    QuotientsAreDistribution(p, e);
  }

  /** The sum of exp(x_j) over the first n. */
  function Partition(exp: real -> real, x: seq<Float>, n: nat): real
    requires AllFinite(x) && n <= |x|
  {
    if n == 0 then 0.0 else Partition(exp, x, n - 1) + exp(x[n - 1].v)
  }

  lemma UndoShift(exp: real -> real, x: real, shift: real)
    requires forall a, b :: Multiplies(exp, a, b)
    ensures exp(x) == exp(x - shift) * exp(shift)
  {
    assert Multiplies(exp, x - shift, shift);
    assert x - shift + shift == x;
  }

  lemma {:induction false} ShiftFactors(exp: real -> real, e: seq<Float>, x: seq<Float>, shift: real, n: nat)
    requires (forall a, b :: Multiplies(exp, a, b)) && Exponentials(exp, e, x, shift) && n <= |x|
    ensures Partition(exp, x, n) == RealSum(e, n) * exp(shift)
  {
    if n == 0 {
    } else {
      ShiftFactors(exp, e, x, shift, n - 1);
      UndoShift(exp, x[n - 1].v, shift);
      Spread(RealSum(e, n - 1), e[n - 1].v, exp(shift));
    }
  }

  /** p_i is exp(x_i) over the sum of all exp(x_j): subtracting the maximum changed nothing. */
  lemma IsSoftmax(exp: real -> real, p: seq<Float>, e: seq<Float>, x: seq<Float>, shift: real, i: nat)
    requires (forall a, b :: Multiplies(exp, a, b)) && Exponentials(exp, e, x, shift)
    requires Quotients(p, e, RealSum(e, |e|)) && i < |p|
    ensures p[i].v * Partition(exp, x, |x|) == exp(x[i].v)
  {
    ShiftFactors(exp, e, x, shift, |x|);
    UndoShift(exp, x[i].v, shift);
    Regroup(p[i].v, RealSum(e, |e|), exp(shift));
  }

  lemma ScaledOrder(x: seq<Float>, logits: seq<Float>, t: real, i: nat, j: nat)
    requires Scaled(x, logits, t) && i < |x| && j < |x|
    ensures logits[i].v < logits[j].v <==> x[i].v < x[j].v
  {
    var a, b := x[i].v, x[j].v;
    assert a == logits[i].v / t && b == logits[j].v / t;
    Undo(logits[i].v, t);
    Undo(logits[j].v, t);
    ScalingOrders(a, b, t);
  }

  lemma QuotientOrder(p: seq<Float>, e: seq<Float>, s: real, i: nat, j: nat)
    requires Quotients(p, e, s) && i < |p| && j < |p|
    ensures e[i].v < e[j].v <==> p[i].v < p[j].v
  {
    var a, b := p[i].v, p[j].v;
    assert a * s == e[i].v && b * s == e[j].v;
    ScalingOrders(a, b, s);
  }

  lemma OrderKept(exp: real -> real, p: seq<Float>, e: seq<Float>, x: seq<Float>, logits: seq<Float>, shift: real, t: real, i: nat, j: nat)
    requires forall a, b :: a < b ==> exp(a) < exp(b)
    requires Scaled(x, logits, t) && Exponentials(exp, e, x, shift)
    requires Quotients(p, e, RealSum(e, |e|)) && i < |p| && j < |p|
    ensures logits[i].v < logits[j].v <==> p[i].v < p[j].v
  {
    ScaledOrder(x, logits, t, i, j);
    QuotientOrder(p, e, RealSum(e, |e|), i, j);
    var a, b := x[i].v - shift, x[j].v - shift;
    assert e[i].v == exp(a) && e[j].v == exp(b);
    assert a < b ==> exp(a) < exp(b);
    assert b < a ==> exp(b) < exp(a);
  }

  lemma {:induction false} SameFirstMax(p: seq<Float>, logits: seq<Float>, n: nat)
    requires AllFinite(p) && AllFinite(logits) && 0 < n <= |p| == |logits|
    requires forall i, j | 0 <= i < |p| && 0 <= j < |p| :: logits[i].v < logits[j].v <==> p[i].v < p[j].v
    ensures FirstMax(p, n) == FirstMax(logits, n)
  {
    if n == 1 {
    } else {
      SameFirstMax(p, logits, n - 1);
    }
  }

  /** What exact arithmetic makes of the logits of a question. */
  ghost predicate IsSoftmaxOf(exp: real -> real, t: real, logits: seq<Float>, p: seq<Float>) {
    && t > 0.0 && logits != [] && AllFinite(logits) && Positive(p) && |p| == |logits|
    && RealSum(p, |p|) == 1.0
    && (forall i, j | 0 <= i < |p| && 0 <= j < |p| :: logits[i].v < logits[j].v <==> p[i].v < p[j].v)
    && FirstMax(p, |p|) == FirstMax(logits, |logits|)
    && exists x: seq<Float> :: Scaled(x, logits, t) && SoftmaxAt(exp, x, p)
  }

  /** p_i is exp(x_i) over the sum of all exp(x_j). */
  ghost predicate SoftmaxAt(exp: real -> real, x: seq<Float>, p: seq<Float>) {
    && AllFinite(x) && AllFinite(p) && |p| == |x|
    && forall i | 0 <= i < |p| :: p[i].v * Partition(exp, x, |x|) == exp(x[i].v)
  }

  /** The softmax of a vector, without the shape checks around it. */
  lemma ExactSoftmaxIs(m: Machine, exp: real -> real, t: real, logits: seq<Float>)
    requires m == Exact(exp, m.entropyTerm, m.certainty) && IsExponential(exp)
    requires t > 0.0 && logits != [] && AllFinite(logits)
    ensures Softmax(m, Float.Number(t), logits).Ok?
    ensures IsSoftmaxOf(exp, t, logits, Softmax(m, Float.Number(t), logits).value)
  {
    var x, shift, e, p := ExactPasses(m, exp, t, logits);
    QuotientsAreDistribution(p, e);
    forall i, j | 0 <= i < |p| && 0 <= j < |p| ensures logits[i].v < logits[j].v <==> p[i].v < p[j].v {
      OrderKept(exp, p, e, x, logits, shift, t, i, j);
    }
    SameFirstMax(p, logits, |p|);
    forall i | 0 <= i < |p| ensures p[i].v * Partition(exp, x, |x|) == exp(x[i].v) {
      IsSoftmax(exp, p, e, x, shift, i);
    }
    assert SoftmaxAt(exp, x, p);
  }

  /**
   Without rounding, every question with finite logits gets the softmax of its real options at
   its temperature: positive, summing to one, in the order of the logits. So the reported choice
   is the first option with the largest logit.
   */
  lemma ExactProbabilities(m: Machine, exp: real -> real, cal: Calibration, c: Criteria, logits: seq<Float>)
    requires m == Exact(exp, m.entropyTerm, m.certainty) && IsExponential(exp)
    requires |cal.temperature| == 3 && Temperature(cal, c) > 0.0
    requires AllFinite(logits) && |logits| >= Len(c) >= 2
    ensures ProbabilitiesOf(m, cal, c, logits).Ok?
    ensures IsSoftmaxOf(exp, Temperature(cal, c), logits[..Len(c)], ProbabilitiesOf(m, cal, c, logits).value)
  {
    ExactSoftmaxIs(m, exp, Temperature(cal, c), logits[..Len(c)]);
  }
}
