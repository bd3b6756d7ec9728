/**
 src/postprocess.rs: from model outputs to typed answers. The binary32 operations are
 parameters, so that everything outside section "Exact arithmetic" holds whatever they round.
 */
module Postprocess {
  import opened Wrappers
  import Decimal
  import opened RequestModel
  import Sequence
  import SequenceBuilder
  import RequestBatch
  import opened Batch
  import opened PairwiseSum
  import opened Rounding

  datatype Float = Number(v: real) | NotFinite

  /** The operations of binary32, as far as post-processing uses them. */
  datatype Machine = Machine(
    narrow: real -> Float,
    div: (Float, Float) -> Float,
    sub: (Float, Float) -> Float,
    add: (Float, Float) -> Float,
    exp: Float -> Float,
    zero: Float,
    entropyTerm: Float -> Float,
    certainty: (Float, nat) -> Float)

  datatype OutputError = InvalidTemperature | BadShape | OutputIndex | BadNumber | BadProbability

  datatype Settings = Settings(temperature: seq<Float>, byOptions: map<string, Float>)

  datatype Calibration = Calibration(temperature: seq<real>, byOptions: map<string, real>)

  datatype Outputs = Outputs(logitsShape: seq<int>, logits: seq<Float>, actShape: seq<int>, act: seq<Float>)

  datatype Answer =
    | ChoiceAnswer(choice: string, probabilities: seq<(string, real)>, confidence: real, act: Float)
    | ScoreAnswer(score: real, legend: seq<(string, string)>, probabilities: seq<(string, real)>, confidence: real, act: Float)
    | NoulAnswer(noul: real, act: Float)

  datatype Response = Response(answers: seq<(string, Answer)>, inputTokens: nat)

  // ---- Calibration ----

  predicate Usable(t: Float) { t.Number? && t.v > 0.0 }

  /** `Calibration::new` */
  function NewCalibration(s: Settings): Result<Calibration, OutputError>
    requires |s.temperature| == 3
  {
    if (forall i | 0 <= i < 3 :: Usable(s.temperature[i])) && (forall k | k in s.byOptions :: Usable(s.byOptions[k]))
    then Ok(Calibration(seq(3, i requires 0 <= i < 3 => s.temperature[i].v), map k | k in s.byOptions :: s.byOptions[k].v))
    else Err(InvalidTemperature)
  }

  function Bucket(options: nat): string {
    if options <= 2 then "2" else if options <= 5 then "3-5" else if options <= 10 then "6-10" else "11+"
  }

  function OverrideKey(c: Criteria): string { RequestBatch.Kind(c) + ":" + Bucket(Len(c)) }

  /** The buckets: up to 2, 3 to 5, 6 to 10, and 11 or more options. */
  predicate SameBucket(m: nat, n: nat) { (m <= 2 <==> n <= 2) && (m <= 5 <==> n <= 5) && (m <= 10 <==> n <= 10) }

  /** Two questions share an override exactly if they have the same type and fall into the same bucket. */
  lemma SharedOverride(c: Criteria, d: Criteria)
    ensures OverrideKey(c) == OverrideKey(d) <==> RequestBatch.QType(c) == RequestBatch.QType(d) && SameBucket(Len(c), Len(d))
  {
    var k, l := RequestBatch.Kind(c), RequestBatch.Kind(d);
    assert k[0] == OverrideKey(c)[0] && l[0] == OverrideKey(d)[0];
    if k == l {
      var n := |k| + 1;
      assert OverrideKey(c)[n..] == Bucket(Len(c)) && OverrideKey(d)[n..] == Bucket(Len(d));
      DistinctBuckets(Len(c), Len(d));
    }
  }

  lemma DistinctBuckets(m: nat, n: nat)
    ensures Bucket(m) == Bucket(n) <==> SameBucket(m, n)
  {
    assert Bucket(m)[0] == (if m <= 2 then '2' else if m <= 5 then '3' else if m <= 10 then '6' else '1');
    assert Bucket(n)[0] == (if n <= 2 then '2' else if n <= 5 then '3' else if n <= 10 then '6' else '1');
  }

  function Temperature(cal: Calibration, c: Criteria): real
    requires |cal.temperature| == 3
  {
    var key := OverrideKey(c);
    if key in cal.byOptions then cal.byOptions[key] else cal.temperature[RequestBatch.QType(c)]
  }

  /** Every setting is checked, whether a question uses it or not; so every temperature is positive. */
  lemma TemperaturePositive(s: Settings, c: Criteria)
    requires |s.temperature| == 3
    ensures NewCalibration(s).Ok? ==>
      |NewCalibration(s).value.temperature| == 3 && Temperature(NewCalibration(s).value, c) > 0.0
    ensures NewCalibration(s).Err? <==>
      (exists i | 0 <= i < 3 :: !Usable(s.temperature[i])) || (exists k | k in s.byOptions :: !Usable(s.byOptions[k]))
  {
  }

  /** A calibration holds the settings, all of them. */
  lemma CalibrationKeeps(s: Settings, i: nat, key: string)
    requires |s.temperature| == 3 && i < 3 && NewCalibration(s).Ok?
    ensures var cal := NewCalibration(s).value;
            && |cal.temperature| == 3 && s.temperature[i] == Float.Number(cal.temperature[i])
            && (key in cal.byOptions <==> key in s.byOptions)
            && (key in cal.byOptions ==> s.byOptions[key] == Float.Number(cal.byOptions[key]))
  {
  }

  /**
   An override is taken where there is one for the type and the number of options; otherwise the
   temperature of the type.
   */
  lemma TemperatureChosen(cal: Calibration, c: Criteria)
    requires |cal.temperature| == 3
    ensures var k := Len(c);
            var bucket := if k <= 2 then "2" else if k <= 5 then "3-5" else if k <= 10 then "6-10" else "11+";
            var key := (if c.Choice? then "choice" else if c.Score? then "score" else "noul") + ":" + bucket;
            && (key in cal.byOptions ==> Temperature(cal, c) == cal.byOptions[key])
            && (key !in cal.byOptions ==>
                  Temperature(cal, c) == cal.temperature[if c.Choice? then 0 else if c.Score? then 1 else 2])
  {
  }

  // ---- Distributions ----

  predicate AllFinite(values: seq<Float>) {
    forall i | 0 <= i < |values| :: values[i].Number?
  }

  function RealSum(p: seq<Float>, n: nat): real
    requires n <= |p| && AllFinite(p)
  {
    if n == 0 then 0.0 else RealSum(p, n - 1) + p[n - 1].v
  }

  const TOLERANCE := 0.00011

  function Distribution(p: seq<Float>): Option<OutputError> {
    if !AllFinite(p) then Some(BadNumber)
    else if (exists i | 0 <= i < |p| :: !(0.0 <= p[i].v <= 1.0)) || Abs(RealSum(p, |p|) - 1.0) > TOLERANCE then Some(BadProbability)
    else None
  }

  /** A distribution is accepted exactly if it is finite, within 0 and 1, and sums to 1 up to 0.00011. */
  lemma DistributionExactly(p: seq<Float>)
    ensures Distribution(p) == Some(BadNumber) <==> !AllFinite(p)
    ensures Distribution(p).None? <==>
      && AllFinite(p)
      && (forall i | 0 <= i < |p| :: 0.0 <= p[i].v <= 1.0)
      && -0.00011 <= RealSum(p, |p|) - 1.0 <= 0.00011
  {
  }

  // ---- Probabilities ----

  function Mapped<S, T>(values: seq<S>, f: S -> T): seq<T> {
    seq(|values|, i requires 0 <= i < |values| => f(values[i]))
  }

  function Largest(values: seq<Float>, n: nat): real
    requires 0 < n <= |values| && AllFinite(values)
  {
    if n == 1 then values[0].v
    else
      var before := Largest(values, n - 1);
      if before >= values[n - 1].v then before else values[n - 1].v
  }

  function Total(m: Machine, values: seq<Float>): Float {
    SumTreeWithin(0, |values|, |values|);
    Eval(SumTree(0, |values|), values, m.add, m.zero)
  }

  function Normalised(m: Machine, e: seq<Float>): seq<Float> {
    var sum := Total(m, e);
    Mapped(e, v => m.div(v, sum))
  }

  /** The softmax of the real options. */
  function Softmax(m: Machine, temperature: Float, options: seq<Float>): Result<seq<Float>, OutputError>
    requires options != []
  {
    var scaled := Mapped(options, v => m.div(v, temperature));
    if !AllFinite(scaled) then Err(BadNumber)
    else
      var max := Number(Largest(scaled, |scaled|));
      var shifted := Mapped(scaled, v => m.sub(v, max));
      if !AllFinite(shifted) then Err(BadNumber)
      else
        var p := Normalised(m, Mapped(shifted, m.exp));
        match Distribution(p)
        case Some(e) => Err(e)
        case None => Ok(p)
  }

  /** The vectors of the passes: each value scaled, shifted by the largest, exponentiated, and divided by the pairwise sum. */
  ghost predicate ArePasses(m: Machine, t: Float, options: seq<Float>, scaled: seq<Float>, max: real, e: seq<Float>, p: seq<Float>) {
    && |scaled| == |options| == |e| == |p|
    && (forall i | 0 <= i < |options| :: scaled[i] == m.div(options[i], t) && scaled[i].Number? && scaled[i].v <= max)
    && (exists i | 0 <= i < |options| :: scaled[i] == Float.Number(max))
    && (forall i | 0 <= i < |options| :: e[i] == m.exp(m.sub(scaled[i], Float.Number(max))))
    && (forall i | 0 <= i < |options| :: m.sub(scaled[i], Float.Number(max)).Number?)
    && Within(SumTree(0, |e|), |e|)
    && (forall i | 0 <= i < |options| :: p[i] == m.div(e[i], Eval(SumTree(0, |e|), e, m.add, m.zero)))
  }

  lemma {:induction false} LargestIs(values: seq<Float>, n: nat)
    requires 0 < n <= |values| && AllFinite(values)
    ensures forall i | 0 <= i < n :: values[i].v <= Largest(values, n)
    ensures exists i | 0 <= i < n :: values[i].v == Largest(values, n)
  {
    if n == 1 {
      assert values[0].v == Largest(values, 1);
    } else {
      LargestIs(values, n - 1);
      var i :| 0 <= i < n - 1 && values[i].v == Largest(values, n - 1);
      assert values[if Largest(values, n - 1) >= values[n - 1].v then i else n - 1].v == Largest(values, n);
    }
  }

  /** What the passes compute, whatever the machine rounds: these vectors, if they stay finite and end in a distribution. */
  lemma SoftmaxPasses(m: Machine, t: Float, options: seq<Float>)
    requires options != [] && Softmax(m, t, options).Ok?
    ensures exists scaled: seq<Float>, max: real, e: seq<Float> :: ArePasses(m, t, options, scaled, max, e, Softmax(m, t, options).value)
  {
    var scaled := Mapped(options, v => m.div(v, t));
    LargestIs(scaled, |scaled|);
    var max := Largest(scaled, |scaled|);
    var shifted := Mapped(scaled, v => m.sub(v, Float.Number(max)));
    var e := Mapped(shifted, m.exp);
    SumTreeWithin(0, |e|, |e|);
    var p := Normalised(m, e);
    assert ArePasses(m, t, options, scaled, max, e, p) by {
      forall i | 0 <= i < |options| ensures m.sub(scaled[i], Float.Number(max)).Number? { assert shifted[i].Number?; }
      var i :| 0 <= i < |scaled| && scaled[i].v == max;
      assert scaled[i] == Float.Number(max);
    }
  }

  function ProbabilitiesOf(m: Machine, cal: Calibration, c: Criteria, logits: seq<Float>): Result<seq<Float>, OutputError>
    requires |cal.temperature| == 3
  {
    if !AllFinite(logits) then Err(BadNumber)
    else if |logits| < Len(c) || Len(c) < 2 then Err(OutputIndex)
    else
      var t := m.narrow(Temperature(cal, c));
      if !Usable(t) then Err(BadNumber) else Softmax(m, t, logits[..Len(c)])
  }

  /** Padding must be finite, and does not matter otherwise. */
  lemma PaddingIgnored(m: Machine, cal: Calibration, c: Criteria, a: seq<Float>, b: seq<Float>)
    requires |cal.temperature| == 3
    requires AllFinite(a) && AllFinite(b) && Len(c) <= |a| && Len(c) <= |b|
    requires forall j | 0 <= j < Len(c) :: a[j] == b[j]
    ensures ProbabilitiesOf(m, cal, c, a) == ProbabilitiesOf(m, cal, c, b)
  {
    assert a[..Len(c)] == b[..Len(c)];
  }

  lemma ProbabilitiesAre(m: Machine, cal: Calibration, c: Criteria, logits: seq<Float>)
    requires |cal.temperature| == 3 && ProbabilitiesOf(m, cal, c, logits).Ok?
    ensures var p := ProbabilitiesOf(m, cal, c, logits).value;
            && |p| == Len(c) >= 2 && AllFinite(p)
            && (forall i | 0 <= i < |p| :: 0.0 <= p[i].v <= 1.0)
            && Abs(RealSum(p, |p|) - 1.0) <= TOLERANCE
  {
  }

  // ---- Answers ----

  function RoundOf(v: Float): Result<real, OutputError> {
    if v.Number? then Ok(Round4(v.v)) else Err(BadNumber)
  }

  function ConfidenceOf(m: Machine, p: seq<Float>): Result<real, OutputError> {
    RoundOf(m.certainty(Total(m, Mapped(p, m.entropyTerm)), |p|))
  }

  /** The first of the largest values among the first n. */
  function FirstMax(p: seq<Float>, n: nat): (best: nat)
    requires 0 < n <= |p| && AllFinite(p)
    ensures best < n
  {
    if n == 1 then 0
    else
      var best := FirstMax(p, n - 1);
      if p[n - 1].v > p[best].v then n - 1 else best
  }

  predicate IsFirstMax(p: seq<Float>, best: nat)
    requires best < |p| && AllFinite(p)
  {
    && (forall i | 0 <= i < |p| :: p[i].v <= p[best].v)
    && (forall i | 0 <= i < best :: p[i].v < p[best].v)
  }

  lemma {:induction false} FirstMaxBounds(p: seq<Float>, n: nat, i: nat)
    requires 0 < n <= |p| && AllFinite(p) && i < n
    ensures var best := FirstMax(p, n); p[i].v <= p[best].v && (i < best ==> p[i].v < p[best].v)
    decreases n
  {
    if n == 1 {
    } else {
      FirstMaxBounds(p, n - 1, if i < n - 1 then i else 0);
      FirstMaxBounds(p, n - 1, FirstMax(p, n - 1));
    }
  }

  lemma FirstMaxIs(p: seq<Float>)
    requires p != [] && AllFinite(p)
    ensures IsFirstMax(p, FirstMax(p, |p|))
  {
    forall i | 0 <= i < |p|
      ensures p[i].v <= p[FirstMax(p, |p|)].v && (i < FirstMax(p, |p|) ==> p[i].v < p[FirstMax(p, |p|)].v)
    {
      FirstMaxBounds(p, |p|, i);
    }
  }

  function Rounded(keys: seq<string>, p: seq<Float>): seq<(string, real)>
    requires |keys| == |p| && AllFinite(p)
  {
    seq(|p|, i requires 0 <= i < |p| => (keys[i], Round4(p[i].v)))
  }

  function Keys(options: seq<ChoiceOption>): seq<string> {
    seq(|options|, i requires 0 <= i < |options| => options[i].key)
  }

  function Numbers(n: nat): seq<string> { seq(n, i requires 0 <= i < n => Decimal.NatText(i)) }

  function Legend(levels: seq<string>): seq<(string, string)> {
    seq(|levels|, i requires 0 <= i < |levels| => (Decimal.NatText(i), levels[i]))
  }

  /** Sum of i p_i, in exact arithmetic. */
  function Expected(p: seq<Float>, n: nat): real
    requires n <= |p| && AllFinite(p)
  {
    if n == 0 then 0.0 else Expected(p, n - 1) + (n - 1) as real * p[n - 1].v
  }

  /** For each of the indices 1 to k, the sum of the first n values from that index on. */
  function Tails(p: seq<Float>, n: nat, k: nat): real
    requires k <= n <= |p| && AllFinite(p)
  {
    if k == 0 then 0.0 else Tails(p, n, k - 1) + (RealSum(p, n) - RealSum(p, k))
  }

  lemma {:induction false} TailsGrow(p: seq<Float>, n: nat, k: nat)
    requires k < n <= |p| && AllFinite(p)
    ensures Tails(p, n, k) == Tails(p, n - 1, k) + k as real * p[n - 1].v
  {
    if k == 0 {
    } else {
      TailsGrow(p, n, k - 1);
      var v := p[n - 1].v;
      assert k as real * v == (k - 1) as real * v + v;
    }
  }

  /** The expected index is the sum of the chances of reaching index 1, 2 and so on. */
  lemma {:induction false} ExpectedIsTails(p: seq<Float>, n: nat)
    requires n <= |p| && AllFinite(p)
    ensures Expected(p, n) == Tails(p, n, n)
  {
    if n == 0 {
    } else {
      ExpectedIsTails(p, n - 1);
      TailsGrow(p, n, n - 1);
    }
  }

  function AnswerOf(m: Machine, c: Criteria, p: seq<Float>, act: Float): Result<Answer, OutputError>
    requires AllFinite(p) && |p| == Len(c) >= 2
  {
    match c
    case Noul(_, _) => Ok(NoulAnswer(Round4(p[1].v), act))
    case Choice(options) =>
      (match ConfidenceOf(m, p)
       case Err(e) => Err(e)
       case Ok(confidence) =>
         Ok(ChoiceAnswer(options[FirstMax(p, |p|)].key, Rounded(Keys(options), p), confidence, act)))
    case Score(levels) =>
      match ConfidenceOf(m, p)
      case Err(e) => Err(e)
      case Ok(confidence) =>
        Ok(ScoreAnswer(Round4(Expected(p, |p|)), Legend(levels), Rounded(Numbers(|p|), p), confidence, act))
  }

  // ---- The whole response ----

  function ValidateShape(shape: seq<int>, values: seq<Float>, b: nat, k: nat): Option<OutputError> {
    if b > Sequence.I64_MAX || k > Sequence.I64_MAX || b == 0 || k < 2 || shape != [b, k] || b * k != |values| then Some(BadShape)
    else if !AllFinite(values) then Some(BadNumber)
    else None
  }

  /** Row i of both buffers: the logits of all slots, and the two action values. */
  datatype RowOutput = RowOutput(logits: seq<Float>, act: seq<Float>)

  predicate Sized(values: seq<Float>, b: nat, width: nat) { |values| == b * width }

  function Slice(values: seq<Float>, b: nat, width: nat, i: nat): (row: seq<Float>)
    requires Sized(values, b, width) && i < b
    ensures |row| == width
  {
    Room(i, b, width);
    RowSlice(values, width, i)
  }

  predicate Filled(o: Outputs, b: nat, k: nat) { Sized(o.logits, b, k) && Sized(o.act, b, 2) }

  function RowsOf(o: Outputs, b: nat, k: nat): (rows: seq<RowOutput>)
    requires Filled(o, b, k)
    ensures |rows| == b && Paired(rows)
  {
    seq(b, i requires 0 <= i < b => RowOutput(Slice(o.logits, b, k, i), Slice(o.act, b, 2, i)))
  }

  predicate Paired(rows: seq<RowOutput>) { forall i | 0 <= i < |rows| :: |rows[i].act| == 2 }

  function QuestionAnswer(m: Machine, cal: Calibration, c: Criteria, row: RowOutput): Result<Answer, OutputError>
    requires |cal.temperature| == 3 && |row.act| == 2
  {
    match Distribution(row.act)
    case Some(e) => Err(e)
    case None =>
      match ProbabilitiesOf(m, cal, c, row.logits)
      case Err(e) => Err(e)
      case Ok(p) => AnswerOf(m, c, p, row.act[0])
  }

  /** The answer that a row gives, under its question's name. */
  function NamedAnswer(m: Machine, cal: Calibration, q: Question, row: RowOutput): Result<(string, Answer), OutputError>
    requires |cal.temperature| == 3 && |row.act| == 2
  {
    match QuestionAnswer(m, cal, q.criteria, row)
    case Err(e) => Err(e)
    case Ok(answer) => Ok((q.name, answer))
  }

  function NamedAnswers(m: Machine, cal: Calibration, questions: seq<Question>, rows: seq<RowOutput>):
    (rs: seq<Result<(string, Answer), OutputError>>)
    requires |cal.temperature| == 3 && |questions| == |rows| && Paired(rows)
    ensures |rs| == |rows|
  {
    seq(|rows|, i requires 0 <= i < |rows| => NamedAnswer(m, cal, questions[i], rows[i]))
  }

  function Slots(request: Request): nat { MostOptions(request.questions, |request.questions|) }

  function ShapeError(request: Request, o: Outputs): Option<OutputError> {
    if request.questions == [] then Some(BadShape)
    else
      var b := |request.questions|;
      match ValidateShape(o.logitsShape, o.logits, b, Slots(request))
      case Some(e) => Some(e)
      case None => ValidateShape(o.actShape, o.act, b, 2)
  }

  function ResponseOf(m: Machine, cal: Calibration, request: Request, o: Outputs, inputTokens: nat):
    Result<Response, OutputError>
    requires |cal.temperature| == 3
  {
    match ShapeError(request, o)
    case Some(e) => Err(e)
    case None =>
      var b := |request.questions|;
      match Gathered(NamedAnswers(m, cal, request.questions, RowsOf(o, b, Slots(request))), b)
      case Err(e) => Err(e)
      case Ok(answers) => Ok(Response(answers, inputTokens))
  }

  /** Outputs pass the shape check exactly if both have one row per question, the logits a column per slot, and every value is finite. */
  lemma ShapeExactly(request: Request, o: Outputs)
    ensures ShapeError(request, o).None? <==>
      var b, k := |request.questions|, Slots(request);
      && 0 < b <= Sequence.I64_MAX && 2 <= k <= Sequence.I64_MAX
      && o.logitsShape == [b, k] && |o.logits| == b * k && AllFinite(o.logits)
      && o.actShape == [b, 2] && |o.act| == b * 2 && AllFinite(o.act)
  {
  }

  lemma FactorsFit(b: nat, k: nat)
    requires b > 0 && k > 0 && b * k <= Sequence.I64_MAX
    ensures b <= Sequence.I64_MAX && k <= Sequence.I64_MAX
  {
    assert b * k >= b * 1 && b * k >= 1 * k;
  }

  /** A model that answers each row and slot of the batch built for a request passes the shape check. */
  lemma BatchShapePasses(b: SequenceBuilder.Builder, encode: RequestBatch.Encoder, request: Request, o: Outputs)
    requires RequestBatch.Readable(request) && RequestBatch.BuildOf(b, encode, request).Ok?
    requires var batch := RequestBatch.BuildOf(b, encode, request).value;
             && o.logitsShape == [batch.rows, batch.slots] && |o.logits| == batch.rows * batch.slots
             && o.actShape == [batch.rows, 2] && |o.act| == batch.rows * 2
    ensures AllFinite(o.logits) && AllFinite(o.act) <==> ShapeError(request, o).None?
    ensures ShapeError(request, o) != Some(BadShape)
  {
    RequestBatch.BatchFitsRequest(b, encode, request);
    var batch := RequestBatch.BuildOf(b, encode, request).value;
    FactorsFit(batch.rows, batch.slots);
  }

  // ---- Row independence ----

  /** Value `at` of two buffers. */
  predicate SameValue(a: seq<Float>, b: seq<Float>, at: nat) { at < |a| && at < |b| && a[at] == b[at] }

  /** The buffers agree wherever a real option of some question has its logit: at i k + j. */
  ghost predicate SameOptions(request: Request, a: Outputs, b: Outputs) {
    var k := Slots(request);
    forall i: nat, j: nat | i < |request.questions| && j < Len(request.questions[i].criteria) ::
      SameSlot(a, b, k, i, j)
  }

  predicate SameSlot(a: Outputs, b: Outputs, k: nat, i: nat, j: nat) { SameValue(a.logits, b.logits, i * k + j) }

  /** Row i is where the buffers say it is. */
  lemma RowIs(o: Outputs, b: nat, k: nat, i: nat)
    requires Filled(o, b, k) && i < b
    ensures i * k + k <= |o.logits| && 2 * i + 2 <= |o.act|
    ensures RowsOf(o, b, k)[i] == RowOutput(o.logits[i * k..i * k + k], o.act[2 * i..2 * i + 2])
  {
    Room(i, b, k);
  }

  lemma {:induction false} MostIsMost(questions: seq<Question>, n: nat, i: nat)
    requires i < n <= |questions|
    ensures Len(questions[i].criteria) <= MostOptions(questions, n)
  {
    if i == n - 1 {
    } else {
      MostIsMost(questions, n - 1, i);
    }
  }

  lemma SlotInRow(o: Outputs, b: nat, k: nat, i: nat, j: nat)
    requires Filled(o, b, k) && i < b && j < k
    ensures i * k + j < |o.logits| && RowsOf(o, b, k)[i].logits[j] == o.logits[i * k + j]
  {
    RowIs(o, b, k, i);
  }

  lemma SameRowLogits(request: Request, a: Outputs, b: Outputs, i: nat)
    requires i < |request.questions| && SameOptions(request, a, b)
    requires Filled(a, |request.questions|, Slots(request)) && Filled(b, |request.questions|, Slots(request))
    ensures var n, k, m := |request.questions|, Slots(request), Len(request.questions[i].criteria);
            m <= k && forall j | 0 <= j < m :: RowsOf(a, n, k)[i].logits[j] == RowsOf(b, n, k)[i].logits[j]
  {
    var n, k, m := |request.questions|, Slots(request), Len(request.questions[i].criteria);
    MostIsMost(request.questions, n, i);
    forall j | 0 <= j < m ensures RowsOf(a, n, k)[i].logits[j] == RowsOf(b, n, k)[i].logits[j] {
      assert SameSlot(a, b, k, i, j);
      SlotInRow(a, n, k, i, j);
      SlotInRow(b, n, k, i, j);
    }
  }

  lemma RowsFinite(o: Outputs, b: nat, k: nat, i: nat)
    requires Filled(o, b, k) && AllFinite(o.logits) && i < b
    ensures AllFinite(RowsOf(o, b, k)[i].logits)
  {
    Room(i, b, k);
    var at := i * k;
    assert RowsOf(o, b, k)[i].logits == o.logits[at..at + k];
  }

  lemma SameActs(a: Outputs, b: Outputs, n: nat, k: nat, i: nat)
    requires Filled(a, n, k) && Filled(b, n, k) && a.act == b.act && i < n
    ensures RowsOf(a, n, k)[i].act == RowsOf(b, n, k)[i].act
  {
  }

  /**
   Two outputs of valid shape that agree on the action values and on the slots of real options
   give the same response, or the same error, whatever the finite padding is.
   */
  lemma PaddingIrrelevant(m: Machine, cal: Calibration, request: Request, a: Outputs, b: Outputs, inputTokens: nat)
    requires |cal.temperature| == 3
    requires ShapeError(request, a).None? && ShapeError(request, b).None?
    requires SameOptions(request, a, b) && a.act == b.act
    ensures ResponseOf(m, cal, request, a, inputTokens) == ResponseOf(m, cal, request, b, inputTokens)
  {
    var n, k := |request.questions|, Slots(request);
    var rowsA, rowsB := RowsOf(a, n, k), RowsOf(b, n, k);
    var namedA, namedB := NamedAnswers(m, cal, request.questions, rowsA), NamedAnswers(m, cal, request.questions, rowsB);
    forall i | 0 <= i < n ensures namedA[i] == namedB[i] {
      RowsFinite(a, n, k, i);
      RowsFinite(b, n, k, i);
      SameActs(a, b, n, k, i);
      SameRowLogits(request, a, b, i);
      PaddingIgnored(m, cal, request.questions[i].criteria, rowsA[i].logits, rowsB[i].logits);
    }
    assert namedA == namedB;
  }

  // ---- What an answer says ----

  /** The answer was given to question q, from a distribution over its options, out of the given logits and action values. */
  ghost predicate Answers(m: Machine, cal: Calibration, q: Question, logits: seq<Float>, act: seq<Float>, named: (string, Answer))
    requires |cal.temperature| == 3
  {
    && named.0 == q.name
    && ProbabilitiesOf(m, cal, q.criteria, logits).Ok?
    && |act| == 2 && Distribution(act).None?
    && Faithful(m, q.criteria, ProbabilitiesOf(m, cal, q.criteria, logits).value, act[0], named.1)
  }

  /** It came out of places i k to i k + k of the logits, and 2 i and 2 i + 1 of the action values. */
  ghost predicate AnswersAt(m: Machine, cal: Calibration, q: Question, o: Outputs, k: nat, i: nat, named: (string, Answer))
    requires |cal.temperature| == 3
  {
    && i * k + k <= |o.logits| && 2 * i + 2 <= |o.act|
    && Answers(m, cal, q, o.logits[i * k..i * k + k], o.act[2 * i..2 * i + 2], named)
  }

  /** What the answer reports of the probabilities p. */
  ghost predicate Faithful(m: Machine, c: Criteria, p: seq<Float>, act: Float, answer: Answer) {
    && AllFinite(p) && |p| == Len(c) >= 2
    && answer.act == act
    && match answer
       case NoulAnswer(noul, _) => c.Noul? && noul == Round4(p[1].v)
       case ChoiceAnswer(choice, reported, confidence, _) =>
         && c.Choice? && Reports(p, reported) && ChoosesFirstMax(c.options, p, choice, reported)
         && (forall i | 0 <= i < |p| :: reported[i].0 == c.options[i].key)
         && IsConfidence(m, p, confidence)
       case ScoreAnswer(score, legend, reported, confidence, _) =>
         && c.Score? && Reports(p, reported) && |legend| == |p|
         && (forall i | 0 <= i < |p| :: reported[i].0 == Decimal.NatText(i) && legend[i] == (Decimal.NatText(i), c.levels[i]))
         && score == Round4(Expected(p, |p|)) && -0.00005 <= score <= 1.00011 * (|p| - 1) as real + 0.00005
         && IsConfidence(m, p, confidence)
  }

  /** The entropy terms of all probabilities, added in the pairwise order, give the confidence. */
  ghost predicate IsConfidence(m: Machine, p: seq<Float>, confidence: real) {
    exists terms: seq<Float>, v: real ::
      && |terms| == |p| && (forall i | 0 <= i < |p| :: terms[i] == m.entropyTerm(p[i]))
      && Within(SumTree(0, |p|), |terms|)
      && m.certainty(Eval(SumTree(0, |p|), terms, m.add, m.zero), |p|) == Float.Number(v)
      && confidence == Round4(v)
  }

  lemma ConfidenceIs(m: Machine, p: seq<Float>)
    requires ConfidenceOf(m, p).Ok?
    ensures IsConfidence(m, p, ConfidenceOf(m, p).value)
  {
    var terms := Mapped(p, m.entropyTerm);
    SumTreeWithin(0, |p|, |p|);
    assert m.certainty(Eval(SumTree(0, |p|), terms, m.add, m.zero), |p|) == m.certainty(Total(m, terms), |p|);
  }

  function ReportedSum(reported: seq<(string, real)>, n: nat): real
    requires n <= |reported|
  {
    if n == 0 then 0.0 else ReportedSum(reported, n - 1) + reported[n - 1].1
  }

  /** One entry per option, rounded: each within half a unit, all of them within k halves of the sum, in the same order. */
  ghost predicate Reports(p: seq<Float>, reported: seq<(string, real)>)
    requires AllFinite(p)
  {
    && |reported| == |p|
    && (forall i | 0 <= i < |p| :: reported[i].1 == Round4(p[i].v) && Abs(reported[i].1 - p[i].v) <= 0.00005)
    && (forall i, j | 0 <= i < |p| && 0 <= j < |p| :: p[i].v <= p[j].v ==> reported[i].1 <= reported[j].1)
    && Abs(ReportedSum(reported, |p|) - RealSum(p, |p|)) <= 0.00005 * |p| as real
  }

  /** The choice is the first option of the largest exact probability; no other is reported above it. */
  ghost predicate ChoosesFirstMax(options: seq<ChoiceOption>, p: seq<Float>, choice: string, reported: seq<(string, real)>)
    requires AllFinite(p) && |p| == |options| == |reported|
  {
    exists best: nat | best < |p| ::
      IsFirstMax(p, best) && choice == options[best].key && (forall i | 0 <= i < |p| :: reported[i].1 <= reported[best].1)
  }

  lemma {:induction false} SumIsClose(keys: seq<string>, p: seq<Float>, n: nat)
    requires |keys| == |p| && AllFinite(p) && n <= |p|
    ensures Abs(ReportedSum(Rounded(keys, p), n) - RealSum(p, n)) <= 0.00005 * n as real
  {
    if n == 0 {
    } else {
      SumIsClose(keys, p, n - 1);
      Round4Means(p[n - 1].v, 0.0);
    }
  }

  lemma RoundedReports(keys: seq<string>, p: seq<Float>)
    requires |keys| == |p| && AllFinite(p)
    ensures Reports(p, Rounded(keys, p))
  {
    forall i | 0 <= i < |p| ensures Abs(Round4(p[i].v) - p[i].v) <= 0.00005 { Round4Means(p[i].v, 0.0); }
    forall i, j | 0 <= i < |p| && 0 <= j < |p| && p[i].v <= p[j].v ensures Round4(p[i].v) <= Round4(p[j].v) {
      Round4Means(p[i].v, p[j].v);
    }
    SumIsClose(keys, p, |p|);
  }

  lemma {:induction false} ExpectedBounds(p: seq<Float>, n: nat, top: nat)
    requires n <= |p| && AllFinite(p) && n <= top + 1
    requires forall i | 0 <= i < |p| :: 0.0 <= p[i].v
    ensures 0.0 <= Expected(p, n) <= top as real * RealSum(p, n)
  {
    if n == 0 {
    } else {
      ExpectedBounds(p, n - 1, top);
      var v := p[n - 1].v;
      Scale((n - 1) as real, top as real, v);
      assert top as real * (RealSum(p, n - 1) + v) == top as real * RealSum(p, n - 1) + top as real * v;
    }
  }

  lemma Scale(a: real, b: real, v: real)
    requires 0.0 <= a <= b && 0.0 <= v
    ensures 0.0 <= a * v <= b * v
  {
    assert (b - a) * v >= 0.0;
  }

  lemma ChoiceIsFirstMax(options: seq<ChoiceOption>, p: seq<Float>)
    requires AllFinite(p) && |p| == |options| >= 2
    ensures ChoosesFirstMax(options, p, options[FirstMax(p, |p|)].key, Rounded(Keys(options), p))
  {
    FirstMaxIs(p);
    var best := FirstMax(p, |p|);
    var reported := Rounded(Keys(options), p);
    forall i | 0 <= i < |p| ensures reported[i].1 <= reported[best].1 { Round4Means(p[i].v, p[best].v); }
  }

  lemma ScoreInRange(p: seq<Float>)
    requires AllFinite(p) && |p| >= 2 && Distribution(p).None?
    ensures -0.00005 <= Round4(Expected(p, |p|)) <= 1.00011 * (|p| - 1) as real + 0.00005
    ensures Abs(Round4(Expected(p, |p|)) - Expected(p, |p|)) <= 0.00005
  {
    var top := |p| - 1;
    ExpectedBounds(p, |p|, top);
    Scale(top as real, top as real, 1.00011 - RealSum(p, |p|));
    assert top as real * (1.00011 - RealSum(p, |p|)) == top as real * 1.00011 - top as real * RealSum(p, |p|);
    Round4Means(Expected(p, |p|), 0.0);
  }

  lemma AnswerIsFaithful(m: Machine, c: Criteria, p: seq<Float>, act: Float)
    requires AllFinite(p) && |p| == Len(c) >= 2 && Distribution(p).None?
    requires AnswerOf(m, c, p, act).Ok?
    ensures Faithful(m, c, p, act, AnswerOf(m, c, p, act).value)
  {
    match c
    case Noul(_, _) => Round4Means(p[1].v, 0.0);
    case Choice(options) =>
      RoundedReports(Keys(options), p);
      ChoiceIsFirstMax(options, p);
      ConfidenceIs(m, p);
    case Score(levels) =>
      RoundedReports(Numbers(|p|), p);
      ScoreInRange(p);
      ConfidenceIs(m, p);
  }

  lemma AnswerIsAnswer(m: Machine, cal: Calibration, q: Question, row: RowOutput, named: (string, Answer))
    requires |cal.temperature| == 3 && |row.act| == 2
    requires named.0 == q.name && QuestionAnswer(m, cal, q.criteria, row) == Ok(named.1)
    ensures Answers(m, cal, q, row.logits, row.act, named)
  {
    ProbabilitiesAre(m, cal, q.criteria, row.logits);
    AnswerIsFaithful(m, q.criteria, ProbabilitiesOf(m, cal, q.criteria, row.logits).value, row.act[0]);
  }

  /** Answer i of a response is the answer to question i, given from row i. */
  lemma ResponseRow(m: Machine, cal: Calibration, request: Request, o: Outputs, inputTokens: nat, i: nat)
    requires |cal.temperature| == 3 && ResponseOf(m, cal, request, o, inputTokens).Ok? && i < |request.questions|
    ensures var n, k := |request.questions|, Slots(request);
            var r := ResponseOf(m, cal, request, o, inputTokens).value;
            && Filled(o, n, k) && |r.answers| == n
            && r.answers[i].0 == request.questions[i].name
            && QuestionAnswer(m, cal, request.questions[i].criteria, RowsOf(o, n, k)[i]) == Ok(r.answers[i].1)
  {
    var n := |request.questions|;
    var r, rows := ResponseOf(m, cal, request, o, inputTokens).value, RowsOf(o, n, Slots(request));
    var named := NamedAnswers(m, cal, request.questions, rows);
    GatheredAre(named, n);
    assert named[i] == Ok(r.answers[i]);
  }

  /** A response answers every question, in request order, each from its own places in the buffers alone. */
  lemma ResponseIsFaithful(m: Machine, cal: Calibration, request: Request, o: Outputs, inputTokens: nat)
    requires |cal.temperature| == 3 && ResponseOf(m, cal, request, o, inputTokens).Ok?
    ensures var r, k := ResponseOf(m, cal, request, o, inputTokens).value, Slots(request);
            && r.inputTokens == inputTokens && |r.answers| == |request.questions|
            && forall i | 0 <= i < |r.answers| :: AnswersAt(m, cal, request.questions[i], o, k, i, r.answers[i])
  {
    var r, k := ResponseOf(m, cal, request, o, inputTokens).value, Slots(request);
    ResponseRow(m, cal, request, o, inputTokens, 0);
    forall i | 0 <= i < |r.answers| ensures AnswersAt(m, cal, request.questions[i], o, k, i, r.answers[i]) {
      ResponseRow(m, cal, request, o, inputTokens, i);
      RowIs(o, |request.questions|, k, i);
      AnswerIsAnswer(m, cal, request.questions[i], RowsOf(o, |request.questions|, k)[i], r.answers[i]);
    }
  }

  /** Two outputs agree on what question i is answered from. */
  predicate SamePlaces(a: Outputs, b: Outputs, k: nat, i: nat) {
    && i * k + k <= |a.logits| && i * k + k <= |b.logits| && a.logits[i * k..i * k + k] == b.logits[i * k..i * k + k]
    && 2 * i + 2 <= |a.act| && 2 * i + 2 <= |b.act| && a.act[2 * i..2 * i + 2] == b.act[2 * i..2 * i + 2]
  }

  /** Whatever the other rows hold: accepted outputs that agree on the places of question i give it the same answer. */
  lemma OtherRowsIrrelevant(m: Machine, cal: Calibration, request: Request, a: Outputs, b: Outputs, s: nat, t: nat, i: nat)
    requires |cal.temperature| == 3 && i < |request.questions|
    requires ResponseOf(m, cal, request, a, s).Ok? && ResponseOf(m, cal, request, b, t).Ok?
    requires SamePlaces(a, b, Slots(request), i)
    ensures |ResponseOf(m, cal, request, a, s).value.answers| == |ResponseOf(m, cal, request, b, t).value.answers|
         == |request.questions|
    ensures ResponseOf(m, cal, request, a, s).value.answers[i] == ResponseOf(m, cal, request, b, t).value.answers[i]
  {
    var n, k := |request.questions|, Slots(request);
    ResponseRow(m, cal, request, a, s, i);
    ResponseRow(m, cal, request, b, t, i);
    RowIs(a, n, k, i);
    RowIs(b, n, k, i);
  }

  // ---- When there is a response ----

  /** An answer is given exactly where its confidence, if it has one, is finite. */
  lemma AnswerExactly(m: Machine, c: Criteria, p: seq<Float>, act: Float)
    requires AllFinite(p) && |p| == Len(c) >= 2
    ensures AnswerOf(m, c, p, act).Ok? <==> c.Noul? || m.certainty(Total(m, Mapped(p, m.entropyTerm)), |p|).Number?
  {
  }

  /** Row i can be answered: its action values form a distribution, its logits give probabilities, and these a confidence. */
  predicate Answerable(m: Machine, cal: Calibration, c: Criteria, row: RowOutput)
    requires |cal.temperature| == 3
  {
    && Distribution(row.act).None?
    && ProbabilitiesOf(m, cal, c, row.logits).Ok?
    && var p := ProbabilitiesOf(m, cal, c, row.logits).value;
       c.Noul? || m.certainty(Total(m, Mapped(p, m.entropyTerm)), |p|).Number?
  }

  lemma RowAnswersExactly(m: Machine, cal: Calibration, q: Question, row: RowOutput)
    requires |cal.temperature| == 3 && |row.act| == 2
    ensures NamedAnswer(m, cal, q, row).Ok? <==> Answerable(m, cal, q.criteria, row)
  {
    var p := ProbabilitiesOf(m, cal, q.criteria, row.logits);
    if p.Ok? {
      ProbabilitiesAre(m, cal, q.criteria, row.logits);
      AnswerExactly(m, q.criteria, p.value, row.act[0]);
    }
  }

  /** There is a response if and only if the shapes are right and every row can be answered. */
  lemma ResponseExactly(m: Machine, cal: Calibration, request: Request, o: Outputs, inputTokens: nat)
    requires |cal.temperature| == 3
    ensures ResponseOf(m, cal, request, o, inputTokens).Ok? <==>
      && ShapeError(request, o).None?
      && forall i | 0 <= i < |request.questions| ::
           Answerable(m, cal, request.questions[i].criteria, RowsOf(o, |request.questions|, Slots(request))[i])
  {
    if ShapeError(request, o).None? {
      var n := |request.questions|;
      var rows := RowsOf(o, n, Slots(request));
      var named := NamedAnswers(m, cal, request.questions, rows);
      GatheredAre(named, n);
      forall i | 0 <= i < n ensures named[i].Ok? <==> Answerable(m, cal, request.questions[i].criteria, rows[i]) {
        RowAnswersExactly(m, cal, request.questions[i], rows[i]);
      }
    }
  }

  // ---- The code ----

  /** One pass over a vector, in place. */
  method Apply(p: array<Float>, f: Float -> Float)
    modifies p
    ensures p[..] == Mapped(old(p[..]), f)
  {
    for i := 0 to p.Length
      invariant forall j | 0 <= j < i :: p[j] == f(old(p[j]))
      invariant forall j | i <= j < p.Length :: p[j] == old(p[j])
    {
      p[i] := f(p[i]);
    }
  }

  method MaxOf(p: array<Float>) returns (max: real)
    requires p.Length > 0 && AllFinite(p[..])
    ensures max == Largest(p[..], p.Length)
  {
    assert p[..][0] == p[0];
    max := p[0].v;
    for i := 1 to p.Length
      invariant max == Largest(p[..], i)
    {
      assert p[..][i] == p[i];
      if p[i].v > max { max := p[i].v; }
    }
  }

  method Probabilities(m: Machine, cal: Calibration, c: Criteria, logits: seq<Float>) returns (r: Result<seq<Float>, OutputError>)
    requires |cal.temperature| == 3
    ensures r == ProbabilitiesOf(m, cal, c, logits)
  {
    if !AllFinite(logits) { return Err(BadNumber); }
    var k := Len(c);
    if |logits| < k || k < 2 { return Err(OutputIndex); }
    var temperature := m.narrow(Temperature(cal, c));
    if !Usable(temperature) { return Err(BadNumber); }
    var p := new Float[k](i requires 0 <= i < k => logits[i]);
    assert p[..] == logits[..k];
    r := SoftmaxInPlace(m, temperature, p);
  }

  method SoftmaxInPlace(m: Machine, temperature: Float, p: array<Float>) returns (r: Result<seq<Float>, OutputError>)
    requires p.Length > 0
    modifies p
    ensures r == Softmax(m, temperature, old(p[..]))
  {
    Apply(p, v => m.div(v, temperature));
    if !AllFinite(p[..]) { return Err(BadNumber); }
    var max := MaxOf(p);
    Apply(p, v => m.sub(v, Number(max)));
    if !AllFinite(p[..]) { return Err(BadNumber); }
    Apply(p, m.exp);
    var sum := NumpySum(p[..], 0, p.Length, m.add, m.zero);
    Apply(p, v => m.div(v, sum));
    match Distribution(p[..])
    case Some(e) => return Err(e);
    case None => return Ok(p[..]);
  }

  /** `answer`'s loop: the first option that no later one exceeds. */
  method BestIndex(p: seq<Float>) returns (best: nat)
    requires p != [] && AllFinite(p)
    ensures best < |p| && IsFirstMax(p, best) && best == FirstMax(p, |p|)
  {
    best := 0;
    for i := 1 to |p|
      invariant best == FirstMax(p, i)
    {
      if p[i].v > p[best].v { best := i; }
    }
    FirstMaxIs(p);
  }

  method Confidence(m: Machine, p: seq<Float>) returns (r: Result<real, OutputError>)
    ensures r == ConfidenceOf(m, p)
  {
    var terms := Mapped(p, m.entropyTerm);
    var sum := NumpySum(terms, 0, |terms|, m.add, m.zero);
    return RoundOf(m.certainty(sum, |p|));
  }

  method AnswerQuestion(m: Machine, c: Criteria, p: seq<Float>, act: Float) returns (r: Result<Answer, OutputError>)
    requires AllFinite(p) && |p| == Len(c) >= 2
    ensures r == AnswerOf(m, c, p, act)
  {
    if c.Noul? { return Ok(NoulAnswer(Round4(p[1].v), act)); }
    var confidence := Confidence(m, p);
    match c {
      case Choice(options) =>
        var best := BestIndex(p);
        if confidence.Err? { return Err(confidence.error); }
        return Ok(ChoiceAnswer(options[best].key, Rounded(Keys(options), p), confidence.value, act));
      case Score(levels) =>
        var score := 0.0;
        for i := 0 to |p|
          invariant score == Expected(p, i)
        {
          score := score + i as real * p[i].v;
        }
        if confidence.Err? { return Err(confidence.error); }
        return Ok(ScoreAnswer(Round4(score), Legend(levels), Rounded(Numbers(|p|), p), confidence.value, act));
    }
  }

  method AnswerRow(m: Machine, cal: Calibration, c: Criteria, row: RowOutput) returns (r: Result<Answer, OutputError>)
    requires |cal.temperature| == 3 && |row.act| == 2
    ensures r == QuestionAnswer(m, cal, c, row)
  {
    var checked := Distribution(row.act);
    if checked.Some? { return Err(checked.value); }
    var p := Probabilities(m, cal, c, row.logits);
    if p.Err? { return Err(p.error); }
    r := AnswerQuestion(m, c, p.value, row.act[0]);
  }

  method Respond(m: Machine, cal: Calibration, request: Request, o: Outputs, inputTokens: nat)
    returns (r: Result<Response, OutputError>)
    requires |cal.temperature| == 3
    ensures r == ResponseOf(m, cal, request, o, inputTokens)
  {
    var shape := ShapeError(request, o);
    if shape.Some? { return Err(shape.value); }
    var rows := RowsOf(o, |request.questions|, Slots(request));
    ghost var named := NamedAnswers(m, cal, request.questions, rows);
    var answers: seq<(string, Answer)> := [];
    for i := 0 to |rows|
      invariant Gathered(named, i) == Ok(answers)
    {
      var answer := AnswerRow(m, cal, request.questions[i].criteria, rows[i]);
      GatherMore(named, i, answers);
      if answer.Err? { return Err(answer.error); }
      answers := answers + [(request.questions[i].name, answer.value)];
    }
    return Ok(Response(answers, inputTokens));
  }
}
