/** `SequenceBuilder::build` of src/sequence.rs: a normalised request as one batch. */
module RequestBatch {
  import opened Wrappers
  import opened Decimal
  import opened Json
  import opened JsonMachine
  import opened RequestModel
  import opened Sequence
  import opened SequenceBuilder
  import opened Batch

  /** The tokenizer: any function of the text that may fail. */
  type Encoder = string -> Option<seq<Token>>

  function Kind(c: Criteria): string {
    match c
    case Choice(_) => "choice"
    case Score(_) => "score"
    case Noul(_, _) => "noul"
  }

  function QType(c: Criteria): nat {
    match c
    case Choice(_) => 0
    case Score(_) => 1
    case Noul(_, _) => 2
  }

  function ChoiceText(o: ChoiceOption): string {
    if o.description.Some? && o.description.value != "" then o.key + ": " + o.description.value else o.key
  }

  function OptionTexts(c: Criteria): (texts: seq<string>)
    ensures |texts| == Len(c)
  {
    match c
    case Choice(options) => seq(|options|, i requires 0 <= i < |options| => ChoiceText(options[i]))
    case Score(levels) =>
      seq(|levels|, i requires 0 <= i < |levels| => "level " + NatText(i) + ": " + levels[i])
    case Noul(no, yes) => ["false: " + no, "true: " + yes]
  }

  /** Every Score level has a text of its own, also where descriptions repeat. */
  lemma LevelTextsDiffer(levels: seq<string>, i: nat, j: nat)
    requires i < |levels| && j < |levels| && i != j
    ensures OptionTexts(Score(levels))[i] != OptionTexts(Score(levels))[j]
  {
    LevelRead(i, levels[i]);
    LevelRead(j, levels[j]);
  }

  /** The number of the level can be read off its text. */
  lemma LevelRead(i: nat, description: string)
    ensures var text := "level " + NatText(i) + ": " + description;
            && Find(text, ':') == 6 + |NatText(i)| && Num(text[6..Find(text, ':')]) == i
  {
    var text := "level " + NatText(i) + ": " + description;
    var k := 6 + |NatText(i)|;
    assert text[6..k] == NatText(i);
    forall n | 0 <= n < k ensures text[n] != ':' {
      if n >= 6 { assert text[n] == NatText(i)[n - 6]; }
    }
    FindAt(text, ':', k);
  }

  /** The first n options: MASK and at most 48 tokens each. */
  function OptionTokens(sp: Special, encode: Encoder, texts: seq<string>, n: nat): Option<seq<seq<Token>>>
    requires n <= |texts|
  {
    if n == 0 then Some([])
    else
      match OptionTokens(sp, encode, texts, n - 1)
      case None => None
      case Some(done) =>
        match encode(" " + texts[n - 1])
        case None => None
        case Some(tokens) => Some(done + [[sp.mask] + Take(tokens, 48)])
  }

  function BuiltRow(b: Builder, header: seq<Token>, options: seq<seq<Token>>, state: seq<Token>, qtype: nat):
    Result<Row, SequenceError>
    requires options != []
  {
    if Overflows(b.maxLen, b.headMax, header, options, state) then Err(SizeOverflow)
    else RowOf(b.special, b.maxLen, b.headMax, header, options, state, qtype)
  }

  lemma {:induction false} OptionTokensAre(sp: Special, encode: Encoder, texts: seq<string>, n: nat)
    requires n <= |texts| && OptionTokens(sp, encode, texts, n).Some?
    ensures var options := OptionTokens(sp, encode, texts, n).value;
            && |options| == n && Sequence.Marked(sp, options)
            && forall i | 0 <= i < n :: 1 <= |options[i]| <= 49
  {
    if n == 0 {
    } else {
      OptionTokensAre(sp, encode, texts, n - 1);
    }
  }

  function HeaderOf(encode: Encoder, q: Question): Result<seq<Token>, SequenceError>
    requires WellFormed(q.instructions)
  {
    match Rendered(q.instructions, true)
    case Err(_) => Err(BadText)
    case Ok(instructions) =>
      match encode(Kind(q.criteria) + " question: " + instructions)
      case None => Err(TokenizerFailed)
      case Some(header) => Ok(header)
  }

  function OptionsOf(sp: Special, encode: Encoder, c: Criteria): (r: Option<seq<seq<Token>>>)
    ensures r.Some? ==> Sequence.Marked(sp, r.value) && |r.value| == Len(c)
    ensures r.Some? ==> forall i | 0 <= i < |r.value| :: |r.value[i]| <= 49
  {
    var r := OptionTokens(sp, encode, OptionTexts(c), Len(c));
    if r.Some? then OptionTokensAre(sp, encode, OptionTexts(c), Len(c)); r else r
  }

  function QuestionRow(b: Builder, encode: Encoder, q: Question, state: seq<Token>): Result<Row, SequenceError>
    requires WellFormed(q.instructions)
  {
    if Len(q.criteria) < 2 then Err(SequenceError.TooFewOptions)
    else
      match HeaderOf(encode, q)
      case Err(e) => Err(e)
      case Ok(header) =>
        match OptionsOf(b.special, encode, q.criteria)
        case None => Err(TokenizerFailed)
        case Some(options) => BuiltRow(b, header, options, state, QType(q.criteria))
  }

  predicate Readable(request: Request) {
    && WellFormed(request.state)
    && forall i | 0 <= i < |request.questions| :: WellFormed(request.questions[i].instructions)
  }

  /** The row of each question, or why there is none. */
  function EachRow(b: Builder, encode: Encoder, request: Request, state: seq<Token>): (rs: seq<Result<Row, SequenceError>>)
    requires Readable(request)
    ensures |rs| == |request.questions|
  {
    seq(|request.questions|, i requires 0 <= i < |request.questions| => QuestionRow(b, encode, request.questions[i], state))
  }

  /** The rows of all questions, or the first failure. */
  function RowsOf(b: Builder, encode: Encoder, request: Request, state: seq<Token>): Result<seq<Row>, SequenceError>
    requires Readable(request)
  {
    Gathered(EachRow(b, encode, request, state), |request.questions|)
  }

  function BuildOf(b: Builder, encode: Encoder, request: Request): Result<Batch, SequenceError>
    requires Readable(request)
  {
    if request.questions == [] then Err(NoQuestions)
    else
      match Rendered(request.state, false)
      case Err(_) => Err(BadText)
      case Ok(text) =>
        match encode(text)
        case None => Err(TokenizerFailed)
        case Some(state) =>
          match RowsOf(b, encode, request, state)
          case Err(e) => Err(e)
          case Ok(rows) => CollateOf(rows, b.special.pad)
  }

  // ---- The code ----

  method EncodeOptions(sp: Special, encode: Encoder, texts: seq<string>) returns (r: Option<seq<seq<Token>>>)
    ensures r == OptionTokens(sp, encode, texts, |texts|)
  {
    var options: seq<seq<Token>> := [];
    for i := 0 to |texts|
      invariant OptionTokens(sp, encode, texts, i) == Some(options)
    {
      var tokens := encode(" " + texts[i]);
      if tokens.None? {
        FailureSpreads(sp, encode, texts, i + 1, |texts|);
        return None;
      }
      options := options + [[sp.mask] + Take(tokens.value, 48)];
    }
    return Some(options);
  }

  lemma {:induction false} FailureSpreads(sp: Special, encode: Encoder, texts: seq<string>, n: nat, m: nat)
    requires n <= m <= |texts| && OptionTokens(sp, encode, texts, n).None?
    ensures OptionTokens(sp, encode, texts, m).None?
    decreases m
  {
    if n == m {
    } else {
      FailureSpreads(sp, encode, texts, n, m - 1);
    }
  }

  method BuildRow(b: Builder, encode: Encoder, q: Question, state: seq<Token>) returns (r: Result<Row, SequenceError>)
    requires b.Valid() && WellFormed(q.instructions)
    ensures r == QuestionRow(b, encode, q, state)
  {
    if Len(q.criteria) < 2 { return Err(SequenceError.TooFewOptions); }
    var instructions := Rendered(q.instructions, true);
    if instructions.Err? { return Err(BadText); }
    var header := encode(Kind(q.criteria) + " question: " + instructions.value);
    if header.None? { return Err(TokenizerFailed); }
    var options := EncodeOptions(b.special, encode, OptionTexts(q.criteria));
    if options.None? { return Err(TokenizerFailed); }
    assert options == OptionsOf(b.special, encode, q.criteria);
    r := b.Build(header.value, options.value, state, QType(q.criteria));
  }

  /** One more row behind those of the first i questions, or the failure of the whole. */
  method ExtendRows(b: Builder, encode: Encoder, request: Request, state: seq<Token>, i: nat, rows: seq<Row>)
    returns (r: Result<seq<Row>, SequenceError>)
    requires b.Valid() && Readable(request) && i < |request.questions|
    requires Gathered(EachRow(b, encode, request, state), i) == Ok(rows)
    ensures r.Ok? ==> Gathered(EachRow(b, encode, request, state), i + 1) == r
    ensures r.Err? ==> RowsOf(b, encode, request, state) == r
  {
    GatherMore(EachRow(b, encode, request, state), i, rows);
    var row := BuildRow(b, encode, request.questions[i], state);
    match row
    case Err(e) => return Err(e);
    case Ok(added) => return Ok(rows + [added]);
  }

  method BuildRows(b: Builder, encode: Encoder, request: Request, state: seq<Token>)
    returns (r: Result<seq<Row>, SequenceError>)
    requires b.Valid() && Readable(request)
    ensures r == RowsOf(b, encode, request, state)
  {
    r := Ok([]);
    for i := 0 to |request.questions|
      invariant r.Ok? && Gathered(EachRow(b, encode, request, state), i) == r
    {
      r := ExtendRows(b, encode, request, state, i, r.value);
      if r.Err? { return; }
    }
  }

  method Build(b: Builder, encode: Encoder, request: Request) returns (r: Result<Batch, SequenceError>)
    requires b.Valid() && Readable(request)
    ensures r == BuildOf(b, encode, request)
  {
    if request.questions == [] { return Err(NoQuestions); }
    var text := Rendered(request.state, false);
    if text.Err? { return Err(BadText); }
    var state := encode(text.value);
    if state.None? { return Err(TokenizerFailed); }
    var rows := BuildRows(b, encode, request, state.value);
    if rows.Err? { return Err(rows.error); }
    r := Collate(rows.value, b.special.pad);
  }

  // ---- What a built batch is ----

  predicate RowFits(b: Builder, q: Question, row: Row) {
    && PointsAtMasks(b.special, row)
    && |row.markers| == Len(q.criteria) >= 2
    && |row.ids| <= b.maxLen
    && row.qtype == QType(q.criteria)
  }

  lemma RowIsFit(b: Builder, encode: Encoder, q: Question, state: seq<Token>)
    requires WellFormed(q.instructions) && QuestionRow(b, encode, q, state).Ok?
    ensures RowFits(b, q, QuestionRow(b, encode, q, state).value)
  {
    var header := HeaderOf(encode, q).value;
    var options := OptionsOf(b.special, encode, q.criteria).value;
    RowKeepsEveryOption(b.special, b.maxLen, b.headMax, header, options, state, QType(q.criteria));
  }

  lemma RowsAreFit(b: Builder, encode: Encoder, request: Request, state: seq<Token>)
    requires Readable(request) && RowsOf(b, encode, request, state).Ok?
    ensures var rows := RowsOf(b, encode, request, state).value;
            && |rows| == |request.questions|
            && forall i | 0 <= i < |rows| :: RowFits(b, request.questions[i], rows[i])
  {
    var rs := EachRow(b, encode, request, state);
    GatheredAre(rs, |rs|);
    var rows := RowsOf(b, encode, request, state).value;
    forall i | 0 <= i < |rows| ensures RowFits(b, request.questions[i], rows[i]) {
      assert rs[i] == Ok(rows[i]);
      RowIsFit(b, encode, request.questions[i], state);
    }
  }

  lemma {:induction false} SlotsAreOptions(b: Builder, questions: seq<Question>, rows: seq<Row>, n: nat)
    requires n <= |rows| == |questions| && forall i | 0 <= i < n :: RowFits(b, questions[i], rows[i])
    ensures Longest(MarkersOf(rows), n) == MostOptions(questions, n)
    ensures n > 0 ==> MostOptions(questions, n) >= 2
  {
    if n == 0 {
    } else {
      SlotsAreOptions(b, questions, rows, n - 1);
    }
  }

  /** Slot j of row i is marked exactly for a real option, and then addresses its MASK token. */
  predicate Answerable(sp: Special, batch: Batch, q: Question, i: nat) {
    InBounds(batch, i) && forall j | 0 <= j < batch.slots :: SlotPoints(sp, batch, i, j, Len(q.criteria))
  }

  /**
   A batch has one row per question and as many slots as the largest question has options,
   which is the shape that post-processing demands; in each row exactly the question's options
   are marked, each at a MASK token that is attended to.
   */
  lemma BatchFitsRequest(b: Builder, encode: Encoder, request: Request)
    requires Readable(request) && BuildOf(b, encode, request).Ok?
    ensures var batch := BuildOf(b, encode, request).value;
            && batch.rows == |request.questions| > 0
            && batch.slots == MostOptions(request.questions, |request.questions|) >= 2
            && batch.rows * batch.slots <= I64_MAX
            && Shaped(batch)
            && batch.inputTokens == Sum(batch.attentionMask)
            && forall i | 0 <= i < batch.rows ::
                 && Answerable(b.special, batch, request.questions[i], i)
                 && batch.qtype[i] == QType(request.questions[i].criteria)
  {
    var state := encode(Rendered(request.state, false).value).value;
    var n := |request.questions|;
    var rows := RowsOf(b, encode, request, state).value;
    RowsAreFit(b, encode, request, state);
    SlotsAreOptions(b, request.questions, rows, n);
    var batch := BatchOf(rows, b.special.pad);
    Shapes(rows, b.special.pad);
    UsageIsMaskSum(rows, b.special.pad);
    forall i | 0 <= i < n
      ensures Answerable(b.special, batch, request.questions[i], i) && batch.qtype[i] == QType(request.questions[i].criteria)
    {
      RowAnswers(b, rows, request.questions[i], i);
    }
  }

  lemma RowAnswers(b: Builder, rows: seq<Row>, q: Question, i: nat)
    requires i < |rows| && RowFits(b, q, rows[i])
    ensures var batch := BatchOf(rows, b.special.pad);
            Answerable(b.special, batch, q, i) && |batch.qtype| == |rows| && batch.qtype[i] == QType(q.criteria)
  {
    var batch := BatchOf(rows, b.special.pad);
    Shapes(rows, b.special.pad);
    forall j | 0 <= j < batch.slots ensures SlotPoints(b.special, batch, i, j, Len(q.criteria)) {
      SlotsPointAtMasks(b.special, rows, i, j);
    }
  }

  // ---- An accepted request is always built ----

  ghost predicate NeverFails(encode: Encoder) { forall text :: encode(text).Some? }

  lemma {:induction false} OptionsEncode(sp: Special, encode: Encoder, texts: seq<string>, n: nat)
    requires NeverFails(encode) && n <= |texts|
    ensures OptionTokens(sp, encode, texts, n).Some?
  {
    if n == 0 {
    } else {
      OptionsEncode(sp, encode, texts, n - 1);
      assert encode(" " + texts[n - 1]).Some?;
    }
  }

  lemma {:induction false} ShortTotal(options: seq<seq<Token>>, n: nat)
    requires n <= |options| && forall i | 0 <= i < n :: |options[i]| <= 49
    ensures Lengths(options, n) <= 49 * n
  {
    if n == 0 {
    } else {
      ShortTotal(options, n - 1);
    }
  }

  ghost predicate Roomy(b: Builder, options: nat) {
    b.Valid() && b.maxLen >= Max(b.headMax, 4 * options + 8) + 4 && 49 * options <= USIZE_MAX
  }

  lemma QuestionBuilds(b: Builder, encode: Encoder, q: Question, state: seq<Token>, limits: Limits)
    requires NeverFails(encode) && WellFormed(q.instructions) && QuestionOk(q, limits) && Roomy(b, limits.maxOptions)
    ensures QuestionRow(b, encode, q, state).Ok?
  {
    DecodedIsEffective(q.instructions);
    var k := Len(q.criteria);
    assert encode(Kind(q.criteria) + " question: " + Rendered(q.instructions, true).value).Some?;
    OptionsEncode(b.special, encode, OptionTexts(q.criteria), k);
    var header := HeaderOf(encode, q).value;
    var options := OptionsOf(b.special, encode, q.criteria).value;
    ShortTotal(options, k);
    OverflowIsRemote(b.maxLen, b.headMax, header, options, state);
    RoomyRow(b.special, b.maxLen, b.headMax, header, options, state, QType(q.criteria));
  }

  lemma QuestionsBuild(b: Builder, encode: Encoder, request: Request, state: seq<Token>, limits: Limits)
    requires NeverFails(encode) && Readable(request) && RequestOk(request, limits) && Roomy(b, limits.maxOptions)
    ensures RowsOf(b, encode, request, state).Ok?
  {
    var rs := EachRow(b, encode, request, state);
    forall i | 0 <= i < |rs| ensures rs[i].Ok? {
      assert QuestionOk(request.questions[i], limits);
      QuestionBuilds(b, encode, request.questions[i], state, limits);
    }
    GatheredAre(rs, |rs|);
  }

  /**
   With a tokenizer that does not fail, and budgets with room for the largest question that the
   limits allow, every accepted request becomes a batch: no marker is lost and nothing
   overflows. Only the buffers themselves must be addressable.
   */
  lemma AcceptedRequestBuilds(b: Builder, encode: Encoder, bodyBytes: nat, document: Option<Raw>, limits: Limits)
    requires FromSlice(bodyBytes, document, limits).Ok?
    requires NeverFails(encode) && Readable(FromSlice(bodyBytes, document, limits).value)
    requires Roomy(b, limits.maxOptions)
    requires limits.maxQuestions * b.maxLen <= I64_MAX
    ensures BuildOf(b, encode, FromSlice(bodyBytes, document, limits).value).Ok?
  {
    AcceptedIsNormalised(bodyBytes, document, limits);
    var request := FromSlice(bodyBytes, document, limits).value;
    DecodedIsEffective(request.state);
    var text := Rendered(request.state, false).value;
    assert encode(text).Some?;
    var state := encode(text).value;
    var n := |request.questions|;
    QuestionsBuild(b, encode, request, state, limits);
    RowsAreFit(b, encode, request, state);
    var rows := RowsOf(b, encode, request, state).value;
    SizesFit(b, request, rows, limits);
  }

  lemma SizesFit(b: Builder, request: Request, rows: seq<Row>, limits: Limits)
    requires RequestOk(request, limits) && |rows| == |request.questions|
    requires forall i | 0 <= i < |rows| :: RowFits(b, request.questions[i], rows[i])
    requires Roomy(b, limits.maxOptions) && limits.maxQuestions * b.maxLen <= I64_MAX
    ensures CollateOf(rows, b.special.pad).Ok?
  {
    var ids, markers, n := IdsOf(rows), MarkersOf(rows), |rows|;
    LongestFits(ids, n);
    LongestFits(markers, n);
    var l, k := Longest(ids, n), Longest(markers, n);
    var i :| 0 <= i < n && |ids[i]| == l;
    var j :| 0 <= j < n && |markers[j]| == k;
    assert RowFits(b, request.questions[i], rows[i]);
    assert RowFits(b, request.questions[j], rows[j]);
    assert QuestionOk(request.questions[j], limits);
    Product(n, l, limits.maxQuestions, b.maxLen);
    Product(n, k, limits.maxQuestions, b.maxLen);
  }

  lemma Product(a: nat, b: nat, c: nat, d: nat)
    requires a <= c && b <= d
    ensures a * b <= c * d
  {
    assert a * b <= c * b;
    assert c * b <= c * d;
  }
}
