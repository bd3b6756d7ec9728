/** Which texts the tokens of a batch encode: `build` and `option_texts`, said without their helpers. */
module RequestTexts {
  import opened Wrappers
  import opened Decimal
  import opened Json
  import opened JsonMachine
  import opened RequestModel
  import opened Sequence
  import opened SequenceBuilder
  import opened Batch
  import opened RequestBatch

  /** The text of option i. */
  predicate IsOptionText(c: Criteria, i: nat, text: string)
    requires i < Len(c)
  {
    match c
    case Choice(options) =>
      text == (match options[i].description
               case None => options[i].key
               case Some(d) => if d == "" then options[i].key else options[i].key + ": " + d)
    case Score(levels) => text == "level " + NatText(i) + ": " + levels[i]
    case Noul(no, yes) => text == if i == 0 then "false: " + no else "true: " + yes
  }

  lemma OptionTextsAre(c: Criteria, i: nat)
    requires i < Len(c)
    ensures IsOptionText(c, i, OptionTexts(c)[i])
  {
  }

  /** The tokens of option i: MASK, and the first 48 of those that encode a space and its text. */
  ghost predicate OptionEncodes(sp: Special, encode: Encoder, c: Criteria, i: nat, tokens: seq<Token>)
    requires i < Len(c)
  {
    exists text: string ::
      && IsOptionText(c, i, text) && encode(" " + text).Some?
      && tokens != [] && tokens[0] == sp.mask && tokens[1..] <= encode(" " + text).value
      && |tokens| - 1 == if |encode(" " + text).value| < 48 then |encode(" " + text).value| else 48
  }

  lemma {:induction false} OptionTokensEncode(sp: Special, encode: Encoder, texts: seq<string>, n: nat, i: nat)
    requires i < n <= |texts| && OptionTokens(sp, encode, texts, n).Some?
    ensures var options := OptionTokens(sp, encode, texts, n).value;
            && |options| == n && encode(" " + texts[i]).Some?
            && options[i] == [sp.mask] + Take(encode(" " + texts[i]).value, 48)
    decreases n
  {
    if n == 1 {
    } else {
      OptionTokensEncode(sp, encode, texts, n - 1, if i < n - 1 then i else 0);
    }
  }

  lemma OptionsEncodeTexts(sp: Special, encode: Encoder, c: Criteria, i: nat)
    requires OptionsOf(sp, encode, c).Some? && i < Len(c)
    ensures OptionEncodes(sp, encode, c, i, OptionsOf(sp, encode, c).value[i])
  {
    OptionTokensEncode(sp, encode, OptionTexts(c), Len(c), i);
    OptionTextsAre(c, i);
    var text := OptionTexts(c)[i];
    assert ([sp.mask] + Take(encode(" " + text).value, 48))[1..] == Take(encode(" " + text).value, 48);
  }

  /** The tokens of the header encode the type, "question" and the instructions. */
  ghost predicate HeaderEncodes(encode: Encoder, q: Question, header: seq<Token>)
    requires WellFormed(q.instructions)
  {
    && Rendered(q.instructions, true).Ok?
    && encode((if q.criteria.Choice? then "choice" else if q.criteria.Score? then "score" else "noul")
              + " question: " + Rendered(q.instructions, true).value) == Some(header)
  }

  /** The row comes from the header and the options that encode the texts of its question, and from the state. */
  ghost predicate RowEncodes(b: Builder, encode: Encoder, q: Question, state: seq<Token>, row: Row)
    requires WellFormed(q.instructions)
  {
    exists header: seq<Token>, options: seq<seq<Token>> ::
      && HeaderEncodes(encode, q, header)
      && |options| == Len(q.criteria) >= 2
      && (forall i | 0 <= i < |options| :: OptionEncodes(b.special, encode, q.criteria, i, options[i]))
      && RowOf(b.special, b.maxLen, b.headMax, header, options, state,
               if q.criteria.Choice? then 0 else if q.criteria.Score? then 1 else 2) == Ok(row)
  }

  lemma QuestionRowEncodes(b: Builder, encode: Encoder, q: Question, state: seq<Token>)
    requires WellFormed(q.instructions) && QuestionRow(b, encode, q, state).Ok?
    ensures RowEncodes(b, encode, q, state, QuestionRow(b, encode, q, state).value)
  {
    var header := HeaderOf(encode, q).value;
    var options := OptionsOf(b.special, encode, q.criteria).value;
    forall i | 0 <= i < |options| ensures OptionEncodes(b.special, encode, q.criteria, i, options[i]) {
      OptionsEncodeTexts(b.special, encode, q.criteria, i);
    }
    assert HeaderEncodes(encode, q, header);
  }

  /** Row i of the batch, read under its masks, is a row that encodes question i and the state. */
  ghost predicate BatchRowEncodes(b: Builder, encode: Encoder, q: Question, state: seq<Token>, batch: Batch, i: nat)
    requires WellFormed(q.instructions) && InBounds(batch, i)
  {
    exists row: Row ::
      && RowEncodes(b, encode, q, state, row)
      && TokensAt(batch, i) == row.ids && MarkersIn(batch, i) == row.markers
  }

  /**
   What a batch encodes. The state is tokenised once, as it is rendered without ASCII escapes;
   row i holds the tokens of question i in front of it: header and options as their texts say.
   */
  lemma BatchEncodes(b: Builder, encode: Encoder, request: Request, i: nat)
    requires Readable(request) && BuildOf(b, encode, request).Ok? && i < |request.questions|
    ensures Rendered(request.state, false).Ok? && encode(Rendered(request.state, false).value).Some?
    ensures InBounds(BuildOf(b, encode, request).value, i)
    ensures BatchRowEncodes(b, encode, request.questions[i], encode(Rendered(request.state, false).value).value,
                            BuildOf(b, encode, request).value, i)
  {
    var state := encode(Rendered(request.state, false).value).value;
    var rs := EachRow(b, encode, request, state);
    GatheredAre(rs, |rs|);
    var rows := RowsOf(b, encode, request, state).value;
    assert rs[i] == Ok(rows[i]);
    QuestionRowEncodes(b, encode, request.questions[i], state);
    BatchLosesNothing(rows, b.special.pad, i);
  }
}
