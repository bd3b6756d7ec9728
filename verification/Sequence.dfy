/**
 The rows of src/sequence.rs in signed arithmetic: lengths are plain integers, the share of an
 option may come from a negative floor, and markers that truncation removes are filtered out
 afterwards. The code, unsigned and saturating, is in `SequenceBuilder`.
 */
module Sequence {
  import opened Wrappers

  type Token = int

  const USIZE_MAX: nat := 0xFFFF_FFFF_FFFF_FFFF
  const I64_MAX: nat := 0x7FFF_FFFF_FFFF_FFFF

  datatype SequenceError = MarkerLost | SizeOverflow | NoQuestions | TooFewOptions | BadText | TokenizerFailed

  datatype Special = Special(cls: Token, sep: Token, mask: Token, pad: Token)

  datatype Row = Row(ids: seq<Token>, markers: seq<nat>, qtype: nat)

  // ---- Signed specification ----

  function Take<T>(s: seq<T>, n: int): seq<T> {
    if n <= 0 then [] else if n >= |s| then s else s[..n]
  }

  function Max(a: int, b: int): int { if a >= b then a else b }

  /** The total length of the first n options. */
  function Lengths(options: seq<seq<Token>>, n: nat): nat
    requires n <= |options|
  {
    if n == 0 then 0 else Lengths(options, n - 1) + |options[n - 1]|
  }

  function Total(options: seq<seq<Token>>): nat { Lengths(options, |options|) }

  /** The first n options, one after the other. */
  function Joined(options: seq<seq<Token>>, n: nat): (s: seq<Token>)
    requires n <= |options|
    ensures |s| == Lengths(options, n)
  {
    if n == 0 then [] else Joined(options, n - 1) + options[n - 1]
  }

  /** The share of one option; the floor is the mathematical one, and may be negative. */
  function Share(headMax: nat, k: nat): nat
    requires k > 0
  {
    Max(4, (headMax - 16) / k)
  }

  function Cut(options: seq<seq<Token>>, n: nat): seq<seq<Token>> {
    seq(|options|, i requires 0 <= i < |options| => Take(options[i], n))
  }

  function CutOptions(headMax: nat, options: seq<seq<Token>>): seq<seq<Token>>
    requires options != []
  {
    if headMax - Total(options) < 16 then Cut(options, Share(headMax, |options|)) else options
  }

  function CutHeader(headMax: nat, header: seq<Token>, cut: seq<seq<Token>>): seq<Token> {
    Take(header, Max(8, headMax - Total(cut)))
  }

  /** Everything up to and including the SEP behind the options. */
  function Head(sp: Special, header: seq<Token>, options: seq<seq<Token>>): (s: seq<Token>)
    ensures |s| == |header| + Total(options) + 3
  {
    [sp.cls] + header + [sp.sep] + Joined(options, |options|) + [sp.sep]
  }

  /** The whole row before it is cut to the model's length. */
  function Full(sp: Special, maxLen: nat, header: seq<Token>, options: seq<seq<Token>>, state: seq<Token>): seq<Token> {
    var head := Head(sp, header, options);
    head + Take(state, maxLen - |head| - 1) + [sp.sep]
  }

  /** Where option i starts. */
  function MarkerAt(header: seq<Token>, options: seq<seq<Token>>, i: nat): nat
    requires i <= |options|
  {
    |header| + 2 + Lengths(options, i)
  }

  function MarkersAt(header: seq<Token>, options: seq<seq<Token>>, n: nat): (ms: seq<nat>)
    requires n <= |options|
  {
    seq(n, i requires 0 <= i < n => MarkerAt(header, options, i))
  }

  /** The markers that point below `limit`. */
  function Below(markers: seq<nat>, limit: nat): seq<nat> {
    if markers == [] then []
    else
      var n := |markers| - 1;
      Below(markers[..n], limit) + if markers[n] < limit then [markers[n]] else []
  }

  function CutRow(sp: Special, maxLen: nat, header: seq<Token>, options: seq<seq<Token>>, state: seq<Token>, qtype: nat):
    Result<Row, SequenceError>
  {
    var ids := Take(Full(sp, maxLen, header, options, state), maxLen);
    var kept := Below(MarkersAt(header, options, |options|), maxLen);
    if |kept| < |options| then Err(MarkerLost) else Ok(Row(ids, kept, qtype))
  }

  /** The row of the specification. */
  function RowOf(sp: Special, maxLen: nat, headMax: nat, header: seq<Token>, options: seq<seq<Token>>,
                 state: seq<Token>, qtype: nat): Result<Row, SequenceError>
    requires options != []
  {
    var cut := CutOptions(headMax, options);
    CutRow(sp, maxLen, CutHeader(headMax, header, cut), cut, state, qtype)
  }

  // ---- What the specification promises ----

  lemma {:induction false} LengthsAre(a: seq<seq<Token>>, b: seq<seq<Token>>, n: nat)
    requires n <= |a| && n <= |b| && forall i | 0 <= i < n :: |a[i]| <= |b[i]|
    ensures Lengths(a, n) <= Lengths(b, n)
  {
    if n == 0 {
    } else {
      LengthsAre(a, b, n - 1);
    }
  }

  lemma {:induction false} LengthsGrow(options: seq<seq<Token>>, i: nat, n: nat)
    requires i <= n <= |options|
    ensures Lengths(options, i) <= Lengths(options, n)
    ensures (forall j | 0 <= j < n :: options[j] != []) ==> Lengths(options, i) + (n - i) <= Lengths(options, n)
    decreases n - i
  {
    if i == n {
    } else {
      LengthsGrow(options, i, n - 1);
    }
  }

  lemma {:induction false} CutLengths(options: seq<seq<Token>>, share: nat, n: nat)
    requires n <= |options|
    ensures Lengths(Cut(options, share), n) <= n * share
  {
    if n == 0 {
    } else {
      CutLengths(options, share, n - 1);
      assert n * share == (n - 1) * share + share;
    }
  }

  lemma ShareFits(headMax: nat, k: nat)
    requires k > 0
    ensures k * Share(headMax, k) <= Max(4 * k, headMax - 16)
  {
    var q := (headMax - 16) / k;
    assert k * q <= headMax - 16;
  }

  /** Header and options together never exceed the head budget, or eight and four per option. */
  lemma HeadBudget(headMax: nat, header: seq<Token>, options: seq<seq<Token>>)
    requires options != []
    ensures var cut := CutOptions(headMax, options);
            |CutHeader(headMax, header, cut)| + Total(cut) <= Max(headMax, 4 * |options| + 8)
  {
    var k := |options|;
    if headMax - Total(options) < 16 {
      CutLengths(options, Share(headMax, k), k);
      ShareFits(headMax, k);
    }
  }

  lemma {:induction false} BelowAll(markers: seq<nat>, limit: nat)
    ensures |Below(markers, limit)| <= |markers|
    ensures |Below(markers, limit)| == |markers| <==> forall i | 0 <= i < |markers| :: markers[i] < limit
    ensures |Below(markers, limit)| == |markers| ==> Below(markers, limit) == markers
  {
    if markers == [] {
    } else {
      var n := |markers| - 1;
      BelowAll(markers[..n], limit);
      assert markers == markers[..n] + [markers[n]];
      AllOrFirst(markers, limit);
    }
  }

  lemma AllOrFirst(markers: seq<nat>, limit: nat)
    requires markers != []
    ensures var n := |markers| - 1;
            (forall i | 0 <= i < |markers| :: markers[i] < limit)
            <==> markers[n] < limit && forall i | 0 <= i < n :: markers[..n][i] < limit
  {
    var n := |markers| - 1;
    if forall i | 0 <= i < n :: markers[..n][i] < limit {
      forall i | 0 <= i < n ensures markers[i] < limit { assert markers[..n][i] < limit; }
    }
  }

  /** A marker is lost exactly when the last option would start at or behind the end. */
  lemma LostExactly(sp: Special, maxLen: nat, header: seq<Token>, options: seq<seq<Token>>, state: seq<Token>, qtype: nat)
    requires options != []
    ensures CutRow(sp, maxLen, header, options, state, qtype).Err?
      <==> MarkerAt(header, options, |options| - 1) >= maxLen
    ensures CutRow(sp, maxLen, header, options, state, qtype).Ok?
      ==> CutRow(sp, maxLen, header, options, state, qtype).value.markers == MarkersAt(header, options, |options|)
  {
    var ms := MarkersAt(header, options, |options|);
    BelowAll(ms, maxLen);
    forall i | 0 <= i < |ms| ensures ms[i] <= ms[|ms| - 1] { LengthsGrow(options, i, |ms| - 1); }
  }

  /** Option i stands in the joined options at its own offset. */
  lemma {:induction false} JoinedAt(options: seq<seq<Token>>, n: nat, i: nat, j: nat)
    requires i < n <= |options| && j < |options[i]|
    ensures Lengths(options, i) + j < Lengths(options, n)
    ensures Joined(options, n)[Lengths(options, i) + j] == options[i][j]
  {
    if i == n - 1 {
    } else {
      JoinedAt(options, n - 1, i, j);
    }
  }

  predicate Marked(sp: Special, options: seq<seq<Token>>) {
    forall i | 0 <= i < |options| :: options[i] != [] && options[i][0] == sp.mask
  }

  /** Markers increase strictly, and each points at a MASK token of the row. */
  predicate PointsAtMasks(sp: Special, row: Row) {
    && (forall i, j | 0 <= i < j < |row.markers| :: row.markers[i] < row.markers[j])
    && (forall i | 0 <= i < |row.markers| :: row.markers[i] < |row.ids| && row.ids[row.markers[i]] == sp.mask)
  }

  lemma CutRowMarks(sp: Special, maxLen: nat, header: seq<Token>, options: seq<seq<Token>>, state: seq<Token>, qtype: nat)
    requires options != [] && Marked(sp, options)
    requires CutRow(sp, maxLen, header, options, state, qtype).Ok?
    ensures var row := CutRow(sp, maxLen, header, options, state, qtype).value;
            PointsAtMasks(sp, row) && |row.markers| == |options|
  {
    LostExactly(sp, maxLen, header, options, state, qtype);
    var ids, n := Take(Full(sp, maxLen, header, options, state), maxLen), |options|;
    MarkersGrow(header, options, n);
    forall i | 0 <= i < n ensures MarkersAt(header, options, n)[i] < |ids| && ids[MarkersAt(header, options, n)[i]] == sp.mask {
      LengthsGrow(options, i, n - 1);
      MarkerInFull(sp, maxLen, header, options, state, i);
    }
  }

  lemma MarkersGrow(header: seq<Token>, options: seq<seq<Token>>, n: nat)
    requires n <= |options| && forall i | 0 <= i < n :: options[i] != []
    ensures forall i, j | 0 <= i < j < n :: MarkersAt(header, options, n)[i] < MarkersAt(header, options, n)[j]
  {
    forall i, j | 0 <= i < j < n ensures MarkersAt(header, options, n)[i] < MarkersAt(header, options, n)[j] {
      LengthsGrow(options, i, j);
    }
  }

  lemma MarkerInFull(sp: Special, maxLen: nat, header: seq<Token>, options: seq<seq<Token>>, state: seq<Token>, i: nat)
    requires i < |options| && Marked(sp, options)
    ensures var full := Full(sp, maxLen, header, options, state);
            var m := MarkerAt(header, options, i);
            m < |full| && full[m] == sp.mask
  {
    JoinedAt(options, |options|, i, 0);
    var front := [sp.cls] + header + [sp.sep];
    var m := MarkerAt(header, options, i);
    assert (front + Joined(options, |options|))[m] == Joined(options, |options|)[m - |front|];
    assert Full(sp, maxLen, header, options, state)[m] == (front + Joined(options, |options|))[m];
  }

  lemma CutStaysMarked(sp: Special, headMax: nat, options: seq<seq<Token>>)
    requires options != [] && Marked(sp, options)
    ensures Marked(sp, CutOptions(headMax, options))
    ensures |CutOptions(headMax, options)| == |options|
  {
    assert Share(headMax, |options|) >= 4;
  }

  /**
   For every budget, an accepted row keeps every option: one marker each, strictly
   increasing, each at a MASK token inside the row; and the row fits the model.
   */
  lemma RowKeepsEveryOption(sp: Special, maxLen: nat, headMax: nat, header: seq<Token>,
                            options: seq<seq<Token>>, state: seq<Token>, qtype: nat)
    requires options != [] && Marked(sp, options)
    requires RowOf(sp, maxLen, headMax, header, options, state, qtype).Ok?
    ensures var row := RowOf(sp, maxLen, headMax, header, options, state, qtype).value;
            PointsAtMasks(sp, row) && |row.markers| == |options| && |row.ids| <= maxLen && row.qtype == qtype
  {
    var cut := CutOptions(headMax, options);
    CutStaysMarked(sp, headMax, options);
    CutRowMarks(sp, maxLen, CutHeader(headMax, header, cut), cut, state, qtype);
  }

  /**
   With room for the head, nothing is lost: every option survives, the final cut removes
   nothing, the row ends in SEP, and the state takes exactly the room that is left.
   */
  lemma RoomyRow(sp: Special, maxLen: nat, headMax: nat, header: seq<Token>,
                 options: seq<seq<Token>>, state: seq<Token>, qtype: nat)
    requires options != [] && Marked(sp, options)
    requires maxLen >= Max(headMax, 4 * |options| + 8) + 4
    ensures RowOf(sp, maxLen, headMax, header, options, state, qtype).Ok?
    ensures var cut := CutOptions(headMax, options);
            var head := Head(sp, CutHeader(headMax, header, cut), cut);
            var row := RowOf(sp, maxLen, headMax, header, options, state, qtype).value;
            && |head| + 1 <= maxLen
            && row.ids == head + Take(state, maxLen - |head| - 1) + [sp.sep]
  {
    HeadBudget(headMax, header, options);
    CutStaysMarked(sp, headMax, options);
    var cut := CutOptions(headMax, options);
    var h := CutHeader(headMax, header, cut);
    LostExactly(sp, maxLen, h, cut, state, qtype);
    LengthsGrow(cut, |cut| - 1, |cut|);
  }

  /** The checkpoint's budgets, 1024 and 256, leave room for any question of up to 253 options. */
  lemma CheckpointBudgetsAreRoomy(sp: Special, header: seq<Token>, options: seq<seq<Token>>, state: seq<Token>, qtype: nat)
    requires 1 <= |options| <= 253 && Marked(sp, options)
    ensures RowOf(sp, 1024, 256, header, options, state, qtype).Ok?
  {
    RoomyRow(sp, 1024, 256, header, options, state, qtype);
  }

  /** Outside that bound a row can fail: with a cut head that fills it, the last marker is lost. */
  lemma TightBudgetLoses(sp: Special)
    ensures RowOf(sp, 11, 0, seq(8, _ => 7), [[sp.mask, 1, 2, 3, 4], [sp.mask]], [], 0) == Err(MarkerLost)
  {
    var options: seq<seq<Token>> := [[sp.mask, 1, 2, 3, 4], [sp.mask]];
    assert Lengths(options, 0) == 0 && Lengths(options, 1) == 5 && Lengths(options, 2) == 6;
    var cut := CutOptions(0, options);
    assert Lengths(cut, 0) == 0 && Lengths(cut, 1) == 4 && Lengths(cut, 2) == 5;
    var h := CutHeader(0, seq(8, _ => 7), cut);
    LostExactly(sp, 11, h, cut, [], 0);
  }

  // ---- What the cuts keep ----

  /** Taking n tokens keeps the first n, or all if there are no more. */
  lemma TakeIs<T>(s: seq<T>, n: int)
    ensures Take(s, n) <= s
    ensures |Take(s, n)| == if n <= 0 then 0 else if n >= |s| then |s| else n
  {
  }

  /**
   The header is cut at its end, and only if header and options would exceed the budget, or if
   less than eight tokens were left for it: what is kept is the whole header, or exactly the
   larger of eight and what the options leave.
   */
  lemma HeaderKept(headMax: nat, header: seq<Token>, cut: seq<seq<Token>>)
    ensures var kept := CutHeader(headMax, header, cut);
            && kept <= header
            && (kept == header <==> |header| <= Max(8, headMax - Total(cut)))
            && (kept != header ==> |kept| == Max(8, headMax - Total(cut)) && |kept| + Total(cut) >= headMax)
  {
  }

  /** The share of an option: four tokens, or the largest share with which all fit beside sixteen tokens of header. */
  lemma ShareIs(headMax: nat, k: nat)
    requires k > 0
    ensures Share(headMax, k) >= 4
    ensures k * (Share(headMax, k) + 1) > headMax - 16
    ensures Share(headMax, k) > 4 ==> k * Share(headMax, k) <= headMax - 16
  {
    var q := (headMax - 16) / k;
    assert k * q <= headMax - 16 < k * q + k;
    assert k * (q + 1) == k * q + k;
    if q < 4 { MoreTimes(k, q + 1, 5); }
  }

  lemma MoreTimes(k: nat, a: int, b: int)
    requires a <= b
    ensures k * a <= k * b
  {
  }

  /** Options are left alone if they leave sixteen tokens of the budget; otherwise each is cut at its end to the share. */
  lemma OptionsKept(headMax: nat, options: seq<seq<Token>>)
    requires options != []
    ensures var cut := CutOptions(headMax, options);
            && |cut| == |options|
            && (headMax - Total(options) >= 16 ==> cut == options)
            && (headMax - Total(options) < 16 ==>
                  forall i | 0 <= i < |options| ::
                    cut[i] <= options[i]
                    && (cut[i] == options[i] || |cut[i]| == Share(headMax, |options|) < |options[i]|))
  {
  }

  /** The layout of a row, before it is cut to the model's length. */
  lemma RowLayout(sp: Special, maxLen: nat, headMax: nat, header: seq<Token>, options: seq<seq<Token>>,
                  state: seq<Token>, qtype: nat)
    requires options != [] && RowOf(sp, maxLen, headMax, header, options, state, qtype).Ok?
    ensures var cut := CutOptions(headMax, options);
            var kept := CutHeader(headMax, header, cut);
            var row := RowOf(sp, maxLen, headMax, header, options, state, qtype).value;
            var whole := [sp.cls] + kept + [sp.sep] + Joined(cut, |cut|) + [sp.sep]
                         + Take(state, maxLen - (|kept| + Total(cut) + 4)) + [sp.sep];
            && row.ids == Take(whole, maxLen)
            && row.qtype == qtype && |row.markers| == |options|
            && forall i | 0 <= i < |options| :: row.markers[i] == |kept| + 2 + Lengths(cut, i)
  {
    var cut := CutOptions(headMax, options);
    LostExactly(sp, maxLen, CutHeader(headMax, header, cut), cut, state, qtype);
  }

  /**
   A head that fits stands whole in the row: where the options leave sixteen tokens of the
   budget, and the header fits beside them, the row is CLS, the header, SEP, every option, SEP, as
   much of the state as there is room for, and SEP.
   */
  lemma FittingHeadStands(sp: Special, maxLen: nat, headMax: nat, header: seq<Token>, options: seq<seq<Token>>,
                          state: seq<Token>, qtype: nat)
    requires options != [] && Marked(sp, options)
    requires Total(options) <= headMax - 16 && |header| + Total(options) <= headMax
    requires maxLen >= Max(headMax, 4 * |options| + 8) + 4
    ensures RowOf(sp, maxLen, headMax, header, options, state, qtype).Ok?
    ensures RowOf(sp, maxLen, headMax, header, options, state, qtype).value.ids
         == [sp.cls] + header + [sp.sep] + Joined(options, |options|) + [sp.sep]
            + Take(state, maxLen - (|header| + Total(options) + 4)) + [sp.sep]
  {
    UncutHead(headMax, header, options);
    RoomyRow(sp, maxLen, headMax, header, options, state, qtype);
    HeadLaidOut(sp, maxLen, header, options, state);
  }

  lemma UncutHead(headMax: nat, header: seq<Token>, options: seq<seq<Token>>)
    requires options != [] && Total(options) <= headMax - 16 && |header| + Total(options) <= headMax
    ensures CutOptions(headMax, options) == options && CutHeader(headMax, header, options) == header
  {
  }

  lemma HeadLaidOut(sp: Special, maxLen: nat, header: seq<Token>, options: seq<seq<Token>>, state: seq<Token>)
    ensures var head := Head(sp, header, options);
            head + Take(state, maxLen - |head| - 1) + [sp.sep]
            == [sp.cls] + header + [sp.sep] + Joined(options, |options|) + [sp.sep]
               + Take(state, maxLen - (|header| + Total(options) + 4)) + [sp.sep]
  {
  }
}
