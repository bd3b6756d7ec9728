/** `collate` of src/sequence.rs: the rows of a request as row-major, padded buffers. */
module Batch {
  import opened Wrappers
  import opened Sequence

  datatype Batch = Batch(
    rows: nat, width: nat, slots: nat,
    inputIds: seq<Token>, attentionMask: seq<int>,
    markerPos: seq<int>, markerMask: seq<bool>,
    qtype: seq<nat>, inputTokens: nat)

  // ---- Specification ----

  function Fill<T>(v: T, n: nat): seq<T> { seq(n, _ => v) }

  function Padded<T>(s: seq<T>, width: nat, pad: T): (r: seq<T>)
    requires |s| <= width
    ensures |r| == width
  {
    s + Fill(pad, width - |s|)
  }

  predicate Fits<T>(rows: seq<seq<T>>, width: nat) {
    forall i | 0 <= i < |rows| :: |rows[i]| <= width
  }

  /** The first n rows, padded, one after the other. */
  function Grid<T>(rows: seq<seq<T>>, n: nat, width: nat, pad: T): seq<T>
    requires n <= |rows| && Fits(rows, width)
  {
    if n == 0 then [] else Grid(rows, n - 1, width, pad) + Padded(rows[n - 1], width, pad)
  }

  lemma {:induction false} GridSize<T>(rows: seq<seq<T>>, n: nat, width: nat, pad: T)
    requires n <= |rows| && Fits(rows, width)
    ensures |Grid(rows, n, width, pad)| == n * width
  {
    if n == 0 {
    } else {
      GridSize(rows, n - 1, width, pad);
      assert n * width == (n - 1) * width + width;
    }
  }

  lemma {:induction false} Room(i: nat, b: nat, width: nat)
    requires i < b
    ensures 0 <= i * width <= i * width + width == (i + 1) * width <= b * width
  {
    assert b * width == (b - 1) * width + width;
    if i + 1 == b {
    } else {
      Room(i, b - 1, width);
    }
  }

  /** Row i of a grid is the padded row i. */
  lemma {:induction false} GridRow<T>(rows: seq<seq<T>>, n: nat, width: nat, pad: T, i: nat)
    requires i < n <= |rows| && Fits(rows, width)
    ensures |Grid(rows, n, width, pad)| == n * width
    ensures i * width + width <= n * width
    ensures Grid(rows, n, width, pad)[i * width..i * width + width] == Padded(rows[i], width, pad)
  {
    GridSize(rows, n, width, pad);
    GridSize(rows, n - 1, width, pad);
    Room(i, n, width);
    if i < n - 1 {
      GridRow(rows, n - 1, width, pad, i);
      PrefixSlice(Grid(rows, n - 1, width, pad), Padded(rows[n - 1], width, pad), i * width, i * width + width);
    } else {
      assert n * width == (n - 1) * width + width;
    }
  }

  lemma PrefixSlice<T>(a: seq<T>, b: seq<T>, lo: nat, hi: nat)
    requires lo <= hi <= |a|
    ensures (a + b)[lo..hi] == a[lo..hi]
  {
  }

  function IdsOf(rows: seq<Row>): seq<seq<Token>> {
    seq(|rows|, i requires 0 <= i < |rows| => rows[i].ids)
  }

  function MarkersOf(rows: seq<Row>): seq<seq<int>> {
    seq(|rows|, i requires 0 <= i < |rows| => Widened(rows[i].markers))
  }

  function Widened(ms: seq<nat>): seq<int> { ms }

  /** A row of `n` marks for each row. */
  function Marks<S, T>(rows: seq<seq<S>>, mark: T): seq<seq<T>> {
    seq(|rows|, i requires 0 <= i < |rows| => Fill(mark, |rows[i]|))
  }

  function Longest<T>(rows: seq<seq<T>>, n: nat): nat
    requires n <= |rows|
  {
    if n == 0 then 0 else Max(Longest(rows, n - 1), |rows[n - 1]|)
  }

  lemma {:induction false} LongestFits<T>(rows: seq<seq<T>>, n: nat)
    requires n <= |rows|
    ensures forall i | 0 <= i < n :: |rows[i]| <= Longest(rows, n)
    ensures n > 0 ==> exists i | 0 <= i < n :: |rows[i]| == Longest(rows, n)
  {
    if n == 1 {
      assert Longest(rows, 0) == 0;
    } else if n > 1 {
      LongestFits(rows, n - 1);
      var i :| 0 <= i < n - 1 && |rows[i]| == Longest(rows, n - 1);
      assert |rows[if |rows[n - 1]| > |rows[i]| then n - 1 else i]| == Longest(rows, n);
    }
  }

  /** The batch that `collate` builds. */
  function BatchOf(rows: seq<Row>, pad: Token): Batch {
    var ids, markers := IdsOf(rows), MarkersOf(rows);
    var b, l, k := |rows|, Longest(ids, |ids|), Longest(markers, |markers|);
    LongestFits(ids, b);
    LongestFits(markers, b);
    Batch(b, l, k,
          Grid(ids, b, l, pad), Grid(Marks(ids, 1), b, l, 0),
          Grid(markers, b, k, 0), Grid(Marks(markers, true), b, k, false),
          seq(b, i requires 0 <= i < b => rows[i].qtype), Lengths(ids, b))
  }

  function CollateOf(rows: seq<Row>, pad: Token): Result<Batch, SequenceError> {
    if rows == [] then Err(NoQuestions)
    else
      var batch := BatchOf(rows, pad);
      if batch.rows * batch.width > I64_MAX || batch.rows * batch.slots > I64_MAX then Err(SizeOverflow)
      else Ok(batch)
  }

  // ---- Reading a batch back ----

  /** The values of s under a mark. */
  function Under<T, M>(s: seq<T>, marks: seq<M>, on: M -> bool): seq<T>
    requires |s| == |marks|
  {
    if s == [] then []
    else
      var n := |s| - 1;
      Under(s[..n], marks[..n], on) + if on(marks[n]) then [s[n]] else []
  }

  function RowSlice<T>(buffer: seq<T>, width: nat, i: nat): seq<T>
    requires i * width + width <= |buffer|
  {
    buffer[i * width..i * width + width]
  }

  lemma {:induction false} UnderMarks<T, M>(s: seq<T>, width: nat, pad: T, mark: M, blank: M, on: M -> bool)
    requires |s| <= width && on(mark) && !on(blank)
    ensures Under(Padded(s, width, pad), Padded(Fill(mark, |s|), width, blank), on) == s
    decreases width
  {
    var p, m := Padded(s, width, pad), Padded(Fill(mark, |s|), width, blank);
    if width == 0 {
    } else {
      if |s| < width {
        assert p[..width - 1] == Padded(s, width - 1, pad);
        assert m[..width - 1] == Padded(Fill(mark, |s|), width - 1, blank);
        UnderMarks(s, width - 1, pad, mark, blank, on);
      } else {
        var t := s[..width - 1];
        assert p[..width - 1] == Padded(t, width - 1, pad);
        assert m[..width - 1] == Padded(Fill(mark, |t|), width - 1, blank);
        UnderMarks(t, width - 1, pad, mark, blank, on);
        assert s == t + [s[width - 1]];
      }
    }
  }

  function Attended(): int -> bool { m => m != 0 }

  function Marked(): bool -> bool { m => m }

  ghost predicate Shaped(batch: Batch) {
    && |batch.inputIds| == |batch.attentionMask| == batch.rows * batch.width
    && |batch.markerPos| == |batch.markerMask| == batch.rows * batch.slots
    && |batch.qtype| == batch.rows
  }

  function TokensAt(batch: Batch, i: nat): seq<Token>
    requires i * batch.width + batch.width <= |batch.inputIds| == |batch.attentionMask|
  {
    Under(RowSlice(batch.inputIds, batch.width, i), RowSlice(batch.attentionMask, batch.width, i), Attended())
  }

  function MarkersIn(batch: Batch, i: nat): seq<int>
    requires i * batch.slots + batch.slots <= |batch.markerPos| == |batch.markerMask|
  {
    Under(RowSlice(batch.markerPos, batch.slots, i), RowSlice(batch.markerMask, batch.slots, i), Marked())
  }

  lemma Shapes(rows: seq<Row>, pad: Token)
    requires rows != []
    ensures Shaped(BatchOf(rows, pad))
    ensures forall i | 0 <= i < |rows| :: InBounds(BatchOf(rows, pad), i)
  {
    var ids, markers, b := IdsOf(rows), MarkersOf(rows), |rows|;
    LongestFits(ids, b);
    LongestFits(markers, b);
    var l, k := Longest(ids, b), Longest(markers, b);
    GridSize(ids, b, l, pad);
    GridSize(Marks(ids, 1), b, l, 0);
    GridSize(markers, b, k, 0);
    GridSize(Marks(markers, true), b, k, false);
    forall i | 0 <= i < b ensures InBounds(BatchOf(rows, pad), i) {
      Room(i, b, l);
      Room(i, b, k);
    }
  }

  /** All four ranges of row i lie in the buffers. */
  predicate InBounds(batch: Batch, i: nat) {
    && i * batch.width + batch.width <= |batch.inputIds| == |batch.attentionMask|
    && i * batch.slots + batch.slots <= |batch.markerPos| == |batch.markerMask|
  }

  /** Reading a row of the batch under its masks gives back exactly the row that went in. */
  lemma BatchLosesNothing(rows: seq<Row>, pad: Token, i: nat)
    requires i < |rows|
    ensures var batch := BatchOf(rows, pad);
            && Shaped(batch) && InBounds(batch, i)
            && TokensAt(batch, i) == rows[i].ids
            && MarkersIn(batch, i) == rows[i].markers
            && batch.qtype[i] == rows[i].qtype
  {
    Shapes(rows, pad);
    TokensRead(rows, pad, i);
    MarkersRead(rows, pad, i);
  }

  lemma TokensRead(rows: seq<Row>, pad: Token, i: nat)
    requires i < |rows| && InBounds(BatchOf(rows, pad), i)
    ensures TokensAt(BatchOf(rows, pad), i) == rows[i].ids
  {
    var ids, b := IdsOf(rows), |rows|;
    LongestFits(ids, b);
    var l := Longest(ids, b);
    GridRow(ids, b, l, pad, i);
    GridRow(Marks(ids, 1), b, l, 0, i);
    UnderMarks(ids[i], l, pad, 1, 0, Attended());
  }

  lemma MarkersRead(rows: seq<Row>, pad: Token, i: nat)
    requires i < |rows| && InBounds(BatchOf(rows, pad), i)
    ensures MarkersIn(BatchOf(rows, pad), i) == rows[i].markers
  {
    var markers, b := MarkersOf(rows), |rows|;
    LongestFits(markers, b);
    var k := Longest(markers, b);
    GridRow(markers, b, k, 0, i);
    GridRow(Marks(markers, true), b, k, false, i);
    UnderMarks(markers[i], k, 0, true, false, Marked());
  }

  lemma {:induction false} LengthsWithin(ids: seq<seq<Token>>, n: nat, width: nat)
    requires n <= |ids| && Fits(ids, width)
    ensures Lengths(ids, n) <= n * width
  {
    if n == 0 {
    } else {
      LengthsWithin(ids, n - 1, width);
      assert n * width == (n - 1) * width + width;
    }
  }

  lemma TokensFit(ids: seq<seq<Token>>, n: nat, width: nat)
    requires n <= |ids| && Fits(ids, width)
    ensures Lengths(ids, n) <= |ids| * width
  {
    LengthsWithin(ids, n, width);
    assert (|ids| - n) * width >= 0;
  }

  function Sum(s: seq<int>): int {
    if s == [] then 0 else Sum(s[..|s| - 1]) + s[|s| - 1]
  }

  lemma {:induction false} SumJoins(a: seq<int>, b: seq<int>)
    ensures Sum(a + b) == Sum(a) + Sum(b)
    decreases |b|
  {
    if b == [] {
      assert a + b == a;
    } else {
      var n := |b| - 1;
      assert (a + b)[..|a + b| - 1] == a + b[..n];
      SumJoins(a, b[..n]);
    }
  }

  lemma {:induction false} SumFills(v: int, n: nat)
    ensures Sum(Fill(v, n)) == v * n
  {
    if n == 0 {
    } else {
      assert Fill(v, n)[..n - 1] == Fill(v, n - 1);
      SumFills(v, n - 1);
      assert v * n == v * (n - 1) + v;
    }
  }

  lemma {:induction false} SumOfMarks(ids: seq<seq<Token>>, n: nat, width: nat)
    requires n <= |ids| && Fits(ids, width)
    ensures Sum(Grid(Marks(ids, 1), n, width, 0)) == Lengths(ids, n)
  {
    if n == 0 {
    } else {
      SumOfMarks(ids, n - 1, width);
      var m := Marks(ids, 1)[n - 1];
      SumJoins(Grid(Marks(ids, 1), n - 1, width, 0), Padded(m, width, 0));
      SumJoins(m, Fill(0, width - |m|));
      SumFills(1, |m|);
      SumFills(0, width - |m|);
    }
  }

  /** `usage.input_tokens` is the sum of the attention mask. */
  lemma UsageIsMaskSum(rows: seq<Row>, pad: Token)
    ensures BatchOf(rows, pad).inputTokens == Sum(BatchOf(rows, pad).attentionMask)
  {
    var ids := IdsOf(rows);
    LongestFits(ids, |rows|);
    SumOfMarks(ids, |rows|, Longest(ids, |rows|));
  }

  /** The widths are the smallest that hold every row, and a batch is refused exactly if a buffer would be too large. */
  lemma WidthsAreLeast(rows: seq<Row>, pad: Token)
    requires rows != []
    ensures var batch := BatchOf(rows, pad);
            && batch.rows == |rows|
            && (forall i | 0 <= i < |rows| :: |rows[i].ids| <= batch.width && |rows[i].markers| <= batch.slots)
            && (exists i | 0 <= i < |rows| :: |rows[i].ids| == batch.width)
            && (exists i | 0 <= i < |rows| :: |rows[i].markers| == batch.slots)
            && (CollateOf(rows, pad) == Err(SizeOverflow)
                <==> batch.rows * batch.width > I64_MAX || batch.rows * batch.slots > I64_MAX)
            && (CollateOf(rows, pad) != Err(SizeOverflow) ==> CollateOf(rows, pad) == Ok(batch))
  {
    var ids, markers, b := IdsOf(rows), MarkersOf(rows), |rows|;
    LongestFits(ids, b);
    LongestFits(markers, b);
    var i :| 0 <= i < b && |ids[i]| == Longest(ids, b);
    var j :| 0 <= j < b && |markers[j]| == Longest(markers, b);
    assert |rows[i].ids| == Longest(ids, b) && |rows[j].markers| == Longest(markers, b);
    forall n | 0 <= n < b ensures |rows[n].ids| <= Longest(ids, b) && |rows[n].markers| <= Longest(markers, b) {
      assert |ids[n]| <= Longest(ids, b) && |markers[n]| <= Longest(markers, b);
    }
  }

  /** Row i of the four buffers: its values, and behind them only padding. */
  lemma RowsArePadded(rows: seq<Row>, pad: Token, i: nat)
    requires i < |rows|
    ensures InBounds(BatchOf(rows, pad), i) && TokensArePadded(rows, pad, i) && MarkersArePadded(rows, pad, i)
  {
    Shapes(rows, pad);
    PadTokens(rows, pad, i);
    PadMarkers(rows, pad, i);
  }

  ghost predicate TokensArePadded(rows: seq<Row>, pad: Token, i: nat)
    requires i < |rows| && InBounds(BatchOf(rows, pad), i)
  {
    var batch := BatchOf(rows, pad);
    && IsPadded(RowSlice(batch.inputIds, batch.width, i), rows[i].ids, pad)
    && IsPadded(RowSlice(batch.attentionMask, batch.width, i), Fill(1, |rows[i].ids|), 0)
  }

  ghost predicate MarkersArePadded(rows: seq<Row>, pad: Token, i: nat)
    requires i < |rows| && InBounds(BatchOf(rows, pad), i)
  {
    var batch := BatchOf(rows, pad);
    && IsPadded(RowSlice(batch.markerPos, batch.slots, i), Widened(rows[i].markers), 0)
    && IsPadded(RowSlice(batch.markerMask, batch.slots, i), Fill(true, |rows[i].markers|), false)
  }

  lemma PadTokens(rows: seq<Row>, pad: Token, i: nat)
    requires i < |rows| && InBounds(BatchOf(rows, pad), i)
    ensures TokensArePadded(rows, pad, i)
  {
    var ids, b := IdsOf(rows), |rows|;
    LongestFits(ids, b);
    GridRow(ids, b, Longest(ids, b), pad, i);
    GridRow(Marks(ids, 1), b, Longest(ids, b), 0, i);
  }

  lemma PadMarkers(rows: seq<Row>, pad: Token, i: nat)
    requires i < |rows| && InBounds(BatchOf(rows, pad), i)
    ensures MarkersArePadded(rows, pad, i)
  {
    var markers, b := MarkersOf(rows), |rows|;
    LongestFits(markers, b);
    GridRow(markers, b, Longest(markers, b), 0, i);
    GridRow(Marks(markers, true), b, Longest(markers, b), false, i);
  }

  /** s begins with `values`, and holds only `pad` behind them. */
  ghost predicate IsPadded<T>(s: seq<T>, values: seq<T>, pad: T) {
    values <= s && forall k | |values| <= k < |s| :: s[k] == pad
  }

  predicate AtMask(sp: Special, batch: Batch, i: nat, pos: int)
    requires InBounds(batch, i)
  {
    && 0 <= pos < batch.width
    && RowSlice(batch.inputIds, batch.width, i)[pos] == sp.mask
    && RowSlice(batch.attentionMask, batch.width, i)[pos] == 1
  }

  /** Slot j of row i is marked exactly below `markers`, and then addresses an attended MASK token. */
  predicate SlotPoints(sp: Special, batch: Batch, i: nat, j: nat, markers: nat)
    requires InBounds(batch, i) && j < batch.slots
  {
    && (RowSlice(batch.markerMask, batch.slots, i)[j] <==> j < markers)
    && (j < markers ==> AtMask(sp, batch, i, RowSlice(batch.markerPos, batch.slots, i)[j]))
  }

  predicate SlotReads(batch: Batch, i: nat, j: nat, markers: seq<nat>)
    requires InBounds(batch, i) && j < batch.slots
  {
    && (RowSlice(batch.markerMask, batch.slots, i)[j] <==> j < |markers|)
    && (j < |markers| ==> RowSlice(batch.markerPos, batch.slots, i)[j] == markers[j])
  }

  lemma SlotOf(rows: seq<Row>, pad: Token, i: nat, j: nat)
    requires i < |rows| && InBounds(BatchOf(rows, pad), i) && j < BatchOf(rows, pad).slots
    ensures SlotReads(BatchOf(rows, pad), i, j, rows[i].markers)
  {
    var markers, b := MarkersOf(rows), |rows|;
    LongestFits(markers, b);
    var k := Longest(markers, b);
    GridRow(markers, b, k, 0, i);
    GridRow(Marks(markers, true), b, k, false, i);
  }

  predicate TokenReads(batch: Batch, i: nat, pos: nat, token: Token)
    requires InBounds(batch, i)
  {
    && pos < batch.width
    && RowSlice(batch.inputIds, batch.width, i)[pos] == token
    && RowSlice(batch.attentionMask, batch.width, i)[pos] == 1
  }

  lemma TokenOf(rows: seq<Row>, pad: Token, i: nat, pos: nat)
    requires i < |rows| && InBounds(BatchOf(rows, pad), i) && pos < |rows[i].ids|
    ensures TokenReads(BatchOf(rows, pad), i, pos, rows[i].ids[pos])
  {
    var ids, b := IdsOf(rows), |rows|;
    LongestFits(ids, b);
    var l := Longest(ids, b);
    GridRow(ids, b, l, pad, i);
    GridRow(Marks(ids, 1), b, l, 0, i);
  }

  /** A true marker slot, read by the model, addresses an attended MASK token of its own row. */
  lemma SlotsPointAtMasks(sp: Special, rows: seq<Row>, i: nat, j: nat)
    requires i < |rows| && PointsAtMasks(sp, rows[i])
    requires j < BatchOf(rows, sp.pad).slots
    ensures var batch := BatchOf(rows, sp.pad);
            InBounds(batch, i) && SlotPoints(sp, batch, i, j, |rows[i].markers|)
  {
    Shapes(rows, sp.pad);
    SlotOf(rows, sp.pad, i, j);
    if j < |rows[i].markers| { TokenOf(rows, sp.pad, i, rows[i].markers[j]); }
  }

  // ---- The code ----

  /** Copy src into the buffer at `at`. */
  method CopyInto<T>(buffer: array<T>, at: nat, src: seq<T>)
    requires at + |src| <= buffer.Length
    modifies buffer
    ensures buffer[..] == old(buffer[..at]) + src + old(buffer[at + |src|..])
  {
    for j := 0 to |src|
      invariant buffer[..at] == old(buffer[..at])
      invariant buffer[at..at + j] == src[..j]
      invariant buffer[at + j..] == old(buffer[at + j..])
    {
      buffer[at + j] := src[j];
      assert buffer[at..at + j + 1] == buffer[at..at + j] + [src[j]];
    }
    assert buffer[..] == buffer[..at] + buffer[at..at + |src|] + buffer[at + |src|..];
  }

  /** The first i rows stand in the buffer, and behind them there is only padding. */
  ghost predicate UpTo<T>(buffer: seq<T>, rows: seq<seq<T>>, i: nat, width: nat, pad: T)
    requires i <= |rows| && Fits(rows, width)
  {
    && |buffer| == |rows| * width
    && buffer == Grid(rows, i, width, pad) + Fill(pad, (|rows| - i) * width)
  }

  lemma Complete<T>(buffer: seq<T>, rows: seq<seq<T>>, width: nat, pad: T)
    requires Fits(rows, width) && UpTo(buffer, rows, |rows|, width, pad)
    ensures buffer == Grid(rows, |rows|, width, pad)
  {
  }

  lemma Blank<T>(buffer: seq<T>, rows: seq<seq<T>>, width: nat, pad: T)
    requires Fits(rows, width) && buffer == Fill(pad, |rows| * width)
    ensures UpTo(buffer, rows, 0, width, pad)
  {
  }

  /** One row into a buffer whose first i rows are done. */
  method WriteRow<T>(buffer: array<T>, row: seq<T>, ghost rows: seq<seq<T>>, i: nat, width: nat, ghost pad: T)
    requires i < |rows| && Fits(rows, width) && row == rows[i]
    requires UpTo(buffer[..], rows, i, width, pad)
    modifies buffer
    ensures UpTo(buffer[..], rows, i + 1, width, pad)
  {
    GridSize(rows, i, width, pad);
    Room(i, |rows|, width);
    ghost var done := Grid(rows, i, width, pad);
    ghost var rest := (|rows| - i - 1) * width;
    assert (|rows| - i) * width == rest + width;
    ghost var before := buffer[..];
    CopyInto(buffer, i * width, row);
    assert before[..i * width] == done;
    assert before[i * width + |row|..] == Fill(pad, width - |row|) + Fill(pad, rest);
    assert buffer[..] == done + row + (Fill(pad, width - |row|) + Fill(pad, rest));
    assert buffer[..] == done + (row + Fill(pad, width - |row|)) + Fill(pad, rest);
  }

  method Widths(rows: seq<Row>) returns (l: nat, k: nat)
    ensures l == Longest(IdsOf(rows), |rows|) && k == Longest(MarkersOf(rows), |rows|)
  {
    l, k := 0, 0;
    for i := 0 to |rows|
      invariant l == Longest(IdsOf(rows), i) && k == Longest(MarkersOf(rows), i)
    {
      l := if |rows[i].ids| > l then |rows[i].ids| else l;
      k := if |rows[i].markers| > k then |rows[i].markers| else k;
    }
  }

  method Collate(rows: seq<Row>, pad: Token) returns (r: Result<Batch, SequenceError>)
    ensures r == CollateOf(rows, pad)
  {
    if rows == [] { return Err(NoQuestions); }
    var b := |rows|;
    var l, k := Widths(rows);
    LongestFits(IdsOf(rows), b);
    LongestFits(MarkersOf(rows), b);
    if b * l > I64_MAX || b * k > I64_MAX { return Err(SizeOverflow); }
    var buffers := new Buffers(rows, l, k, pad);
    for i := 0 to b
      invariant buffers.Holds(rows, i)
      invariant fresh(buffers) && fresh(buffers.inputIds) && fresh(buffers.attention)
      invariant fresh(buffers.positions) && fresh(buffers.present)
    {
      buffers.Put(rows[i], rows, i);
    }
    buffers.IsBatch(rows);
    var batch := buffers.Finish(b);
    return Ok(batch);
  }

  /** The buffers of a batch while it is filled, row by row. */
  class Buffers {
    const width: nat
    const slots: nat
    const pad: Token
    const inputIds: array<Token>
    const attention: array<int>
    const positions: array<int>
    const present: array<bool>
    var qtype: seq<nat>
    var inputTokens: nat

    ghost predicate Apart() {
      && attention != positions && inputIds != attention && inputIds != positions
    }

    /** The first i rows are in the token buffers. */
    ghost predicate HoldsTokens(rows: seq<Row>, i: nat)
      reads inputIds, attention
    {
      && i <= |rows| && Fits(IdsOf(rows), width)
      && UpTo(inputIds[..], IdsOf(rows), i, width, pad)
      && UpTo(attention[..], Marks(IdsOf(rows), 1), i, width, 0)
    }

    /** The first i rows are in the marker buffers. */
    ghost predicate HoldsMarkers(rows: seq<Row>, i: nat)
      reads positions, present
    {
      && i <= |rows| && Fits(MarkersOf(rows), slots)
      && UpTo(positions[..], MarkersOf(rows), i, slots, 0)
      && UpTo(present[..], Marks(MarkersOf(rows), true), i, slots, false)
    }

    ghost predicate Holds(rows: seq<Row>, i: nat)
      reads this, inputIds, attention, positions, present
    {
      Apart() && HoldsTokens(rows, i) && HoldsMarkers(rows, i) && HoldsCounts(rows, i)
    }

    ghost predicate HoldsCounts(rows: seq<Row>, i: nat)
      reads this
    {
      && i <= |rows| && Fits(IdsOf(rows), width)
      && |rows| * width <= I64_MAX
      && qtype == seq(i, j requires 0 <= j < i => rows[j].qtype)
      && inputTokens == Lengths(IdsOf(rows), i)
    }

    constructor (rows: seq<Row>, width: nat, slots: nat, pad: Token)
      requires Fits(IdsOf(rows), width) && Fits(MarkersOf(rows), slots) && |rows| * width <= I64_MAX
      ensures Holds(rows, 0)
      ensures this.width == width && this.slots == slots && this.pad == pad
      ensures fresh(inputIds) && fresh(attention) && fresh(positions) && fresh(present)
    {
      this.width, this.slots, this.pad := width, slots, pad;
      inputIds := new Token[|rows| * width](_ => pad);
      attention := new int[|rows| * width](_ => 0);
      positions := new int[|rows| * slots](_ => 0);
      present := new bool[|rows| * slots](_ => false);
      qtype, inputTokens := [], 0;
      new;
      Blank(inputIds[..], IdsOf(rows), width, pad);
      Blank(attention[..], Marks(IdsOf(rows), 1), width, 0);
      Blank(positions[..], MarkersOf(rows), slots, 0);
      Blank(present[..], Marks(MarkersOf(rows), true), slots, false);
    }

    method PutTokens(row: Row, ghost rows: seq<Row>, i: nat)
      requires Apart() && HoldsTokens(rows, i) && i < |rows| && row == rows[i]
      modifies inputIds, attention
      ensures HoldsTokens(rows, i + 1)
    {
      WriteRow(inputIds, row.ids, IdsOf(rows), i, width, pad);
      WriteRow(attention, Fill(1, |row.ids|), Marks(IdsOf(rows), 1), i, width, 0);
    }

    method PutMarkers(row: Row, ghost rows: seq<Row>, i: nat)
      requires Apart() && HoldsMarkers(rows, i) && i < |rows| && row == rows[i]
      modifies positions, present
      ensures HoldsMarkers(rows, i + 1)
    {
      WriteRow(positions, row.markers, MarkersOf(rows), i, slots, 0);
      WriteRow(present, Fill(true, |row.markers|), Marks(MarkersOf(rows), true), i, slots, false);
    }

    method PutCounts(row: Row, ghost rows: seq<Row>, i: nat)
      requires HoldsCounts(rows, i) && i < |rows| && row == rows[i]
      modifies this
      ensures HoldsCounts(rows, i + 1)
    {
      qtype := qtype + [row.qtype];
      // The count stays below the size of the buffer, which was checked.
      TokensFit(IdsOf(rows), i + 1, width);
      assert inputTokens + |row.ids| <= USIZE_MAX;
      inputTokens := inputTokens + |row.ids|;
    }

    method Put(row: Row, ghost rows: seq<Row>, i: nat)
      requires Holds(rows, i) && i < |rows| && row == rows[i]
      modifies this, inputIds, attention, positions, present
      ensures Holds(rows, i + 1)
    {
      PutTokens(row, rows, i);
      PutMarkers(row, rows, i);
      PutCounts(row, rows, i);
    }

    method Finish(rows: nat) returns (batch: Batch)
      ensures batch == Batch(rows, width, slots, inputIds[..], attention[..], positions[..], present[..],
                             qtype, inputTokens)
    {
      batch := Batch(rows, width, slots, inputIds[..], attention[..], positions[..], present[..], qtype, inputTokens);
    }

    lemma IsBatch(rows: seq<Row>)
      requires Holds(rows, |rows|)
      requires width == Longest(IdsOf(rows), |rows|) && slots == Longest(MarkersOf(rows), |rows|)
      ensures Batch(|rows|, width, slots, inputIds[..], attention[..], positions[..], present[..], qtype, inputTokens)
           == BatchOf(rows, pad)
    {
      Complete(inputIds[..], IdsOf(rows), width, pad);
      Complete(attention[..], Marks(IdsOf(rows), 1), width, 0);
      Complete(positions[..], MarkersOf(rows), slots, 0);
      Complete(present[..], Marks(MarkersOf(rows), true), slots, false);
    }
  }
}
