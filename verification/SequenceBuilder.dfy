/** The row builder of src/sequence.rs: unsigned, saturating, with overflow checks and an early exit. */
module SequenceBuilder {
  import opened Wrappers
  import opened Sequence

  function SaturatingSub(a: nat, b: nat): nat { if a <= b then 0 else a - b }

  /** The lengths whose sums the code checks exceed the machine word. */
  predicate Overflows(maxLen: nat, headMax: nat, header: seq<Token>, options: seq<seq<Token>>, state: seq<Token>)
    requires options != []
  {
    var cut := CutOptions(headMax, options);
    var head := |CutHeader(headMax, header, cut)| + Total(cut) + 3;
    Total(options) > USIZE_MAX || head + |Take(state, maxLen - head - 1)| + 1 > USIZE_MAX
  }

  /** Overflow takes more options than memory can hold, or options longer than memory. */
  lemma OverflowIsRemote(maxLen: nat, headMax: nat, header: seq<Token>, options: seq<seq<Token>>, state: seq<Token>)
    requires options != [] && maxLen <= I64_MAX && headMax <= I64_MAX
    requires 4 * |options| <= I64_MAX && Total(options) <= USIZE_MAX
    ensures !Overflows(maxLen, headMax, header, options, state)
  {
    HeadBudget(headMax, header, options);
  }

  /** A checked length exceeds the machine word exactly if all options together do, or the whole row. */
  lemma OverflowsExactly(sp: Special, maxLen: nat, headMax: nat, header: seq<Token>, options: seq<seq<Token>>, state: seq<Token>)
    requires options != []
    ensures var cut := CutOptions(headMax, options);
            Overflows(maxLen, headMax, header, options, state) <==>
              Total(options) > USIZE_MAX || |Full(sp, maxLen, CutHeader(headMax, header, cut), cut, state)| > USIZE_MAX
  {
  }

  lemma CutTotal(headMax: nat, options: seq<seq<Token>>)
    requires options != []
    ensures Total(CutOptions(headMax, options)) <= Total(options)
  {
    LengthsAre(CutOptions(headMax, options), options, |options|);
  }

  method SumLengths(options: seq<seq<Token>>) returns (r: Result<nat, SequenceError>)
    ensures r == if Total(options) <= USIZE_MAX then Ok(Total(options)) else Err(SizeOverflow)
  {
    var n := 0;
    for i := 0 to |options|
      invariant n == Lengths(options, i) <= USIZE_MAX
    {
      if n + |options[i]| > USIZE_MAX {
        LengthsGrow(options, i + 1, |options|);
        return Err(SizeOverflow);
      }
      n := n + |options[i]|;
    }
    return Ok(n);
  }

  /** The two vectors that a row takes over and cuts in place. */
  class Parts {
    var header: seq<Token>
    var options: seq<seq<Token>>

    constructor (header: seq<Token>, options: seq<seq<Token>>)
      ensures this.header == header && this.options == options
    {
      this.header, this.options := header, options;
    }

    /** Cut every option to `per` tokens, one after the other. */
    method CutEach(per: nat)
      modifies this`options
      ensures options == Cut(old(options), per)
    {
      for i := 0 to |options|
        invariant |options| == |old(options)|
        invariant forall j | 0 <= j < i :: options[j] == Take(old(options[j]), per)
        invariant forall j | i <= j < |options| :: options[j] == old(options[j])
      {
        options := options[i := if per < |options[i]| then options[i][..per] else options[i]];
      }
    }

    method TruncateHead(headMax: nat) returns (r: Result<(), SequenceError>)
      requires options != []
      modifies this
      ensures r.Err? <==> Total(old(options)) > USIZE_MAX
      ensures r.Err? ==> r.error == SizeOverflow && header == old(header) && options == old(options)
      ensures r.Ok? ==> options == CutOptions(headMax, old(options))
      ensures r.Ok? ==> header == CutHeader(headMax, old(header), options)
    {
      var sum := SumLengths(options);
      if sum.Err? { return Err(SizeOverflow); }
      var optionLen := sum.value;
      CutTotal(headMax, options);
      if SaturatingSub(headMax, optionLen) < 16 {
        var share := SaturatingSub(headMax, 16) / |options|;
        var per := if share < 4 then 4 else share;
        SignedShare(headMax, |options|);
        CutEach(per);
        sum := SumLengths(options);
        if sum.Err? { return Err(SizeOverflow); }
        optionLen := sum.value;
      }
      var budget := SaturatingSub(headMax, optionLen);
      var keep := if budget < 8 then 8 else budget;
      if keep < |header| { header := header[..keep]; }
      return Ok(());
    }
  }

  /** The saturating share is the signed one. */
  lemma SignedShare(headMax: nat, k: nat)
    requires k > 0
    ensures Share(headMax, k) == Max(4, SaturatingSub(headMax, 16) / k)
  {
    if headMax < 16 {
      assert (headMax - 16) / k < 0;
      assert 0 / k == 0;
    }
  }

  class Builder {
    const special: Special
    const maxLen: nat
    const headMax: nat

    ghost predicate Valid() {
      1 <= maxLen <= I64_MAX && headMax <= I64_MAX
    }

    constructor (special: Special, maxLen: nat, headMax: nat)
      requires 1 <= maxLen <= I64_MAX && headMax <= I64_MAX
      ensures Valid() && this.special == special && this.maxLen == maxLen && this.headMax == headMax
    {
      this.special, this.maxLen, this.headMax := special, maxLen, headMax;
    }

    /** Push the options behind the header, noting where each starts. */
    method PushOptions(start: seq<Token>, header: seq<Token>, options: seq<seq<Token>>)
      returns (lost: bool, ids: seq<Token>, markers: seq<nat>)
      requires Valid() && options != []
      requires start == [special.cls] + header + [special.sep]
      ensures lost <==> MarkerAt(header, options, |options| - 1) >= maxLen
      ensures !lost ==> ids == start + Joined(options, |options|)
      ensures !lost ==> markers == MarkersAt(header, options, |options|)
    {
      lost, ids, markers := false, start, [];
      for i := 0 to |options|
        invariant ids == start + Joined(options, i)
        invariant markers == MarkersAt(header, options, i)
        invariant i > 0 ==> MarkerAt(header, options, i - 1) < maxLen
      {
        if |ids| >= maxLen {
          LengthsGrow(options, i, |options| - 1);
          return true, ids, markers;
        }
        markers := markers + [|ids|];
        ids := ids + options[i];
      }
    }

    /** The row that the code builds is the row of the specification, for all budgets and inputs. */
    method Build(header: seq<Token>, options: seq<seq<Token>>, state: seq<Token>, qtype: nat)
      returns (r: Result<Row, SequenceError>)
      requires Valid() && options != []
      ensures r == if Overflows(maxLen, headMax, header, options, state) then Err(SizeOverflow)
                   else RowOf(special, maxLen, headMax, header, options, state, qtype)
    {
      var parts := new Parts(header, options);
      var done := parts.TruncateHead(headMax);
      if done.Err? { return Err(SizeOverflow); }
      var sum := SumLengths(parts.options);
      CutTotal(headMax, options);
      if sum.Err? { return Err(SizeOverflow); }
      var headLen := |parts.header| + sum.value + 3;
      if headLen > USIZE_MAX { return Err(SizeOverflow); }
      var room := SaturatingSub(SaturatingSub(maxLen, headLen), 1);
      var kept := state[..if |state| < room then |state| else room];
      assert kept == Take(state, maxLen - headLen - 1);
      if headLen + |kept| + 1 > USIZE_MAX { return Err(SizeOverflow); }
      r := Assemble(parts.header, parts.options, kept, state, qtype);
    }

    /** Join the cut pieces, and cut the row to the model's length. */
    method Assemble(header: seq<Token>, options: seq<seq<Token>>, kept: seq<Token>, ghost state: seq<Token>, qtype: nat)
      returns (r: Result<Row, SequenceError>)
      requires Valid() && options != [] && kept == Take(state, maxLen - (|header| + Total(options) + 3) - 1)
      ensures r == CutRow(special, maxLen, header, options, state, qtype)
    {
      var front := [special.cls] + header + [special.sep];
      var lost, ids, markers := PushOptions(front, header, options);
      LostExactly(special, maxLen, header, options, state, qtype);
      if lost { return Err(MarkerLost); }
      ids := ids + [special.sep] + kept + [special.sep];
      assert ids == Full(special, maxLen, header, options, state);
      if maxLen < |ids| { ids := ids[..maxLen]; }
      return Ok(Row(ids, markers, qtype));
    }
  }
}
