/**
 The printer of src/system_one/json.rs: a heap stack of pending pieces and an output string
 that both change in place. It writes exactly the recursive dump of the document in effect.
 */
module JsonPrinter {
  import opened Wrappers
  import opened Decimal
  import opened Json
  import opened JsonMachine

  datatype Pending = PValue(raw: Raw) | PKey(key: string) | PText(text: string)

  // ---- What the stack still has to write ----

  function Cat(a: Option<string>, b: Option<string>): Option<string> {
    if a.Some? && b.Some? then Some(a.value + b.value) else None
  }

  function Dump(raw: Raw, ascii: bool): Option<string>
    requires WellFormed(raw)
  {
    match Effective(raw)
    case Some(t) => Some(Print(t, ascii))
    case None => None
  }

  predicate Fit(p: Pending) {
    p.PValue? ==> WellFormed(p.raw)
  }

  predicate AllFit(ps: seq<Pending>) {
    forall i | 0 <= i < |ps| :: Fit(ps[i])
  }

  function Piece(p: Pending, ascii: bool): Option<string>
    requires Fit(p)
  {
    match p
    case PValue(raw) => Dump(raw, ascii)
    case PKey(key) => Some(Quoted(key, ascii))
    case PText(text) => Some(text)
  }

  /** The first n pieces, the last of them on top. */
  function Flatten(ps: seq<Pending>, n: nat, ascii: bool): Option<string>
    requires n <= |ps| && AllFit(ps)
  {
    if n == 0 then Some("") else Cat(Piece(ps[n - 1], ascii), Flatten(ps, n - 1, ascii))
  }

  function Work(ps: seq<Pending>, n: nat): nat
    requires n <= |ps|
  {
    if n == 0 then 0 else Work(ps, n - 1) + (if ps[n - 1].PValue? then Size(ps[n - 1].raw) else 1)
  }

  lemma {:induction false} Prefix(a: seq<Pending>, b: seq<Pending>, n: nat, ascii: bool)
    requires n <= |a| && n <= |b| && AllFit(a) && AllFit(b) && forall i | 0 <= i < n :: a[i] == b[i]
    ensures Flatten(a, n, ascii) == Flatten(b, n, ascii) && Work(a, n) == Work(b, n)
  {
    if n == 0 {
    } else {
      Prefix(a, b, n - 1, ascii);
    }
  }

  lemma Push(ps: seq<Pending>, p: Pending, ascii: bool)
    requires AllFit(ps) && Fit(p)
    ensures var q := ps + [p];
            && AllFit(q) && Flatten(q, |q|, ascii) == Cat(Piece(p, ascii), Flatten(ps, |ps|, ascii))
            && Work(q, |q|) == Work(ps, |ps|) + (if p.PValue? then Size(p.raw) else 1)
  {
    Prefix(ps + [p], ps, |ps|, ascii);
  }

  lemma CatAssociates(a: Option<string>, b: Option<string>, c: Option<string>)
    ensures Cat(Cat(a, b), c) == Cat(a, Cat(b, c))
    ensures Cat(Some(""), a) == a == Cat(a, Some(""))
  {
    if a.Some? && b.Some? && c.Some? {
      assert (a.value + b.value) + c.value == a.value + (b.value + c.value);
    }
    if a.Some? { assert "" + a.value == a.value == a.value + ""; }
  }

  // ---- Arrays ----

  function ItemsFrom(items: seq<Raw>, i: nat, ascii: bool): Option<string>
    requires i <= |items| && forall k | 0 <= k < |items| :: WellFormed(items[k])
    decreases |items| - i
  {
    if i == |items| then Some("")
    else Cat(Some(if i != 0 then ", " else ""), Cat(Dump(items[i], ascii), ItemsFrom(items, i + 1, ascii)))
  }

  lemma {:induction false} ItemsFromPrints(items: seq<Raw>, trees: seq<Tree>, i: nat, ascii: bool)
    requires i <= |items| == |trees| && forall k | 0 <= k < |items| :: WellFormed(items[k])
    requires forall k | 0 <= k < |items| :: Effective(items[k]) == Some(trees[k])
    ensures ItemsFrom(items, i, ascii) == Some(PrintItems(trees, i, ascii))
    decreases |items| - i
  {
    if i == |items| {
    } else {
      ItemsFromPrints(items, trees, i + 1, ascii);
      JoinItem(if i != 0 then ", " else "", Print(trees[i], ascii), PrintItems(trees, i + 1, ascii));
    }
  }

  lemma JoinItem(sep: string, p: string, q: string)
    ensures sep + (p + q) == sep + p + q
  {
  }

  lemma {:induction false} ItemsFromFails(items: seq<Raw>, bad: nat, i: nat, ascii: bool)
    requires i <= bad < |items| && forall k | 0 <= k < |items| :: WellFormed(items[k])
    requires Effective(items[bad]).None?
    ensures ItemsFrom(items, i, ascii) == None
    decreases |items| - i
  {
    if i == bad {
    } else {
      ItemsFromFails(items, bad, i + 1, ascii);
    }
  }

  lemma DumpArray(items: seq<Raw>, ascii: bool)
    requires WellFormed(RArray(items))
    ensures Dump(RArray(items), ascii) == Cat(Some("["), Cat(ItemsFrom(items, 0, ascii), Some("]")))
  {
    if forall k | 0 <= k < |items| :: Effective(items[k]).Some? {
      var trees := Effective(RArray(items)).value.items;
      ItemsFromPrints(items, trees, 0, ascii);
      assert "[" + (PrintItems(trees, 0, ascii) + "]") == "[" + PrintItems(trees, 0, ascii) + "]";
    } else {
      var bad :| 0 <= bad < |items| && Effective(items[bad]).None?;
      ItemsFromFails(items, bad, 0, ascii);
    }
  }

  // ---- Objects ----

  predicate FitPairs(ps: seq<Pair<Raw>>) {
    forall i | 0 <= i < |ps| :: WellFormed(ps[i].value)
  }

  function MembersFrom(ps: seq<Pair<Raw>>, i: nat, ascii: bool): Option<string>
    requires i <= |ps| && FitPairs(ps)
    decreases |ps| - i
  {
    if i == |ps| then Some("")
    else
      Cat(Some(if i != 0 then ", " else ""),
          Cat(Some(Quoted(ps[i].key, ascii)),
              Cat(Some(": "), Cat(Dump(ps[i].value, ascii), MembersFrom(ps, i + 1, ascii)))))
  }

  lemma {:induction false} MembersFromPrints(ps: seq<Pair<Raw>>, members: seq<Pair<Tree>>, i: nat, ascii: bool)
    requires i <= |ps| == |members| && FitPairs(ps)
    requires forall k | 0 <= k < |ps| :: Effective(ps[k].value) == Some(members[k].value) && ps[k].key == members[k].key
    ensures MembersFrom(ps, i, ascii) == Some(PrintMembers(members, i, ascii))
    decreases |ps| - i
  {
    if i == |ps| {
    } else {
      MembersFromPrints(ps, members, i + 1, ascii);
      JoinMember(if i != 0 then ", " else "", Quoted(ps[i].key, ascii), Print(members[i].value, ascii),
                 PrintMembers(members, i + 1, ascii));
    }
  }

  lemma JoinMember(sep: string, k: string, p: string, q: string)
    ensures sep + (k + (": " + (p + q))) == sep + k + ": " + p + q
  {
  }

  lemma {:induction false} MembersFromFails(ps: seq<Pair<Raw>>, bad: nat, i: nat, ascii: bool)
    requires i <= bad < |ps| && FitPairs(ps) && Effective(ps[bad].value).None?
    ensures MembersFrom(ps, i, ascii) == None
    decreases |ps| - i
  {
    if i == bad {
    } else {
      MembersFromFails(ps, bad, i + 1, ascii);
    }
  }

  /** bs is as with every value replaced by the tree in effect. */
  predicate Images(raws: seq<Pair<Raw>>, trees: seq<Pair<Option<Tree>>>) {
    && |raws| == |trees| && FitPairs(raws)
    && forall i | 0 <= i < |raws| :: trees[i].key == raws[i].key && trees[i].value == Effective(raws[i].value)
  }

  lemma {:induction false} ImageKeys(raws: seq<Pair<Raw>>, trees: seq<Pair<Option<Tree>>>)
    requires Images(raws, trees)
    ensures FirstKeys(raws) == FirstKeys(trees)
  {
    if raws == [] {
    } else {
      ImageKeys(raws[..|raws| - 1], trees[..|trees| - 1]);
    }
  }

  lemma {:induction false} ImageLast(raws: seq<Pair<Raw>>, trees: seq<Pair<Option<Tree>>>, k: string)
    requires Images(raws, trees) && exists i | 0 <= i < |raws| :: raws[i].key == k
    ensures exists i | 0 <= i < |trees| :: trees[i].key == k
    ensures WellFormed(LastValue(raws, k)) && LastValue(trees, k) == Effective(LastValue(raws, k))
  {
    var n := |raws| - 1;
    var i :| 0 <= i < |raws| && raws[i].key == k;
    assert trees[i].key == k;
    if raws[n].key != k {
      assert raws[..n][i].key == k;
      ImageLast(raws[..n], trees[..n], k);
    }
  }

  /** Folding duplicates and taking the tree in effect commute. */
  lemma ImageCollapse(raws: seq<Pair<Raw>>, trees: seq<Pair<Option<Tree>>>)
    requires Images(raws, trees)
    ensures Images(Collapse(raws), Collapse(trees))
  {
    ImageKeys(raws, trees);
    var ks := FirstKeys(raws);
    var c, d := Collapse(raws), Collapse(trees);
    forall i | 0 <= i < |ks|
      ensures d[i].key == c[i].key && WellFormed(c[i].value) && d[i].value == Effective(c[i].value)
    {
      assert ks[i] in ks;
      ImageLast(raws, trees, ks[i]);
    }
  }

  lemma DumpObject(es: seq<Entry>, ascii: bool)
    requires WellFormed(RObject(es)) && KeysDecode(es)
    ensures FitPairs(Collapse(Pairs(es)))
    ensures Dump(RObject(es), ascii) == Cat(Some("{"), Cat(MembersFrom(Collapse(Pairs(es)), 0, ascii), Some("}")))
  {
    var all := seq(|es|, i requires 0 <= i < |es| => Pair(es[i].key.chars, Effective(es[i].value)));
    ImageCollapse(Pairs(es), all);
    var ps, trees := Collapse(Pairs(es)), Collapse(all);
    if Known(trees) {
      var members := Effective(RObject(es)).value.members;
      MembersFromPrints(ps, members, 0, ascii);
      assert "{" + (PrintMembers(members, 0, ascii) + "}") == "{" + PrintMembers(members, 0, ascii) + "}";
    } else {
      var bad :| 0 <= bad < |trees| && trees[bad].value.None?;
      MembersFromFails(ps, bad, 0, ascii);
    }
  }

  lemma {:induction false} SizePrefix(a: seq<Pair<Raw>>, b: seq<Pair<Raw>>, n: nat)
    requires n <= |a| && n <= |b| && forall i | 0 <= i < n :: a[i] == b[i]
    ensures SizePairs(a, n) == SizePairs(b, n)
  {
    if n == 0 {
    } else {
      SizePrefix(a, b, n - 1);
    }
  }

  lemma {:induction false} SizePut(a: seq<Pair<Raw>>, k: nat, p: Pair<Raw>, n: nat)
    requires k < n <= |a|
    ensures SizePairs(a[k := p], n) == SizePairs(a, n) - Size(a[k].value) + Size(p.value)
  {
    if k == n - 1 { SizePrefix(a[k := p], a, k); } else { SizePut(a, k, p, n - 1); }
  }

  lemma SizeStep(c: seq<Pair<Raw>>, d: seq<Pair<Raw>>, pos: nat, p: Pair<Raw>)
    requires d == if pos < |c| then c[pos := p] else c + [p]
    ensures SizePairs(d, |d|) <= SizePairs(c, |c|) + Size(p.value) + 3
  {
    if pos < |c| { SizePut(c, pos, p, |c|); } else { SizePrefix(d, c, |c|); }
  }

  /** Folding duplicates never makes an object larger. */
  lemma {:induction false} SizeCollapse(es: seq<Entry>, n: nat)
    requires n <= |es| && KeysDecode(es)
    ensures var c := Collapse(Pairs(es)[..n]); SizePairs(c, |c|) <= SizeEntries(es, n)
  {
    if n == 0 {
    } else {
      SizeCollapse(es, n - 1);
      var ps := Pairs(es);
      var pos := FirstPosition(ps, n - 1);
      CollapseStep(ps, n - 1, pos);
      SizeStep(Collapse(ps[..n - 1]), Collapse(ps[..n]), pos, ps[n - 1]);
    }
  }

  /** Where the key of entry n stands among the keys before it, or the end. */
  lemma FirstPosition(ps: seq<Pair<Raw>>, n: nat) returns (pos: nat)
    requires n < |ps|
    ensures pos <= |FirstKeys(ps[..n])|
    ensures pos < |FirstKeys(ps[..n])| ==> FirstKeys(ps[..n])[pos] == ps[n].key
    ensures pos == |FirstKeys(ps[..n])| ==> ps[n].key !in FirstKeys(ps[..n])
  {
    var ks := FirstKeys(ps[..n]);
    if ps[n].key in ks {
      pos :| 0 <= pos < |ks| && ks[pos] == ps[n].key;
    } else {
      pos := |ks|;
    }
  }

  // ---- The printer ----

  class Printer {
    const ascii: bool
    var output: string
    var pending: seq<Pending>

    /** What will have been written when the stack is empty. */
    ghost function Promise(): Option<string>
      reads this
      requires AllFit(pending)
    {
      Cat(Some(output), Flatten(pending, |pending|, ascii))
    }

    constructor (ascii: bool)
      ensures this.ascii == ascii && output == "" && pending == []
    {
      this.ascii := ascii;
      output := "";
      pending := [];
    }

    /** `quote` */
    method Quote(text: string)
      modifies this`output
      ensures output == old(output) + Quoted(text, ascii)
    {
      output := output + "\"";
      ghost var start := output;
      for i := 0 to |text|
        invariant output + EscapeAll(text, i, ascii) == start + EscapeAll(text, 0, ascii)
      {
        output := output + Escape(text[i], ascii);
      }
      assert output + "" == output;
      output := output + "\"";
      assert output == old(output) + ("\"" + EscapeAll(text, 0, ascii) + "\"");
    }

    /** `append_decimal` */
    method AppendDecimal(digits: string, e: int)
      requires digits != ""
      modifies this`output
      ensures output == old(output) + DecimalText(digits, e)
    {
      if !(-4 <= e < 16) {
        output := output + (digits[..1] + (if |digits| > 1 then "." + digits[1..] else "") + "e" + SignedExponent(e));
      } else if e < 0 {
        output := output + ("0." + Zeros(-e - 1) + digits);
      } else {
        var point := e + 1;
        if point < |digits| {
          output := output + (digits[..point] + "." + digits[point..]);
        } else {
          output := output + (digits + Zeros(point - |digits|) + ".0");
        }
      }
    }

    /** `float_text`, appended. */
    method AppendFloat(d: Double)
      requires IsDouble(d)
      modifies this`output
      ensures output == old(output) + FloatText(d)
    {
      var sign := if d.negative then "-" else "";
      match d {
        case Infinite(_) => output := output + (sign + "Infinity");
        case Zero(_) => output := output + (sign + "0.0");
        case Finite(_, s) =>
          output := output + sign;
          AppendDecimal(Significant(s), Exponent(s));
          JoinItem(old(output), sign, DecimalText(Significant(s), Exponent(s)));
      }
    }

    method PushPiece(p: Pending)
      requires AllFit(pending) && Fit(p)
      modifies this`pending
      ensures pending == old(pending) + [p] && AllFit(pending)
      ensures Flatten(pending, |pending|, ascii)
              == Cat(Piece(p, ascii), Flatten(old(pending), |old(pending)|, ascii))
      ensures Work(pending, |pending|)
              == Work(old(pending), |old(pending)|) + (if p.PValue? then Size(p.raw) else 1)
    {
      Push(pending, p, ascii);
      pending := pending + [p];
    }

    /** `append` for an array: the items are pushed in reverse. */
    method AppendItems(items: seq<Raw>)
      requires AllFit(pending) && WellFormed(RArray(items))
      modifies this`output, this`pending
      ensures AllFit(pending)
      ensures Promise() == Cat(Some(old(output)), Cat(Dump(RArray(items), ascii), old(Flatten(pending, |pending|, ascii))))
      ensures Work(pending, |pending|) < old(Work(pending, |pending|)) + Size(RArray(items))
    {
      ghost var base := Flatten(pending, |pending|, ascii);
      ghost var work := Work(pending, |pending|);
      output := output + "[";
      PushPiece(PText("]"));
      ghost var end := Cat(Some("]"), base);
      CatAssociates(end, None, None);
      for i := |items| downto 0
        invariant AllFit(pending) && output == old(output) + "["
        invariant Flatten(pending, |pending|, ascii) == Cat(ItemsFrom(items, i, ascii), end)
        invariant Work(pending, |pending|) + SizeItems(items, i) <= work + 1 + SizeItems(items, |items|)
      {
        PushPiece(PValue(items[i]));
        ghost var tail := ItemsFrom(items, i + 1, ascii);
        CatAssociates(Dump(items[i], ascii), tail, end);
        if i != 0 {
          PushPiece(PText(", "));
        }
        CatAssociates(Some(if i != 0 then ", " else ""), Cat(Dump(items[i], ascii), tail), end);
        CatAssociates(Cat(Cat(Dump(items[i], ascii), tail), end), None, None);
      }
      DumpArray(items, ascii);
      Regroup(old(output), "[", ItemsFrom(items, 0, ascii), "]", base);
    }

    /** `append` for an object. */
    method AppendMembers(entries: seq<Pair<Raw>>)
      requires AllFit(pending) && FitPairs(entries)
      modifies this`output, this`pending
      ensures AllFit(pending)
      ensures Promise() == Cat(Some(old(output)),
                               Cat(Cat(Some("{"), Cat(MembersFrom(entries, 0, ascii), Some("}"))),
                                   old(Flatten(pending, |pending|, ascii))))
      ensures Work(pending, |pending|) < old(Work(pending, |pending|)) + 2 + SizePairs(entries, |entries|)
    {
      ghost var base := Flatten(pending, |pending|, ascii);
      ghost var work := Work(pending, |pending|);
      output := output + "{";
      PushPiece(PText("}"));
      ghost var end := Cat(Some("}"), base);
      CatAssociates(end, None, None);
      for i := |entries| downto 0
        invariant AllFit(pending) && output == old(output) + "{"
        invariant Flatten(pending, |pending|, ascii) == Cat(MembersFrom(entries, i, ascii), end)
        invariant Work(pending, |pending|) + SizePairs(entries, i) <= work + 1 + SizePairs(entries, |entries|)
      {
        var key, raw := entries[i].key, entries[i].value;
        ghost var tail := MembersFrom(entries, i + 1, ascii);
        PushPiece(PValue(raw));
        PushPiece(PText(": "));
        PushPiece(PKey(key));
        if i != 0 {
          PushPiece(PText(", "));
        }
        RegroupMember(if i != 0 then ", " else "", Quoted(key, ascii), Dump(raw, ascii), tail, end);
      }
      Regroup(old(output), "{", MembersFrom(entries, 0, ascii), "}", base);
    }

    /** One turn of the loop of `render`. */
    method AppendPiece(item: Pending) returns (ok: bool)
      requires AllFit(pending) && Fit(item)
      modifies this`output, this`pending
      ensures !ok ==> Piece(item, ascii).None?
      ensures ok ==>
        && AllFit(pending)
        && Promise() == Cat(Some(old(output)), Cat(Piece(item, ascii), old(Flatten(pending, |pending|, ascii))))
        && Work(pending, |pending|)
           < old(Work(pending, |pending|)) + (if item.PValue? then Size(item.raw) else 1)
    {
      CatAssociates(Some(output), Piece(item, ascii), Flatten(pending, |pending|, ascii));
      ok := true;
      match item {
        case PText(text) => output := output + text;
        case PKey(key) => Quote(key);
        case PValue(value) => ok := AppendValue(value);
      }
    }

    /** `append(view(raw)?, ...)`; false if a string at this level does not decode. */
    method AppendValue(raw: Raw) returns (ok: bool)
      requires AllFit(pending) && WellFormed(raw)
      modifies this`output, this`pending
      ensures !ok ==> Dump(raw, ascii).None?
      ensures ok ==>
        && AllFit(pending)
        && Promise() == Cat(Some(old(output)), Cat(Dump(raw, ascii), old(Flatten(pending, |pending|, ascii))))
        && Work(pending, |pending|) < old(Work(pending, |pending|)) + Size(raw)
    {
      ghost var out, rest := output, Flatten(pending, |pending|, ascii);
      CatAssociates(Some(out), Dump(raw, ascii), rest);
      var v := View(raw);
      ok := v.Ok?;
      if ok {
        match v.value {
          case Null => output := output + "null";
          case Bool(b) => output := output + (if b then "true" else "false");
          case Integer(lexeme) => output := output + IntegerText(lexeme);
          case Float(d) => AppendFloat(d);
          case String(text) => Quote(text);
          case Array(items) => AppendItems(items);
          case Object(entries) =>
            DumpObject(raw.entries, ascii);
            SizeCollapse(raw.entries, |raw.entries|);
            assert Pairs(raw.entries)[..|raw.entries|] == Pairs(raw.entries);
            AppendMembers(entries);
        }
      }
    }
  }

  lemma Regroup(out: string, open: string, inner: Option<string>, close: string, base: Option<string>)
    ensures Cat(Some(out + open), Cat(inner, Cat(Some(close), base)))
            == Cat(Some(out), Cat(Cat(Some(open), Cat(inner, Some(close))), base))
  {
    CatAssociates(Some(out), Some(open), Cat(inner, Cat(Some(close), base)));
    CatAssociates(Some(open), Cat(inner, Some(close)), base);
    CatAssociates(inner, Some(close), base);
  }

  lemma RegroupMember(sep: string, key: string, value: Option<string>, tail: Option<string>, end: Option<string>)
    ensures Cat(Cat(Some(sep), Cat(Some(key), Cat(Some(": "), Cat(value, tail)))), end)
            == Cat(Some(sep), Cat(Some(key), Cat(Some(": "), Cat(value, Cat(tail, end)))))
    ensures Cat(Some(""), Cat(Some(key), Cat(Some(": "), Cat(value, Cat(tail, end)))))
            == Cat(Some(key), Cat(Some(": "), Cat(value, Cat(tail, end))))
  {
    CatAssociates(Some(sep), Cat(Some(key), Cat(Some(": "), Cat(value, tail))), end);
    CatAssociates(Some(key), Cat(Some(": "), Cat(value, tail)), end);
    CatAssociates(Some(": "), Cat(value, tail), end);
    CatAssociates(value, tail, end);
    CatAssociates(Cat(Some(key), Cat(Some(": "), Cat(value, Cat(tail, end)))), None, None);
  }

  /** `render` */
  method Render(raw: Raw, ascii: bool) returns (r: Result<string, Error>)
    requires WellFormed(raw)
    ensures r == Rendered(raw, ascii)
  {
    var root := View(raw);
    if root.Ok? && root.value.String? {
      return Ok(root.value.chars);
    }
    var p := new Printer(ascii);
    p.PushPiece(PValue(raw));
    CatAssociates(Dump(raw, ascii), None, None);
    while p.pending != []
      invariant AllFit(p.pending) && p.ascii == ascii && fresh(p)
      invariant p.Promise() == Dump(raw, ascii)
      decreases Work(p.pending, |p.pending|)
    {
      var n := |p.pending| - 1;
      var item := p.pending[n];
      ghost var was := p.pending;
      CatAssociates(Some(p.output), Piece(item, ascii), Flatten(was, n, ascii));
      p.pending := p.pending[..n];
      Prefix(p.pending, was, n, ascii);
      var ok := p.AppendPiece(item);
      if !ok {
        return Err(JsonSyntax);
      }
    }
    CatAssociates(Some(p.output), None, None);
    r := Ok(p.output);
  }
}
