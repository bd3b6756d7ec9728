/** The layout of a dump: one space behind each comma and colon, and no other white space but in strings. */
module JsonLayout {
  import opened Wrappers
  import opened Decimal
  import opened Json
  import opened JsonRoundTrip

  /** Where a scan stands: between tokens, behind a comma or colon, in a string, behind a backslash in it, or in error. */
  datatype Place = Outside | Behind | Inside | Escaped | Wrong

  function Step(p: Place, c: char): Place {
    match p
    case Outside => if c == '"' then Inside else if c == ',' || c == ':' then Behind else if IsSpace(c) then Wrong else Outside
    case Behind => if c == ' ' then Outside else Wrong
    case Inside => if c == '"' then Outside else if c == '\\' then Escaped else Inside
    case Escaped => Inside
    case Wrong => Wrong
  }

  function Scan(p: Place, s: string): Place
    decreases |s|
  {
    if s == "" then p else Scan(Step(p, s[0]), s[1..])
  }

  lemma {:induction false} ScanJoins(p: Place, a: string, b: string)
    ensures Scan(p, a + b) == Scan(Scan(p, a), b)
    decreases |a|
  {
    if a == "" {
      assert a + b == b;
    } else {
      assert (a + b)[1..] == a[1..] + b;
      ScanJoins(Step(p, a[0]), a[1..], b);
    }
  }

  /** Characters that a scan passes over where it stands. */
  lemma {:induction false} ScanStays(p: Place, s: string)
    requires forall k | 0 <= k < |s| :: Step(p, s[k]) == p
    ensures Scan(p, s) == p
  {
    if s == "" {
    } else {
      ScanStays(p, s[1..]);
    }
  }

  lemma ScanOne(p: Place, c: char)
    ensures Scan(p, [c]) == Step(p, c)
  {
    assert [c][1..] == "";
  }

  lemma ScanTwo(p: Place, c: char, d: char)
    ensures Scan(p, [c, d]) == Step(Step(p, c), d)
  {
    assert [c, d][1..] == [d];
    ScanOne(Step(p, c), d);
  }

  // ---- Strings ----

  lemma UnitStays(u: nat)
    requires u < 0x10000
    ensures Scan(Inside, UnitEscape(u)) == Inside
  {
    var e := UnitEscape(u);
    assert e == e[..2] + e[2..] && e[..2] == ['\\', 'u'];
    ScanTwo(Inside, '\\', 'u');
    ScanJoins(Inside, e[..2], e[2..]);
    ScanStays(Inside, e[2..]);
  }

  lemma EscapeStays(c: char, ascii: bool)
    ensures Scan(Inside, Escape(c, ascii)) == Inside
  {
    var e, n := Escape(c, ascii), c as int;
    if |e| == 1 {
      ScanOne(Inside, e[0]);
      assert e == [e[0]];
    } else if |e| == 2 {
      ScanTwo(Inside, e[0], e[1]);
      assert e == [e[0], e[1]];
    } else if n < 0x10000 {
      UnitStays(n);
    } else {
      var hi, lo := 0xd800 + (n - 0x10000) / 0x400, 0xdc00 + (n - 0x10000) % 0x400;
      UnitStays(hi);
      UnitStays(lo);
      ScanJoins(Inside, UnitEscape(hi), UnitEscape(lo));
    }
  }

  lemma {:induction false} EscapesStay(s: string, i: nat, ascii: bool)
    requires i <= |s|
    ensures Scan(Inside, EscapeAll(s, i, ascii)) == Inside
    decreases |s| - i
  {
    if i == |s| {
    } else {
      EscapeStays(s[i], ascii);
      EscapesStay(s, i + 1, ascii);
      ScanJoins(Inside, Escape(s[i], ascii), EscapeAll(s, i + 1, ascii));
    }
  }

  lemma QuotedPasses(s: string, ascii: bool)
    ensures Scan(Outside, Quoted(s, ascii)) == Outside
  {
    var e := EscapeAll(s, 0, ascii);
    EscapesStay(s, 0, ascii);
    ScanOne(Outside, '"');
    ScanOne(Inside, '"');
    ScanJoins(Outside, "\"" + e, "\"");
    ScanJoins(Outside, "\"", e);
  }

  // ---- Trees ----

  lemma MarkPasses(mark: char)
    requires mark == ',' || mark == ':'
    ensures Scan(Outside, [mark, ' ']) == Outside
  {
    ScanTwo(Outside, mark, ' ');
  }

  lemma ThreePass(a: string, b: string, c: string)
    requires Scan(Outside, a) == Scan(Outside, b) == Scan(Outside, c) == Outside
    ensures Scan(Outside, a + b + c) == Outside
  {
    ScanJoins(Outside, a + b, c);
    ScanJoins(Outside, a, b);
  }

  lemma BracketPasses(c: char)
    requires c == '[' || c == ']' || c == '{' || c == '}'
    ensures Scan(Outside, [c]) == Outside
  {
    ScanOne(Outside, c);
  }

  /**
   The layout of a dump: outside strings each comma and colon is followed by exactly one space,
   and there is no other white space.
   */
  lemma {:induction false} PrintIsSpaced(t: Tree, ascii: bool)
    requires NumbersOk(t)
    ensures Scan(Outside, Print(t, ascii)) == Outside
    decreases t, 0
  {
    match t
    case TNull => ScanStays(Outside, "null");
    case TBool(b) => ScanStays(Outside, if b then "true" else "false");
    case TNumber(text) => ScanStays(Outside, text);
    case TString(chars) => QuotedPasses(chars, ascii);
    case TArray(items) =>
      ItemsAreSpaced(items, 0, ascii);
      BracketPasses('[');
      BracketPasses(']');
      ThreePass("[", PrintItems(items, 0, ascii), "]");
    case TObject(members) =>
      MembersAreSpaced(members, 0, ascii);
      BracketPasses('{');
      BracketPasses('}');
      ThreePass("{", PrintMembers(members, 0, ascii), "}");
  }

  lemma {:induction false} ItemsAreSpaced(items: seq<Tree>, i: nat, ascii: bool)
    requires i <= |items| && forall k | 0 <= k < |items| :: NumbersOk(items[k])
    ensures Scan(Outside, PrintItems(items, i, ascii)) == Outside
    decreases items, |items| - i
  {
    if i == |items| {
    } else {
      PrintIsSpaced(items[i], ascii);
      ItemsAreSpaced(items, i + 1, ascii);
      MarkPasses(',');
      ThreePass(if i != 0 then ", " else "", Print(items[i], ascii), PrintItems(items, i + 1, ascii));
    }
  }

  lemma {:induction false} MembersAreSpaced(members: seq<Pair<Tree>>, i: nat, ascii: bool)
    requires i <= |members| && forall k | 0 <= k < |members| :: NumbersOk(members[k].value)
    ensures Scan(Outside, PrintMembers(members, i, ascii)) == Outside
    decreases members, |members| - i
  {
    if i == |members| {
    } else {
      var m := members[i];
      QuotedPasses(m.key, ascii);
      PrintIsSpaced(m.value, ascii);
      MembersAreSpaced(members, i + 1, ascii);
      MarkPasses(',');
      MarkPasses(':');
      var sep := if i != 0 then ", " else "";
      ThreePass(sep, Quoted(m.key, ascii), ": ");
      ThreePass(sep + Quoted(m.key, ascii) + ": ", Print(m.value, ascii), PrintMembers(members, i + 1, ascii));
    }
  }

  /** So is every rendered document, unless its root is a string. */
  lemma RenderedIsSpaced(raw: Raw, ascii: bool)
    requires WellFormed(raw) && !raw.RString? && Rendered(raw, ascii).Ok?
    ensures Scan(Outside, Rendered(raw, ascii).value) == Outside
  {
    EffectiveNumbers(raw);
    PrintIsSpaced(Effective(raw).value, ascii);
  }
}
