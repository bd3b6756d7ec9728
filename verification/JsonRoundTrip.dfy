/** Reading back what the printer writes gives the tree that was printed, in both modes. */
module JsonRoundTrip {
  import opened Wrappers
  import opened Decimal
  import opened Json
  import opened JsonReader

  // ---- Strings ----

  lemma UnitReads(u: nat, s: string, i: nat)
    requires u < 0x10000 && i + 6 <= |s| && s[i..i + 6] == UnitEscape(u)
    ensures s[i] == '\\' && s[i + 1] == 'u' && UnitAt(s, i + 2) == Some(u)
  {
    var e := s[i..i + 6];
    assert e[0] == s[i] && e[1] == s[i + 1] && e[2] == s[i + 2] && e[3] == s[i + 3] && e[4] == s[i + 4] && e[5] == s[i + 5];
    HexDigits(u / 0x1000);
    HexDigits(u / 0x100 % 16);
    HexDigits(u / 16 % 16);
    HexDigits(u % 16);
    FourDigits(u);
  }

  lemma FourDigits(u: nat)
    ensures ((u / 0x1000 * 16 + u / 0x100 % 16) * 16 + u / 16 % 16) * 16 + u % 16 == u
  {
    var a := u / 16;
    var b := a / 16;
    assert b == u / 0x100 && b / 16 == u / 0x1000;
    assert b == b / 16 * 16 + b % 16;
    assert a == b * 16 + a % 16;
    assert u == a * 16 + u % 16;
  }

  lemma HexDigits(d: nat)
    requires d < 16
    ensures HexValue(HexDigit(d)) == Some(d)
  {
  }

  lemma SurrogatesRead(hi: nat, lo: nat, c: char, rest: string)
    requires 0xd800 <= hi < 0xdc00 && 0xdc00 <= lo < 0xe000
    requires 0x10000 + (hi - 0xd800) * 0x400 + (lo - 0xdc00) == c as int
    ensures ReadChar(UnitEscape(hi) + UnitEscape(lo) + rest) == Some((c, 12))
  {
    var s := UnitEscape(hi) + UnitEscape(lo) + rest;
    assert s[0..6] == UnitEscape(hi) && s[6..12] == UnitEscape(lo);
    UnitReads(hi, s, 0);
    UnitReads(lo, s, 6);
  }

  /** The characters that are escaped by their code. */
  predicate Coded(c: char, ascii: bool) {
    c !in "\"\\\n\r\t" && c as int != 8 && c as int != 12 && (c < ' ' || (ascii && c as int >= 0x7f))
  }

  lemma UnitEscapeReads(c: char, rest: string)
    requires c as int < 0x10000
    ensures ReadChar(UnitEscape(c as int) + rest) == Some((c, 6))
  {
    var s := UnitEscape(c as int) + rest;
    assert s[0..6] == UnitEscape(c as int);
    UnitReads(c as int, s, 0);
  }

  lemma PairEscapeReads(c: char, rest: string)
    requires c as int >= 0x10000
    ensures var n := c as int - 0x10000;
            ReadChar(UnitEscape(0xd800 + n / 0x400) + UnitEscape(0xdc00 + n % 0x400) + rest) == Some((c, 12))
  {
    var n := c as int - 0x10000;
    SurrogatesRead(0xd800 + n / 0x400, 0xdc00 + n % 0x400, c, rest);
  }

  lemma CodedReads(c: char, ascii: bool, rest: string)
    requires Coded(c, ascii)
    ensures var e := Escape(c, ascii);
            e != "" && e[0] != '"' && ReadChar(e + rest) == Some((c, |e|))
  {
    if c as int < 0x10000 { UnitEscapeReads(c, rest); } else { PairEscapeReads(c, rest); }
  }

  lemma UncodedReads(c: char, ascii: bool, rest: string)
    requires !Coded(c, ascii)
    ensures var e := Escape(c, ascii);
            e != "" && e[0] != '"' && ReadChar(e + rest) == Some((c, |e|))
  {
  }

  /** An escaped character is read back as that character, surrogate pairs included. */
  lemma EscapeReads(c: char, ascii: bool, rest: string)
    ensures var e := Escape(c, ascii);
            e != "" && e[0] != '"' && ReadChar(e + rest) == Some((c, |e|))
  {
    if Coded(c, ascii) { CodedReads(c, ascii, rest); } else { UncodedReads(c, ascii, rest); }
  }

  /** A code unit as an escape: backslash, u, and four digits without capitals that read as the unit. */
  predicate IsUnitEscape(e: string, u: nat) {
    && |e| == 6 && e[0] == '\\' && e[1] == 'u' && UnitAt(e, 2) == Some(u)
    && forall k | 2 <= k < 6 :: !('A' <= e[k] <= 'F')
  }

  lemma UnitIsEscape(u: nat)
    requires u < 0x10000
    ensures IsUnitEscape(UnitEscape(u), u)
  {
    var e := UnitEscape(u);
    assert e[0..6] == e;
    UnitReads(u, e, 0);
  }

  /**
   How each character is written: quote, backslash and the five short escapes by two characters;
   other control characters, and with `ascii` all from 0x7f on, by their code units; every other
   one as it is.
   */
  lemma EscapeExactly(c: char, ascii: bool)
    ensures c == '"' ==> Escape(c, ascii) == "\\\""
    ensures c == '\\' ==> Escape(c, ascii) == "\\\\"
    ensures c as int == 8 ==> Escape(c, ascii) == "\\b"
    ensures c as int == 12 ==> Escape(c, ascii) == "\\f"
    ensures c as int == 10 ==> Escape(c, ascii) == "\\n"
    ensures c as int == 13 ==> Escape(c, ascii) == "\\r"
    ensures c as int == 9 ==> Escape(c, ascii) == "\\t"
    ensures Coded(c, ascii) && c as int < 0x10000 ==> IsUnitEscape(Escape(c, ascii), c as int)
    ensures Coded(c, ascii) && c as int >= 0x10000 ==>
      var n := c as int - 0x10000;
      && |Escape(c, ascii)| == 12
      && IsUnitEscape(Escape(c, ascii)[..6], 0xd800 + n / 0x400) && IsUnitEscape(Escape(c, ascii)[6..], 0xdc00 + n % 0x400)
    ensures !Coded(c, ascii) && c != '"' && c != '\\' && c >= ' ' ==> Escape(c, ascii) == [c]
  {
    if Coded(c, ascii) {
      if c as int < 0x10000 {
        UnitIsEscape(c as int);
      } else {
        var n := c as int - 0x10000;
        UnitIsEscape(0xd800 + n / 0x400);
        UnitIsEscape(0xdc00 + n % 0x400);
        var hi, lo := UnitEscape(0xd800 + n / 0x400), UnitEscape(0xdc00 + n % 0x400);
        assert Escape(c, ascii) == hi + lo && (hi + lo)[..6] == hi && (hi + lo)[6..] == lo;
      }
    }
  }

  lemma {:induction false} EscapeAllReads(s: string, i: nat, ascii: bool, rest: string)
    requires i <= |s|
    ensures ReadChars(EscapeAll(s, i, ascii) + ("\"" + rest)) == Got(s[i..], rest)
    decreases |s| - i
  {
    if i == |s| {
      NothingLeft(s, ascii, rest);
    } else {
      EscapeAllReads(s, i + 1, ascii, rest);
      var e, tail := Escape(s[i], ascii), EscapeAll(s, i + 1, ascii) + ("\"" + rest);
      EscapeReads(s[i], ascii, tail);
      OneMore(e, tail, s, i, rest);
      assert EscapeAll(s, i, ascii) + ("\"" + rest) == e + tail by { EscapeAllText(s, i, ascii, "\"" + rest); }
    }
  }

  lemma NothingLeft(s: string, ascii: bool, rest: string)
    ensures ReadChars(EscapeAll(s, |s|, ascii) + ("\"" + rest)) == Got(s[|s|..], rest)
  {
    assert EscapeAll(s, |s|, ascii) + ("\"" + rest) == "\"" + rest;
    assert s[|s|..] == "";
    CloseReads(rest);
  }

  lemma CloseReads(rest: string)
    ensures ReadChars("\"" + rest) == Got("", rest)
  {
    assert ("\"" + rest)[1..] == rest;
  }

  lemma EscapeAllText(s: string, i: nat, ascii: bool, rest: string)
    requires i < |s|
    ensures EscapeAll(s, i, ascii) + rest == Escape(s[i], ascii) + (EscapeAll(s, i + 1, ascii) + rest)
  {
  }

  lemma OneMore(e: string, tail: string, s: string, i: nat, rest: string)
    requires i < |s|
    requires e != "" && e[0] != '"' && ReadChar(e + tail) == Some((s[i], |e|)) && ReadChars(tail) == Got(s[i + 1..], rest)
    ensures ReadChars(e + tail) == Got(s[i..], rest)
  {
    assert (e + tail)[|e|..] == tail;
    assert s[i..] == [s[i]] + s[i + 1..];
  }

  lemma QuotedText(s: string, ascii: bool, rest: string)
    ensures Quoted(s, ascii) + rest == "\"" + (EscapeAll(s, 0, ascii) + ("\"" + rest))
    ensures (Quoted(s, ascii) + rest)[1..] == EscapeAll(s, 0, ascii) + ("\"" + rest)
  {
  }

  /** A quoted string starts a literal that reads back as the string. */
  lemma QuotedReads(s: string, ascii: bool, rest: string)
    ensures var q := Quoted(s, ascii) + rest;
            q[0] == '"' && ReadChars(q[1..]) == Got(s, rest)
  {
    EscapeAllReads(s, 0, ascii, rest);
    QuotedText(s, ascii, rest);
    assert s[0..] == s;
  }

  // ---- Numbers ----

  lemma {:induction false} NumberReads(text: string, rest: string)
    requires forall k | 0 <= k < |text| :: IsNumberChar(text[k])
    requires rest == "" || !IsNumberChar(rest[0])
    ensures NumberLength(text + rest) == |text|
  {
    if text == "" {
      assert text + rest == rest;
    } else {
      assert (text + rest)[1..] == text[1..] + rest;
      NumberReads(text[1..], rest);
    }
  }

  // ---- Values ----

  predicate NumbersOk(t: Tree) {
    match t
    case TNumber(text) => IsNumberText(text)
    case TArray(items) => forall i | 0 <= i < |items| :: NumbersOk(items[i])
    case TObject(members) => forall i | 0 <= i < |members| :: NumbersOk(members[i].value)
    case _ => true
  }

  /** Nothing that could continue a number. */
  predicate Ends(rest: string) {
    rest == "" || !IsNumberChar(rest[0])
  }

  predicate IsSpace(c: char) {
    c == ' ' || c == '\t' || c == '\n' || c == '\r'
  }

  lemma PrintStarts(t: Tree, ascii: bool)
    requires NumbersOk(t)
    ensures var s := Print(t, ascii); s != "" && !IsSpace(s[0]) && s[0] != ']' && s[0] != '}'
  {
  }

  lemma SpaceReads(s: string)
    ensures ReadValue(" " + s) == ReadValue(s)
  {
    assert (" " + s)[1..] == s;
  }

  lemma LiteralReads(rest: string)
    ensures ReadValue("null" + rest) == Got(TNull, rest)
    ensures ReadValue("true" + rest) == Got(TBool(true), rest)
    ensures ReadValue("false" + rest) == Got(TBool(false), rest)
  {
    assert ("null" + rest)[..4] == "null" && ("null" + rest)[4..] == rest;
    assert ("true" + rest)[..4] == "true" && ("true" + rest)[4..] == rest;
    assert ("false" + rest)[..5] == "false" && ("false" + rest)[5..] == rest;
  }

  lemma NumberValueReads(text: string, rest: string)
    requires IsNumberText(text) && Ends(rest)
    ensures ReadValue(text + rest) == Got(TNumber(text), rest)
  {
    NumberReads(text, rest);
    var s := text + rest;
    assert s[..|text|] == text && s[|text|..] == rest;
    assert s[0] == text[0];
    FirstReads(s);
  }

  /** A text that starts like a number is read as one. */
  lemma FirstReads(s: string)
    requires s != "" && (IsDigit(s[0]) || s[0] == '-' || s[0] == 'I')
    ensures var n := NumberLength(s); ReadValue(s) == if n == 0 then Fail else Got(TNumber(s[..n]), s[n..])
  {
    ScalarReads(s);
    assert SkipSpace(s) == s;
    assert s[0] != '"' && s[0] != '[' && s[0] != '{';
  }

  lemma ScalarReads(s: string)
    requires s != "" && (IsDigit(s[0]) || s[0] == '-' || s[0] == 'I')
    ensures var n := NumberLength(s); ReadScalar(s) == if n == 0 then Fail else Got(TNumber(s[..n]), s[n..])
  {
    OtherWord(s, "null");
    OtherWord(s, "true");
    OtherWord(s, "false");
  }

  lemma OtherWord(s: string, word: string)
    requires s != "" && word != "" && s[0] != word[0]
    ensures !StartsWith(s, word)
  {
    if |word| <= |s| { assert s[..|word|][0] == s[0]; }
  }

  /** Reading a printed value gives the value and leaves what follows it. */
  lemma {:induction false} PrintReads(t: Tree, ascii: bool, rest: string)
    requires NumbersOk(t) && Ends(rest)
    ensures ReadValue(Print(t, ascii) + rest) == Got(t, rest)
    decreases t, 0, 0
  {
    match t
    case TNull => LiteralReads(rest);
    case TBool(_) => LiteralReads(rest);
    case TNumber(text) => NumberValueReads(text, rest);
    case TString(chars) => QuotedReads(chars, ascii, rest);
    case TArray(items) => ArrayReads(t, items, ascii, rest);
    case TObject(members) => ObjectReads(t, members, ascii, rest);
  }

  /** The items from i on, without the separator in front, and the closing bracket. */
  function ItemsText(items: seq<Tree>, i: nat, ascii: bool, rest: string): string
    requires i < |items|
  {
    Print(items[i], ascii) + (PrintItems(items, i + 1, ascii) + "]" + rest)
  }

  lemma ItemsLayout(items: seq<Tree>, i: nat, ascii: bool, rest: string)
    requires i <= |items|
    ensures PrintItems(items, i, ascii) + "]" + rest
            == if i == |items| then "]" + rest else (if i != 0 then ", " else "") + ItemsText(items, i, ascii, rest)
  {
    if i < |items| {
      JoinItems(if i != 0 then ", " else "", Print(items[i], ascii), PrintItems(items, i + 1, ascii), rest);
    }
  }

  lemma JoinItems(sep: string, p: string, q: string, rest: string)
    ensures (sep + p + q) + "]" + rest == sep + (p + (q + "]" + rest))
  {
  }

  lemma ItemsLast(text: string, v: Tree, rest: string)
    requires ReadValue(text) == Got(v, "]" + rest)
    ensures ReadItems(text) == Got([v], rest)
  {
    assert ("]" + rest)[1..] == rest;
  }

  lemma ItemsMore(text: string, v: Tree, more: string, vs: seq<Tree>, end: string)
    requires ReadValue(text) == Got(v, ", " + more) && ReadItems(" " + more) == Got(vs, end)
    ensures ReadItems(text) == Got([v] + vs, end)
  {
    assert (", " + more)[1..] == " " + more;
  }

  /** What stands behind item i. */
  function AfterItem(items: seq<Tree>, i: nat, ascii: bool, rest: string): string
    requires i < |items|
  {
    if i + 1 == |items| then "]" + rest else ", " + ItemsText(items, i + 1, ascii, rest)
  }

  lemma {:induction false} ItemReads(items: seq<Tree>, i: nat, ascii: bool, rest: string)
    requires i < |items| && NumbersOk(items[i])
    ensures var text := ItemsText(items, i, ascii, rest);
            && ReadValue(text) == Got(items[i], AfterItem(items, i, ascii, rest))
            && ReadValue(" " + text) == Got(items[i], AfterItem(items, i, ascii, rest))
    decreases items, |items| - i, 0
  {
    ItemsLayout(items, i + 1, ascii, rest);
    PrintReads(items[i], ascii, PrintItems(items, i + 1, ascii) + "]" + rest);
    SpaceReads(ItemsText(items, i, ascii, rest));
  }

  lemma {:induction false} ItemsRead(items: seq<Tree>, i: nat, ascii: bool, rest: string)
    requires i < |items| && forall k | 0 <= k < |items| :: NumbersOk(items[k])
    ensures ReadItems(ItemsText(items, i, ascii, rest)) == Got(items[i..], rest)
    ensures ReadItems(" " + ItemsText(items, i, ascii, rest)) == Got(items[i..], rest)
    decreases items, |items| - i, 1
  {
    var text := ItemsText(items, i, ascii, rest);
    ItemReads(items, i, ascii, rest);
    if i + 1 == |items| {
      assert items[i..] == [items[i]];
      ItemsLast(text, items[i], rest);
      ItemsLast(" " + text, items[i], rest);
    } else {
      assert items[i..] == [items[i]] + items[i + 1..];
      var more := ItemsText(items, i + 1, ascii, rest);
      ItemsRead(items, i + 1, ascii, rest);
      ItemsMore(text, items[i], more, items[i + 1..], rest);
      ItemsMore(" " + text, items[i], more, items[i + 1..], rest);
    }
  }

  lemma {:induction false} ArrayReads(t: Tree, items: seq<Tree>, ascii: bool, rest: string)
    requires t == TArray(items) && NumbersOk(t)
    ensures ReadValue(Print(t, ascii) + rest) == Got(t, rest)
    decreases items, |items| + 2, 0
  {
    var inner := PrintItems(items, 0, ascii) + "]" + rest;
    ArrayText(t, ascii, rest);
    assert Print(t, ascii) + rest == "[" + inner;
    ItemsLayout(items, 0, ascii, rest);
    if items == [] {
      assert inner == "]" + rest;
      EmptyArrayReads(rest);
    } else {
      ItemsRead(items, 0, ascii, rest);
      assert items[0..] == items;
      FirstOfItems(items, ascii, rest);
      BracketReads(inner, items, rest);
    }
  }

  lemma ArrayText(t: Tree, ascii: bool, rest: string)
    requires t.TArray?
    ensures Print(t, ascii) + rest == "[" + (PrintItems(t.items, 0, ascii) + "]" + rest)
  {
  }

  lemma FirstOfItems(items: seq<Tree>, ascii: bool, rest: string)
    requires items != [] && NumbersOk(items[0])
    ensures var text := ItemsText(items, 0, ascii, rest); text != "" && !IsSpace(text[0]) && text[0] != ']'
    ensures "" + ItemsText(items, 0, ascii, rest) == ItemsText(items, 0, ascii, rest)
  {
    PrintStarts(items[0], ascii);
  }

  lemma EmptyArrayReads(rest: string)
    ensures ReadValue("[" + ("]" + rest)) == Got(TArray([]), rest)
  {
    var s := "[" + ("]" + rest);
    assert s[1..] == "]" + rest && s[2..] == rest;
  }

  lemma BracketReads(text: string, items: seq<Tree>, rest: string)
    requires text != "" && !IsSpace(text[0]) && text[0] != ']' && ReadItems(text) == Got(items, rest)
    ensures ReadValue("[" + text) == Got(TArray(items), rest)
  {
    assert ("[" + text)[1..] == text;
  }

  // ---- Members ----

  function MembersText(members: seq<Pair<Tree>>, i: nat, ascii: bool, rest: string): string
    requires i < |members|
  {
    Quoted(members[i].key, ascii)
    + (": " + (Print(members[i].value, ascii) + (PrintMembers(members, i + 1, ascii) + "}" + rest)))
  }

  lemma MembersLayout(members: seq<Pair<Tree>>, i: nat, ascii: bool, rest: string)
    requires i <= |members|
    ensures PrintMembers(members, i, ascii) + "}" + rest
            == if i == |members| then "}" + rest
               else (if i != 0 then ", " else "") + MembersText(members, i, ascii, rest)
  {
    if i < |members| {
      Join(if i != 0 then ", " else "", Quoted(members[i].key, ascii), Print(members[i].value, ascii),
           PrintMembers(members, i + 1, ascii), rest);
    }
  }

  lemma Join(sep: string, k: string, p: string, q: string, rest: string)
    ensures (sep + k + ": " + p + q) + "}" + rest == sep + (k + (": " + (p + (q + "}" + rest))))
  {
  }

  lemma MemberReads(text: string, key: string, value: string, v: Tree, after: string)
    requires text != "" && text[0] == '"' && ReadChars(text[1..]) == Got(key, ": " + value)
    requires ReadValue(value) == Got(v, after)
    ensures ReadMember(text) == Got(Pair(key, v), after)
  {
    assert (": " + value)[1..] == " " + value;
    SpaceReads(value);
  }

  lemma MembersLast(text: string, m: Pair<Tree>, rest: string)
    requires ReadMember(text) == Got(m, "}" + rest)
    ensures ReadMembers(text) == Got([m], rest)
  {
    assert ("}" + rest)[1..] == rest;
  }

  lemma MembersMore(text: string, m: Pair<Tree>, more: string, ms: seq<Pair<Tree>>, end: string)
    requires ReadMember(text) == Got(m, ", " + more) && ReadMembers(" " + more) == Got(ms, end)
    ensures ReadMembers(text) == Got([m] + ms, end)
  {
    assert (", " + more)[1..] == " " + more;
  }

  lemma SpaceBeforeMember(text: string)
    ensures ReadMember(" " + text) == ReadMember(text)
  {
    assert (" " + text)[1..] == text;
  }

  lemma SpaceBeforeMembers(text: string)
    ensures ReadMembers(" " + text) == ReadMembers(text)
  {
    SpaceBeforeMember(text);
  }

  /** What stands behind member i. */
  function AfterMember(members: seq<Pair<Tree>>, i: nat, ascii: bool, rest: string): string
    requires i < |members|
  {
    if i + 1 == |members| then "}" + rest else ", " + MembersText(members, i + 1, ascii, rest)
  }

  lemma {:induction false} MemberHere(members: seq<Pair<Tree>>, i: nat, ascii: bool, rest: string)
    requires i < |members| && NumbersOk(members[i].value)
    ensures ReadMember(MembersText(members, i, ascii, rest)) == Got(members[i], AfterMember(members, i, ascii, rest))
    decreases members, |members| - i, 0
  {
    var m := members[i];
    var after := PrintMembers(members, i + 1, ascii) + "}" + rest;
    MembersLayout(members, i + 1, ascii, rest);
    PrintReads(m.value, ascii, after);
    MemberTextReads(m, ascii, after);
  }

  lemma MemberTextReads(m: Pair<Tree>, ascii: bool, after: string)
    requires ReadValue(Print(m.value, ascii) + after) == Got(m.value, after)
    ensures ReadMember(Quoted(m.key, ascii) + (": " + (Print(m.value, ascii) + after))) == Got(m, after)
  {
    var value := Print(m.value, ascii) + after;
    QuotedReads(m.key, ascii, ": " + value);
    MemberReads(Quoted(m.key, ascii) + (": " + value), m.key, value, m.value, after);
    assert m == Pair(m.key, m.value);
  }

  lemma {:induction false} MembersRead(members: seq<Pair<Tree>>, i: nat, ascii: bool, rest: string)
    requires i < |members| && forall k | 0 <= k < |members| :: NumbersOk(members[k].value)
    ensures ReadMembers(MembersText(members, i, ascii, rest)) == Got(members[i..], rest)
    decreases members, |members| - i, 1
  {
    MemberHere(members, i, ascii, rest);
    if i + 1 == |members| {
      MembersLast(MembersText(members, i, ascii, rest), members[i], rest);
    } else {
      MembersRead(members, i + 1, ascii, rest);
      SpaceBeforeMembers(MembersText(members, i + 1, ascii, rest));
      MembersMore(MembersText(members, i, ascii, rest), members[i], MembersText(members, i + 1, ascii, rest),
                  members[i + 1..], rest);
    }
    FromHere(members, i);
  }

  lemma FromHere<T>(s: seq<T>, i: nat)
    requires i < |s|
    ensures s[i..] == [s[i]] + s[i + 1..]
    ensures i + 1 == |s| ==> s[i..] == [s[i]]
  {
  }

  lemma ObjectText(t: Tree, ascii: bool, rest: string)
    requires t.TObject?
    ensures Print(t, ascii) + rest == "{" + (PrintMembers(t.members, 0, ascii) + "}" + rest)
  {
  }

  lemma {:induction false} ObjectReads(t: Tree, members: seq<Pair<Tree>>, ascii: bool, rest: string)
    requires t == TObject(members) && NumbersOk(t)
    ensures ReadValue(Print(t, ascii) + rest) == Got(t, rest)
    decreases members, |members| + 2, 0
  {
    var inner := PrintMembers(members, 0, ascii) + "}" + rest;
    ObjectText(t, ascii, rest);
    assert Print(t, ascii) + rest == "{" + inner;
    MembersLayout(members, 0, ascii, rest);
    if members == [] {
      assert inner == "}" + rest;
      EmptyObjectReads(rest);
    } else {
      MembersRead(members, 0, ascii, rest);
      assert members[0..] == members;
      FirstOfMembers(members, ascii, rest);
      BraceReads(inner, members, rest);
    }
  }

  lemma FirstOfMembers(members: seq<Pair<Tree>>, ascii: bool, rest: string)
    requires members != []
    ensures var text := MembersText(members, 0, ascii, rest); text != "" && text[0] == '"'
    ensures "" + MembersText(members, 0, ascii, rest) == MembersText(members, 0, ascii, rest)
  {
  }

  lemma EmptyObjectReads(rest: string)
    ensures ReadValue("{" + ("}" + rest)) == Got(TObject([]), rest)
  {
    var s := "{" + ("}" + rest);
    assert s[1..] == "}" + rest && s[2..] == rest;
  }

  lemma BraceReads(text: string, members: seq<Pair<Tree>>, rest: string)
    requires text != "" && text[0] == '"' && ReadMembers(text) == Got(members, rest)
    ensures ReadValue("{" + text) == Got(TObject(members), rest)
  {
    assert ("{" + text)[1..] == text;
  }

  // ---- Documents ----

  lemma {:induction false} EffectiveNumbers(raw: Raw)
    requires WellFormed(raw) && Effective(raw).Some?
    ensures NumbersOk(Effective(raw).value)
  {
    match raw
    case RFloat(d) => FloatTextIsNumber(d);
    case RArray(items) =>
      forall i | 0 <= i < |items| ensures NumbersOk(Effective(items[i]).value) { EffectiveNumbers(items[i]); }
    case RObject(es) =>
      var all := seq(|es|, i requires 0 <= i < |es| => Pair(es[i].key.chars, Effective(es[i].value)));
      var ps := Collapse(all);
      forall i | 0 <= i < |ps| ensures NumbersOk(ps[i].value.value) {
        assert ps[i].key in FirstKeys(all);
        LastValueKept(all, ps[i].key);
        var n :| 0 <= n < |all| && all[n].key == ps[i].key && all[n].value == ps[i].value;
        EffectiveNumbers(es[n].value);
      }
    case _ =>
  }

  /**
   Round trip, in both modes: for every document whose root is not a string, reading the
   rendered text gives the document in effect, with every key once, in first-occurrence
   order and with its last value; a document is refused exactly when a string that is in
   effect does not decode.
   */
  lemma RenderedReads(raw: Raw, ascii: bool)
    requires WellFormed(raw) && !raw.RString?
    ensures Rendered(raw, ascii).Ok? <==> Effective(raw).Some?
    ensures Rendered(raw, ascii).Ok? ==> ReadDocument(Rendered(raw, ascii).value) == Effective(raw)
  {
    if Effective(raw).Some? {
      var t := Effective(raw).value;
      EffectiveNumbers(raw);
      PrintReads(t, ascii, "");
      assert Print(t, ascii) + "" == Print(t, ascii);
    }
  }

  // ---- The ASCII mode ----

  predicate Plain(s: string) {
    forall k | 0 <= k < |s| :: 0x20 <= s[k] as int <= 0x7e
  }

  lemma PlainCat(a: string, b: string)
    requires Plain(a) && Plain(b)
    ensures Plain(a + b)
  {
  }

  lemma {:induction false} EscapesArePlain(s: string, i: nat)
    requires i <= |s|
    ensures Plain(EscapeAll(s, i, true))
    decreases |s| - i
  {
    if i == |s| {
    } else {
      EscapesArePlain(s, i + 1);
      assert Plain(Escape(s[i], true));
      PlainCat(Escape(s[i], true), EscapeAll(s, i + 1, true));
    }
  }

  lemma QuotedIsPlain(s: string)
    ensures Plain(Quoted(s, true))
  {
    EscapesArePlain(s, 0);
    PlainCat("\"" + EscapeAll(s, 0, true), "\"");
  }

  /** With `ascii`, only the characters from space to tilde are written. */
  lemma {:induction false} PrintIsPlain(t: Tree)
    requires NumbersOk(t)
    ensures Plain(Print(t, true))
    decreases t, 0
  {
    match t
    case TNull =>
    case TBool(_) =>
    case TNumber(_) =>
    case TString(s) => QuotedIsPlain(s);
    case TArray(items) =>
      ItemsArePlain(items, 0);
      PlainCat("[" + PrintItems(items, 0, true), "]");
    case TObject(members) =>
      MembersArePlain(members, 0);
      PlainCat("{" + PrintMembers(members, 0, true), "}");
  }

  lemma {:induction false} ItemsArePlain(items: seq<Tree>, i: nat)
    requires i <= |items| && forall k | 0 <= k < |items| :: NumbersOk(items[k])
    ensures Plain(PrintItems(items, i, true))
    decreases items, |items| - i
  {
    if i == |items| {
    } else {
      PrintIsPlain(items[i]);
      ItemsArePlain(items, i + 1);
      PlainCat((if i != 0 then ", " else "") + Print(items[i], true), PrintItems(items, i + 1, true));
    }
  }

  lemma {:induction false} MembersArePlain(members: seq<Pair<Tree>>, i: nat)
    requires i <= |members| && forall k | 0 <= k < |members| :: NumbersOk(members[k].value)
    ensures Plain(PrintMembers(members, i, true))
    decreases members, |members| - i
  {
    if i == |members| {
    } else {
      var head := (if i != 0 then ", " else "") + Quoted(members[i].key, true) + ": ";
      QuotedIsPlain(members[i].key);
      assert Plain(head);
      PrintIsPlain(members[i].value);
      MembersArePlain(members, i + 1);
      PlainCat(head, Print(members[i].value, true));
      PlainCat(head + Print(members[i].value, true), PrintMembers(members, i + 1, true));
    }
  }

  lemma RenderedIsPlain(raw: Raw)
    requires WellFormed(raw) && !raw.RString? && Rendered(raw, true).Ok?
    ensures Plain(Rendered(raw, true).value)
  {
    EffectiveNumbers(raw);
    PrintIsPlain(Effective(raw).value);
  }
}
