/**
 What a rendered document says, in terms of the document alone: every scalar is the one that
 stands there, and every object holds each of its keys once, with the value that stands last.
 */
module JsonMeaning {
  import opened Wrappers
  import opened Decimal
  import opened Json
  import opened JsonReader
  import opened JsonRoundTrip

  /** A number text that says what the lexeme says: the same digits, but for minus zero. */
  predicate SameInteger(text: string, lexeme: string) {
    if lexeme == "-0" then text == "0" else text == lexeme
  }

  /** A number text with the value and the sign of the float. */
  predicate SameFloat(text: string, d: Double) {
    text != "" && AmountOf(text) == Meaning(d) && (text[0] == '-' <==> d.negative)
  }

  predicate HasKey(members: seq<Pair<Tree>>, key: Text) { exists a | 0 <= a < |members| :: key == Good(members[a].key) }

  predicate HasEntry(es: seq<Entry>, key: string) { exists i | 0 <= i < |es| :: LastUnder(es, key, i) }

  /** The keys are those of the entries, each once, in the order of their first entries. */
  ghost predicate KeysOf(members: seq<Pair<Tree>>, es: seq<Entry>) {
    && (forall j | 0 <= j < |es| :: HasKey(members, es[j].key))
    && (forall a | 0 <= a < |members| :: HasEntry(es, members[a].key))
    && (forall a, b | 0 <= a < b < |members| :: members[a].key != members[b].key)
    && (forall a, b | 0 <= a < b < |members| :: FirstLies(es, members[a].key, members[b].key))
  }

  /** The first entry under k lies before the first one under l. */
  predicate FirstLies(es: seq<Entry>, k: string, l: string) {
    forall i, j | 0 <= i < |es| && 0 <= j < |es| && FirstUnder(es, k, i) && FirstUnder(es, l, j) :: i < j
  }

  /** The tree says what is in effect in the document. */
  ghost predicate Says(t: Tree, raw: Raw)
    decreases raw
  {
    match raw
    case RNull => t == TNull
    case RBool(b) => t == TBool(b)
    case RInteger(lexeme) => t.TNumber? && SameInteger(t.text, lexeme)
    case RFloat(d) => t.TNumber? && SameFloat(t.text, d)
    case RString(text) => t.TString? && text == Good(t.chars)
    case RArray(items) => t.TArray? && |t.items| == |items| && forall i | 0 <= i < |items| :: Says(t.items[i], items[i])
    case RObject(es) =>
      && t.TObject? && KeysOf(t.members, es)
      && forall a, i | 0 <= a < |t.members| && 0 <= i < |es| && LastUnder(es, t.members[a].key, i) ::
           Says(t.members[a].value, es[i].value)
  }

  /** The entries with their values in effect. */
  function Effects(es: seq<Entry>): (all: seq<Pair<Option<Tree>>>)
    requires KeysDecode(es) && forall i | 0 <= i < |es| :: WellFormed(es[i].value)
    ensures |all| == |es|
  {
    seq(|es|, i requires 0 <= i < |es| => Pair(es[i].key.chars, Effective(es[i].value)))
  }

  /** The value of m is that of the last entry under its key. */
  predicate OfLast(es: seq<Entry>, m: Pair<Tree>)
    requires forall i | 0 <= i < |es| :: WellFormed(es[i].value)
  {
    forall i | 0 <= i < |es| && LastUnder(es, m.key, i) :: Effective(es[i].value) == Some(m.value)
  }

  /** What folding the entries gives: the keys, and for each the value of its last entry. */
  lemma FoldedEntries(es: seq<Entry>, members: seq<Pair<Tree>>)
    requires KeysDecode(es) && forall i | 0 <= i < |es| :: WellFormed(es[i].value)
    requires |members| == |Collapse(Effects(es))|
    requires forall a | 0 <= a < |members| ::
      Collapse(Effects(es))[a] == Pair(members[a].key, Some(members[a].value))
    ensures KeysOf(members, es)
    ensures forall a | 0 <= a < |members| :: OfLast(es, members[a])
  {
    var all := Effects(es);
    var c := Collapse(all);
    CollapseMeans(all);
    forall j | 0 <= j < |es| ensures HasKey(members, es[j].key) {
      var a :| 0 <= a < |c| && c[a].key == all[j].key;
      assert es[j].key == Good(members[a].key);
    }
    forall a | 0 <= a < |members|
      ensures HasEntry(es, members[a].key) && OfLast(es, members[a])
    {
      LastEntry(es, c[a], members[a]);
    }
    forall a, b | 0 <= a < b < |members| ensures FirstLies(es, members[a].key, members[b].key) {
      assert FirstBefore(all, c[a].key, c[b].key);
      FirstEntries(es, c[a].key, c[b].key);
    }
    forall a, b | 0 <= a < b < |members| ensures members[a].key != members[b].key {
      assert c[a].key != c[b].key;
    }
  }

  lemma LastEntry(es: seq<Entry>, p: Pair<Option<Tree>>, m: Pair<Tree>)
    requires KeysDecode(es) && forall i | 0 <= i < |es| :: WellFormed(es[i].value)
    requires HasLast(Effects(es), p) && p == Pair(m.key, Some(m.value))
    ensures HasEntry(es, m.key) && OfLast(es, m)
  {
    var all := Effects(es);
    var n :| 0 <= n < |all| && IsLast(all, p.key, n) && p.value == all[n].value;
    forall j | n < j < |es| ensures es[j].key != Good(m.key) { assert all[j].key == es[j].key.chars; }
    assert LastUnder(es, m.key, n);
    forall i | 0 <= i < |es| && LastUnder(es, m.key, i) ensures i == n { }
  }

  lemma FirstEntries(es: seq<Entry>, k: string, l: string)
    requires KeysDecode(es) && forall i | 0 <= i < |es| :: WellFormed(es[i].value)
    requires FirstBefore(Effects(es), k, l)
    ensures FirstLies(es, k, l)
  {
    var all := Effects(es);
    forall i, j | 0 <= i < |es| && 0 <= j < |es| && FirstUnder(es, k, i) && FirstUnder(es, l, j) ensures i < j {
      forall n | 0 <= n < i ensures all[n].key != k { assert es[n].key == Good(all[n].key); }
      forall n | 0 <= n < j ensures all[n].key != l { assert es[n].key == Good(all[n].key); }
      assert IsFirst(all, k, i) && IsFirst(all, l, j);
    }
  }

  /** The tree in effect says what the document says. */
  lemma {:induction false} EffectiveSays(raw: Raw)
    requires WellFormed(raw) && Effective(raw).Some?
    ensures Says(Effective(raw).value, raw)
    decreases raw
  {
    match raw
    case RFloat(d) => FloatTextDenotes(d);
    case RArray(items) =>
      forall i | 0 <= i < |items| ensures Says(Effective(items[i]).value, items[i]) { EffectiveSays(items[i]); }
    case RObject(es) => ObjectSays(raw, es);
    case _ =>
  }

  lemma {:induction false} ObjectSays(raw: Raw, es: seq<Entry>)
    requires raw == RObject(es) && WellFormed(raw) && Effective(raw).Some?
    ensures Says(Effective(raw).value, raw)
    decreases raw, 0
  {
    var members := Effective(raw).value.members;
    FoldedEntries(es, members);
    forall a, i | 0 <= a < |members| && 0 <= i < |es| && LastUnder(es, members[a].key, i)
      ensures Says(members[a].value, es[i].value)
    {
      assert OfLast(es, members[a]);
      EffectiveSays(es[i].value);
    }
  }

  /**
   What is read back from a rendered document says what the document says: every scalar, with
   the value and the sign of every number, and every key with its last value. A string at the
   root is passed on as it is.
   */
  lemma RenderedSays(raw: Raw, ascii: bool)
    requires WellFormed(raw)
    ensures !raw.RString? && Rendered(raw, ascii).Ok? ==>
      && ReadDocument(Rendered(raw, ascii).value).Some?
      && Says(ReadDocument(Rendered(raw, ascii).value).value, raw)
    ensures raw.RString? ==>
      Rendered(raw, ascii) == match raw.text case Good(chars) => Ok(chars) case Bad => Err(JsonSyntax)
  {
    if !raw.RString? && Rendered(raw, ascii).Ok? {
      RenderedReads(raw, ascii);
      EffectiveSays(raw);
    }
  }
}
