/**
 JSON documents as src/system_one/json.rs sees them: a raw tree whose strings may fail to
 decode and whose objects may repeat keys, the tree that is in effect once duplicates are
 folded, and its printed form.
 */
module Json {
  import opened Wrappers
  import opened Decimal

  /** A string of the document, decoded, or one that holds a lone surrogate. */
  datatype Text = Good(chars: string) | Bad

  datatype Raw =
    | RNull
    | RBool(b: bool)
    | RInteger(lexeme: string)
    | RFloat(double: Double)
    | RString(text: Text)
    | RArray(items: seq<Raw>)
    | RObject(entries: seq<Entry>)

  /** An entry as it stands in the document. */
  datatype Entry = Entry(key: Text, value: Raw)

  datatype Pair<+V> = Pair(key: string, value: V)

  /** One level of a document, `json::Value`. */
  datatype Value =
    | Null
    | Bool(b: bool)
    | Integer(lexeme: string)
    | Float(double: Double)
    | String(chars: string)
    | Array(items: seq<Raw>)
    | Object(entries: seq<Pair<Raw>>)

  datatype Error = JsonSyntax | JsonDepth

  /** The document in effect. */
  datatype Tree =
    | TNull
    | TBool(b: bool)
    | TNumber(text: string)
    | TString(chars: string)
    | TArray(items: seq<Tree>)
    | TObject(members: seq<Pair<Tree>>)

  // ---- Folding duplicate keys ----

  /** The keys in the order of their first occurrence. */
  function FirstKeys<V>(ps: seq<Pair<V>>): (ks: seq<string>)
    ensures forall k :: k in ks <==> exists i | 0 <= i < |ps| :: ps[i].key == k
    ensures forall i, j | 0 <= i < j < |ks| :: ks[i] != ks[j]
  {
    if ps == [] then []
    else
      var n := |ps| - 1;
      assert forall i | 0 <= i < n :: ps[..n][i] == ps[i];
      var ks := FirstKeys(ps[..n]);
      if ps[n].key in ks then ks else ks + [ps[n].key]
  }

  function LastValue<V>(ps: seq<Pair<V>>, k: string): V
    requires exists i | 0 <= i < |ps| :: ps[i].key == k
  {
    var n := |ps| - 1;
    if ps[n].key == k then ps[n].value
    else
      assert forall i | 0 <= i < n :: ps[..n][i] == ps[i];
      LastValue(ps[..n], k)
  }

  /** Each key once, at its first position, with its last value. */
  function Collapse<V>(ps: seq<Pair<V>>): seq<Pair<V>> {
    var ks := FirstKeys(ps);
    seq(|ks|, i requires 0 <= i < |ks| => assert ks[i] in ks; Pair(ks[i], LastValue(ps, ks[i])))
  }

  lemma {:induction false} LastValueKept<V>(ps: seq<Pair<V>>, k: string)
    requires exists i | 0 <= i < |ps| :: ps[i].key == k
    ensures exists i | 0 <= i < |ps| :: IsLast(ps, k, i) && ps[i].value == LastValue(ps, k)
  {
    var n := |ps| - 1;
    if ps[n].key == k {
      assert IsLast(ps, k, n);
    } else {
      assert forall i | 0 <= i < n :: ps[..n][i] == ps[i];
      LastValueKept(ps[..n], k);
      var i :| 0 <= i < n && IsLast(ps[..n], k, i) && ps[..n][i].value == LastValue(ps[..n], k);
      assert IsLast(ps, k, i);
    }
  }

  /** The last entry with key k is at i. */
  predicate IsLast<V>(ps: seq<Pair<V>>, k: string, i: nat)
    requires i < |ps|
  {
    ps[i].key == k && forall j | i < j < |ps| :: ps[j].key != k
  }

  /** The first entry with key k is at i. */
  predicate IsFirst<V>(ps: seq<Pair<V>>, k: string, i: nat)
    requires i < |ps|
  {
    ps[i].key == k && forall j | 0 <= j < i :: ps[j].key != k
  }

  lemma {:induction false} KeysInOrder<V>(ps: seq<Pair<V>>, a: nat, b: nat, i: nat, j: nat)
    requires a < b < |FirstKeys(ps)| && i < |ps| && j < |ps|
    requires IsFirst(ps, FirstKeys(ps)[a], i) && IsFirst(ps, FirstKeys(ps)[b], j)
    ensures i < j
  {
    var n := |ps| - 1;
    var ks := FirstKeys(ps[..n]);
    assert forall m | 0 <= m < n :: ps[..n][m] == ps[m];
    if b < |ks| {
      var x :| 0 <= x < n && ps[..n][x].key == ks[a];
      var y :| 0 <= y < n && ps[..n][y].key == ks[b];
      KeysInOrder(ps[..n], a, b, i, j);
    } else {
      var x :| 0 <= x < n && ps[..n][x].key == ks[a];
    }
  }

  /**
   What folding means: every key occurs once, the keys are exactly those that were given,
   each carries the value it was given last, and they stand in the order in which they
   were given first.
   */
  lemma CollapseMeans<V>(ps: seq<Pair<V>>)
    ensures var c := Collapse(ps);
            && (forall a, b | 0 <= a < b < |c| :: c[a].key != c[b].key)
            && (forall i | 0 <= i < |ps| :: exists a | 0 <= a < |c| :: c[a].key == ps[i].key)
            && (forall a | 0 <= a < |c| :: HasLast(ps, c[a]))
            && (forall a, b | 0 <= a < b < |c| :: FirstBefore(ps, c[a].key, c[b].key))
  {
    var c, ks := Collapse(ps), FirstKeys(ps);
    forall i | 0 <= i < |ps| ensures exists a | 0 <= a < |c| :: c[a].key == ps[i].key {
      assert ps[i].key in ks;
      var a :| 0 <= a < |ks| && ks[a] == ps[i].key;
      assert c[a].key == ps[i].key;
    }
    forall a | 0 <= a < |c| ensures HasLast(ps, c[a]) {
      assert ks[a] in ks;
      LastValueKept(ps, ks[a]);
    }
    forall a, b | 0 <= a < b < |c| ensures FirstBefore(ps, c[a].key, c[b].key) {
      forall i, j | 0 <= i < |ps| && 0 <= j < |ps| && IsFirst(ps, ks[a], i) && IsFirst(ps, ks[b], j) ensures i < j {
        KeysInOrder(ps, a, b, i, j);
      }
    }
  }

  /** p is an entry of ps, and no later one has its key. */
  ghost predicate HasLast<V>(ps: seq<Pair<V>>, p: Pair<V>) {
    exists i | 0 <= i < |ps| :: IsLast(ps, p.key, i) && p.value == ps[i].value
  }

  /** k occurs in ps before l does. */
  predicate FirstBefore<V>(ps: seq<Pair<V>>, k: string, l: string) {
    forall i, j | 0 <= i < |ps| && 0 <= j < |ps| && IsFirst(ps, k, i) && IsFirst(ps, l, j) :: i < j
  }

  // ---- One level ----

  predicate KeysDecode(es: seq<Entry>) {
    forall i | 0 <= i < |es| :: es[i].key.Good?
  }

  function Pairs(es: seq<Entry>): seq<Pair<Raw>>
    requires KeysDecode(es)
  {
    seq(|es|, i requires 0 <= i < |es| => Pair(es[i].key.chars, es[i].value))
  }

  /** No later entry has the key of entry i. */
  predicate LastUnder(es: seq<Entry>, key: string, i: nat)
    requires i < |es|
  {
    es[i].key == Good(key) && forall j | i < j < |es| :: es[j].key != Good(key)
  }

  /** No earlier entry has the key of entry i. */
  predicate FirstUnder(es: seq<Entry>, key: string, i: nat)
    requires i < |es|
  {
    es[i].key == Good(key) && forall j | 0 <= j < i :: es[j].key != Good(key)
  }

  lemma LastPair(es: seq<Entry>, key: string, i: nat)
    requires KeysDecode(es) && i < |es| && IsLast(Pairs(es), key, i)
    ensures LastUnder(es, key, i)
  {
    forall j | i < j < |es| ensures es[j].key != Good(key) {
      assert Pairs(es)[j].key == es[j].key.chars;
    }
  }

  function Uncollapsed(raw: Raw): Result<Value, Error> {
    match raw
    case RNull => Ok(Null)
    case RBool(b) => Ok(Bool(b))
    case RInteger(lexeme) => Ok(Integer(lexeme))
    case RFloat(d) => Ok(Float(d))
    case RString(t) => if t.Good? then Ok(String(t.chars)) else Err(JsonSyntax)
    case RArray(items) => Ok(Array(items))
    case RObject(es) => if KeysDecode(es) then Ok(Object(Pairs(es))) else Err(JsonSyntax)
  }

  function ViewOf(raw: Raw): Result<Value, Error> {
    var v := Uncollapsed(raw);
    if v.Ok? && v.value.Object? then Ok(Object(Collapse(v.value.entries))) else v
  }

  // ---- The document in effect ----

  predicate Known(ps: seq<Pair<Option<Tree>>>) {
    forall i | 0 <= i < |ps| :: ps[i].value.Some?
  }

  function IntegerText(lexeme: string): string {
    if lexeme == "-0" then "0" else lexeme
  }

  /** The printed integer is the integer of the document. */
  lemma IntegerTextValue(lexeme: string)
    requires IsInteger(lexeme)
    ensures IsInteger(IntegerText(lexeme)) && Decimal.Integer(IntegerText(lexeme)) == Decimal.Integer(lexeme)
    ensures IntegerText(lexeme) != "-0"
  {
    if lexeme == "-0" {
      var zero := "0";
      ZeroExponent();
      assert lexeme[1..] == zero;
      assert Decimal.Integer(zero) == Num(zero) == 0;
      assert Decimal.Integer(lexeme) == -Num(lexeme[1..]);
    }
  }

  /** The tree in effect: duplicates folded, numbers as they are printed. None if a string
      that is in effect does not decode. */
  function Effective(raw: Raw): Option<Tree>
    requires WellFormed(raw)
  {
    match raw
    case RNull => Some(TNull)
    case RBool(b) => Some(TBool(b))
    case RInteger(lexeme) => Some(TNumber(IntegerText(lexeme)))
    case RFloat(d) => Some(TNumber(FloatText(d)))
    case RString(t) => if t.Good? then Some(TString(t.chars)) else None
    case RArray(items) =>
      if forall i | 0 <= i < |items| :: Effective(items[i]).Some? then
        Some(TArray(seq(|items|, i requires 0 <= i < |items| => Effective(items[i]).value)))
      else None
    case RObject(es) =>
      if !KeysDecode(es) then None
      else
        var ps := Collapse(seq(|es|, i requires 0 <= i < |es| => Pair(es[i].key.chars, Effective(es[i].value))));
        if Known(ps) then Some(TObject(seq(|ps|, i requires 0 <= i < |ps| => Pair(ps[i].key, ps[i].value.value))))
        else None
  }

  /** Lexemes are those of a JSON number: the digits of floats are of the assumed grammar. */
  predicate WellFormed(raw: Raw) {
    match raw
    case RInteger(lexeme) => IsNumberText(lexeme)
    case RFloat(d) => IsDouble(d)
    case RArray(items) => forall i | 0 <= i < |items| :: WellFormed(items[i])
    case RObject(es) => forall i | 0 <= i < |es| :: WellFormed(es[i].value)
    case _ => true
  }

  // ---- Printing ----

  function HexDigit(d: nat): char
    requires d < 16
  {
    if d < 10 then ('0' as int + d) as char else ('a' as int + d - 10) as char
  }

  /** A UTF-16 code unit as an escape. */
  function UnitEscape(u: nat): string
    requires u < 0x10000
  {
    "\\u" + [HexDigit(u / 0x1000), HexDigit(u / 0x100 % 16), HexDigit(u / 16 % 16), HexDigit(u % 16)]
  }

  function Escape(c: char, ascii: bool): string {
    if c == '"' then "\\\""
    else if c == '\\' then "\\\\"
    else if c as int == 8 then "\\b"
    else if c as int == 12 then "\\f"
    else if c == '\n' then "\\n"
    else if c == '\r' then "\\r"
    else if c == '\t' then "\\t"
    else if c < ' ' || (ascii && c as int >= 0x7f) then
      var n := c as int;
      if n < 0x10000 then UnitEscape(n)
      else UnitEscape(0xd800 + (n - 0x10000) / 0x400) + UnitEscape(0xdc00 + (n - 0x10000) % 0x400)
    else [c]
  }

  function EscapeAll(s: string, i: nat, ascii: bool): string
    requires i <= |s|
    decreases |s| - i
  {
    if i == |s| then "" else Escape(s[i], ascii) + EscapeAll(s, i + 1, ascii)
  }

  function Quoted(s: string, ascii: bool): string {
    "\"" + EscapeAll(s, 0, ascii) + "\""
  }

  /** The dump of a tree, in Python's layout. */
  function Print(t: Tree, ascii: bool): string
    decreases t, 0
  {
    match t
    case TNull => "null"
    case TBool(b) => if b then "true" else "false"
    case TNumber(text) => text
    case TString(s) => Quoted(s, ascii)
    case TArray(items) => "[" + PrintItems(items, 0, ascii) + "]"
    case TObject(members) => "{" + PrintMembers(members, 0, ascii) + "}"
  }

  /** The items from i on, each but the first after a separator. */
  function PrintItems(items: seq<Tree>, i: nat, ascii: bool): string
    requires i <= |items|
    decreases items, |items| - i
  {
    if i == |items| then ""
    else (if i != 0 then ", " else "") + Print(items[i], ascii) + PrintItems(items, i + 1, ascii)
  }

  function PrintMembers(members: seq<Pair<Tree>>, i: nat, ascii: bool): string
    requires i <= |members|
    decreases members, |members| - i
  {
    if i == |members| then ""
    else
      (if i != 0 then ", " else "") + Quoted(members[i].key, ascii) + ": "
      + Print(members[i].value, ascii) + PrintMembers(members, i + 1, ascii)
  }

  /** What `render` returns: a string at the root verbatim, anything else dumped. */
  function Rendered(raw: Raw, ascii: bool): Result<string, Error>
    requires WellFormed(raw)
  {
    if raw.RString? && raw.text.Good? then Ok(raw.text.chars)
    else
      match Effective(raw)
      case Some(t) => Ok(Print(t, ascii))
      case None => Err(JsonSyntax)
  }
}
