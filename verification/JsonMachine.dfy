/**
 The loops of src/system_one/json.rs: the index-map fold of `view`, and the explicit stacks
 of `validate` and `render`. Each is proved against the recursive definition it replaces.
 */
module JsonMachine {
  import opened Wrappers
  import opened Decimal
  import opened Json

  // ---- `view` ----

  /** What one more entry does to the folded entries. */
  lemma CollapseStep<V>(ps: seq<Pair<V>>, n: nat, pos: nat)
    requires n < |ps|
    requires pos < |FirstKeys(ps[..n])| ==> FirstKeys(ps[..n])[pos] == ps[n].key
    requires pos >= |FirstKeys(ps[..n])| ==> ps[n].key !in FirstKeys(ps[..n])
    ensures var c := Collapse(ps[..n]);
            Collapse(ps[..n + 1]) == if pos < |c| then c[pos := ps[n]] else c + [ps[n]]
  {
    var a, b := ps[..n], ps[..n + 1];
    assert b[..n] == a && b[n] == ps[n];
    var ks := FirstKeys(a);
    assert FirstKeys(b) == if pos < |ks| then ks else ks + [ps[n].key];
    forall k | k in ks && k != ps[n].key ensures LastValue(b, k) == LastValue(a, k) {
      assert exists i | 0 <= i < |b| :: b[i].key == k by {
        var i :| 0 <= i < |a| && a[i].key == k;
        assert b[i].key == k;
      }
    }
    assert b[n].key == ps[n].key;
    var c, d := Collapse(a), Collapse(b);
    forall i | 0 <= i < |c| ensures c[i].key == ks[i] && (i != pos ==> d[i] == c[i]) {
      assert ks[i] in ks;
    }
  }

  method View(raw: Raw) returns (r: Result<Value, Error>)
    ensures r == ViewOf(raw)
  {
    r := Uncollapsed(raw);
    if r.Ok? && r.value.Object? {
      var entries := r.value.entries;
      var positions: map<string, nat> := map[];
      var unique: seq<Pair<Raw>> := [];
      for n := 0 to |entries|
        invariant unique == Collapse(entries[..n])
        invariant forall k :: k in positions <==> k in FirstKeys(entries[..n])
        invariant forall k | k in positions :: positions[k] < |unique| && FirstKeys(entries[..n])[positions[k]] == k
      {
        var key := entries[n].key;
        var next := |unique|;
        if key !in positions {
          positions := positions[key := next];
        }
        var position := positions[key];
        CollapseStep(entries, n, position);
        assert entries[..n + 1][..n] == entries[..n];
        if position == next {
          unique := unique + [entries[n]];
        } else {
          unique := unique[position := entries[n]];
        }
      }
      assert entries[..|entries|] == entries;
      r := Ok(Object(unique));
    }
  }

  // ---- Sizes, for the stacks ----

  function Size(raw: Raw): nat
    decreases raw, 0
  {
    match raw
    case RArray(items) => 2 + SizeItems(items, |items|)
    case RObject(es) => 2 + SizeEntries(es, |es|)
    case _ => 1
  }

  function SizeItems(items: seq<Raw>, n: nat): nat
    requires n <= |items|
    decreases items, n
  {
    if n == 0 then 0 else SizeItems(items, n - 1) + Size(items[n - 1]) + 1
  }

  function SizeEntries(es: seq<Entry>, n: nat): nat
    requires n <= |es|
    decreases es, n
  {
    if n == 0 then 0 else SizeEntries(es, n - 1) + SizeEntry(es[n - 1]) + 3
  }

  function SizeEntry(e: Entry): nat
    decreases e, 1
  {
    match e case Entry(_, v) => Size(v)
  }

  function SizePairs(ps: seq<Pair<Raw>>, n: nat): nat
    requires n <= |ps|
  {
    if n == 0 then 0 else SizePairs(ps, n - 1) + Size(ps[n - 1].value) + 3
  }

  // ---- `validate` ----

  datatype Level = Level(raw: Raw, parentDepth: nat)

  /** What `validate` finds first below `raw`; children are visited from the last one on. */
  function Check(raw: Raw, depth: nat, maxDepth: nat): Option<Error>
    decreases raw, 0
  {
    if Uncollapsed(raw).Err? then Some(JsonSyntax)
    else if (raw.RArray? || raw.RObject?) && depth >= maxDepth then Some(JsonDepth)
    else
      match raw
      case RArray(items) => CheckItems(items, |items|, depth + 1, maxDepth)
      case RObject(es) => CheckEntries(es, |es|, depth + 1, maxDepth)
      case _ => None
  }

  function CheckItems(items: seq<Raw>, n: nat, depth: nat, maxDepth: nat): Option<Error>
    requires n <= |items|
    decreases items, n
  {
    if n == 0 then None
    else
      var e := Check(items[n - 1], depth, maxDepth);
      if e.Some? then e else CheckItems(items, n - 1, depth, maxDepth)
  }

  function CheckEntries(es: seq<Entry>, n: nat, depth: nat, maxDepth: nat): Option<Error>
    requires n <= |es|
    decreases es, n
  {
    if n == 0 then None
    else
      var e := CheckEntry(es[n - 1], depth, maxDepth);
      if e.Some? then e else CheckEntries(es, n - 1, depth, maxDepth)
  }

  function CheckEntry(e: Entry, depth: nat, maxDepth: nat): Option<Error>
    decreases e, 1
  {
    match e case Entry(_, v) => Check(v, depth, maxDepth)
  }

  function CheckStack(pending: seq<Level>, n: nat, maxDepth: nat): Option<Error>
    requires n <= |pending|
  {
    if n == 0 then None
    else
      var e := Check(pending[n - 1].raw, pending[n - 1].parentDepth, maxDepth);
      if e.Some? then e else CheckStack(pending, n - 1, maxDepth)
  }

  function SizeStack(pending: seq<Level>, n: nat): nat
    requires n <= |pending|
  {
    if n == 0 then 0 else SizeStack(pending, n - 1) + Size(pending[n - 1].raw)
  }

  lemma {:induction false} StackPrefix(a: seq<Level>, b: seq<Level>, n: nat, maxDepth: nat)
    requires n <= |a| && n <= |b| && a[..n] == b[..n]
    ensures CheckStack(a, n, maxDepth) == CheckStack(b, n, maxDepth) && SizeStack(a, n) == SizeStack(b, n)
  {
    if n == 0 {
    } else {
      assert a[n - 1] == a[..n][n - 1] == b[n - 1];
      assert a[..n - 1] == a[..n][..n - 1] == b[..n - 1];
      StackPrefix(a, b, n - 1, maxDepth);
    }
  }

  /** Pushing the children of an array and of an object. */
  lemma {:induction false} PushItems(base: seq<Level>, items: seq<Raw>, n: nat, depth: nat, maxDepth: nat)
    requires n <= |items|
    ensures var p := base + seq(|items|, i requires 0 <= i < |items| => Level(items[i], depth));
            var e := CheckItems(items, n, depth, maxDepth);
            && CheckStack(p, |base| + n, maxDepth) == (if e.Some? then e else CheckStack(base, |base|, maxDepth))
            && SizeStack(p, |base| + n) <= SizeStack(base, |base|) + SizeItems(items, n)
  {
    var p := base + seq(|items|, i requires 0 <= i < |items| => Level(items[i], depth));
    if n == 0 {
      assert p[..|base|] == base == base[..|base|];
      StackPrefix(p, base, |base|, maxDepth);
    } else {
      PushItems(base, items, n - 1, depth, maxDepth);
      assert p[|base| + n - 1] == Level(items[n - 1], depth);
    }
  }

  lemma {:induction false} PushEntries(base: seq<Level>, es: seq<Entry>, n: nat, depth: nat, maxDepth: nat)
    requires n <= |es|
    ensures var p := base + seq(|es|, i requires 0 <= i < |es| => Level(es[i].value, depth));
            var e := CheckEntries(es, n, depth, maxDepth);
            && CheckStack(p, |base| + n, maxDepth) == (if e.Some? then e else CheckStack(base, |base|, maxDepth))
            && SizeStack(p, |base| + n) <= SizeStack(base, |base|) + SizeEntries(es, n)
  {
    var p := base + seq(|es|, i requires 0 <= i < |es| => Level(es[i].value, depth));
    if n == 0 {
      assert p[..|base|] == base == base[..|base|];
      StackPrefix(p, base, |base|, maxDepth);
    } else {
      PushEntries(base, es, n - 1, depth, maxDepth);
      assert p[|base| + n - 1] == Level(es[n - 1].value, depth);
    }
  }

  method Validate(raw: Raw, maxDepth: nat) returns (fault: Option<Error>)
    ensures fault == Check(raw, 0, maxDepth)
  {
    var pending := [Level(raw, 0)];
    assert CheckStack(pending, 0, maxDepth) == None;
    while pending != []
      invariant CheckStack(pending, |pending|, maxDepth) == Check(raw, 0, maxDepth)
      decreases SizeStack(pending, |pending|)
    {
      var top := pending[|pending| - 1];
      var base := pending[..|pending| - 1];
      assert base[..|base|] == pending[..|base|];
      StackPrefix(base, pending, |base|, maxDepth);
      pending := base;
      if Uncollapsed(top.raw).Err? {
        return Some(JsonSyntax);
      }
      if (top.raw.RArray? || top.raw.RObject?) && top.parentDepth >= maxDepth {
        return Some(JsonDepth);
      }
      match top.raw {
        case RArray(items) =>
          PushItems(base, items, |items|, top.parentDepth + 1, maxDepth);
          pending := base + seq(|items|, i requires 0 <= i < |items| => Level(items[i], top.parentDepth + 1));
        case RObject(es) =>
          PushEntries(base, es, |es|, top.parentDepth + 1, maxDepth);
          pending := base + seq(|es|, i requires 0 <= i < |es| => Level(es[i].value, top.parentDepth + 1));
        case _ =>
      }
    }
    fault := None;
  }

  // ---- What `validate` decides ----

  /** Every string and every key of the document decodes, overwritten values included. */
  predicate Decodes(raw: Raw) {
    match raw
    case RString(t) => t.Good?
    case RArray(items) => forall i | 0 <= i < |items| :: Decodes(items[i])
    case RObject(es) => KeysDecode(es) && forall i | 0 <= i < |es| :: Decodes(es[i].value)
    case _ => true
  }

  /** Every container of the document lies at most `levels` deep; the outermost one is at 1. */
  predicate Within(raw: Raw, levels: int) {
    match raw
    case RArray(items) => levels >= 1 && forall i | 0 <= i < |items| :: Within(items[i], levels - 1)
    case RObject(es) => levels >= 1 && forall i | 0 <= i < |es| :: Within(es[i].value, levels - 1)
    case _ => true
  }

  lemma {:induction false} CheckDecides(raw: Raw, depth: nat, maxDepth: nat)
    ensures Check(raw, depth, maxDepth).None? <==> Decodes(raw) && Within(raw, maxDepth - depth)
    ensures Check(raw, depth, maxDepth) == Some(JsonSyntax) ==> !Decodes(raw)
    ensures Check(raw, depth, maxDepth) == Some(JsonDepth) ==> !Within(raw, maxDepth - depth)
    decreases raw, 0
  {
    match raw
    case RArray(items) => ItemsDecide(items, |items|, depth + 1, maxDepth);
    case RObject(es) => EntriesDecide(es, |es|, depth + 1, maxDepth);
    case _ =>
  }

  lemma {:induction false} ItemsDecide(items: seq<Raw>, n: nat, depth: nat, maxDepth: nat)
    requires n <= |items|
    ensures var e := CheckItems(items, n, depth, maxDepth);
            && (e.None? <==> forall i | 0 <= i < n :: Decodes(items[i]) && Within(items[i], maxDepth - depth))
            && (e == Some(JsonSyntax) ==> exists i | 0 <= i < n :: !Decodes(items[i]))
            && (e == Some(JsonDepth) ==> exists i | 0 <= i < n :: !Within(items[i], maxDepth - depth))
    decreases items, n
  {
    if n == 0 {
    } else {
      CheckDecides(items[n - 1], depth, maxDepth);
      ItemsDecide(items, n - 1, depth, maxDepth);
    }
  }

  lemma {:induction false} EntriesDecide(es: seq<Entry>, n: nat, depth: nat, maxDepth: nat)
    requires n <= |es|
    ensures var e := CheckEntries(es, n, depth, maxDepth);
            && (e.None? <==> forall i | 0 <= i < n :: Decodes(es[i].value) && Within(es[i].value, maxDepth - depth))
            && (e == Some(JsonSyntax) ==> exists i | 0 <= i < n :: !Decodes(es[i].value))
            && (e == Some(JsonDepth) ==> exists i | 0 <= i < n :: !Within(es[i].value, maxDepth - depth))
    decreases es, n
  {
    if n == 0 {
    } else {
      EntryDecides(es[n - 1], depth, maxDepth);
      EntriesDecide(es, n - 1, depth, maxDepth);
    }
  }

  lemma {:induction false} EntryDecides(e: Entry, depth: nat, maxDepth: nat)
    ensures var r := CheckEntry(e, depth, maxDepth);
            && (r.None? <==> Decodes(e.value) && Within(e.value, maxDepth - depth))
            && (r == Some(JsonSyntax) ==> !Decodes(e.value))
            && (r == Some(JsonDepth) ==> !Within(e.value, maxDepth - depth))
    decreases e, 1
  {
    match e case Entry(_, v) => CheckDecides(v, depth, maxDepth);
  }

  /** A document that was validated is never refused by `render`, in either mode. */
  lemma {:induction false} DecodedIsEffective(raw: Raw)
    requires WellFormed(raw) && Decodes(raw)
    ensures Effective(raw).Some?
  {
    match raw
    case RArray(items) =>
      forall i | 0 <= i < |items| ensures Effective(items[i]).Some? { DecodedIsEffective(items[i]); }
    case RObject(es) =>
      var all := seq(|es|, i requires 0 <= i < |es| => Pair(es[i].key.chars, Effective(es[i].value)));
      forall i | 0 <= i < |all| ensures all[i].value.Some? { DecodedIsEffective(es[i].value); }
      forall k | k in FirstKeys(all) ensures LastValue(all, k).Some? { LastValueKept(all, k); }
      var ps := Collapse(all);
      forall i | 0 <= i < |ps| ensures ps[i].value.Some? { assert ps[i].key in FirstKeys(all); }
    case _ =>
  }
}
