/**
 `Quote-Argument` of scripts/laya.ps1, and the argument rules of the Microsoft C runtime, by
 which the server reads its command line back.
 */
module QuoteArgument {

  function Slashes(n: nat): (s: string)
    ensures |s| == n && forall i | 0 <= i < n :: s[i] == '\\'
  {
    seq(n, _ => '\\')
  }

  /** The number of backslashes that s starts with. */
  function Run(s: string): (n: nat)
    ensures n <= |s| && s[..n] == Slashes(n)
    ensures n < |s| ==> s[n] != '\\'
  {
    if s == "" || s[0] != '\\' then 0
    else
      var n := Run(s[1..]);
      assert s[..n + 1] == ['\\'] + s[1..][..n];
      n + 1
  }

  // ---- The two replacements of the script ----

  /** Replace `(\\*)"` by `$1$1\"`: a match starts where a run of backslashes starts. */
  function ReplaceQuotes(s: string): string
    decreases |s|
  {
    var n := Run(s);
    if n == |s| then s
    else if s[n] == '\"' then Slashes(2 * n) + "\\\"" + ReplaceQuotes(s[n + 1..])
    else s[..n + 1] + ReplaceQuotes(s[n + 1..])
  }

  /** The number of backslashes that end at position e. */
  function TailRun(s: string, e: nat): (n: nat)
    requires e <= |s|
    ensures n <= e
  {
    if e == 0 || s[e - 1] != '\\' then 0 else TailRun(s, e - 1) + 1
  }

  /** `$` matches at the end, and also before a newline that ends the text. */
  function Dollar(s: string): (e: nat)
    ensures e <= |s|
  {
    if s != "" && s[|s| - 1] == '\n' then |s| - 1 else |s|
  }

  /** Replace `(\\+)$` by `$1$1`. */
  function DoubleTail(s: string): string {
    var e := Dollar(s);
    s[..e] + Slashes(TailRun(s, e)) + s[e..]
  }

  function Quoted(value: string): string { "\"" + DoubleTail(ReplaceQuotes(value)) + "\"" }

  /** The arguments as `Start-Owned` joins them. */
  function CommandLine(args: seq<string>): string {
    if args == [] then ""
    else if |args| == 1 then Quoted(args[0])
    else Quoted(args[0]) + " " + CommandLine(args[1..])
  }

  // ---- The rules of the C runtime ----

  datatype Argument = Absent | Begun(text: string)

  function Text(a: Argument): string { if a.Begun? then a.text else "" }

  /** The arguments in s, of which `current` has been read so far. */
  function Parse(s: string, quoted: bool, current: Argument): seq<string>
    decreases |s|
  {
    if s == "" then if current.Begun? then [current.text] else []
    else
      var n := Run(s);
      if n > 0 then
        if n < |s| && s[n] == '\"' then
          if n % 2 == 0 then Parse(s[n..], quoted, Begun(Text(current) + Slashes(n / 2)))
          else Parse(s[n + 1..], quoted, Begun(Text(current) + Slashes(n / 2) + "\""))
        else Parse(s[n..], quoted, Begun(Text(current) + Slashes(n)))
      else if s[0] == '\"' then
        if quoted && |s| > 1 && s[1] == '\"' then Parse(s[2..], true, Begun(Text(current) + "\""))
        else Parse(s[1..], !quoted, Begun(Text(current)))
      else if (s[0] == ' ' || s[0] == '\t') && !quoted then
        (if current.Begun? then [current.text] else []) + Parse(s[1..], false, Absent)
      else Parse(s[1..], quoted, Begun(Text(current) + [s[0]]))
  }

  // ---- One pass instead of two replacements ----

  /** After n > 0 backslashes there is one character, a newline. */
  predicate NewlineEnds(v: string, n: nat) { n > 0 && |v| == n + 1 && v[n] == '\n' }

  function Escape(v: string): string
    decreases |v|
  {
    var n := Run(v);
    if n == |v| then Slashes(2 * n)
    else if v[n] == '\"' then Slashes(2 * n) + "\\\"" + Escape(v[n + 1..])
    else if NewlineEnds(v, n) then Slashes(2 * n) + "\n"
    else Slashes(n) + [v[n]] + Escape(v[n + 1..])
  }

  lemma {:induction false} TailRunBehind(p: string, r: string, e: nat)
    requires e <= |r| && p != "" && p[|p| - 1] != '\\'
    ensures TailRun(p + r, |p| + e) == TailRun(r, e)
  {
    if e > 0 {
      assert (p + r)[|p| + e - 1] == r[e - 1];
      TailRunBehind(p, r, e - 1);
    } else {
      assert (p + r)[|p| - 1] == p[|p| - 1];
    }
  }

  lemma DoubleTailBehind(p: string, r: string)
    requires p != "" && p[|p| - 1] != '\\' && r != ""
    ensures DoubleTail(p + r) == p + DoubleTail(r)
  {
    var e := Dollar(r);
    assert (p + r)[|p + r| - 1] == r[|r| - 1];
    assert Dollar(p + r) == |p| + e;
    TailRunBehind(p, r, e);
    assert (p + r)[..|p| + e] == p + r[..e];
    assert (p + r)[|p| + e..] == r[e..];
  }

  lemma {:induction false} TailRunOfSlashes(s: string, n: nat)
    requires n <= |s| && s[..n] == Slashes(n)
    ensures TailRun(s, n) == n
  {
    if n == 0 {
    } else {
      assert s[n - 1] == s[..n][n - 1];
      assert s[..n - 1] == Slashes(n)[..n - 1] == Slashes(n - 1);
      TailRunOfSlashes(s, n - 1);
    }
  }

  lemma TwiceSlashes(n: nat)
    ensures Slashes(n) + Slashes(n) == Slashes(2 * n)
  {
  }

  lemma DoubleAll(n: nat)
    ensures DoubleTail(Slashes(n)) == Slashes(2 * n)
  {
    var s := Slashes(n);
    assert s[..n] == s;
    TailRunOfSlashes(s, n);
    TwiceSlashes(n);
  }

  lemma DoubleBeforeNewline(n: nat)
    ensures DoubleTail(Slashes(n) + "\n") == Slashes(2 * n) + "\n"
  {
    var s := Slashes(n) + "\n";
    assert Dollar(s) == n && s[..n] == Slashes(n) && s[n..] == "\n";
    TailRunOfSlashes(s, n);
    TwiceSlashes(n);
  }

  lemma NothingToDouble(p: string)
    requires p != "" && p[|p| - 1] != '\\' && p[|p| - 1] != '\n'
    ensures DoubleTail(p) == p
  {
    assert TailRun(p, |p|) == 0;
  }

  lemma EmptyReplaced(v: string)
    ensures ReplaceQuotes(v) == "" <==> v == ""
  {
  }

  lemma {:induction false} OnePass(v: string)
    ensures DoubleTail(ReplaceQuotes(v)) == Escape(v)
    decreases |v|
  {
    var n := Run(v);
    if n == |v| {
      assert v == v[..n];
      DoubleAll(n);
    } else {
      var w := v[n + 1..];
      EmptyReplaced(w);
      var p := if v[n] == '\"' then Slashes(2 * n) + "\\\"" else v[..n + 1];
      assert ReplaceQuotes(v) == p + ReplaceQuotes(w);
      assert v[..n + 1] == Slashes(n) + [v[n]];
      if w != "" {
        OnePass(w);
        DoubleTailBehind(p, ReplaceQuotes(w));
        assert v[n..] != "\n";
      } else {
        assert ReplaceQuotes(v) == p;
        assert v[n..] == [v[n]];
        if v[n] == '\n' { DoubleBeforeNewline(n); } else { NothingToDouble(p); }
      }
    }
  }

  // ---- Reading back ----

  /** The value ends in a backslash and a newline. */
  predicate EndsBadly(v: string) {
    |v| >= 2 && v[|v| - 2] == '\\' && v[|v| - 1] == '\n'
  }

  /** What the server reads in place of v. */
  function ReadAs(v: string): string
    decreases |v|
  {
    var n := Run(v);
    if n == |v| then v
    else if NewlineEnds(v, n) then Slashes(2 * n) + "\n"
    else v[..n + 1] + ReadAs(v[n + 1..])
  }

  /** Every value is read back unchanged, except exactly those that end in a backslash and a newline. */
  lemma {:induction false} ReadsBackExactly(v: string)
    ensures ReadAs(v) == v <==> !EndsBadly(v)
    decreases |v|
  {
    var n := Run(v);
    if n == |v| {
    } else {
      if NewlineEnds(v, n) {
        assert v[n] == v[n..][0] == '\n' && |v| == n + 1;
        assert v[n - 1] == v[..n][n - 1];
        assert |ReadAs(v)| == |v| + n;
      } else {
        var w := v[n + 1..];
        ReadsBackExactly(w);
        assert v == v[..n + 1] + w;
        TailOnly(v, n);
        SameTail(v[..n + 1], ReadAs(w), w);
      }
    }
  }

  /** Behind the first character that is no backslash, whether v ends badly is a matter of the rest. */
  lemma TailOnly(v: string, n: nat)
    requires n < |v| && v[n] != '\\' && v[..n] == Slashes(n) && !NewlineEnds(v, n)
    ensures EndsBadly(v) <==> EndsBadly(v[n + 1..])
  {
    var w := v[n + 1..];
    if |w| == 0 { assert v[n..] == [v[n]]; }
    if |w| == 1 { assert v[|v| - 2] == v[n]; }
  }

  lemma SameTail(p: string, a: string, b: string)
    ensures p + a == p + b <==> a == b
  {
    if p + a == p + b { assert a == (p + a)[|p|..] == (p + b)[|p|..] == b; }
  }

  lemma {:induction false} RunOf(n: nat, rest: string)
    requires rest == "" || rest[0] != '\\'
    ensures Run(Slashes(n) + rest) == n
  {
    var s := Slashes(n) + rest;
    if n == 0 {
      assert s == rest;
    } else {
      assert s[1..] == Slashes(n - 1) + rest;
      RunOf(n - 1, rest);
    }
  }

  /** A run of backslashes before something that is not a quote stands for itself. */
  lemma ParseSlashes(n: nat, rest: string, current: string)
    requires rest != "" && rest[0] != '\\' && rest[0] != '\"'
    ensures Parse(Slashes(n) + rest, true, Begun(current)) == Parse(rest, true, Begun(current + Slashes(n)))
  {
    RunOf(n, rest);
    var s := Slashes(n) + rest;
    assert s[n..] == rest;
    if n == 0 { assert s == rest && current + Slashes(n) == current; }
  }

  /** An even run before a quote stands for half of it. */
  lemma ParseEven(n: nat, rest: string, current: string)
    requires rest != "" && rest[0] == '\"'
    ensures Parse(Slashes(2 * n) + rest, true, Begun(current)) == Parse(rest, true, Begun(current + Slashes(n)))
  {
    var s := Slashes(2 * n) + rest;
    if n == 0 {
      assert s == rest && current + Slashes(n) == current;
    } else {
      RunOf(2 * n, rest);
      assert s[2 * n] == '\"' && s[2 * n..] == rest;
      assert 2 * n % 2 == 0 && 2 * n / 2 == n;
    }
  }

  /** An odd run before a quote stands for half of it and the quote. */
  lemma ParseOdd(n: nat, rest: string, current: string)
    ensures Parse(Slashes(2 * n) + ("\\\"" + rest), true, Begun(current)) == Parse(rest, true, Begun(current + Slashes(n) + "\""))
  {
    var s := Slashes(2 * n) + ("\\\"" + rest);
    assert s == Slashes(2 * n + 1) + ("\"" + rest);
    RunOf(2 * n + 1, "\"" + rest);
    assert s[2 * n + 2..] == rest;
    assert (2 * n + 1) / 2 == n;
  }

  lemma ParseChar(c: char, rest: string, current: string)
    requires c != '\\' && c != '\"'
    ensures Parse([c] + rest, true, Begun(current)) == Parse(rest, true, Begun(current + [c]))
  {
    var s := [c] + rest;
    assert Run(s) == 0 && s[1..] == rest;
  }

  lemma ParseSlashesChar(n: nat, c: char, rest: string, current: string)
    requires c != '\\' && c != '\"'
    ensures Parse(Slashes(n) + ([c] + rest), true, Begun(current)) == Parse(rest, true, Begun(current + Slashes(n) + [c]))
  {
    ParseSlashes(n, [c] + rest, current);
    ParseChar(c, rest, current + Slashes(n));
  }

  predicate Separated(rest: string) { rest == "" || rest[0] == ' ' }

  lemma ParseClose(rest: string, current: string)
    requires Separated(rest)
    ensures Parse("\"" + rest, true, Begun(current)) == Parse(rest, false, Begun(current))
  {
    var s := "\"" + rest;
    assert Run(s) == 0 && s[1..] == rest;
  }

  /** After the quotes of v, the closing quote and `rest`, v has been read. */
  ghost predicate Reads(v: string, rest: string, current: string) {
    Parse(Escape(v) + ("\"" + rest), true, Begun(current)) == Parse(rest, false, Begun(current + ReadAs(v)))
  }

  lemma ReadsSlashes(v: string, rest: string, current: string)
    requires Separated(rest) && Run(v) == |v|
    ensures Reads(v, rest, current)
  {
    var n := Run(v);
    assert v == v[..n];
    ParseEven(n, "\"" + rest, current);
    ParseClose(rest, current + Slashes(n));
  }

  lemma Assoc(a: string, b: string, c: string)
    ensures (a + b) + c == a + (b + c)
  {
  }

  /** The first run of v and the character behind it, escaped as a + b and read as x + y. */
  lemma Step(v: string, a: string, b: string, x: string, y: string, e: string, r: string, close: string, current: string)
    requires Escape(v) == a + b + e && ReadAs(v) == x + y + r
    ensures Escape(v) + close == a + (b + (e + close))
    ensures current + ReadAs(v) == current + x + y + r
  {
    Assoc(a + b, e, close);
    Assoc(a, b, e + close);
    Assoc(current, x + y, r);
    Assoc(current, x, y);
  }

  lemma PrefixOf(v: string, n: nat)
    requires n < |v| && v[..n] == Slashes(n)
    ensures v[..n + 1] == Slashes(n) + [v[n]]
  {
    assert v[..n + 1] == v[..n] + [v[n]];
  }

  lemma EscapeQuote(v: string, close: string, current: string)
    requires Run(v) < |v| && v[Run(v)] == '\"'
    ensures var n, w := Run(v), v[Run(v) + 1..];
            && Escape(v) + close == Slashes(2 * n) + ("\\\"" + (Escape(w) + close))
            && current + ReadAs(v) == current + Slashes(n) + "\"" + ReadAs(w)
  {
    var n, w := Run(v), v[Run(v) + 1..];
    PrefixOf(v, n);
    assert v[n..][0] == '\"';
    Step(v, Slashes(2 * n), "\\\"", Slashes(n), "\"", Escape(w), ReadAs(w), close, current);
  }

  lemma ReadsQuote(v: string, rest: string, current: string)
    requires Run(v) < |v| && v[Run(v)] == '\"'
    requires Reads(v[Run(v) + 1..], rest, current + Slashes(Run(v)) + "\"")
    ensures Reads(v, rest, current)
  {
    var n, w, close := Run(v), v[Run(v) + 1..], "\"" + rest;
    EscapeQuote(v, close, current);
    ParseOdd(n, Escape(w) + close, current);
  }

  lemma EscapeNewline(v: string, close: string, current: string)
    requires NewlineEnds(v, Run(v))
    ensures var n := Run(v);
            && Escape(v) + close == Slashes(2 * n) + ("\n" + close)
            && current + ReadAs(v) == current + Slashes(2 * n) + ['\n']
  {
    var n := Run(v);
    assert v[n] == v[n..][0] == '\n';
    Assoc(Slashes(2 * n), "\n", close);
    Assoc(current, Slashes(2 * n), ['\n']);
  }

  lemma ReadsNewline(v: string, rest: string, current: string)
    requires Separated(rest) && NewlineEnds(v, Run(v))
    ensures Reads(v, rest, current)
  {
    var n, close := Run(v), "\"" + rest;
    EscapeNewline(v, close, current);
    ParseSlashes(2 * n, "\n" + close, current);
    ParseChar('\n', close, current + Slashes(2 * n));
    ParseClose(rest, current + Slashes(2 * n) + ['\n']);
  }

  lemma EscapePlain(v: string, close: string, current: string)
    requires Run(v) < |v| && v[Run(v)] != '\"' && !NewlineEnds(v, Run(v))
    ensures var n, w, c := Run(v), v[Run(v) + 1..], v[Run(v)];
            && Escape(v) + close == Slashes(n) + ([c] + (Escape(w) + close))
            && current + ReadAs(v) == current + Slashes(n) + [c] + ReadAs(w)
  {
    var n, w := Run(v), v[Run(v) + 1..];
    PrefixOf(v, n);
    Step(v, Slashes(n), [v[n]], Slashes(n), [v[n]], Escape(w), ReadAs(w), close, current);
  }

  lemma Glue(all: string, read: string, n: nat, c: char, tail: string, r: string, rest: string, current: string)
    requires c != '\\' && c != '\"'
    requires all == Slashes(n) + ([c] + tail) && read == current + Slashes(n) + [c] + r
    requires Parse(tail, true, Begun(current + Slashes(n) + [c])) == Parse(rest, false, Begun(current + Slashes(n) + [c] + r))
    ensures Parse(all, true, Begun(current)) == Parse(rest, false, Begun(read))
  {
    ParseSlashesChar(n, c, tail, current);
  }

  lemma ReadsPlain(v: string, rest: string, current: string)
    requires Run(v) < |v| && v[Run(v)] != '\"' && !NewlineEnds(v, Run(v))
    requires Reads(v[Run(v) + 1..], rest, current + Slashes(Run(v)) + [v[Run(v)]])
    ensures Reads(v, rest, current)
  {
    var n, w, close := Run(v), v[Run(v) + 1..], "\"" + rest;
    EscapePlain(v, close, current);
    Glue(Escape(v) + close, current + ReadAs(v), n, v[n], Escape(w) + close, ReadAs(w), rest, current);
  }

  lemma {:induction false} ParseEscaped(v: string, rest: string, current: string)
    requires Separated(rest)
    ensures Reads(v, rest, current)
    decreases |v|
  {
    var n := Run(v);
    if n == |v| {
      ReadsSlashes(v, rest, current);
    } else if v[n] == '\"' {
      ParseEscaped(v[n + 1..], rest, current + Slashes(n) + "\"");
      ReadsQuote(v, rest, current);
    } else if NewlineEnds(v, n) {
      ReadsNewline(v, rest, current);
    } else {
      ParseEscaped(v[n + 1..], rest, current + Slashes(n) + [v[n]]);
      ReadsPlain(v, rest, current);
    }
  }

  lemma ParseQuoted(v: string, rest: string)
    requires Separated(rest)
    ensures Parse(Quoted(v) + rest, false, Absent) == Parse(rest, false, Begun(ReadAs(v)))
  {
    OnePass(v);
    var s := Quoted(v) + rest;
    assert s == "\"" + (Escape(v) + ("\"" + rest));
    assert Run(s) == 0 && s[1..] == Escape(v) + ("\"" + rest);
    ParseEscaped(v, rest, "");
    assert "" + ReadAs(v) == ReadAs(v);
  }

  function AllReadAs(args: seq<string>): seq<string> {
    seq(|args|, i requires 0 <= i < |args| => ReadAs(args[i]))
  }

  lemma {:induction false} ParseCommandLine(args: seq<string>)
    ensures Parse(CommandLine(args), false, Absent) == AllReadAs(args)
  {
    if |args| == 1 {
      ParseQuoted(args[0], "");
      assert Quoted(args[0]) + "" == Quoted(args[0]);
    } else if |args| > 1 {
      var rest := " " + CommandLine(args[1..]);
      assert CommandLine(args) == Quoted(args[0]) + rest;
      ParseQuoted(args[0], rest);
      assert Run(rest) == 0 && rest[1..] == CommandLine(args[1..]);
      ParseCommandLine(args[1..]);
      assert AllReadAs(args) == [ReadAs(args[0])] + AllReadAs(args[1..]);
    }
  }

  /**
   The server reads back exactly the arguments that the script was given, if and only if none of
   them ends in a backslash and a newline. Every argument without a newline qualifies.
   */
  lemma ArgumentsReadBack(args: seq<string>)
    ensures Parse(CommandLine(args), false, Absent) == args <==> forall i | 0 <= i < |args| :: !EndsBadly(args[i])
  {
    ParseCommandLine(args);
    forall i | 0 <= i < |args| ensures ReadAs(args[i]) == args[i] <==> !EndsBadly(args[i]) { ReadsBackExactly(args[i]); }
    if AllReadAs(args) == args {
      forall i | 0 <= i < |args| ensures !EndsBadly(args[i]) { assert AllReadAs(args)[i] == args[i]; }
    }
  }
}
