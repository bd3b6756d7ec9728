/**
 A reader of JSON text: the grammar of RFC 8259, with strings as in section 7 of RFC 8259
 (escapes, UTF-16 surrogate pairs, no bare control characters), white space between tokens,
 and numbers taken as text. It knows nothing of the printer.
 */
module JsonReader {
  import opened Wrappers
  import opened Decimal
  import opened Json

  datatype Read<+T> = Fail | Got(value: T, rest: string)

  function HexValue(c: char): Option<nat> {
    if '0' <= c <= '9' then Some(c as int - '0' as int)
    else if 'a' <= c <= 'f' then Some(c as int - 'a' as int + 10)
    else if 'A' <= c <= 'F' then Some(c as int - 'A' as int + 10)
    else None
  }

  /** The code unit written by four hexadecimal digits at position i. */
  function UnitAt(s: string, i: nat): Option<nat> {
    if i + 4 > |s| then None
    else
      match (HexValue(s[i]), HexValue(s[i + 1]), HexValue(s[i + 2]), HexValue(s[i + 3]))
      case (Some(a), Some(b), Some(c), Some(d)) => Some(((a * 16 + b) * 16 + c) * 16 + d)
      case _ => None
  }

  /** One character of a string literal: the character and the number of characters read. */
  function ReadChar(s: string): Option<(char, nat)> {
    if s == "" || s[0] == '"' || s[0] < ' ' then None
    else if s[0] != '\\' then Some((s[0], 1))
    else if |s| < 2 then None
    else if s[1] == 'u' then
      match UnitAt(s, 2)
      case None => None
      case Some(u) =>
        if u < 0xd800 || 0xe000 <= u < 0x10000 then Some((u as char, 6))
        else if 0xd800 <= u < 0xdc00 && |s| >= 8 && s[6] == '\\' && s[7] == 'u' then
          match UnitAt(s, 8)
          case Some(l) =>
            if 0xdc00 <= l < 0xe000 then Some(((0x10000 + (u - 0xd800) * 0x400 + (l - 0xdc00)) as char, 12)) else None
          case None => None
        else None
    else if s[1] == '"' || s[1] == '\\' || s[1] == '/' then Some((s[1], 2))
    else if s[1] == 'b' then Some((8 as char, 2))
    else if s[1] == 'f' then Some((12 as char, 2))
    else if s[1] == 'n' then Some(('\n', 2))
    else if s[1] == 'r' then Some(('\r', 2))
    else if s[1] == 't' then Some(('\t', 2))
    else None
  }

  /** The rest of a string literal, up to and with the closing quote. */
  function ReadChars(s: string): (r: Read<string>)
    ensures r.Got? ==> |r.rest| < |s|
    decreases |s|
  {
    if s == "" then Fail
    else if s[0] == '"' then Got("", s[1..])
    else
      match ReadChar(s)
      case None => Fail
      case Some((c, n)) =>
        if n > |s| then Fail
        else
          match ReadChars(s[n..])
          case Got(t, rest) => Got([c] + t, rest)
          case Fail => Fail
  }

  function SkipSpace(s: string): (r: string)
    ensures |r| <= |s|
  {
    if s != "" && (s[0] == ' ' || s[0] == '\t' || s[0] == '\n' || s[0] == '\r') then SkipSpace(s[1..]) else s
  }

  /** The length of the longest prefix of number characters. */
  function NumberLength(s: string): (n: nat)
    ensures n <= |s|
  {
    if s != "" && IsNumberChar(s[0]) then 1 + NumberLength(s[1..]) else 0
  }

  predicate StartsWith(s: string, prefix: string) {
    |prefix| <= |s| && s[..|prefix|] == prefix
  }

  /** A literal name or a number. */
  function ReadScalar(s: string): (r: Read<Tree>)
    requires s != ""
    ensures r.Got? ==> |r.rest| < |s|
  {
    if StartsWith(s, "null") then Got(TNull, s[4..])
    else if StartsWith(s, "true") then Got(TBool(true), s[4..])
    else if StartsWith(s, "false") then Got(TBool(false), s[5..])
    else if IsDigit(s[0]) || s[0] == '-' || s[0] == 'I' then
      var n := NumberLength(s);
      if n == 0 then Fail else Got(TNumber(s[..n]), s[n..])
    else Fail
  }

  function ReadValue(text: string): (r: Read<Tree>)
    ensures r.Got? ==> |r.rest| < |text|
    decreases |text|, 0
  {
    var s := SkipSpace(text);
    if s == "" then Fail
    else if s[0] == '"' then
      match ReadChars(s[1..])
      case Got(t, rest) => Got(TString(t), rest)
      case Fail => Fail
    else if s[0] == '[' then
      var t := SkipSpace(s[1..]);
      if t != "" && t[0] == ']' then Got(TArray([]), t[1..])
      else
        match ReadItems(s[1..])
        case Got(items, rest) => Got(TArray(items), rest)
        case Fail => Fail
    else if s[0] == '{' then
      var t := SkipSpace(s[1..]);
      if t != "" && t[0] == '}' then Got(TObject([]), t[1..])
      else
        match ReadMembers(s[1..])
        case Got(members, rest) => Got(TObject(members), rest)
        case Fail => Fail
    else ReadScalar(s)
  }

  /** One or more items and the closing bracket. */
  function ReadItems(text: string): (r: Read<seq<Tree>>)
    ensures r.Got? ==> |r.rest| < |text|
    decreases |text|, 1
  {
    match ReadValue(text)
    case Fail => Fail
    case Got(v, rest) =>
      var s := SkipSpace(rest);
      if s == "" then Fail
      else if s[0] == ']' then Got([v], s[1..])
      else if s[0] == ',' then
        match ReadItems(s[1..])
        case Got(vs, end) => Got([v] + vs, end)
        case Fail => Fail
      else Fail
  }

  /** A key, a colon and a value. */
  function ReadMember(text: string): (r: Read<Pair<Tree>>)
    ensures r.Got? ==> |r.rest| < |text|
    decreases |text|, 1
  {
    var t := SkipSpace(text);
    if t == "" || t[0] != '"' then Fail
    else
      match ReadChars(t[1..])
      case Fail => Fail
      case Got(key, r1) =>
        var u := SkipSpace(r1);
        if u == "" || u[0] != ':' then Fail
        else
          match ReadValue(u[1..])
          case Fail => Fail
          case Got(v, rest) => Got(Pair(key, v), rest)
  }

  /** One or more members and the closing brace. */
  function ReadMembers(text: string): (r: Read<seq<Pair<Tree>>>)
    ensures r.Got? ==> |r.rest| < |text|
    decreases |text|, 2
  {
    match ReadMember(text)
    case Fail => Fail
    case Got(m, rest) =>
      var s := SkipSpace(rest);
      if s == "" then Fail
      else if s[0] == '}' then Got([m], s[1..])
      else if s[0] == ',' then
        match ReadMembers(s[1..])
        case Got(ms, end) => Got([m] + ms, end)
        case Fail => Fail
      else Fail
  }

  /** A whole document. */
  function ReadDocument(text: string): Option<Tree> {
    match ReadValue(text)
    case Got(t, rest) => if SkipSpace(rest) == "" then Some(t) else None
    case Fail => None
  }
}
