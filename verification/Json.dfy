/** JSON texts as encoding/json writes and reads them (RFC 8259, sections 2 to 7). */
module Json {
  import opened Wrappers
  import opened Decimal

  datatype Value =
    | Null
    | Bool(b: bool)
    | Number(lexeme: string)
    | Str(s: string)
    | Array(items: seq<Value>)
    | Object(members: Members)

  /** The members of an object, in the order of the text. */
  datatype Members = End | Member(name: string, value: Value, more: Members)

  // ----- writing -----

  function HexDigit(d: nat): char
    requires d < 16
  {
    if d < 10 then DigitChar(d) else ('a' as int + d - 10) as char
  }

  function UnicodeEscape(n: nat): string
    requires n < 0x10000
  {
    ['\\', 'u', HexDigit(n / 4096), HexDigit(n / 256 % 16), HexDigit(n / 16 % 16), HexDigit(n % 16)]
  }

  /** The writer also escapes what is special in HTML, and the two line separators of JavaScript. */
  function Escape(c: char): string {
    if c == '\"' || c == '\\' then ['\\', c]
    else if c == '\n' then ['\\', 'n']
    else if c == '\r' then ['\\', 'r']
    else if c == '\t' then ['\\', 't']
    else if c < ' ' || c == '<' || c == '>' || c == '&' || c == '\U{2028}' || c == '\U{2029}'
    then UnicodeEscape(c as int)
    else [c]
  }

  function EscapeAll(s: string): string {
    if s == [] then [] else Escape(s[0]) + EscapeAll(s[1..])
  }

  function Quote(s: string): string {
    ['\"'] + EscapeAll(s) + ['\"']
  }

  function Print(v: Value): string {
    match v
    case Null => "null"
    case Bool(b) => if b then "true" else "false"
    case Number(lexeme) => lexeme
    case Str(s) => Quote(s)
    case Array(items) => if items == [] then "[]" else "[" + PrintItems(items) + "]"
    case Object(members) => if members.End? then "{}" else "{" + PrintMembers(members) + "}"
  }

  function PrintItems(items: seq<Value>): string
    requires items != []
  {
    Print(items[0]) + if |items| == 1 then "" else "," + PrintItems(items[1..])
  }

  function PrintMembers(ms: Members): string
    requires ms.Member?
  {
    Quote(ms.name) + ":" + Print(ms.value) + if ms.more.End? then "" else "," + PrintMembers(ms.more)
  }

  // ----- reading -----

  function SkipSpace(s: string): (r: string)
    ensures |r| <= |s|
  {
    if s != [] && s[0] in {' ', '\t', '\r', '\n'} then SkipSpace(s[1..]) else s
  }

  function HexValue(c: char): Option<nat> {
    if IsDigit(c) then Some(DigitValue(c))
    else if 'a' <= c <= 'f' then Some(c as int - 'a' as int + 10)
    else if 'A' <= c <= 'F' then Some(c as int - 'A' as int + 10)
    else None
  }

  /** The four hexadecimal digits of an escape. */
  function Hex4(s: string): (r: Option<nat>)
    ensures r.Some? ==> |s| >= 4 && r.value < 0x10000
  {
    if |s| < 4 then None
    else
      var a :- HexValue(s[0]);
      var b :- HexValue(s[1]);
      var c :- HexValue(s[2]);
      var d :- HexValue(s[3]);
      if a < 16 && b < 16 && c < 16 && d < 16 then Some(4096 * a + 256 * b + 16 * c + d) else None
  }

  const REPLACEMENT: char := '\U{FFFD}'

  /** After `\u`: surrogates are combined when they form a pair and replaced when they do not. */
  function ReadUnicode(s: string): (r: Option<(char, string)>)
    ensures r.Some? ==> |r.value.1| < |s|
  {
    var n :- Hex4(s);
    var rest := s[4..];
    if n < 0xD800 || 0xE000 <= n then Some((n as char, rest))
    else if n < 0xDC00 && |rest| >= 2 && rest[0] == '\\' && rest[1] == 'u' then
      var low := Hex4(rest[2..]);
      if low.Some? && 0xDC00 <= low.value < 0xE000
      then Some(((0x10000 + (n - 0xD800) * 0x400 + (low.value - 0xDC00)) as char, rest[6..]))
      else Some((REPLACEMENT, rest))
    else Some((REPLACEMENT, rest))
  }

  /** One character of a string, which is not the closing quote. */
  function ReadChar(s: string): (r: Option<(char, string)>)
    ensures r.Some? ==> |r.value.1| < |s|
  {
    if s == [] || s[0] < ' ' then None
    else if s[0] != '\\' then Some((s[0], s[1..]))
    else if |s| < 2 then None
    else match s[1]
      case 'u' => ReadUnicode(s[2..])
      case 'n' => Some(('\n', s[2..]))
      case 'r' => Some(('\r', s[2..]))
      case 't' => Some(('\t', s[2..]))
      case 'b' => Some(('\U{8}', s[2..]))
      case 'f' => Some(('\U{C}', s[2..]))
      case c => if c in {'\"', '\\', '/'} then Some((c, s[2..])) else None
  }

  /** The rest of a string, after its opening quote. */
  function ReadString(s: string): (r: Option<(string, string)>)
    ensures r.Some? ==> |r.value.1| < |s|
    decreases |s|
  {
    if s == [] then None
    else if s[0] == '\"' then Some(([], s[1..]))
    else
      var c :- ReadChar(s);
      var more :- ReadString(c.1);
      Some(([c.0] + more.0, more.1))
  }

  function DigitsLen(s: string): (k: nat)
    ensures k <= |s|
  {
    if s != [] && IsDigit(s[0]) then 1 + DigitsLen(s[1..]) else 0
  }

  function IntegerLen(s: string): (r: Option<nat>)
    ensures r.Some? ==> 0 < r.value <= |s|
  {
    if s == [] then None
    else if s[0] == '-' then
      if DigitsLen(s[1..]) == 0 then None else Some(if s[1] == '0' then 2 else 1 + DigitsLen(s[1..]))
    else if DigitsLen(s) == 0 then None
    else Some(if s[0] == '0' then 1 else DigitsLen(s))
  }

  function FractionLen(s: string): (r: Option<nat>)
    ensures r.Some? ==> r.value <= |s|
  {
    if s == [] || s[0] != '.' then Some(0)
    else if DigitsLen(s[1..]) == 0 then None
    else Some(1 + DigitsLen(s[1..]))
  }

  function ExponentLen(s: string): (r: Option<nat>)
    ensures r.Some? ==> r.value <= |s|
  {
    if s == [] || s[0] !in {'e', 'E'} then Some(0)
    else
      var sign := if |s| > 1 && s[1] in {'+', '-'} then 1 else 0;
      var d := DigitsLen(s[1 + sign..]);
      if d == 0 then None else Some(1 + sign + d)
  }

  function ReadNumber(s: string): (r: Option<(Value, string)>)
    ensures r.Some? ==> |r.value.1| < |s|
  {
    var i :- IntegerLen(s);
    var f :- FractionLen(s[i..]);
    var e :- ExponentLen(s[i + f..]);
    Some((Number(s[..i + f + e]), s[i + f + e..]))
  }

  function ReadValue(s: string): (r: Option<(Value, string)>)
    ensures r.Some? ==> |r.value.1| < |s|
    decreases |s|, 0
  {
    var t := SkipSpace(s);
    if t == [] then None
    else if t[0] == '[' then
      var u := SkipSpace(t[1..]);
      if u != [] && u[0] == ']' then Some((Array([]), u[1..]))
      else
        var r :- ReadItems(t[1..]);
        Some((Array(r.0), r.1))
    else if t[0] == '{' then
      var u := SkipSpace(t[1..]);
      if u != [] && u[0] == '}' then Some((Object(End), u[1..]))
      else
        var r :- ReadMembers(t[1..]);
        Some((Object(r.0), r.1))
    else if t[0] == '\"' then
      var r :- ReadString(t[1..]);
      Some((Str(r.0), r.1))
    else if "null" <= t then Some((Null, t[4..]))
    else if "true" <= t then Some((Bool(true), t[4..]))
    else if "false" <= t then Some((Bool(false), t[5..]))
    else ReadNumber(t)
  }

  /** The elements of an array, up to and including the closing bracket. */
  function ReadItems(s: string): (r: Option<(seq<Value>, string)>)
    ensures r.Some? ==> |r.value.1| < |s|
    decreases |s|, 1
  {
    var v :- ReadValue(s);
    var t := SkipSpace(v.1);
    if t == [] then None
    else if t[0] == ']' then Some(([v.0], t[1..]))
    else if t[0] == ',' then
      var more :- ReadItems(t[1..]);
      Some(([v.0] + more.0, more.1))
    else None
  }

  /** The members of an object, up to and including the closing brace. */
  function ReadMembers(s: string): (r: Option<(Members, string)>)
    ensures r.Some? ==> |r.value.1| < |s|
    decreases |s|, 1
  {
    var q := SkipSpace(s);
    if q == [] || q[0] != '\"' then None
    else
      var name :- ReadString(q[1..]);
      var colon := SkipSpace(name.1);
      if colon == [] || colon[0] != ':' then None
      else
        var v :- ReadValue(colon[1..]);
        var t := SkipSpace(v.1);
        if t == [] then None
        else if t[0] == '}' then Some((Member(name.0, v.0, End), t[1..]))
        else if t[0] == ',' then
          var more :- ReadMembers(t[1..]);
          Some((Member(name.0, v.0, more.0), more.1))
        else None
  }

  function Parse(text: string): Option<Value> {
    var r :- ReadValue(text);
    if SkipSpace(r.1) == [] then Some(r.0) else None
  }

  // ----- what is written is read back -----

  function IntText(n: int): (s: string) {
    if n < 0 then "-" + ToDecimal(-n) else ToDecimal(n)
  }

  /** Every number is an integer in canonical form, as all the numbers of a spec are. */
  predicate Canonical(v: Value) {
    match v
    case Number(lexeme) => IntOf(lexeme).Some? && lexeme == IntText(IntOf(lexeme).value)
    case Array(items) => forall i :: 0 <= i < |items| ==> Canonical(items[i])
    case Object(ms) => CanonicalMembers(ms)
    case _ => true
  }

  predicate CanonicalMembers(ms: Members) {
    ms.Member? ==> Canonical(ms.value) && CanonicalMembers(ms.more)
  }

  function IntOf(lexeme: string): Option<int> {
    if lexeme != [] && lexeme[0] == '-' then
      if |lexeme| > 1 && AllDigits(lexeme[1..]) then Some(0 - FromDecimal(lexeme[1..])) else None
    else if lexeme != [] && AllDigits(lexeme) then Some(FromDecimal(lexeme))
    else None
  }

  lemma IntOfText(n: int)
    ensures IntOf(IntText(n)) == Some(n)
  {
    FromToDecimal(if n < 0 then -n else n);
    if n < 0 {
      assert IntText(n)[1..] == ToDecimal(-n);
    }
  }

  lemma HexDigitRead(d: nat)
    requires d < 16
    ensures HexValue(HexDigit(d)) == Some(d)
  {
  }

  lemma HexDigitsRead(a: nat, b: nat, c: nat, d: nat, rest: string)
    requires a < 16 && b < 16 && c < 16 && d < 16
    ensures Hex4([HexDigit(a), HexDigit(b), HexDigit(c), HexDigit(d)] + rest) == Some(4096 * a + 256 * b + 16 * c + d)
  {
    HexDigitRead(a);
    HexDigitRead(b);
    HexDigitRead(c);
    HexDigitRead(d);
  }

  lemma FourDigits(n: nat)
    ensures n == 4096 * (n / 4096) + 256 * (n / 256 % 16) + 16 * (n / 16 % 16) + n % 16
  {
    assert n / 256 == n / 16 / 16 && n / 4096 == n / 16 / 16 / 16;
  }

  lemma HexRead(n: nat, rest: string)
    requires n < 0x10000
    ensures Hex4(UnicodeEscape(n)[2..] + rest) == Some(n)
  {
    var a, b, c, d := n / 4096, n / 256 % 16, n / 16 % 16, n % 16;
    HexDigitsRead(a, b, c, d, rest);
    FourDigits(n);
    assert UnicodeEscape(n)[2..] == [HexDigit(a), HexDigit(b), HexDigit(c), HexDigit(d)];
  }

  lemma UnicodeRead(c: char, rest: string)
    requires c < '\U{D7FF}'
    ensures ReadChar(UnicodeEscape(c as int) + rest) == Some((c, rest))
  {
    var s := UnicodeEscape(c as int) + rest;
    HexRead(c as int, rest);
    assert s[2..] == UnicodeEscape(c as int)[2..] + rest;
    assert s[2..][4..] == rest;
  }

  lemma EscapeRead(c: char, rest: string)
    ensures Escape(c) != [] && Escape(c)[0] != '\"'
    ensures ReadChar(Escape(c) + rest) == Some((c, rest))
  {
    var s := Escape(c) + rest;
    if |Escape(c)| == 6 {
      UnicodeRead(c, rest);
    } else if |Escape(c)| == 2 {
      assert s[2..] == rest;
    } else {
      assert s[1..] == rest;
    }
  }

  lemma {:induction false} StringRead(s: string, rest: string)
    ensures ReadString(EscapeAll(s) + ['\"'] + rest) == Some((s, rest))
  {
    var text := EscapeAll(s) + ['\"'] + rest;
    if s == [] {
      assert text[1..] == rest;
    } else {
      var tail := EscapeAll(s[1..]) + ['\"'] + rest;
      assert text == Escape(s[0]) + tail;
      EscapeRead(s[0], tail);
      StringRead(s[1..], rest);
      assert [s[0]] + s[1..] == s;
    }
  }

  lemma QuoteRead(s: string, rest: string)
    ensures var q := Quote(s) + rest; q[0] == '\"' && ReadString(q[1..]) == Some((s, rest))
  {
    assert (Quote(s) + rest)[1..] == EscapeAll(s) + ['\"'] + rest;
    StringRead(s, rest);
  }

  /** What may follow a value. */
  predicate Closing(rest: string) {
    rest == [] || rest[0] in {',', ']', '}', ' ', '\t', '\r', '\n'}
  }

  lemma {:induction false} DigitsLenAll(d: string, rest: string)
    requires AllDigits(d) && (rest == [] || !IsDigit(rest[0]))
    ensures DigitsLen(d + rest) == |d|
  {
    if d == [] {
      assert d + rest == rest;
    } else {
      assert (d + rest)[1..] == d[1..] + rest;
      DigitsLenAll(d[1..], rest);
    }
  }

  lemma NumberRead(n: int, rest: string)
    requires Closing(rest)
    ensures ReadNumber(IntText(n) + rest) == Some((Number(IntText(n)), rest))
  {
    var l := IntText(n);
    var s := l + rest;
    var d := ToDecimal(if n < 0 then -n else n);
    DigitsLenAll(d, rest);
    if n < 0 {
      assert s[1..] == d + rest;
    }
    assert IntegerLen(s) == Some(|l|);
    assert s[|l|..] == rest && s[..|l|] == l;
  }

  /** A printed value starts neither with white space nor with a closing bracket. */
  lemma FirstOfValue(v: Value)
    requires Canonical(v)
    ensures Print(v) != [] && Print(v)[0] !in {' ', '\t', '\r', '\n', ']', '}'}
  {
    match v
    case Number(lexeme) => assert lexeme[0] == '-' || IsDigit(lexeme[0]);
    case _ =>
  }

  lemma NumberValueRead(n: int, rest: string)
    requires Closing(rest)
    ensures ReadValue(IntText(n) + rest) == Some((Number(IntText(n)), rest))
  {
    hide IntText, ReadNumber;
    NumberRead(n, rest);
    IntTextStarts(n);
    assert (IntText(n) + rest)[0] == IntText(n)[0];
  }

  lemma IntTextStarts(n: int)
    ensures IntText(n) != [] && (IntText(n)[0] == '-' || IsDigit(IntText(n)[0]))
  {
  }

  lemma StrValueRead(str: string, rest: string)
    ensures ReadValue(Quote(str) + rest) == Some((Str(str), rest))
  {
    QuoteRead(str, rest);
  }

  lemma ArrayValueRead(items: seq<Value>, text: string, rest: string)
    requires text != [] && text[0] !in {' ', '\t', '\r', '\n', ']'}
    requires ReadItems(text) == Some((items, rest))
    ensures ReadValue("[" + text) == Some((Array(items), rest))
  {
    assert ("[" + text)[1..] == text;
  }

  lemma ObjectValueRead(ms: Members, text: string, rest: string)
    requires text != [] && text[0] == '\"'
    requires ReadMembers(text) == Some((ms, rest))
    ensures ReadValue("{" + text) == Some((Object(ms), rest))
  {
    assert ("{" + text)[1..] == text;
  }

  lemma LiteralRead(v: Value, rest: string)
    requires v.Null? || v.Bool? || v == Array([]) || v == Object(End)
    ensures ReadValue(Print(v) + rest) == Some((v, rest))
  {
    var s := Print(v) + rest;
    assert s[|Print(v)|..] == rest;
    if v.Array? || v.Object? {
      assert s[1..][1..] == rest;
    }
  }

  lemma ArrayText(items: seq<Value>, rest: string)
    requires items != []
    ensures Print(Array(items)) + rest == "[" + (PrintItems(items) + ("]" + rest))
  {
  }

  lemma ObjectText(ms: Members, rest: string)
    requires ms.Member?
    ensures Print(Object(ms)) + rest == "{" + (PrintMembers(ms) + ("}" + rest))
  {
  }

  lemma {:induction false} ValueRead(v: Value, rest: string)
    requires Canonical(v) && Closing(rest)
    ensures ReadValue(Print(v) + rest) == Some((v, rest))
    decreases v, 1
  {
    match v
    case Null => LiteralRead(v, rest);
    case Bool(_) => LiteralRead(v, rest);
    case Number(lexeme) => NumberValueRead(IntOf(lexeme).value, rest);
    case Str(str) => StrValueRead(str, rest);
    case Array(items) => ArrayRead(v, rest);
    case Object(ms) => ObjectRead(v, rest);
  }

  lemma {:induction false} ArrayRead(v: Value, rest: string)
    requires v.Array? && Canonical(v) && Closing(rest)
    ensures ReadValue(Print(v) + rest) == Some((v, rest))
    decreases v, 0
  {
    var items := v.items;
    if items == [] {
      LiteralRead(v, rest);
    } else {
      var text := PrintItems(items) + ("]" + rest);
      FirstOfValue(items[0]);
      assert text != [] && text[0] == Print(items[0])[0];
      ItemsRead(items, rest);
      ArrayText(items, rest);
      ArrayValueRead(items, text, rest);
    }
  }

  lemma {:induction false} ObjectRead(v: Value, rest: string)
    requires v.Object? && Canonical(v) && Closing(rest)
    ensures ReadValue(Print(v) + rest) == Some((v, rest))
    decreases v, 0
  {
    var ms := v.members;
    if ms.End? {
      LiteralRead(v, rest);
    } else {
      var text := PrintMembers(ms) + ("}" + rest);
      MembersRead(ms, rest);
      ObjectText(ms, rest);
      ObjectValueRead(ms, text, rest);
    }
  }

  lemma ItemsEnd(v: Value, first: string, rest: string)
    requires ReadValue(first + ("]" + rest)) == Some((v, "]" + rest))
    ensures ReadItems(first + ("]" + rest)) == Some(([v], rest))
  {
    assert ("]" + rest)[1..] == rest;
  }

  lemma ItemsNext(v: Value, first: string, tail: string, items: seq<Value>, rest: string)
    requires ReadValue(first + ("," + tail)) == Some((v, "," + tail))
    requires ReadItems(tail) == Some((items, rest))
    ensures ReadItems(first + ("," + tail)) == Some(([v] + items, rest))
  {
    hide ReadValue;
    assert ("," + tail)[1..] == tail;
  }

  lemma Assoc(a: string, b: string, c: string)
    ensures (a + b) + c == a + (b + c)
  {
  }

  lemma ItemsText(items: seq<Value>, rest: string)
    requires items != []
    ensures PrintItems(items) + ("]" + rest)
         == Print(items[0])
            + if |items| == 1 then "]" + rest else "," + (PrintItems(items[1..]) + ("]" + rest))
  {
    var first := Print(items[0]);
    if |items| == 1 {
      assert PrintItems(items) == first + "" == first;
    } else {
      var more := PrintItems(items[1..]);
      Assoc(first, "," + more, "]" + rest);
      Assoc(",", more, "]" + rest);
    }
  }

  lemma {:induction false} ItemsRead(items: seq<Value>, rest: string)
    requires items != [] && forall i :: 0 <= i < |items| ==> Canonical(items[i])
    ensures ReadItems(PrintItems(items) + ("]" + rest)) == Some((items, rest))
    decreases items, 2
  {
    hide ReadItems, ReadValue, PrintItems, Print;
    var first := Print(items[0]);
    ItemsText(items, rest);
    if |items| == 1 {
      ValueRead(items[0], "]" + rest);
      ItemsEnd(items[0], first, rest);
      assert [items[0]] == items;
    } else {
      var tail := PrintItems(items[1..]) + ("]" + rest);
      ValueRead(items[0], "," + tail);
      ItemsRead(items[1..], rest);
      ItemsNext(items[0], first, tail, items[1..], rest);
      assert [items[0]] + items[1..] == items;
    }
  }

  lemma MembersEnd(name: string, v: Value, first: string, rest: string)
    requires ReadValue(first + ("}" + rest)) == Some((v, "}" + rest))
    ensures ReadMembers(Quote(name) + (":" + (first + ("}" + rest)))) == Some((Member(name, v, End), rest))
  {
    hide ReadValue;
    var colon := ":" + (first + ("}" + rest));
    QuoteRead(name, colon);
    assert colon[1..] == first + ("}" + rest);
    assert ("}" + rest)[1..] == rest;
  }

  lemma MembersNext(name: string, v: Value, first: string, tail: string, more: Members, rest: string)
    requires ReadValue(first + ("," + tail)) == Some((v, "," + tail))
    requires ReadMembers(tail) == Some((more, rest))
    ensures ReadMembers(Quote(name) + (":" + (first + ("," + tail)))) == Some((Member(name, v, more), rest))
  {
    hide ReadValue;
    var colon := ":" + (first + ("," + tail));
    QuoteRead(name, colon);
    assert colon[1..] == first + ("," + tail);
    assert ("," + tail)[1..] == tail;
  }

  lemma MembersText(ms: Members, rest: string)
    requires ms.Member?
    ensures PrintMembers(ms) + ("}" + rest)
         == Quote(ms.name) + (":" + (Print(ms.value)
            + if ms.more.End? then "}" + rest else "," + (PrintMembers(ms.more) + ("}" + rest))))
  {
    var name, first := Quote(ms.name), Print(ms.value);
    var tail := if ms.more.End? then "" else "," + PrintMembers(ms.more);
    Assoc(name + ":" + first, tail, "}" + rest);
    Assoc(name + ":", first, tail + ("}" + rest));
    Assoc(name, ":", first + (tail + ("}" + rest)));
    if ms.more.End? {
      assert "" + ("}" + rest) == "}" + rest;
    } else {
      Assoc(",", PrintMembers(ms.more), "}" + rest);
    }
  }

  lemma {:induction false} MembersRead(ms: Members, rest: string)
    requires ms.Member? && CanonicalMembers(ms)
    ensures ReadMembers(PrintMembers(ms) + ("}" + rest)) == Some((ms, rest))
    decreases ms, 2
  {
    hide ReadMembers, ReadValue, PrintMembers, Print;
    var first := Print(ms.value);
    MembersText(ms, rest);
    if ms.more.End? {
      ValueRead(ms.value, "}" + rest);
      MembersEnd(ms.name, ms.value, first, rest);
    } else {
      var tail := PrintMembers(ms.more) + ("}" + rest);
      ValueRead(ms.value, "," + tail);
      MembersRead(ms.more, rest);
      MembersNext(ms.name, ms.value, first, tail, ms.more, rest);
    }
  }

  /** Every value whose numbers are integers survives being written and read back. */
  lemma {:induction false} PrintParse(v: Value)
    requires Canonical(v)
    ensures Parse(Print(v)) == Some(v)
  {
    ValueRead(v, []);
    assert Print(v) + [] == Print(v);
  }

  /** A written value followed by something else is a text only if that is white space. */
  lemma PrintParseRest(v: Value, rest: string)
    requires Canonical(v) && Closing(rest)
    ensures Parse(Print(v) + rest) == if SkipSpace(rest) == [] then Some(v) else None
  {
    hide Print, ReadValue;
    ValueRead(v, rest);
  }

  /** A text that begins like no value is rejected. */
  lemma NotAValue(s: string)
    requires s != [] && !IsDigit(s[0])
    requires s[0] !in {' ', '\t', '\r', '\n', '[', '{', '\"', '-', 'n', 't', 'f'}
    ensures Parse(s).None?
  {
    assert "null"[0] == 'n' && "true"[0] == 't' && "false"[0] == 'f';
  }

  /** A control character inside a string is rejected, and so is a backslash before anything but the known
      escapes. */
  lemma {:induction false} StringRejected(s: string, c: char, rest: string)
    ensures c < ' ' ==> ReadString(EscapeAll(s) + [c] + rest) == None
    ensures c !in {'\"', '\\', '/', 'b', 'f', 'n', 'r', 't', 'u'} ==>
              ReadString(EscapeAll(s) + ['\\', c] + rest) == None
  {
    if s == [] {
      assert EscapeAll(s) + [c] + rest == [c] + rest;
      assert EscapeAll(s) + ['\\', c] + rest == ['\\', c] + rest;
    } else {
      hide Escape;
      var raw, escaped := EscapeAll(s[1..]) + [c] + rest, EscapeAll(s[1..]) + ['\\', c] + rest;
      assert EscapeAll(s) + [c] + rest == Escape(s[0]) + raw;
      assert EscapeAll(s) + ['\\', c] + rest == Escape(s[0]) + escaped;
      EscapeRead(s[0], raw);
      EscapeRead(s[0], escaped);
      StringRejected(s[1..], c, rest);
    }
  }

  /** So is a number with a leading zero. */
  lemma LeadingZeroRejected(digits: string)
    requires digits != [] && AllDigits(digits)
    ensures Parse("0" + digits) == None
  {
    var s := "0" + digits;
    assert s[1..] == digits;
    assert ReadNumber(s) == Some((Number("0"), digits)) by {
      assert DigitsLen(s) > 0 && IntegerLen(s) == Some(1);
      assert FractionLen(s[1..]) == Some(0) && ExponentLen(s[1..]) == Some(0);
    }
  }

  /** Inside a quoted string there is no control character, nothing special in HTML and no line
      separator, and quotation marks only behind a backslash. */
  lemma {:induction false} QuotedIsSafe(s: string, i: nat)
    requires i < |EscapeAll(s)|
    ensures var c := EscapeAll(s)[i];
            && ' ' <= c && c !in {'<', '>', '&', '\U{2028}', '\U{2029}'}
            && (c == '\"' ==> 0 < i && EscapeAll(s)[i - 1] == '\\')
  {
    var first := Escape(s[0]);
    EscapeIsSafe(s[0]);
    if |first| <= i {
      QuotedIsSafe(s[1..], i - |first|);
    }
  }

  lemma EscapeIsSafe(c: char)
    ensures forall i :: 0 <= i < |Escape(c)| ==>
              && ' ' <= Escape(c)[i] && Escape(c)[i] !in {'<', '>', '&', '\U{2028}', '\U{2029}'}
              && (Escape(c)[i] == '\"' ==> i == 1 && Escape(c)[0] == '\\')
  {
  }
}
