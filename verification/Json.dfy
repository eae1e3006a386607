/** The JSON (RFC 8259, sections 4, 6 and 7) that cursors carry: flat objects of strings, integers and literals. */
module Json {
  import opened Basics

  datatype Value = Text(text: string) | Number(n: int) | True | False | Null

  datatype Member = Member(key: string, value: Value)

  type Object = map<string, Value>

  datatype Parsed<+T> = Parsed(value: T, rest: string) | Malformed

  // ---- Writing: compact separators, everything outside printable ASCII escaped

  function HexDigit(x: int): char
    requires 0 <= x < 16
  {
    if x < 10 then ('0' as int + x) as char else ('a' as int + (x - 10)) as char
  }

  function Unit(v: int): (s: string)
    requires 0 <= v < 0x10000
    ensures |s| == 6
  {
    ['\\', 'u', HexDigit(v / 4096), HexDigit(v / 256 % 16), HexDigit(v / 16 % 16), HexDigit(v % 16)]
  }

  function HighSurrogate(v: int): (u: int)
    requires 0x10000 <= v < 0x110000
    ensures 0xD800 <= u < 0xDC00
  {
    0xD800 + (v - 0x10000) / 1024
  }

  function LowSurrogate(v: int): (u: int)
    ensures 0xDC00 <= u < 0xE000
  {
    0xDC00 + (v - 0x10000) % 1024
  }

  /** The letter of a two-character escape. */
  function ShortEscape(c: char): Option<char> {
    match c
    case '\"' => Some('\"')
    case '\\' => Some('\\')
    case '\n' => Some('n')
    case '\r' => Some('r')
    case '\t' => Some('t')
    case '\U{000C}' => Some('f')
    case '\U{0008}' => Some('b')
    case _ => None
  }

  function EscapeChar(c: char): (s: string)
    ensures 1 <= |s| <= 12
  {
    var v := c as int;
    if ShortEscape(c).Some? then ['\\', ShortEscape(c).value]
    else if ' ' <= c <= '~' then [c]
    else if v < 0x10000 then Unit(v)
    else Unit(HighSurrogate(v)) + Unit(LowSurrogate(v))
  }

  function Escape(t: string): string {
    if t == "" then "" else EscapeChar(t[0]) + Escape(t[1..])
  }

  function Digit(x: int): char
    requires 0 <= x < 10
  {
    ('0' as int + x) as char
  }

  function Decimal(n: nat): (s: string)
    ensures |s| >= 1
  {
    if n < 10 then [Digit(n)] else Decimal(n / 10) + [Digit(n % 10)]
  }

  function DumpValue(v: Value): string {
    match v
    case Text(t) => "\"" + (Escape(t) + "\"")
    case Number(n) => if n < 0 then "-" + Decimal(-n) else Decimal(n)
    case True => "true"
    case False => "false"
    case Null => "null"
  }

  /** The members after the opening brace, up to and including the closing one. */
  function DumpMembers(ms: seq<Member>): string
    requires ms != []
  {
    "\"" + (Escape(ms[0].key) + ("\"" + (":" + (DumpValue(ms[0].value)
      + (if |ms| == 1 then "}" else "," + DumpMembers(ms[1..]))))))
  }

  function Dump(ms: seq<Member>): string
    requires ms != []
  {
    "{" + DumpMembers(ms)
  }

  // ---- Reading

  function HexValue(c: char): (r: Option<int>)
    ensures r.Some? ==> 0 <= r.value < 16
  {
    if '0' <= c <= '9' then Some(c as int - '0' as int)
    else if 'a' <= c <= 'f' then Some(c as int - 'a' as int + 10)
    else if 'A' <= c <= 'F' then Some(c as int - 'A' as int + 10)
    else None
  }

  function Hex4(w: int, x: int, y: int, z: int): (v: int)
    ensures 0 <= w < 16 && 0 <= x < 16 && 0 <= y < 16 && 0 <= z < 16 ==> 0 <= v < 0x10000
  {
    w * 4096 + x * 256 + y * 16 + z
  }

  /** The code unit of an escape at the start of the text. */
  function ReadUnit(s: string): (r: Option<int>)
    ensures r.Some? ==> |s| >= 6 && 0 <= r.value < 0x10000
  {
    if |s| < 6 || s[0] != '\\' || s[1] != 'u' then None
    else
      var w, x, y, z := HexValue(s[2]), HexValue(s[3]), HexValue(s[4]), HexValue(s[5]);
      if w.None? || x.None? || y.None? || z.None? then None
      else Some(Hex4(w.value, x.value, y.value, z.value))
  }

  function Unescape(c: char): Option<char> {
    match c
    case '\"' => Some('\"')
    case '\\' => Some('\\')
    case '/' => Some('/')
    case 'n' => Some('\n')
    case 'r' => Some('\r')
    case 't' => Some('\t')
    case 'f' => Some('\U{000C}')
    case 'b' => Some('\U{0008}')
    case _ => None
  }

  function JoinSurrogates(high: int, low: int): int { 0x10000 + (high - 0xD800) * 1024 + (low - 0xDC00) }

  /** One character of a string literal; a pair of surrogate escapes is one character. */
  function ReadChar(s: string): (r: Parsed<char>)
    ensures r.Parsed? ==> |r.rest| < |s|
  {
    if s == "" || s[0] < ' ' then Malformed
    else if s[0] != '\\' then Parsed(s[0], s[1..])
    else if |s| < 2 then Malformed
    else if s[1] != 'u' then if Unescape(s[1]).Some? then Parsed(Unescape(s[1]).value, s[2..]) else Malformed
    else match ReadUnit(s)
         case None => Malformed
         case Some(u) =>
           if u < 0xD800 || u >= 0xE000 then Parsed(u as char, s[6..])
           else match ReadUnit(s[6..])
                case None => Malformed
                case Some(l) =>
                  if u < 0xDC00 <= l < 0xE000 then Parsed(JoinSurrogates(u, l) as char, s[12..]) else Malformed
  }

  /** The rest of a string literal behind its opening quote. */
  function ReadString(s: string): (r: Parsed<string>)
    ensures r.Parsed? ==> |r.rest| < |s|
    decreases |s|
  {
    if s != "" && s[0] == '\"' then Parsed("", s[1..])
    else match ReadChar(s)
         case Malformed => Malformed
         case Parsed(c, rest) => Prepend(c, ReadString(rest))
  }

  function Prepend(c: char, p: Parsed<string>): Parsed<string> {
    if p.Malformed? then Malformed else Parsed([c] + p.value, p.rest)
  }

  /** All leading digits. */
  function ReadDigits(s: string, acc: nat): (r: Parsed<nat>)
    ensures r.Parsed? && |r.rest| <= |s|
  {
    if s != "" && '0' <= s[0] <= '9' then ReadDigits(s[1..], acc * 10 + (s[0] as int - '0' as int))
    else Parsed(acc, s)
  }

  /** A natural number without leading zeros. */
  function ReadNatural(s: string): (r: Parsed<nat>)
    ensures r.Parsed? ==> |r.rest| < |s|
  {
    if s == "" || !('0' <= s[0] <= '9') then Malformed
    else if s[0] == '0' then Parsed(0, s[1..])
    else ReadDigits(s[1..], s[0] as int - '0' as int)
  }

  predicate Starts(s: string, prefix: string) { |prefix| <= |s| && s[..|prefix|] == prefix }

  function Minus(n: int): int { -n }

  function ReadValue(s: string): (r: Parsed<Value>)
    ensures r.Parsed? ==> |r.rest| < |s|
  {
    if s == "" then Malformed
    else if s[0] == '\"' then
      (match ReadString(s[1..]) case Malformed => Malformed case Parsed(t, rest) => Parsed(Text(t), rest))
    else if s[0] == '-' then
      (match ReadNatural(s[1..]) case Malformed => Malformed case Parsed(n, rest) => Parsed(Number(Minus(n)), rest))
    else if Starts(s, "true") then Parsed(True, s[4..])
    else if Starts(s, "false") then Parsed(False, s[5..])
    else if Starts(s, "null") then Parsed(Null, s[4..])
    else (match ReadNatural(s) case Malformed => Malformed case Parsed(n, rest) => Parsed(Number(n), rest))
  }

  predicate Blank(c: char) { c in {' ', '\t', '\n', '\r'} }

  function Trim(s: string): (r: string)
    ensures |r| <= |s|
  {
    if s != "" && Blank(s[0]) then Trim(s[1..]) else s
  }

  /** A key, a colon and a value. */
  function ReadMember(s: string): (r: Parsed<Member>)
    ensures r.Parsed? ==> |r.rest| < |s|
  {
    if s == "" || s[0] != '\"' then Malformed
    else match ReadString(s[1..])
         case Malformed => Malformed
         case Parsed(key, rest) =>
           var colon := Trim(rest);
           if colon == "" || colon[0] != ':' then Malformed
           else match ReadValue(Trim(colon[1..]))
                case Malformed => Malformed
                case Parsed(value, more) => Parsed(Member(key, value), more)
  }

  /** Members up to the closing brace; a repeated key takes its last value. */
  function ReadMembers(s: string, acc: Object): (r: Parsed<Object>)
    decreases |s|
  {
    match ReadMember(s)
    case Malformed => Malformed
    case Parsed(m, rest) =>
      var next := Trim(rest);
      if next == "" then Malformed
      else if next[0] == '}' then Parsed(acc[m.key := m.value], next[1..])
      else if next[0] == ',' then ReadMembers(Trim(next[1..]), acc[m.key := m.value])
      else Malformed
  }

  function Load(s: string): Option<Object> {
    var t := Trim(s);
    if t == "" || t[0] != '{' then None
    else
      var body := Trim(t[1..]);
      var r := if body != "" && body[0] == '}' then Parsed(map[], body[1..]) else ReadMembers(body, map[]);
      if r.Malformed? || Trim(r.rest) != "" then None else Some(r.value)
  }

  // ---- The two are inverse

  function Assign(acc: Object, ms: seq<Member>): Object
    decreases |ms|
  {
    if ms == [] then acc else Assign(acc[ms[0].key := ms[0].value], ms[1..])
  }

  lemma HexDigitValue(x: int)
    requires 0 <= x < 16
    ensures HexValue(HexDigit(x)) == Some(x)
  {}

  lemma HexSplit(v: int)
    requires 0 <= v < 0x10000
    ensures Hex4(v / 4096, v / 256 % 16, v / 16 % 16, v % 16) == v
  {
    var a, b := v / 16, v / 256;
    assert b == a / 16 && v / 4096 == b / 16;
  }

  lemma UnitRead(v: int, more: string)
    requires 0 <= v < 0x10000
    ensures ReadUnit(Unit(v) + more) == Some(v) && (Unit(v) + more)[6..] == more
  {
    hide HexDigit, HexValue, Hex4;
    HexSplit(v);
    HexDigitValue(v / 4096);
    HexDigitValue(v / 256 % 16);
    HexDigitValue(v / 16 % 16);
    HexDigitValue(v % 16);
    var s := Unit(v) + more;
    assert s[..6] == Unit(v) && s[0] == '\\' && s[1] == 'u';
    assert s[2] == Unit(v)[2] && s[3] == Unit(v)[3] && s[4] == Unit(v)[4] && s[5] == Unit(v)[5];
  }

  lemma SurrogatesJoin(v: int)
    requires 0x10000 <= v < 0x110000
    ensures JoinSurrogates(HighSurrogate(v), LowSurrogate(v)) == v
  {}

  lemma ShortEscapeRead(c: char)
    ensures ShortEscape(c).Some? ==> ShortEscape(c).value != 'u' && Unescape(ShortEscape(c).value) == Some(c)
  {}

  /** An escaped character is read back whatever follows. */
  lemma EscapedCharRead(c: char, more: string)
    ensures ReadChar(EscapeChar(c) + more) == Parsed(c, more) && EscapeChar(c)[0] != '\"'
  {
    hide ReadUnit, Unit, Unescape, HighSurrogate, LowSurrogate, JoinSurrogates, ShortEscape;
    var v := c as int;
    var s := EscapeChar(c) + more;
    ShortEscapeRead(c);
    if ShortEscape(c).Some? {
      assert s[2..] == more;
    } else if ' ' <= c <= '~' {
      PlainChar(c);
      assert s[1..] == more;
    } else {
      EscapedUnits(c, more);
    }
  }

  lemma PlainChar(c: char)
    ensures ShortEscape(c).None? ==> c != '\"' && c != '\\'
  {}

  lemma EscapedUnits(c: char, more: string)
    requires ShortEscape(c).None? && !(' ' <= c <= '~')
    ensures ReadChar(EscapeChar(c) + more) == Parsed(c, more) && EscapeChar(c)[0] != '\"'
  {
    hide ReadUnit, Unescape, HexDigit;
    var v := c as int;
    var s := EscapeChar(c) + more;
    if v < 0x10000 {
      UnitRead(v, more);
    } else {
      var low := Unit(LowSurrogate(v)) + more;
      assert s == Unit(HighSurrogate(v)) + low;
      UnitRead(HighSurrogate(v), low);
      UnitRead(LowSurrogate(v), more);
      SurrogatesJoin(v);
      assert s[12..] == s[6..][6..];
    }
  }

  lemma {:induction false} EscapedStringRead(t: string, more: string)
    ensures ReadString(Escape(t) + ("\"" + more)) == Parsed(t, more)
  {
    hide ReadChar, EscapeChar;
    var close := "\"" + more;
    if t == "" {
      assert Escape(t) + close == close && close[1..] == more;
    } else {
      var tail := Escape(t[1..]) + close;
      assert Escape(t) + close == EscapeChar(t[0]) + tail;
      EscapedCharRead(t[0], tail);
      EscapedStringRead(t[1..], more);
      assert [t[0]] + t[1..] == t;
    }
  }

  predicate NoDigit(s: string) { s == "" || !('0' <= s[0] <= '9') }

  /** Reading the digits of n from zero gives n. */
  lemma {:induction false} DecimalRead(n: nat, more: string)
    ensures ReadDigits(Decimal(n) + more, 0) == ReadDigits(more, n)
  {
    if n < 10 {
      assert (Decimal(n) + more)[1..] == more;
    } else {
      var tail := [Digit(n % 10)] + more;
      assert Decimal(n) + more == Decimal(n / 10) + tail;
      DecimalRead(n / 10, tail);
      assert tail[1..] == more;
    }
  }

  lemma {:induction false} DecimalLead(n: nat)
    ensures '0' <= Decimal(n)[0] <= '9'
    ensures Decimal(n)[0] == '0' ==> n == 0
  {
    if n >= 10 { DecimalLead(n / 10); }
  }

  lemma NaturalRead(n: nat, more: string)
    requires NoDigit(more)
    ensures ReadNatural(Decimal(n) + more) == Parsed(n, more)
  {
    hide Decimal;
    DecimalLead(n);
    DecimalRead(n, more);
    if n == 0 { assert Decimal(0) == "0" by { ZeroDecimal(); } assert ("0" + more)[1..] == more; }
  }

  lemma ZeroDecimal()
    ensures Decimal(0) == "0"
  {}

  lemma TextRead(t: string, more: string)
    ensures ReadValue(DumpValue(Text(t)) + more) == Parsed(Text(t), more)
    ensures !Blank((DumpValue(Text(t)) + more)[0])
  {
    hide ReadString, ReadNatural, Escape, Starts;
    var s := DumpValue(Text(t)) + more;
    assert s[1..] == Escape(t) + ("\"" + more);
    EscapedStringRead(t, more);
  }

  lemma StartsOtherwise(s: string, prefix: string)
    requires s != "" && prefix != ""
    ensures s[0] != prefix[0] ==> !Starts(s, prefix)
  {
    assert |prefix| <= |s| ==> s[..|prefix|][0] == s[0];
  }

  lemma NumberRead(n: int, more: string)
    requires NoDigit(more)
    ensures ReadValue(DumpValue(Number(n)) + more) == Parsed(Number(n), more)
    ensures !Blank((DumpValue(Number(n)) + more)[0])
  {
    hide ReadString, ReadNatural, Decimal;
    var s := DumpValue(Number(n)) + more;
    if n < 0 {
      assert s[1..] == Decimal(-n) + more;
      NaturalRead(-n, more);
    } else {
      DecimalLead(n);
      NaturalRead(n, more);
      assert s[0] == Decimal(n)[0];
      StartsOtherwise(s, "true");
      StartsOtherwise(s, "false");
      StartsOtherwise(s, "null");
    }
  }

  lemma LiteralRead(v: Value, more: string)
    requires v.True? || v.False? || v.Null?
    ensures ReadValue(DumpValue(v) + more) == Parsed(v, more)
    ensures !Blank((DumpValue(v) + more)[0])
  {
    hide ReadString, ReadNatural;
    var s := DumpValue(v) + more;
    var n := |DumpValue(v)|;
    assert s[..n] == DumpValue(v) && s[n..] == more && s[0] == DumpValue(v)[0];
    StartsOtherwise(s, "true");
    StartsOtherwise(s, "false");
  }

  lemma ValueRead(v: Value, more: string)
    requires NoDigit(more)
    ensures ReadValue(DumpValue(v) + more) == Parsed(v, more)
    ensures !Blank((DumpValue(v) + more)[0])
  {
    hide ReadValue, DumpValue, Blank;
    match v
    case Text(t) => TextRead(t, more);
    case Number(n) => NumberRead(n, more);
    case _ => LiteralRead(v, more);
  }

  /** One written member is read back. */
  lemma MemberRead(m: Member, more: string)
    requires NoDigit(more)
    ensures ReadMember("\"" + (Escape(m.key) + ("\"" + (":" + (DumpValue(m.value) + more))))) == Parsed(m, more)
  {
    hide ReadString, ReadValue, Escape, DumpValue;
    var tail := DumpValue(m.value) + more;
    var body := Escape(m.key) + ("\"" + (":" + tail));
    assert ("\"" + body)[1..] == body;
    EscapedStringRead(m.key, ":" + tail);
    assert (":" + tail)[1..] == tail;
    ValueRead(m.value, more);
  }

  lemma {:induction false} MembersRead(ms: seq<Member>, acc: Object)
    requires ms != []
    ensures ReadMembers(DumpMembers(ms), acc) == Parsed(Assign(acc, ms), "")
    ensures DumpMembers(ms)[0] == '\"'
    decreases |ms|
  {
    hide ReadMember, Escape, DumpValue;
    var tail := if |ms| == 1 then "}" else "," + DumpMembers(ms[1..]);
    MemberRead(ms[0], tail);
    var next := acc[ms[0].key := ms[0].value];
    if |ms| == 1 {
      assert ms[1..] == [];
      assert tail[1..] == "";
    } else {
      assert tail[1..] == DumpMembers(ms[1..]);
      MembersRead(ms[1..], next);
    }
  }

  /** Reading a written object gives the object. */
  lemma LoadInvertsDump(ms: seq<Member>)
    requires ms != []
    ensures Load(Dump(ms)) == Some(Assign(map[], ms))
  {
    hide ReadMembers, DumpMembers, Assign;
    MembersRead(ms, map[]);
    assert Dump(ms)[1..] == DumpMembers(ms);
  }

  // ---- Lengths

  lemma {:induction false} EscapeLength(t: string, most: nat)
    requires forall i :: 0 <= i < |t| ==> |EscapeChar(t[i])| <= most
    ensures |Escape(t)| <= most * |t|
  {
    hide EscapeChar;
    if t != "" { EscapeLength(t[1..], most); }
  }

  lemma {:induction false} DecimalLength(n: nat, m: nat)
    requires n <= m
    ensures |Decimal(n)| <= |Decimal(m)|
  {
    if n >= 10 { DecimalLength(n / 10, m / 10); }
  }

  lemma {:induction false} EscapeAscii(t: string)
    ensures forall i :: 0 <= i < |Escape(t)| ==> Escape(t)[i] <= '~'
  {
    if t != "" { EscapeAscii(t[1..]); }
  }

  lemma {:induction false} DecimalAscii(n: nat)
    ensures forall i :: 0 <= i < |Decimal(n)| ==> Decimal(n)[i] <= '~'
  {
    if n >= 10 { DecimalAscii(n / 10); }
  }

  // ---- Forms that are read but never written

  /** Blanks around the tokens, and a repeated key that takes its last value. */
  lemma {:induction false} BlanksAreSkipped(blanks: string, s: string)
    requires forall i :: 0 <= i < |blanks| ==>
               blanks[i] == ' ' || blanks[i] == '\t' || blanks[i] == '\n' || blanks[i] == '\r'
    ensures Trim(blanks + s) == Trim(s) && Load(blanks + s) == Load(s)
  {
    if blanks == "" {
      assert blanks + s == s;
    } else {
      assert (blanks + s)[1..] == blanks[1..] + s;
      BlanksAreSkipped(blanks[1..], s);
    }
  }

  lemma LastValueWins(key: string, v: Value, w: Value)
    ensures Load(Dump([Member(key, v), Member(key, w)])) == Some(map[key := w])
  {
    var ms := [Member(key, v), Member(key, w)];
    LoadInvertsDump(ms);
    assert ms[1..] == [Member(key, w)] && ms[1..][1..] == [];
    assert Assign(map[], ms) == Assign(map[key := v], ms[1..]) == Assign(map[key := v][key := w], []);
    assert map[key := v][key := w] == map[key := w];
  }

  /** Control characters must be escaped, and numbers have no leading zeros. */
  lemma RefusedForms(c: char, rest: string)
    ensures c < ' ' ==> ReadString([c] + rest) == Malformed
    ensures ReadNatural("0" + rest) == Parsed(0, rest)
  {
    assert ("0" + rest)[1..] == rest;
  }

  /** How some characters are written: plain, by letter, by one unit, by two. */
  lemma KnownEscapes()
    ensures EscapeChar('a') == "a" && EscapeChar('\"') == "\\\"" && EscapeChar('\n') == "\\n"
    ensures EscapeChar('\U{00E9}') == "\\u00e9" && EscapeChar('\U{1F600}') == "\\ud83d\\ude00"
  {
    assert HexDigit(14) == 'e' && HexDigit(13) == 'd';
  }

  lemma KnownDecimals()
    ensures Decimal(0) == "0" && Decimal(120) == "120"
  {
    assert Decimal(12) == Decimal(1) + [Digit(2)];
    assert Decimal(120) == Decimal(12) + [Digit(0)];
  }
}
