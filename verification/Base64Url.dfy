/** Unpadded base64url (sections 5 and 3.5 of RFC 4648), with a lenient decoder made canonical by re-encoding. */
module Base64Url {
  import opened Basics

  type sextet = x: int | 0 <= x < 64

  function Symbol(x: sextet): char {
    if x < 26 then ('A' as int + x) as char
    else if x < 52 then ('a' as int + (x - 26)) as char
    else if x < 62 then ('0' as int + (x - 52)) as char
    else if x == 62 then '-'
    else '_'
  }

  /** The alphabet of table 2 of RFC 4648: capitals, small letters, digits, minus and underline. */
  lemma SymbolTable(x: sextet)
    ensures Symbol(0) == 'A' && Symbol(25) == 'Z' && Symbol(26) == 'a' && Symbol(51) == 'z' && Symbol(52) == '0'
    ensures Symbol(61) == '9' && Symbol(62) == '-' && Symbol(63) == '_'
    ensures x !in {25, 51, 61, 62, 63} ==> Symbol(x + 1) as int == Symbol(x) as int + 1
  {}

  /** The value of a symbol of either base64 alphabet. */
  function Value(c: char): Option<sextet> {
    if 'A' <= c <= 'Z' then Some(c as int - 'A' as int)
    else if 'a' <= c <= 'z' then Some(c as int - 'a' as int + 26)
    else if '0' <= c <= '9' then Some(c as int - '0' as int + 52)
    else if c == '-' || c == '+' then Some(62)
    else if c == '_' || c == '/' then Some(63)
    else None
  }

  lemma SymbolValue(x: sextet)
    ensures Value(Symbol(x)) == Some(x) && Symbol(x) != '=' && Symbol(x) != '.'
  {}

  /** The four six-bit groups of three bytes. */
  function Group1(a: byte): sextet { a / 4 }

  function Group2(a: byte, b: byte): sextet { a % 4 * 16 + b / 16 }

  function Group3(b: byte, c: byte): sextet { b % 16 * 4 + c / 64 }

  function Group4(c: byte): sextet { c % 64 }

  /** Bytes to six-bit groups; a final partial group is filled with zero bits. */
  function Sextets(b: Bytes): seq<sextet> {
    if |b| == 0 then []
    else if |b| == 1 then [Group1(b[0]), Group2(b[0], 0)]
    else if |b| == 2 then [Group1(b[0]), Group2(b[0], b[1]), Group3(b[1], 0)]
    else [Group1(b[0]), Group2(b[0], b[1]), Group3(b[1], b[2]), Group4(b[2])] + Sextets(b[3..])
  }

  /** The three bytes of four six-bit groups. */
  function First(x: int, y: int): int { x * 4 + y / 16 }

  function Second(y: int, z: int): int { y % 16 * 16 + z / 4 }

  function Third(z: int, u: int): int { z % 4 * 64 + u }

  /** Six-bit groups to bytes; bits beyond the last whole byte are dropped. */
  function Octets(s: seq<sextet>): Option<Bytes> {
    if |s| == 0 then Some([])
    else if |s| == 1 then None
    else if |s| == 2 then Some([First(s[0], s[1])])
    else if |s| == 3 then Some([First(s[0], s[1]), Second(s[1], s[2])])
    else match Octets(s[4..])
         case None => None
         case Some(rest) => Some([First(s[0], s[1]), Second(s[1], s[2]), Third(s[2], s[3])] + rest)
  }

  function Symbols(s: seq<sextet>): (r: string)
    ensures |r| == |s| && forall i :: 0 <= i < |s| ==> r[i] == Symbol(s[i])
  {
    if s == [] then "" else [Symbol(s[0])] + Symbols(s[1..])
  }

  function Values(s: string): Option<seq<sextet>> {
    if s == "" then Some([])
    else if Value(s[0]).None? || Values(s[1..]).None? then None
    else Some([Value(s[0]).value] + Values(s[1..]).value)
  }

  /** _encode */
  function Encode(b: Bytes): string { Symbols(Sextets(b)) }

  /** The position of the first occurrence of a character, or the length. */
  function Find(s: string, c: char): (n: nat)
    ensures n <= |s| && (forall i :: 0 <= i < n ==> s[i] != c) && (n < |s| ==> s[n] == c)
  {
    if s == "" || s[0] == c then 0 else 1 + Find(s[1..], c)
  }

  /** Strict decoding of padded base64: only alphabet characters, then exactly the padding that completes the
      last group. */
  function StrictDecode(s: string): Option<Bytes> {
    var n := Find(s, '=');
    if |s| % 4 != 0 || |s| - n > 2 || (exists i :: n <= i < |s| && s[i] != '=') then None
    else match Values(s[..n])
         case None => None
         case Some(v) => Octets(v)
  }

  function Padding(n: nat): string {
    match n % 4
    case 0 => ""
    case 1 => "==="
    case 2 => "=="
    case _ => "="
  }

  /** _decode */
  function Decode(value: string): Option<Bytes> {
    match StrictDecode(value + Padding(|value|))
    case None => None
    case Some(b) => if Encode(b) == value then Some(b) else None
  }

  lemma GroupsOfBytes(a: byte, b: byte, c: byte)
    ensures First(Group1(a), Group2(a, b)) == a
    ensures Second(Group2(a, b), Group3(b, c)) == b
    ensures Third(Group3(b, c), Group4(c)) == c
  {
    assert Group2(a, b) / 16 == a % 4 && Group2(a, b) % 16 == b / 16;
    assert Group3(b, c) / 4 == b % 16 && Group3(b, c) % 4 == c / 64;
  }

  lemma {:induction false} OctetsOfSextets(b: Bytes)
    ensures Octets(Sextets(b)) == Some(b)
  {
    hide First, Second, Third, Group1, Group2, Group3, Group4;
    if |b| == 1 {
      GroupsOfBytes(b[0], 0, 0);
      assert b == [b[0]];
    } else if |b| == 2 {
      GroupsOfBytes(b[0], b[1], 0);
      assert b == [b[0], b[1]];
    } else if |b| >= 3 {
      GroupsOfBytes(b[0], b[1], b[2]);
      OctetsOfSextets(b[3..]);
      assert Sextets(b)[4..] == Sextets(b[3..]);
      assert b == [b[0], b[1], b[2]] + b[3..];
    }
  }

  lemma {:induction false} ValuesOfSymbols(s: seq<sextet>)
    ensures Values(Symbols(s)) == Some(s)
  {
    if s != [] {
      SymbolValue(s[0]);
      ValuesOfSymbols(s[1..]);
      assert Symbols(s)[1..] == Symbols(s[1..]);
      assert s == [s[0]] + s[1..];
    }
  }

  lemma {:induction false} EncodedLength(b: Bytes)
    ensures |Encode(b)| == (4 * |b| + 2) / 3 && |Encode(b)| % 4 != 1
  {
    if |b| >= 3 { EncodedLength(b[3..]); }
  }

  lemma EncodedSymbols(b: Bytes)
    ensures forall i :: 0 <= i < |Encode(b)| ==> Encode(b)[i] != '=' && Encode(b)[i] != '.'
  {
    forall i | 0 <= i < |Encode(b)| ensures Encode(b)[i] != '=' && Encode(b)[i] != '.' { SymbolValue(Sextets(b)[i]); }
  }

  /** Only that alphabet is used. */
  lemma EncodedAlphabet(b: Bytes)
    ensures forall i :: 0 <= i < |Encode(b)| ==>
              var c := Encode(b)[i]; 'A' <= c <= 'Z' || 'a' <= c <= 'z' || '0' <= c <= '9' || c == '-' || c == '_'
  {}

  /** Vectors of section 10 of RFC 4648, without padding, and one with both symbols of the safe alphabet. */
  lemma KnownEncodings()
    ensures Encode([102]) == "Zg" && Encode([102, 111]) == "Zm8" && Encode([102, 111, 111]) == "Zm9v"
    ensures Encode([251, 255, 191]) == "-_-_"
  {
    assert [102, 111, 111][3..] == [] && [251, 255, 191][3..] == [];
    assert Sextets([102]) == [25, 32];
    assert Sextets([102, 111]) == [25, 38, 60];
    assert Sextets([102, 111, 111]) == [25, 38, 61, 47];
    assert Sextets([251, 255, 191]) == [62, 63, 62, 63];
    Spelled2(25, 32);
    Spelled3(25, 38, 60);
    Spelled4(25, 38, 61, 47);
    Spelled4(62, 63, 62, 63);
  }

  lemma Spelled2(a: sextet, b: sextet)
    ensures Symbols([a, b]) == [Symbol(a), Symbol(b)]
  {}

  lemma Spelled3(a: sextet, b: sextet, c: sextet)
    ensures Symbols([a, b, c]) == [Symbol(a), Symbol(b), Symbol(c)]
  {}

  lemma Spelled4(a: sextet, b: sextet, c: sextet, d: sextet)
    ensures Symbols([a, b, c, d]) == [Symbol(a), Symbol(b), Symbol(c), Symbol(d)]
  {}

  lemma FindPadded(e: string)
    requires |e| % 4 != 1 && forall i :: 0 <= i < |e| ==> e[i] != '='
    ensures var s := e + Padding(|e|);
            && Find(s, '=') == |e| && |s| % 4 == 0 && |s| - |e| <= 2 && forall i :: |e| <= i < |s| ==> s[i] == '='
  {
    var s := e + Padding(|e|);
    FindAt(s, '=', |e|);
  }

  lemma {:induction false} FindAt(s: string, c: char, k: nat)
    requires k <= |s| && (forall i :: 0 <= i < k ==> s[i] != c) && (k < |s| ==> s[k] == c)
    ensures Find(s, c) == k
  {
    if k > 0 { FindAt(s[1..], c, k - 1); }
  }

  lemma StrictDecodesEncoded(b: Bytes)
    ensures StrictDecode(Encode(b) + Padding(|Encode(b)|)) == Some(b)
  {
    hide Encode, Find, Padding, Values, Octets, Symbols, Sextets;
    EncodedLength(b);
    EncodedSymbols(b);
    FindPadded(Encode(b));
    assert (Encode(b) + Padding(|Encode(b)|))[..|Encode(b)|] == Encode(b);
    EncodeValues(b);
  }

  lemma EncodeValues(b: Bytes)
    ensures Values(Encode(b)).Some? && Octets(Values(Encode(b)).value) == Some(b)
  {
    ValuesOfSymbols(Sextets(b));
    OctetsOfSextets(b);
  }

  /** Decoding accepts a string exactly when it is the encoding of some bytes, and then returns those bytes. */
  lemma DecodesExactlyEncodings(value: string, b: Bytes)
    ensures Decode(value) == Some(b) <==> value == Encode(b)
  {
    StrictDecodesEncoded(b);
  }
}
