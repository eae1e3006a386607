/** UTF-8 (section 3 of RFC 3629) and the strict incremental decoder. A `char` is a Unicode scalar value. */
module Utf8 {
  import opened Basics

  function EncodeChar(c: char): (b: Bytes)
    ensures 1 <= |b| <= 4
  {
    var v := c as int;
    if v < 0x80 then [v]
    else if v < 0x800 then [0xC0 + v / 64, 0x80 + v % 64]
    else if v < 0x10000 then [0xE0 + v / 4096, 0x80 + v / 64 % 64, 0x80 + v % 64]
    else [0xF0 + v / 262144, 0x80 + v / 4096 % 64, 0x80 + v / 64 % 64, 0x80 + v % 64]
  }

  function Encode(text: string): Bytes {
    if text == "" then [] else EncodeChar(text[0]) + Encode(text[1..])
  }

  datatype One = Char(c: char, length: nat) | Incomplete | Invalid

  predicate Continues(b: byte) { 0x80 <= b < 0xC0 }

  /** The second bytes allowed after a three- or four-byte lead: no overlong forms, no surrogates, nothing
      above U+10FFFF. */
  predicate Second(lead: byte, b: byte) {
    && Continues(b)
    && (lead == 0xE0 ==> b >= 0xA0) && (lead == 0xED ==> b < 0xA0)
    && (lead == 0xF0 ==> b >= 0x90) && (lead == 0xF4 ==> b < 0x90)
  }

  /** The value of base-64 digits. */
  function Join2(x: int, y: int): int { x * 64 + y }

  function Join3(x: int, y: int, z: int): int { x * 4096 + y * 64 + z }

  function Join4(x: int, y: int, z: int, u: int): int { x * 262144 + y * 4096 + z * 64 + u }

  lemma Split64(v: int, x: int, u: int)
    requires 0 <= u < 64
    ensures v == x * 64 + u <==> v / 64 == x && v % 64 == u
  {}

  lemma DivTwice(v: int)
    ensures v / 4096 == v / 64 / 64
  {
    var a, b := v / 64, v / 64 / 64;
    assert v == b * 4096 + (a % 64 * 64 + v % 64);
    assert 0 <= a % 64 * 64 + v % 64 < 4096;
  }

  lemma DivThrice(v: int)
    ensures v / 262144 == v / 4096 / 64
  {
    var a, b := v / 4096, v / 4096 / 64;
    assert v == b * 262144 + (a % 64 * 4096 + v % 4096);
    assert 0 <= a % 64 * 4096 + v % 4096 < 262144;
  }

  lemma JoinSplits(v: int, x: int, y: int, z: int, u: int)
    requires 0 <= y < 64 && 0 <= z < 64 && 0 <= u < 64
    ensures v == Join2(x, u) <==> v / 64 == x && v % 64 == u
    ensures v == Join3(x, z, u) <==> v / 4096 == x && v / 64 % 64 == z && v % 64 == u
    ensures v == Join4(x, y, z, u) <==> v / 262144 == x && v / 4096 % 64 == y && v / 64 % 64 == z && v % 64 == u
  {
    DivTwice(v);
    DivThrice(v);
    Split64(v, x, u);
    Split64(v, x * 64 + z, u);
    Split64(v / 64, x, z);
    Split64(v, (x * 64 + y) * 64 + z, u);
    Split64(v / 64, x * 64 + y, z);
    Split64(v / 4096, x, y);
  }

  /** The first character of a buffer, if it is complete; a cut-off but so far correct one is incomplete. */
  function DecodeOne(b: Bytes): (r: One)
    requires b != []
    ensures r.Char? ==> 1 <= r.length <= |b|
  {
    var lead := b[0];
    if lead < 0x80 then Char(lead as char, 1)
    else if lead < 0xC2 || lead > 0xF4 then Invalid
    else if |b| == 1 then Incomplete
    else if !Second(lead, b[1]) then Invalid
    else if lead < 0xE0 then Char(Join2(lead - 0xC0, b[1] - 0x80) as char, 2)
    else if |b| == 2 then Incomplete
    else if !Continues(b[2]) then Invalid
    else if lead < 0xF0 then Char(Join3(lead - 0xE0, b[1] - 0x80, b[2] - 0x80) as char, 3)
    else if |b| == 3 then Incomplete
    else if !Continues(b[3]) then Invalid
    else Char(Join4(lead - 0xF0, b[1] - 0x80, b[2] - 0x80, b[3] - 0x80) as char, 4)
  }

  datatype Drained = Drained(text: string, rest: Bytes) | Malformed

  /** The decoder's work on its buffer: every complete character, leaving a cut-off one in the buffer. */
  function Drain(b: Bytes): Drained
    decreases |b|
  {
    if b == [] then Drained("", [])
    else match DecodeOne(b)
         case Invalid => Malformed
         case Incomplete => Drained("", b)
         case Char(c, n) => Prepend(c, Drain(b[n..]))
  }

  function Prepend(c: char, d: Drained): Drained {
    if d.Malformed? then Malformed else Drained([c] + d.text, d.rest)
  }

  /** A decoded character re-encodes to exactly the bytes it was read from. */
  lemma DecodeOneSound(b: Bytes)
    requires b != [] && DecodeOne(b).Char?
    ensures EncodeChar(DecodeOne(b).c) == b[..DecodeOne(b).length]
  {
    var n := DecodeOne(b).length;
    var v := DecodeOne(b).c as int;
    if n == 2 { JoinSplits(v, b[0] - 0xC0, 0, 0, b[1] - 0x80); }
    if n == 3 { JoinSplits(v, b[0] - 0xE0, 0, b[1] - 0x80, b[2] - 0x80); }
    if n == 4 { JoinSplits(v, b[0] - 0xF0, b[1] - 0x80, b[2] - 0x80, b[3] - 0x80); }
  }

  /** An encoded character is decoded whatever follows. */
  lemma DecodeOneComplete(c: char, rest: Bytes)
    ensures DecodeOne(EncodeChar(c) + rest) == Char(c, |EncodeChar(c)|)
  {
    var v := c as int;
    if 0x80 <= v < 0x800 { JoinSplits(v, v / 64, 0, 0, v % 64); }
    if 0x800 <= v < 0x10000 { JoinSplits(v, v / 4096, 0, v / 64 % 64, v % 64); }
    if v >= 0x10000 { JoinSplits(v, v / 262144, v / 4096 % 64, v / 64 % 64, v % 64); }
  }

  lemma DecodeOneExtends(a: Bytes, b: Bytes)
    requires a != []
    ensures !DecodeOne(a).Incomplete? ==> DecodeOne(a + b) == DecodeOne(a)
  {}

  lemma {:induction false} EncodeConcat(s: string, t: string)
    ensures Encode(s + t) == Encode(s) + Encode(t)
  {
    hide EncodeChar;
    if s == "" {
      assert s + t == t;
    } else {
      assert (s + t)[1..] == s[1..] + t;
      EncodeConcat(s[1..], t);
    }
  }

  lemma {:induction false} EncodeGrows(s: string)
    ensures |Encode(s)| >= |s|
  {
    if s != "" { EncodeGrows(s[1..]); }
  }

  /** What the decoder took out of its buffer encodes to exactly what is gone from it. */
  lemma {:induction false} DrainSound(b: Bytes)
    ensures Drain(b).Drained? ==> b == Encode(Drain(b).text) + Drain(b).rest
    decreases |b|
  {
    hide DecodeOne, EncodeChar;
    if b != [] && DecodeOne(b).Char? {
      var c, n := DecodeOne(b).c, DecodeOne(b).length;
      DecodeOneSound(b);
      DrainSound(b[n..]);
      if Drain(b).Drained? {
        assert Drain(b).text[1..] == Drain(b[n..]).text;
        assert b == b[..n] + b[n..];
      }
    }
  }

  /** Correct UTF-8 is decoded completely. */
  lemma {:induction false} DrainEncode(t: string)
    ensures Drain(Encode(t)) == Drained(t, [])
  {
    hide DecodeOne, EncodeChar;
    if t != "" {
      DecodeOneComplete(t[0], Encode(t[1..]));
      var b := Encode(t);
      assert b[|EncodeChar(t[0])|..] == Encode(t[1..]);
      DrainEncode(t[1..]);
      assert [t[0]] + t[1..] == t;
    }
  }

  function After(text: string, d: Drained): Drained {
    if d.Malformed? then Malformed else Drained(text + d.text, d.rest)
  }

  /** Feeding more bytes continues where the decoder stopped, whatever the chunk boundary; an error stays. */
  lemma {:induction false} DrainMore(a: Bytes, b: Bytes)
    ensures Drain(a + b) == if Drain(a).Malformed? then Malformed else After(Drain(a).text, Drain(Drain(a).rest + b))
    decreases |a|
  {
    hide DecodeOne;
    if a == [] {
      assert a + b == b && Drain(a).rest + b == b;
      AfterEmpty(Drain(b));
    } else {
      DecodeOneExtends(a, b);
      match DecodeOne(a)
      case Invalid =>
      case Incomplete => AfterEmpty(Drain(a + b));
      case Char(c, n) =>
        assert (a + b)[n..] == a[n..] + b;
        DrainMore(a[n..], b);
        if Drain(a[n..]).Drained? { AfterPrepend(c, a[n..], b); }
    }
  }

  lemma AfterEmpty(d: Drained)
    ensures After("", d) == d
  {}

  lemma AfterPrepend(c: char, a: Bytes, b: Bytes)
    requires Drain(a).Drained?
    ensures Prepend(c, After(Drain(a).text, Drain(Drain(a).rest + b)))
         == After([c] + Drain(a).text, Drain(Drain(a).rest + b))
  {
    var d := Drain(Drain(a).rest + b);
    if d.Drained? { assert [c] + (Drain(a).text + d.text) == ([c] + Drain(a).text) + d.text; }
  }

  /** The decoder accepts exactly the encodings, and returns the text that was encoded. */
  lemma DecodesExactlyUtf8(b: Bytes, t: string)
    ensures Drain(b) == Drained(t, []) <==> b == Encode(t)
  {
    DrainEncode(t);
    DrainSound(b);
  }

  /** A prefix on which the decoder failed, or stopped with a cut-off character at the end, is not UTF-8. */
  lemma NotUtf8(seen: Bytes, more: Bytes, t: string)
    requires Drain(seen).Malformed? || (Drain(seen).rest != [] && more == [])
    ensures seen + more != Encode(t)
  {
    DrainMore(seen, more);
    DecodesExactlyUtf8(seen + more, t);
    if more == [] { assert seen + more == seen; }
  }

  /** One character of each length: U+0024, U+00A2, U+20AC and U+10348. */
  lemma KnownEncodings()
    ensures EncodeChar('$') == [0x24] && EncodeChar('\U{00A2}') == [0xC2, 0xA2]
    ensures EncodeChar('\U{20AC}') == [0xE2, 0x82, 0xAC] && EncodeChar('\U{10348}') == [0xF0, 0x90, 0x8D, 0x88]
  {}

  /** The lengths of section 3 of RFC 3629. */
  lemma EncodedLengths(c: char)
    ensures |EncodeChar(c)| == if c as int <= 0x7F then 1
                               else if c as int <= 0x7FF then 2 else if c as int <= 0xFFFF then 3 else 4
  {}
}
