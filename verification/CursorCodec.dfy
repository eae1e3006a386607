/** The signed, stateless read cursor. The keyed MAC is a parameter: any function of the payload bytes. */
module CursorCodec {
  import opened Basics
  import B64 = Base64Url
  import Utf8
  import Json

  datatype Claims = Claims(owner: string, contentId: string, revision: int, offset: int)

  type Mac = Bytes -> Bytes

  const MAX_CURSOR := 2048

  predicate HexLower(c: char) { '0' <= c <= '9' || 'a' <= c <= 'f' }

  predicate IsContentId(s: string) {
    |s| == 36 && s[..4] == "cnt_" && forall i :: 4 <= i < 36 ==> HexLower(s[i])
  }

  /** The claims that decoding lets through. */
  predicate Acceptable(c: Claims) {
    1 <= |c.owner| <= 128 && c.revision >= 1 && c.offset >= 0 && IsContentId(c.contentId)
  }

  function Members(c: Claims): (ms: seq<Json.Member>)
    ensures |ms| == 5
  {
    [Json.Member("b", Json.Number(c.offset)),
     Json.Member("c", Json.Text(c.contentId)),
     Json.Member("o", Json.Text(c.owner)),
     Json.Member("r", Json.Number(c.revision)),
     Json.Member("v", Json.Number(1))]
  }

  function Payload(c: Claims): Bytes { Utf8.Encode(Json.Dump(Members(c))) }

  function Signed(mac: Mac, payload: Bytes): string { B64.Encode(payload) + "." + B64.Encode(mac(payload)) }

  function Encode(mac: Mac, c: Claims): string { Signed(mac, Payload(c)) }

  /** The claims of a payload whose signature was already checked. A version of `true` equals one. */
  function ReadClaims(payload: Bytes): Option<Claims> {
    match Utf8.Drain(payload)
    case Malformed => None
    case Drained(text, rest) =>
      if rest != [] then None
      else match Json.Load(text)
           case None => None
           case Some(o) => FromObject(o)
  }

  function FromObject(o: Json.Object): Option<Claims> {
    if o.Keys != {"b", "c", "o", "r", "v"} then None
    else if o["v"] != Json.Number(1) && o["v"] != Json.True then None
    else if !o["o"].Text? || !o["r"].Number? || !o["b"].Number? || !o["c"].Text? then None
    else
      var c := Claims(o["o"].text, o["c"].text, o["r"].n, o["b"].n);
      if Acceptable(c) then Some(c) else None
  }

  datatype CursorError = BadLength | BadForm | BadSignature | BadClaims

  function Decode(mac: Mac, cursor: string): Result<Claims, CursorError> {
    if cursor == "" || |cursor| > MAX_CURSOR then Err(BadLength)
    else
      var dot := B64.Find(cursor, '.');
      if dot == |cursor| then Err(BadForm)
      else match (B64.Decode(cursor[..dot]), B64.Decode(cursor[dot + 1..]))
           case (Some(payload), Some(signature)) =>
             if signature != mac(payload) then Err(BadSignature)
             else (match ReadClaims(payload) case None => Err(BadClaims) case Some(c) => Ok(c))
           case _ => Err(BadForm)
  }

  lemma SignedSplits(mac: Mac, payload: Bytes)
    ensures var s := Signed(mac, payload);
            var dot := B64.Find(s, '.');
            dot < |s| && s[..dot] == B64.Encode(payload) && s[dot + 1..] == B64.Encode(mac(payload))
  {
    hide B64.Encode, B64.Find;
    B64.EncodedSymbols(payload);
    B64.FindAt(Signed(mac, payload), '.', |B64.Encode(payload)|);
  }

  /** A cursor is accepted exactly when it fits and is the one signed form of a payload with these claims: any
      change to the text of an accepted cursor is a change of its payload under a matching signature. */
  lemma AcceptsExactlySigned(mac: Mac, cursor: string, c: Claims)
    ensures Decode(mac, cursor) == Ok(c)
       <==> |cursor| <= 2048
            && exists p :: cursor == B64.Encode(p) + "." + B64.Encode(mac(p)) && ReadClaims(p) == Some(c)
  {
    hide B64.Encode, B64.Decode, B64.Find, ReadClaims;
    if Decode(mac, cursor) == Ok(c) {
      var dot := B64.Find(cursor, '.');
      var p, sig := B64.Decode(cursor[..dot]).value, B64.Decode(cursor[dot + 1..]).value;
      B64.DecodesExactlyEncodings(cursor[..dot], p);
      B64.DecodesExactlyEncodings(cursor[dot + 1..], sig);
      assert cursor == cursor[..dot] + "." + cursor[dot + 1..];
      assert cursor == Signed(mac, p);
    }
    forall p | cursor == B64.Encode(p) + "." + B64.Encode(mac(p)) && ReadClaims(p) == Some(c) && |cursor| <= 2048
      ensures Decode(mac, cursor) == Ok(c)
    {
      SignedSplits(mac, p);
      B64.DecodesExactlyEncodings(B64.Encode(p), p);
      B64.DecodesExactlyEncodings(B64.Encode(mac(p)), mac(p));
    }
  }

  /** The claims that are let through, and from which objects they are read. */
  lemma ClaimsMean(o: Json.Object, c: Claims)
    ensures FromObject(o) == Some(c) <==>
      && o.Keys == {"b", "c", "o", "r", "v"} && (o["v"] == Json.Number(1) || o["v"] == Json.True)
      && o["b"] == Json.Number(c.offset) && o["c"] == Json.Text(c.contentId)
      && o["o"] == Json.Text(c.owner) && o["r"] == Json.Number(c.revision)
      && 1 <= |c.owner| <= 128 && c.revision >= 1 && c.offset >= 0
      && |c.contentId| == 36 && c.contentId[..4] == "cnt_"
      && (forall i :: 4 <= i < 36 ==> '0' <= c.contentId[i] <= '9' || 'a' <= c.contentId[i] <= 'f')
  {}

  /** A payload under any other signature is refused as tampered with. */
  lemma WrongSignatureIsRefused(mac: Mac, payload: Bytes, signature: Bytes)
    requires signature != mac(payload)
    ensures var cursor := B64.Encode(payload) + "." + B64.Encode(signature);
            Decode(mac, cursor) == if |cursor| > 2048 then Err(BadLength) else Err(BadSignature)
  {
    hide B64.Encode, B64.Decode, B64.Find;
    var other: Mac := _ => signature;
    SignedSplits(other, payload);
    B64.DecodesExactlyEncodings(B64.Encode(payload), payload);
    B64.DecodesExactlyEncodings(B64.Encode(signature), signature);
  }

  lemma NoDotIsRefused(mac: Mac, cursor: string)
    requires forall i :: 0 <= i < |cursor| ==> cursor[i] != '.'
    ensures Decode(mac, cursor) == if 1 <= |cursor| <= 2048 then Err(BadForm) else Err(BadLength)
  {}

  lemma SignedInjective(mac: Mac, p: Bytes, q: Bytes)
    requires Signed(mac, p) == Signed(mac, q)
    ensures p == q
  {
    hide B64.Encode, B64.Decode, B64.Find;
    SignedSplits(mac, p);
    SignedSplits(mac, q);
    B64.DecodesExactlyEncodings(B64.Encode(p), p);
    B64.DecodesExactlyEncodings(B64.Encode(p), q);
  }

  lemma ObjectOfClaims(c: Claims)
    ensures FromObject(Json.Assign(map[], Members(c))) == if Acceptable(c) then Some(c) else None
  {
    hide Acceptable;
    var ms := Members(c);
    assert ms[1..][1..] == ms[2..] && ms[2..][1..] == ms[3..] && ms[3..][1..] == ms[4..] && ms[4..][1..] == [];
    var o1: Json.Object := map["b" := Json.Number(c.offset)];
    var o2 := o1["c" := Json.Text(c.contentId)];
    var o3 := o2["o" := Json.Text(c.owner)];
    var o4 := o3["r" := Json.Number(c.revision)];
    var o := o4["v" := Json.Number(1)];
    assert Json.Assign(map[], ms) == Json.Assign(o1, ms[1..]) == Json.Assign(o2, ms[2..]);
    assert Json.Assign(o2, ms[2..]) == Json.Assign(o3, ms[3..]) == Json.Assign(o4, ms[4..]) == Json.Assign(o, []) == o;
    assert o.Keys == {"b", "c", "o", "r", "v"};
  }

  lemma PayloadRead(c: Claims)
    ensures ReadClaims(Payload(c)) == if Acceptable(c) then Some(c) else None
  {
    hide Utf8.Encode, Utf8.Drain, Json.Dump, Json.Load, FromObject, Members;
    Utf8.DrainEncode(Json.Dump(Members(c)));
    Json.LoadInvertsDump(Members(c));
    ObjectOfClaims(c);
  }

  /** Decoding inverts encoding exactly for acceptable claims whose cursor fits. */
  lemma DecodeInvertsEncode(mac: Mac, c: Claims)
    ensures Decode(mac, Encode(mac, c)) == Ok(c) <==> Acceptable(c) && |Encode(mac, c)| <= 2048
  {
    hide Decode, Payload, ReadClaims, Acceptable, B64.Encode;
    PayloadRead(c);
    AcceptsExactlySigned(mac, Encode(mac, c), c);
    assert Encode(mac, c) == B64.Encode(Payload(c)) + "." + B64.Encode(mac(Payload(c)));
    forall p | Encode(mac, c) == B64.Encode(p) + "." + B64.Encode(mac(p)) ensures p == Payload(c) {
      SignedInjective(mac, p, Payload(c));
    }
  }

  // ---- Which cursors fit

  predicate Ascii(s: string) { forall i :: 0 <= i < |s| ==> s[i] <= '~' }

  lemma {:induction false} AsciiLength(s: string)
    requires Ascii(s)
    ensures |Utf8.Encode(s)| == |s|
  {
    if s != "" { AsciiLength(s[1..]); }
  }

  lemma {:induction false} HexEscape(s: string)
    requires forall i :: 0 <= i < |s| ==> HexLower(s[i]) || s[i] in "cnt_"
    ensures Json.Escape(s) == s
  {
    if s != "" {
      HexEscape(s[1..]);
      assert Json.EscapeChar(s[0]) == [s[0]];
    }
  }

  lemma ContentIdEscape(s: string)
    requires IsContentId(s)
    ensures Json.Escape(s) == s
  {
    forall i | 0 <= i < |s| ensures HexLower(s[i]) || s[i] in "cnt_" {
      if i < 4 { assert s[i] == s[..4][i]; }
    }
    HexEscape(s);
  }

  lemma KeyEscape(c: char)
    requires 'a' <= c <= 'z'
    ensures |Json.Escape([c])| == 1
  {
    assert [c][1..] == "";
  }

  lemma {:induction false} MembersAscii(ms: seq<Json.Member>)
    requires ms != []
    ensures Ascii(Json.DumpMembers(ms))
    decreases |ms|
  {
    hide Json.Escape, Json.DumpValue;
    Json.EscapeAscii(ms[0].key);
    ValueAscii(ms[0].value);
    if |ms| > 1 { MembersAscii(ms[1..]); }
  }

  lemma ValueAscii(v: Json.Value)
    ensures Ascii(Json.DumpValue(v))
  {
    hide Json.Escape, Json.Decimal;
    match v
    case Text(t) => Json.EscapeAscii(t);
    case Number(n) => Json.DecimalAscii(if n < 0 then -n else n);
    case _ =>
  }

  /** Every member costs its quotes, a colon and a comma or brace. */
  lemma MembersLength(ms: seq<Json.Member>)
    requires ms != []
    ensures |Json.DumpMembers(ms)| == |Json.Escape(ms[0].key)| + |Json.DumpValue(ms[0].value)| + 4
                                      + (if |ms| == 1 then 0 else |Json.DumpMembers(ms[1..])|)
  {
    hide Json.Escape, Json.DumpValue;
  }

  /** The payload, spelled out. */
  lemma PayloadSpelled(c: Claims)
    requires Acceptable(c)
    ensures Json.Dump(Members(c))
         == "{\"b\":" + Json.Decimal(c.offset) + ",\"c\":\"" + c.contentId + "\",\"o\":\"" + Json.Escape(c.owner)
            + "\",\"r\":" + Json.Decimal(c.revision) + ",\"v\":1}"
  {
    hide Json.Escape, Json.Decimal, Json.DumpMembers, Json.DumpValue;
    var ms := Members(c);
    ContentIdEscape(c.contentId);
    assert ms[1..][1..] == ms[2..] && ms[2..][1..] == ms[3..] && ms[3..][1..] == ms[4..];
    MemberSpelled(ms, "b");
    MemberSpelled(ms[1..], "c");
    MemberSpelled(ms[2..], "o");
    MemberSpelled(ms[3..], "r");
    MemberSpelled(ms[4..], "v");
    ValuesSpelled(c);
    Joined(Json.Decimal(c.offset), c.contentId, Json.Escape(c.owner), Json.Decimal(c.revision));
  }

  lemma ValuesSpelled(c: Claims)
    requires c.offset >= 0 && c.revision >= 0
    ensures Json.DumpValue(Json.Number(c.offset)) == Json.Decimal(c.offset)
    ensures Json.DumpValue(Json.Text(c.contentId)) == "\"" + (Json.Escape(c.contentId) + "\"")
    ensures Json.DumpValue(Json.Text(c.owner)) == "\"" + (Json.Escape(c.owner) + "\"")
    ensures Json.DumpValue(Json.Number(c.revision)) == Json.Decimal(c.revision)
    ensures Json.DumpValue(Json.Number(1)) == "1"
  {}

  lemma MemberSpelled(ms: seq<Json.Member>, key: string)
    requires ms != [] && ms[0].key == key && |key| == 1 && 'a' <= key[0] <= 'z'
    ensures Json.DumpMembers(ms)
         == "\"" + (key + ("\":" + (Json.DumpValue(ms[0].value)
            + (if |ms| == 1 then "}" else "," + Json.DumpMembers(ms[1..])))))
  {
    hide Json.Escape, Json.DumpValue, Json.DumpMembers;
    KeyUnescaped(key);
    MemberDump(ms);
    var v := Json.DumpValue(ms[0].value) + (if |ms| == 1 then "}" else "," + Json.DumpMembers(ms[1..]));
    assert "\"" + (":" + v) == "\":" + v;
  }

  lemma MemberDump(ms: seq<Json.Member>)
    requires ms != []
    ensures Json.DumpMembers(ms)
         == "\"" + (Json.Escape(ms[0].key) + ("\"" + (":" + (Json.DumpValue(ms[0].value)
            + (if |ms| == 1 then "}" else "," + Json.DumpMembers(ms[1..]))))))
  {
    hide Json.Escape, Json.DumpValue;
  }

  lemma KeyUnescaped(key: string)
    requires |key| == 1 && 'a' <= key[0] <= 'z'
    ensures Json.Escape(key) == key
  {
    assert key[1..] == "";
  }

  lemma Joined(b: string, i: string, o: string, r: string)
    ensures "{" + ("\"" + ("b" + ("\":" + (b + ("," + ("\"" + ("c" + ("\":" + (("\"" + (i + "\"")) + ("," + ("\"" + ("o"
            + ("\":" + (("\"" + (o + "\"")) + ("," + ("\"" + ("r" + ("\":" + (r + ("," + ("\"" + ("v"
            + ("\":" + ("1" + "}"))))))))))))))))))))))))
         == "{\"b\":" + b + ",\"c\":\"" + i + "\",\"o\":\"" + o + "\",\"r\":" + r + ",\"v\":1}"
  {}

  /** The characters of the payload that depend on the claims, apart from the content id. */
  function Variable(owner: string, revision: nat, offset: nat): nat {
    |Json.Escape(owner)| + |Json.Decimal(revision)| + |Json.Decimal(offset)|
  }

  lemma PayloadLength(c: Claims)
    requires Acceptable(c)
    ensures |Payload(c)| == 67 + Variable(c.owner, c.revision, c.offset)
  {
    hide Json.Escape, Json.Decimal, Json.DumpMembers, Utf8.Encode;
    var ms := Members(c);
    MembersAscii(ms);
    AsciiLength(Json.Dump(ms));
    ContentIdEscape(c.contentId);
    assert ms[1..][1..] == ms[2..] && ms[2..][1..] == ms[3..] && ms[3..][1..] == ms[4..];
    MembersLength(ms);
    MembersLength(ms[1..]);
    MembersLength(ms[2..]);
    MembersLength(ms[3..]);
    MembersLength(ms[4..]);
    KeyEscape('b');
    KeyEscape('c');
    KeyEscape('o');
    KeyEscape('r');
    KeyEscape('v');
    OneDigit();
  }

  lemma OneDigit()
    ensures |Json.Decimal(1)| == 1
  {}

  /** With a 32-byte MAC the round trip holds exactly when the escaped owner and the two numbers together have
      at most 1436 characters. */
  lemma RoundTripExactly(mac: Mac, c: Claims)
    requires Acceptable(c) && |mac(Payload(c))| == 32
    ensures Decode(mac, Encode(mac, c)) == Ok(c) <==> Variable(c.owner, c.revision, c.offset) <= 1436
  {
    hide Decode, Payload, Acceptable, Variable, B64.Encode;
    DecodeInvertsEncode(mac, c);
    PayloadLength(c);
    B64.EncodedLength(Payload(c));
    B64.EncodedLength(mac(Payload(c)));
  }

  /** Characters that take at most one \uXXXX escape. */
  predicate BasicPlane(owner: string) { forall i :: 0 <= i < |owner| ==> owner[i] as int < 0x10000 }

  /** Every acceptable claim of an owner without supplementary characters, with database-sized numbers, survives
      the round trip; the configured owner alphabet is far inside. */
  lemma RoundTrip(mac: Mac, c: Claims)
    requires Acceptable(c) && |mac(Payload(c))| == 32
    requires BasicPlane(c.owner) && c.revision < 0x8000_0000_0000_0000 && c.offset < 0x8000_0000_0000_0000
    ensures Decode(mac, Encode(mac, c)) == Ok(c)
  {
    hide Decode, Payload, Json.Escape, Json.Decimal, Json.EscapeChar;
    RoundTripExactly(mac, c);
    Json.DecimalLength(c.revision, 0x8000_0000_0000_0000);
    Json.DecimalLength(c.offset, 0x8000_0000_0000_0000);
    BigDecimal();
    forall i | 0 <= i < |c.owner| ensures |Json.EscapeChar(c.owner[i])| <= 6 { OneEscape(c.owner[i]); }
    Json.EscapeLength(c.owner, 6);
  }

  lemma OneEscape(c: char)
    requires c as int < 0x10000
    ensures |Json.EscapeChar(c)| <= 6
  {}

  lemma BigDecimal()
    ensures |Json.Decimal(0x8000_0000_0000_0000)| == 19
  {
    assert Power10(6) == 1000000;
    PowersMultiply(6, 6);
    PowersMultiply(12, 6);
    DigitCount(0x8000_0000_0000_0000, 18);
  }

  lemma {:induction false} PowersMultiply(a: nat, b: nat)
    ensures Power10(a + b) == Power10(a) * Power10(b)
  {
    if b > 0 { PowersMultiply(a, b - 1); }
  }

  lemma {:induction false} DigitCount(n: nat, k: nat)
    requires Power10(k) <= n < Power10(k + 1)
    ensures |Json.Decimal(n)| == k + 1
  {
    if k > 0 { DigitCount(n / 10, k - 1); }
  }

  function Power10(k: nat): (p: nat)
    ensures p >= 1
  {
    if k == 0 then 1 else 10 * Power10(k - 1)
  }

  /** An owner of 128 supplementary characters is acceptable, but its cursors are refused. */
  lemma SupplementaryOwnerDoesNotFit(mac: Mac, c: Claims)
    requires Acceptable(c) && |mac(Payload(c))| == 32
    requires |c.owner| == 128 && forall i :: 0 <= i < 128 ==> c.owner[i] as int >= 0x10000
    ensures Decode(mac, Encode(mac, c)) == Err(BadLength)
  {
    hide Payload, Json.Escape, Json.Decimal, B64.Encode;
    PayloadLength(c);
    B64.EncodedLength(Payload(c));
    B64.EncodedLength(mac(Payload(c)));
    SupplementaryEscape(c.owner);
  }

  lemma {:induction false} SupplementaryEscape(t: string)
    requires forall i :: 0 <= i < |t| ==> t[i] as int >= 0x10000
    ensures |Json.Escape(t)| == 12 * |t|
  {
    if t != "" { SupplementaryEscape(t[1..]); }
  }
}
