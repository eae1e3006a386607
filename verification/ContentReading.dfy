/** Reading text content page by page, with signed cursors between the pages. */
module ContentReading {
  import opened Basics
  import opened ContentPaging
  import opened CursorCodec
  import Utf8

  /** The caller's principal and the loaded row. */
  datatype Subject = Subject(owner: string, contentId: string, revision: int)

  datatype Failure = PageSizeOutOfRange | CursorRefused | CursorElsewhere | CursorBeyondEnd | TextNotUtf8

  datatype View = View(text: string, next: Option<string>)

  function ClaimsAt(who: Subject, offset: int): Claims { Claims(who.owner, who.contentId, who.revision, offset) }

  /** The offset a cursor grants this caller on this revision. */
  function StartOffset(mac: Mac, who: Subject, cursor: Option<string>): Result<int, Failure> {
    match cursor
    case None => Ok(0)
    case Some(s) =>
      match Decode(mac, s)
      case Err(_) => Err(CursorRefused)
      case Ok(c) => if c == ClaimsAt(who, c.offset) then Ok(c.offset) else Err(CursorElsewhere)
  }

  function Answer(mac: Mac, who: Subject, page: Result<Page, ReadError>): Result<View, Failure> {
    match page
    case Err(OffsetBeyondEnd) => Err(CursorBeyondEnd)
    case Err(NotValidUtf8) => Err(TextNotUtf8)
    case Ok(Page(text, None)) => Ok(View(text, None))
    case Ok(Page(text, Some(next))) => Ok(View(text, Some(Encode(mac, ClaimsAt(who, next)))))
  }

  /** What a read owes its caller, whatever chunks the store streams. */
  ghost predicate Outcome(mac: Mac, who: Subject, data: Bytes, maxChars: int, cursor: Option<string>,
                          r: Result<View, Failure>) {
    if !(1 <= maxChars <= 30000) then r == Err(PageSizeOutOfRange)
    else match StartOffset(mac, who, cursor)
         case Err(e) => r == Err(e)
         case Ok(offset) =>
           offset >= 0 && exists page :: PageOf(data, offset, maxChars, page) && r == Answer(mac, who, page)
  }

  lemma OffsetsAreNatural(mac: Mac, who: Subject, cursor: Option<string>)
    ensures StartOffset(mac, who, cursor).Ok? ==> StartOffset(mac, who, cursor).value >= 0
  {}

  method Read(mac: Mac, who: Subject, chunks: seq<Bytes>, maxChars: int, cursor: Option<string>)
    returns (r: Result<View, Failure>)
    ensures Outcome(mac, who, Concat(chunks), maxChars, cursor, r)
    // the refusals, in order, and with every comparison
    ensures r == Err(PageSizeOutOfRange) <==> maxChars < 1 || maxChars > 30000
    ensures 1 <= maxChars <= 30000 ==>
      && (r == Err(CursorRefused) <==> cursor.Some? && Decode(mac, cursor.value).Err?)
      && (r == Err(CursorElsewhere) <==>
            && cursor.Some? && Decode(mac, cursor.value).Ok?
            && var c := Decode(mac, cursor.value).value;
               c.owner != who.owner || c.contentId != who.contentId || c.revision != who.revision)
    ensures r == Err(CursorBeyondEnd) ==>
      cursor.Some? && Decode(mac, cursor.value).Ok? && Decode(mac, cursor.value).value.offset > |Concat(chunks)|
  {
    hide PageOf, Decode, Concat;
    if !(1 <= maxChars <= 30000) {
      return Err(PageSizeOutOfRange);
    }
    OffsetsAreNatural(mac, who, cursor);
    var offset := 0;
    if cursor.Some? {
      if |cursor.value| > MAX_CURSOR {
        LongCursor(mac, cursor.value);
        return Err(CursorRefused);
      }
      var claims := Decode(mac, cursor.value);
      if claims.Err? {
        return Err(CursorRefused);
      }
      if claims.value.owner != who.owner || claims.value.contentId != who.contentId
         || claims.value.revision != who.revision {
        return Err(CursorElsewhere);
      }
      offset := claims.value.offset;
    }
    var page := ReadUtf8Chunk(chunks, offset, maxChars);
    PageErrors(Concat(chunks), offset, maxChars, page);
    r := Answer(mac, who, page);
  }

  /** Which reads fail for which reason. */
  lemma PageErrors(data: Bytes, offset: nat, maxChars: nat, page: Result<Page, ReadError>)
    requires PageOf(data, offset, maxChars, page)
    ensures page == Err(OffsetBeyondEnd) <==> offset > |data|
    ensures page == Err(NotValidUtf8) ==> offset <= |data| && forall t :: data[offset..] != Utf8.Encode(t)
    ensures page == Err(NotValidUtf8) && offset == 0 ==> forall t :: data != Utf8.Encode(t)
  {
    hide Utf8.Encode;
    if offset == 0 { assert data[offset..] == data; }
  }

  /** An accepted cursor with an offset beyond the end is refused, and so is a read of bytes that are not text. */
  lemma BadReadsAreRefused(mac: Mac, who: Subject, data: Bytes, maxChars: int, cursor: Option<string>,
                           r: Result<View, Failure>)
    requires Outcome(mac, who, data, maxChars, cursor, r) && 1 <= maxChars <= 30000
    requires StartOffset(mac, who, cursor).Ok?
    ensures StartOffset(mac, who, cursor).value > |data| <==> r == Err(CursorBeyondEnd)
    ensures r == Err(TextNotUtf8) ==>
              0 <= StartOffset(mac, who, cursor).value <= |data|
              && forall t :: data[StartOffset(mac, who, cursor).value..] != Utf8.Encode(t)
  {
    hide PageOf, Decode, Utf8.Encode;
    var offset := StartOffset(mac, who, cursor).value;
    var page :| PageOf(data, offset, maxChars, page) && r == Answer(mac, who, page);
    PageErrors(data, offset, maxChars, page);
  }

  /** A cursor issued to one subject is accepted for another exactly when owner, content and revision agree. */
  lemma CursorsArePersonal(mac: Mac, a: Subject, b: Subject, n: nat)
    requires Issuable(a, n) && forall p :: |mac(p)| == 32
    ensures var r := StartOffset(mac, b, Some(Encode(mac, ClaimsAt(a, n))));
            if a.owner == b.owner && a.contentId == b.contentId && a.revision == b.revision then r == Ok(n)
            else r == Err(CursorElsewhere)
  {
    hide Decode, Encode;
    RoundTripExactly(mac, ClaimsAt(a, n));
  }

  lemma LongCursor(mac: Mac, cursor: string)
    requires |cursor| > MAX_CURSOR
    ensures Decode(mac, cursor) == Err(BadLength)
  {}

  // ---- Following cursors

  datatype Visit = Visit(maxChars: int, cursor: Option<string>, r: Result<View, Failure>)

  /** A caller who starts without a cursor and hands each returned cursor to the next read. */
  ghost predicate Following(mac: Mac, who: Subject, data: Bytes, visits: seq<Visit>) {
    && (forall i :: 0 <= i < |visits| ==> Outcome(mac, who, data, visits[i].maxChars, visits[i].cursor, visits[i].r))
    && (forall i :: 0 <= i < |visits| ==> 1 <= visits[i].maxChars <= 30000)
    && (|visits| > 0 ==> visits[0].cursor == None)
    && (forall i, j :: 0 <= i < j < |visits| && j == i + 1 ==> Leads(visits[i], visits[j]))
  }

  predicate Leads(v: Visit, w: Visit) { v.r.Ok? && v.r.value.next.Some? && w.cursor == v.r.value.next }

  function Texts(visits: seq<Visit>): seq<string> {
    seq(|visits|, i requires 0 <= i < |visits| => if visits[i].r.Ok? then visits[i].r.value.text else "")
  }

  /** Cursors into data of this size can be issued to the subject and read back. */
  predicate Issuable(who: Subject, size: nat) {
    Acceptable(ClaimsAt(who, size)) && Variable(who.owner, who.revision, size) <= 1436
  }

  lemma CursorComesBack(mac: Mac, who: Subject, offset: nat, size: nat)
    requires Issuable(who, size) && offset <= size && forall p :: |mac(p)| == 32
    ensures StartOffset(mac, who, Some(Encode(mac, ClaimsAt(who, offset)))) == Ok(offset)
  {
    hide Decode, Encode;
    Json.DecimalLength(offset, size);
    RoundTripExactly(mac, ClaimsAt(who, offset));
  }

  /** The byte offset of the n-th character. */
  function Boundary(text: string, n: nat): nat
    requires n <= |text|
  {
    |Utf8.Encode(text[..n])|
  }

  lemma BoundarySplits(text: string, n: nat)
    requires n <= |text|
    ensures Boundary(text, n) <= |Utf8.Encode(text)|
    ensures Utf8.Encode(text)[Boundary(text, n)..] == Utf8.Encode(text[n..])
  {
    hide Utf8.Encode;
    assert text == text[..n] + text[n..];
    Utf8.EncodeConcat(text[..n], text[n..]);
  }

  lemma BoundaryAdds(text: string, n: nat, m: nat)
    requires n <= m <= |text|
    ensures Boundary(text, m) == Boundary(text, n) + |Utf8.Encode(text[n..][..m - n])|
  {
    hide Utf8.Encode;
    assert text[..m] == text[..n] + text[n..][..m - n];
    Utf8.EncodeConcat(text[..n], text[n..][..m - n]);
  }

  /** One read from the n-th character of valid text. */
  lemma ReadFrom(mac: Mac, who: Subject, text: string, n: nat, maxChars: int, cursor: Option<string>,
                 r: Result<View, Failure>)
    requires n <= |text| && 1 <= maxChars <= 30000
    requires StartOffset(mac, who, cursor) == Ok(Boundary(text, n))
    requires Outcome(mac, who, Utf8.Encode(text), maxChars, cursor, r)
    ensures r == if |text| - n <= maxChars then Ok(View(text[n..], None))
                 else Ok(View(text[n..n + maxChars], Some(Encode(mac, ClaimsAt(who, Boundary(text, n + maxChars))))))
  {
    hide PageOf, Decode, Encode, Utf8.Encode, Boundary;
    var data, offset := Utf8.Encode(text), Boundary(text, n);
    BoundarySplits(text, n);
    var page :| PageOf(data, offset, maxChars, page) && r == Answer(mac, who, page);
    PageIsDetermined(data, offset, maxChars, page, text[n..]);
    if |text| - n > maxChars {
      BoundaryAdds(text, n, n + maxChars);
      assert text[n..][..maxChars] == text[n..n + maxChars];
    }
  }

  /** What is true after any number of reads along the cursors: every read succeeded; all pages with a successor
      are full; together they are the text up to a character, all of it exactly when there is no next cursor; and
      the next cursor points to the first byte of that character. */
  ghost predicate ReadSoFar(mac: Mac, who: Subject, text: string, visits: seq<Visit>)
    requires visits != []
  {
    var last := visits[|visits| - 1];
    && (forall i :: 0 <= i < |visits| ==> visits[i].r.Ok?)
    && (forall i :: 0 <= i < |visits| - 1 ==> |visits[i].r.value.text| == visits[i].maxChars)
    && ReadTo(mac, who, text, |visits|, Concat(Texts(visits)), last.maxChars, last.r.value)
  }

  predicate ReadTo(mac: Mac, who: Subject, text: string, count: nat, seen: string, maxChars: int, last: View) {
    && |seen| <= |text| && seen == text[..|seen|] && count <= |seen| + 1
    && |last.text| <= maxChars
    && (last.next == None <==> seen == text)
    && (last.next.Some? ==>
          && |last.text| == maxChars && count <= |seen|
          && last.next == Some(Encode(mac, ClaimsAt(who, Boundary(text, |seen|)))))
  }

  /** The next page, read from where the pages so far end. */
  lemma NextPage(mac: Mac, who: Subject, text: string, seen: string, count: nat, v: Visit)
    requires |seen| <= |text| && seen == text[..|seen|] && count <= |seen| && 1 <= v.maxChars <= 30000
    requires StartOffset(mac, who, v.cursor) == Ok(Boundary(text, |seen|))
    requires Outcome(mac, who, Utf8.Encode(text), v.maxChars, v.cursor, v.r)
    ensures v.r.Ok? && ReadTo(mac, who, text, count + 1, seen + v.r.value.text, v.maxChars, v.r.value)
  {
    hide Outcome, Encode, Utf8.Encode, Boundary, StartOffset;
    var n := |seen|;
    ReadFrom(mac, who, text, n, v.maxChars, v.cursor, v.r);
    var m := if |text| - n <= v.maxChars then |text| else n + v.maxChars;
    assert text[..n] + text[n..m] == text[..m];
    if m == |text| { assert text[n..m] == text[n..] && text[..m] == text; }
  }

  lemma {:induction false} FollowingCursors(mac: Mac, who: Subject, text: string, visits: seq<Visit>)
    requires Following(mac, who, Utf8.Encode(text), visits) && visits != []
    requires Issuable(who, |Utf8.Encode(text)|) && forall p :: |mac(p)| == 32
    ensures ReadSoFar(mac, who, text, visits)
    decreases |visits|
  {
    hide Outcome, Encode, Utf8.Encode, Boundary, Issuable, StartOffset, Texts;
    var k := |visits| - 1;
    var v, before := visits[k], visits[..k];
    if k == 0 {
      FirstBoundary(mac, who, text);
      NextPage(mac, who, text, "", 0, v);
      TextsStep(visits);
      assert "" + v.r.value.text == v.r.value.text;
      assert Texts(before) == [] by { NoTexts(before); }
    } else {
      FollowingCursors(mac, who, text, before);
      assert visits[k - 1] == before[k - 1] && Leads(visits[k - 1], v);
      var seen := Concat(Texts(before));
      BoundarySplits(text, |seen|);
      CursorComesBack(mac, who, Boundary(text, |seen|), |Utf8.Encode(text)|);
      NextPage(mac, who, text, seen, k, v);
      TextsStep(visits);
      forall i | 0 <= i < k ensures visits[i] == before[i] {}
    }
  }

  lemma NoTexts(visits: seq<Visit>)
    requires visits == []
    ensures Texts(visits) == []
  {}

  lemma TextsStep(visits: seq<Visit>)
    requires visits != [] && visits[|visits| - 1].r.Ok?
    ensures Concat(Texts(visits)) == Concat(Texts(visits[..|visits| - 1])) + visits[|visits| - 1].r.value.text
  {
    var k := |visits| - 1;
    assert Texts(visits)[..k] == Texts(visits[..k]);
  }

  lemma FirstBoundary(mac: Mac, who: Subject, text: string)
    ensures StartOffset(mac, who, None) == Ok(Boundary(text, 0))
  {}
}
