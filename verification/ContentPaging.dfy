/** Paged reading of text content: one page from a chunked stream at a byte offset. */
module ContentPaging {
  import opened Basics
  import opened Utf8

  datatype ReadError = OffsetBeyondEnd | NotValidUtf8

  /** A page and, if there is more text, the byte offset where it continues. */
  datatype Page = Page(text: string, next: Option<nat>)

  /** What a read at an offset owes its caller: all the remaining text if it fits, otherwise exactly the
      first maxChars characters and the offset right behind their bytes; an error only if the offset is out
      of range or the remaining bytes are not UTF-8. */
  ghost predicate PageOf(data: Bytes, offset: nat, maxChars: nat, r: Result<Page, ReadError>) {
    if offset > |data| then r == Err(OffsetBeyondEnd)
    else match r
         case Ok(Page(text, None)) => |text| <= maxChars && data[offset..] == Encode(text)
         case Ok(Page(text, Some(next))) =>
           |text| == maxChars && next == offset + |Encode(text)| < |data| && data[offset..next] == Encode(text)
         case Err(e) => e == NotValidUtf8 && NoText(data[offset..])
  }

  ghost predicate NoText(b: Bytes) { forall t :: b != Encode(t) }

  /** On valid remaining text this leaves one possible result. */
  lemma PageIsDetermined(data: Bytes, offset: nat, maxChars: nat, r: Result<Page, ReadError>, t: string)
    requires PageOf(data, offset, maxChars, r) && offset <= |data| && data[offset..] == Encode(t)
    ensures r == Ok(if |t| <= maxChars then Page(t, None)
                    else Page(t[..maxChars], Some(offset + |Encode(t[..maxChars])|)))
  {
    hide Encode, Drain;
    DecodesExactlyUtf8(data[offset..], t);
    match r
    case Ok(Page(text, None)) => DecodesExactlyUtf8(data[offset..], text);
    case Ok(Page(text, Some(next))) =>
      assert data[offset..] == data[offset..next] + data[next..];
      StartsWithText(text, data[next..], t);
    case Err(_) =>
  }

  /** A valid text whose bytes begin with those of another is a proper extension of it. */
  lemma StartsWithText(text: string, more: Bytes, t: string)
    requires Encode(t) == Encode(text) + more && more != []
    ensures |t| > |text| && t[..|text|] == text
  {
    DrainEncode(t);
    DrainEncode(text);
    DrainMore(Encode(text), more);
    assert [] + more == more;
    DrainSound(more);
    hide Drain;
    var rest := Drain(more);
    assert t == text + rest.text;
    assert rest.text != "" by { assert Encode("") == []; }
  }

  /** The page cut from a decoded prefix that is longer than a page. */
  lemma CutPage(data: Bytes, offset: nat, read: nat, text: string, rest: Bytes, maxChars: nat)
    requires offset <= read <= |data| && Drain(data[offset..read]) == Drained(text, rest) && |text| > maxChars
    ensures PageOf(data, offset, maxChars, Ok(Page(text[..maxChars], Some(offset + |Encode(text[..maxChars])|))))
  {
    hide Drain, Encode;
    DrainSound(data[offset..read]);
    var head, tail := text[..maxChars], text[maxChars..];
    assert text == head + tail;
    EncodeConcat(head, tail);
    EncodeGrows(tail);
    var next := offset + |Encode(head)|;
    assert data[offset..next] == data[offset..read][..|Encode(head)|] == Encode(head);
  }

  /** A prefix that does not decode shows that the remaining bytes are not UTF-8. */
  lemma BadPage(data: Bytes, offset: nat, read: nat, maxChars: nat)
    requires offset <= read <= |data| && Drain(data[offset..read]).Malformed?
    ensures PageOf(data, offset, maxChars, Err(NotValidUtf8))
  {
    hide Drain, Encode;
    assert data[offset..] == data[offset..read] + data[read..];
    forall t ensures data[offset..] != Encode(t) { NotUtf8(data[offset..read], data[read..], t); }
  }

  /** All remaining bytes were fed: a cut-off character is an error, anything else is the last page. */
  lemma LastPage(data: Bytes, offset: nat, text: string, rest: Bytes, maxChars: nat)
    requires offset <= |data| && Drain(data[offset..]) == Drained(text, rest) && |text| <= maxChars
    ensures PageOf(data, offset, maxChars, if rest != [] then Err(NotValidUtf8) else Ok(Page(text, None)))
  {
    hide Drain, Encode;
    DrainSound(data[offset..]);
    if rest != [] {
      assert data[offset..] + [] == data[offset..];
      forall t ensures data[offset..] != Encode(t) { NotUtf8(data[offset..], [], t); }
    } else {
      assert Encode(text) + rest == Encode(text);
    }
  }

  /** One more chunk goes to the decoder. */
  lemma FeedChunk(data: Bytes, offset: nat, from: nat, read: nat, text: string, pending: Bytes, chunk: Bytes)
    requires offset <= from <= read <= |data| && Drain(data[offset..from]) == Drained(text, pending)
    requires chunk == data[from..read]
    ensures Drain(data[offset..read]) == After(text, Drain(pending + chunk))
  {
    hide Drain, After;
    DrainMore(data[offset..from], chunk);
    assert data[offset..read] == data[offset..from] + chunk;
  }

  /** What is left of a chunk after skipping to the offset. */
  lemma SkipToOffset(data: Bytes, offset: nat, before: nat, read: nat, chunk: Bytes)
    requires before <= offset && before <= read <= |data| && chunk == data[before..read]
    ensures var consumed := if |chunk| < offset - before then |chunk| else offset - before;
            if read <= offset then chunk[consumed..] == [] else chunk[consumed..] == data[offset..read]
  {}

  method ReadUtf8Chunk(chunks: seq<Bytes>, offset: nat, maxChars: nat) returns (r: Result<Page, ReadError>)
    ensures PageOf(Concat(chunks), offset, maxChars, r)
  {
    hide Drain, PageOf, Concat;
    ghost var data := Concat(chunks);
    var pending: Bytes := [];
    var value: string := "";
    var skipped := 0;
    ghost var read := 0;
    NothingRead(chunks);
    for i := 0 to |chunks|
      invariant read == |Concat(chunks[..i])| <= |data| && data[..read] == Concat(chunks[..i])
      invariant skipped == if read < offset then read else offset
      invariant read < offset ==> value == "" && pending == []
      invariant read >= offset ==> Drain(data[offset..read]) == Drained(value, pending)
      invariant |value| <= maxChars
    {
      PrefixRead(chunks, i);
      var chunk := chunks[i];
      ghost var before := read;
      read := read + |chunk|;
      assert chunk == data[before..read];
      if skipped < offset {
        var consumed := if |chunk| < offset - skipped then |chunk| else offset - skipped;
        SkipToOffset(data, offset, before, read, chunk);
        skipped := skipped + consumed;
        chunk := chunk[consumed..];
        if chunk == [] {
          if read == offset { assert data[offset..read] == []; NothingToDecode(); }
          continue;
        }
        assert data[offset..offset] == [];
        NothingToDecode();
      }
      ghost var from := if before < offset then offset else before;
      FeedChunk(data, offset, from, read, value, pending, chunk);
      var decoded := Drain(pending + chunk);
      if decoded.Malformed? {
        BadPage(data, offset, read, maxChars);
        return Err(NotValidUtf8);
      }
      value := value + decoded.text;
      pending := decoded.rest;
      if |value| > maxChars {
        CutPage(data, offset, read, value, pending, maxChars);
        var bounded := value[..maxChars];
        return Ok(Page(bounded, Some(offset + |Encode(bounded)|)));
      }
    }
    ConcatWhole(chunks);
    if skipped < offset {
      OutOfRange(data, offset, maxChars);
      return Err(OffsetBeyondEnd);
    }
    assert data[offset..read] == data[offset..];
    LastPage(data, offset, value, pending, maxChars);
    if pending != [] {
      return Err(NotValidUtf8);
    }
    r := Ok(Page(value, None));
  }

  lemma OutOfRange(data: Bytes, offset: nat, maxChars: nat)
    requires offset > |data|
    ensures PageOf(data, offset, maxChars, Err(OffsetBeyondEnd))
  {}

  lemma NothingToDecode()
    ensures Drain([]) == Drained("", [])
  {}

  lemma NothingRead(chunks: seq<Bytes>)
    ensures Concat(chunks[..0]) == [] && Drain([]) == Drained("", [])
  {}

  lemma {:induction false} PrefixRead(chunks: seq<Bytes>, i: nat)
    requires i < |chunks|
    ensures |Concat(chunks[..i])| + |chunks[i]| <= |Concat(chunks)|
    ensures Concat(chunks)[..|Concat(chunks[..i])| + |chunks[i]|] == Concat(chunks[..i + 1])
    ensures Concat(chunks[..i + 1]) == Concat(chunks[..i]) + chunks[i]
    decreases |chunks| - i
  {
    ConcatStep(chunks, i);
    if i + 1 == |chunks| {
      ConcatWhole(chunks);
    } else {
      PrefixRead(chunks, i + 1);
      var n := |Concat(chunks[..i + 1])|;
      assert Concat(chunks)[..n] == Concat(chunks)[..n + |chunks[i + 1]|][..n];
    }
  }
}
