/** The bounded decoding stream of a response body. */
module BodyStream {
  import opened Basics

  /** A compressed format: the output that an input determines, whether the stream is complete in it, and whether
      it is damaged. */
  datatype Codec = Codec(out: Bytes -> Bytes, done: Bytes -> bool, bad: Bytes -> bool)

  predicate Prefix(a: Bytes, b: Bytes) { |a| <= |b| && b[..|a|] == a }

  /** More input never takes output back or repairs damage, and nothing behind a complete stream (the first member
      of section 2.2 of RFC 1952) counts. */
  ghost predicate Lawful(c: Codec) {
    && c.out([]) == []
    && forall a, b ::
        && Prefix(c.out(a), c.out(a + b)) && (c.bad(a) ==> c.bad(a + b))
        && (c.done(a) ==> c.done(a + b) && c.out(a + b) == c.out(a))
  }

  /** The incremental decompressor, by its documented contract: a call gives at most `max` bytes, may keep output
      back, and leaves input unconsumed only if it gave `max` bytes. Input left over is lost with the next call,
      unless it is passed in again. */
  class Decompressor {
    const codec: Codec
    var consumed: Bytes
    var leftover: Bytes
    var emitted: nat

    constructor (codec: Codec)
      ensures this.codec == codec && consumed == [] && leftover == [] && emitted == 0
    {
      this.codec := codec;
      consumed, leftover, emitted := [], [], 0;
    }

    ghost predicate Valid()
      reads this
    {
      Lawful(codec) && emitted <= |codec.out(consumed)|
    }

    /** `None` is a decoding error. */
    method Decompress(data: Bytes, max: nat) returns (r: Option<Bytes>)
      requires Valid() && max >= 1
      modifies this
      ensures Valid() && (r.None? ==> codec.bad(old(consumed) + data))
      ensures r.Some? ==>
        && |r.value| <= max && consumed + leftover == old(consumed) + data && (leftover != [] ==> |r.value| == max)
        && emitted == old(emitted) + |r.value| && codec.out(consumed)[old(emitted)..emitted] == r.value
    {
      var noticed: bool := *;
      if noticed && codec.bad(consumed + data) {
        return None;
      }
      ghost var before := consumed;
      assert consumed + data[..|data|] == consumed + data;
      assert Prefix(codec.out(consumed), codec.out(consumed + data));
      var take: nat, give: nat :| take <= |data| && emitted + give <= |codec.out(consumed + data[..take])|
        && give <= max && (take < |data| ==> give == max);
      consumed, leftover := consumed + data[..take], data[take..];
      r := Some(codec.out(consumed)[emitted..emitted + give]);
      emitted := emitted + give;
      assert before + data == consumed + leftover;
    }

    /** All pending input is processed and all remaining output returned. */
    method Flush() returns (r: Option<Bytes>)
      requires Valid()
      modifies this
      ensures Valid() && leftover == [] && consumed == old(consumed + leftover)
      ensures r.None? <==> codec.bad(consumed)
      ensures r.Some? ==> emitted == |codec.out(consumed)| && r.value == codec.out(consumed)[old(emitted)..]
    {
      assert Prefix(codec.out(consumed), codec.out(consumed + leftover));
      consumed, leftover := consumed + leftover, [];
      if codec.bad(consumed) {
        return None;
      }
      r := Some(codec.out(consumed)[emitted..]);
      emitted := |codec.out(consumed)|;
    }
  }

  datatype Settings = Settings(maxWire: nat, maxEntity: nat, maxRatio: real)

  datatype End = Closed | TimedOut | Broken

  datatype Verdict = Ended | WireLimit | EntityLimit | RatioLimit | Invalid | Timeout

  predicate RatioExceeded(wire: nat, entity: nat, ratio: real) {
    wire != 0 && entity as real / wire as real > ratio
  }

  lemma RatioGrows(wire: nat, entity: nat, more: nat, ratio: real)
    requires entity <= more && !RatioExceeded(wire, more, ratio)
    ensures !RatioExceeded(wire, entity, ratio)
  {
    if wire != 0 {
      var x, y, z := entity as real, more as real, wire as real;
      assert (y - x) / z >= 0.0;
      assert y / z == x / z + (y - x) / z;
    }
  }

  /** What the ratio check lets through. */
  lemma RatioMeans(wire: nat, entity: nat, ratio: real)
    ensures !RatioExceeded(wire, entity, ratio) <==> wire == 0 || entity as real <= ratio * wire as real
  {
    if wire != 0 {
      var x, z := entity as real, wire as real;
      assert x / z * z == x;
      if x / z > ratio {
        assert (x / z - ratio) * z > 0.0;
      } else {
        assert (ratio - x / z) * z >= 0.0;
      }
    }
  }

  /** What a normal end says, spelled out. */
  lemma EndMeans(s: Settings, codec: Option<Codec>, wire: Bytes, entity: nat)
    requires Within(s, |wire|, entity) && Complete(codec, wire)
    ensures |wire| <= s.maxWire && entity <= s.maxEntity
    ensures wire != [] ==> entity as real <= s.maxRatio * |wire| as real
    ensures codec.Some? ==> codec.value.done(wire) && !codec.value.bad(wire)
  {
    RatioMeans(|wire|, entity, s.maxRatio);
    hide RatioExceeded;
  }

  /** The entity a body stands for. */
  function Decoded(codec: Option<Codec>, wire: Bytes): Bytes {
    match codec case None => wire case Some(c) => c.out(wire)
  }

  predicate Complete(codec: Option<Codec>, wire: Bytes) {
    match codec case None => true case Some(c) => c.done(wire) && !c.bad(wire)
  }

  predicate Within(s: Settings, wire: nat, entity: nat) {
    wire <= s.maxWire && entity <= s.maxEntity && !RatioExceeded(wire, entity, s.maxRatio)
  }

  /** The body obeys all bounds after every chunk. */
  ghost predicate WellBehaved(s: Settings, codec: Option<Codec>, chunks: seq<Bytes>) {
    && Complete(codec, Concat(chunks))
    && forall k :: 0 <= k <= |chunks| ==> WithinAt(s, codec, Concat(chunks[..k]))
  }

  predicate WithinAt(s: Settings, codec: Option<Codec>, wire: Bytes) { Within(s, |wire|, |Decoded(codec, wire)|) }

  class BodyReader {
    const settings: Settings
    const codec: Option<Codec>
    const decoder: Decompressor?
    var wireBytes: nat
    var entityBytes: nat

    constructor (settings: Settings, codec: Option<Codec>)
      requires codec.Some? ==> Lawful(codec.value)
      ensures this.settings == settings && this.codec == codec && Idle()
      ensures decoder != null ==> fresh(decoder)
    {
      this.settings, this.codec := settings, codec;
      wireBytes, entityBytes := 0, 0;
      if codec.Some? {
        decoder := new Decompressor(codec.value);
      } else {
        decoder := null;
      }
    }

    ghost predicate Idle()
      reads this, decoder
    {
      At([], [])
    }

    /** The invariant between reads: everything read was consumed, everything given was accounted and yielded. */
    ghost predicate At(wire: Bytes, given: Bytes)
      reads this, decoder
    {
      && wireBytes == |wire| && entityBytes == |given|
      && (decoder == null <==> codec.None?)
      && (decoder == null ==> given == wire)
      && (decoder != null ==>
            && decoder.codec == codec.value && decoder.Valid() && decoder.leftover == [] && decoder.consumed == wire
            && decoder.emitted == |given| && Prefix(given, decoder.codec.out(wire)))
    }

    /** One chunk: the output cap is one more than what is still allowed, so that reaching it is an error. */
    method DecodeChunk(chunk: Bytes, ghost wire: Bytes, ghost given: Bytes) returns (entity: Bytes, v: Verdict)
      requires At(wire, given) && chunk != [] && entityBytes <= settings.maxEntity
      modifies this, decoder
      ensures v == Ended ==> At(wire + chunk, given + entity)
      ensures v == Ended ==> Within(settings, wireBytes, entityBytes) && entityBytes <= settings.maxEntity
      ensures v in {Ended, WireLimit, EntityLimit, RatioLimit, Invalid}
      ensures v == WireLimit <==> |wire| + |chunk| > settings.maxWire
      ensures v == Invalid ==> Damaged(codec, wire + chunk)
      ensures v == EntityLimit <==> v != WireLimit && v != Invalid && entityBytes > settings.maxEntity
      ensures v == RatioLimit ==> RatioExceeded(wireBytes, entityBytes, settings.maxRatio)
      ensures WithinAt(settings, codec, wire + chunk) && !Damaged(codec, wire + chunk) ==> v == Ended
    {
      entity := [];
      wireBytes := wireBytes + |chunk|;
      if wireBytes > settings.maxWire {
        return [], WireLimit;
      }
      if decoder == null {
        entity := chunk;
      } else {
        var out := decoder.Decompress(chunk, settings.maxEntity - entityBytes + 1);
        if out.None? {
          return [], Invalid;
        }
        entity := out.value;
        GivenGrows(decoder.codec, wire, chunk, decoder.consumed, decoder.leftover, given, entity);
      }
      entityBytes := entityBytes + |entity|;
      if entityBytes > settings.maxEntity {
        return entity, EntityLimit;
      }
      if RatioExceeded(wireBytes, entityBytes, settings.maxRatio) {
        v := RatioLimit;
        if WithinAt(settings, codec, wire + chunk) {
          RatioGrows(wireBytes, entityBytes, |Decoded(codec, wire + chunk)|, settings.maxRatio);
        }
        return;
      }
      v := Ended;
    }

    /** Flush, the check for a complete stream, and the last ratio check (the tail is yielded before it). */
    method Finish(ghost wire: Bytes, ghost given: Bytes) returns (tail: Bytes, v: Verdict)
      requires At(wire, given) && Within(settings, wireBytes, entityBytes)
      modifies this, decoder
      ensures v == Ended ==> given + tail == Decoded(codec, wire) && Complete(codec, wire)
      ensures v == Ended ==> Within(settings, |wire|, |given + tail|)
      ensures v in {Ended, EntityLimit, RatioLimit, Invalid}
      ensures v == Invalid ==> !Complete(codec, wire)
      ensures v == EntityLimit ==> |Decoded(codec, wire)| > settings.maxEntity
      ensures v == RatioLimit ==> RatioExceeded(|wire|, |Decoded(codec, wire)|, settings.maxRatio)
      ensures WithinAt(settings, codec, wire) && Complete(codec, wire) ==> v == Ended
    {
      tail := [];
      if decoder != null {
        assert wire + [] == wire;
        var out := decoder.Flush();
        if out.None? {
          return [], Invalid;
        }
        assert given + out.value == decoder.codec.out(wire);
        entityBytes := entityBytes + |out.value|;
        if entityBytes > settings.maxEntity {
          return [], EntityLimit;
        }
        if !decoder.codec.done(decoder.consumed) {
          return [], Invalid;
        }
        tail := out.value;
      }
      assert given + [] == given;
      v := if RatioExceeded(wireBytes, entityBytes, settings.maxRatio) then RatioLimit else Ended;
    }

    method Body(chunks: seq<Bytes>, end: End) returns (yielded: seq<Bytes>, v: Verdict)
      requires Idle() && forall i :: 0 <= i < |chunks| ==> chunks[i] != []
      modifies this, decoder
      ensures v == Ended ==>
        && end == Closed && Concat(yielded) == Decoded(codec, Concat(chunks)) && Complete(codec, Concat(chunks))
        && Within(settings, |Concat(chunks)|, |Concat(yielded)|)
        && |Concat(chunks)| <= settings.maxWire && |Concat(yielded)| <= settings.maxEntity
        && (Concat(chunks) != [] ==> |Concat(yielded)| as real <= settings.maxRatio * |Concat(chunks)| as real)
        && (codec.Some? ==> codec.value.done(Concat(chunks)) && !codec.value.bad(Concat(chunks)))
      ensures end == Closed && WellBehaved(settings, codec, chunks) ==> v == Ended
      ensures v == Timeout ==> end == TimedOut
      ensures v == WireLimit ==> |Concat(chunks)| > settings.maxWire
    {
      hide Lawful, RatioExceeded, WithinAt, Concat, Damaged, Within, Complete, Decoded, WellBehaved;
      yielded := [];
      NothingRead(settings, chunks);
      for i := 0 to |chunks|
        invariant At(Concat(chunks[..i]), Concat(yielded)) && Within(settings, wireBytes, entityBytes)
        invariant entityBytes <= settings.maxEntity
      {
        ConcatStep(chunks, i);
        var entity, verdict := DecodeChunk(chunks[i], Concat(chunks[..i]), Concat(yielded));
        if verdict != Ended {
          ConcatGrows(chunks, i + 1);
          if WellBehaved(settings, codec, chunks) { PrefixBehaves(settings, codec, chunks, i + 1); }
          return yielded, verdict;
        }
        Yielding(yielded, entity);
        if entity != [] {
          yielded := yielded + [entity];
        }
      }
      ConcatWhole(chunks);
      if end != Closed {
        v := if end == TimedOut then Timeout else Invalid;
        return;
      }
      var tail;
      tail, v := Finish(Concat(chunks), Concat(yielded));
      if WellBehaved(settings, codec, chunks) { PrefixBehaves(settings, codec, chunks, |chunks|); }
      Yielding(yielded, tail);
      if tail != [] {
        yielded := yielded + [tail];
      }
      if v == Ended { EndMeans(settings, codec, Concat(chunks), |Concat(yielded)|); }
    }
  }

  predicate Damaged(codec: Option<Codec>, wire: Bytes) { codec.Some? && codec.value.bad(wire) }

  lemma GivenGrows(c: Codec, wire: Bytes, chunk: Bytes, consumed: Bytes, leftover: Bytes, given: Bytes, entity: Bytes)
    requires Lawful(c) && consumed + leftover == wire + chunk && Prefix(given, c.out(wire))
    requires |given| + |entity| <= |c.out(consumed)| && c.out(consumed)[|given|..|given| + |entity|] == entity
    ensures |given| + |entity| <= |c.out(wire + chunk)|
    ensures leftover == [] ==> consumed == wire + chunk && Prefix(given + entity, c.out(wire + chunk))
  {
    assert Prefix(c.out(consumed), c.out(consumed + leftover));
    assert Prefix(c.out(wire), c.out(wire + chunk));
    if leftover == [] {
      assert consumed + leftover == consumed;
      var o := c.out(consumed);
      assert o[..|given|] == given;
      assert o[..|given| + |entity|] == o[..|given|] + o[|given|..|given| + |entity|];
    }
  }

  lemma NothingRead(s: Settings, chunks: seq<Bytes>)
    ensures Concat(chunks[..0]) == [] && Concat<byte>([]) == [] && Within(s, 0, 0)
  {}

  lemma Yielding(yielded: seq<Bytes>, entity: Bytes)
    ensures Concat(yielded + [entity]) == Concat(yielded) + entity
    ensures entity == [] ==> Concat(yielded) + entity == Concat(yielded)
  {
    assert (yielded + [entity])[..|yielded|] == yielded;
  }

  /** A body that obeys all bounds obeys them at each chunk, and is not damaged there. */
  lemma PrefixBehaves(s: Settings, codec: Option<Codec>, chunks: seq<Bytes>, k: nat)
    requires WellBehaved(s, codec, chunks) && k <= |chunks| && (codec.Some? ==> Lawful(codec.value))
    ensures WithinAt(s, codec, Concat(chunks[..k])) && !Damaged(codec, Concat(chunks[..k]))
    ensures WithinAt(s, codec, Concat(chunks)) && Complete(codec, Concat(chunks))
  {
    assert chunks[..|chunks|] == chunks;
    assert WithinAt(s, codec, Concat(chunks[..|chunks|]));
    ConcatSplits(chunks, k);
  }

  lemma ConcatGrows(chunks: seq<Bytes>, k: nat)
    requires k <= |chunks|
    ensures |Concat(chunks[..k])| <= |Concat(chunks)|
  {
    ConcatSplits(chunks, k);
  }

  lemma {:induction false} ConcatSplits(chunks: seq<Bytes>, k: nat)
    requires k <= |chunks|
    ensures exists rest :: Concat(chunks) == Concat(chunks[..k]) + rest
    decreases |chunks|
  {
    if k == |chunks| {
      assert chunks[..k] == chunks;
      assert Concat(chunks) == Concat(chunks[..k]) + [];
    } else {
      var shorter := chunks[..|chunks| - 1];
      ConcatSplits(shorter, k);
      assert shorter[..k] == chunks[..k];
      var rest :| Concat(shorter) == Concat(shorter[..k]) + rest;
      var last := chunks[|chunks| - 1];
      assert Concat(chunks) == Concat(chunks[..k]) + (rest + last);
    }
  }
}
