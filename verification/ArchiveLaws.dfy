// What a read of the archive vouches for: only the bytes a descriptor names are ever read back from it.
module ArchiveLaws {
  import opened Prelude
  import opened Keyed
  import opened CanonicalJson
  import opened JsonRoundTrip
  import opened Archive

  // A read succeeds if and only if bytes are there, have the descriptor's length and hash, and are the text of a value;
  // missing bytes are unavailable data, anything else is a broken archive.
  lemma ReadsExactly(objects: Objects, d: Descriptor)
    ensures var answer := ReadBack(objects, d);
            && (answer == Err(DataUnavailable) <==> d.objectKey !in objects)
            && (d.objectKey in objects ==>
                  && var bytes := objects[d.objectKey];
                  && (answer.Err? ==> answer == Err(ArchiveIntegrity))
                  && (answer.Ok? <==>
                        && |bytes| == d.contentLength && d.objectHash == Keccak(bytes)
                        && Decode(bytes).Some? && Parse(Decode(bytes).value).Ok?)
                  && (answer.Ok? ==> answer == Parse(Decode(bytes).value)))
  {
  }

  // What archiving hands back, and what it stores.
  lemma {:induction false} DescribesItsBytes(objects: Objects, v: Json, capturedAt: Timestamp)
    requires Archived(objects, v, capturedAt).Ok?
    ensures var (stored, d) := Archived(objects, v, capturedAt).value;
            var bytes := Encode(Print(v));
            && d.objectHash == Keccak(bytes) && d.objectKey == ContentKey(d.objectHash)
            && d.contentLength == |bytes| && d.capturedAt == capturedAt
            && d.objectKey in stored && stored[d.objectKey] == bytes
            && forall k | k != d.objectKey ::
                 (k in stored <==> k in objects) && (k in objects ==> stored[k] == objects[k])
  {
    hide Encode, Print, Plain;
  }

  // Whatever state the archive gets into: a descriptor made for a value reads back that value and nothing else, and it
  // does so if and only if the archived bytes are still there. Any other bytes are reported.
  lemma {:induction false} OnlyTheArchivedValueReads(objects: Objects, v: Json, capturedAt: Timestamp, later: Objects)
    requires UniqueKeys(v) && Archived(objects, v, capturedAt).Ok?
    ensures var d := Archived(objects, v, capturedAt).value.1;
            ReadBack(later, d) ==
              if d.objectKey !in later then Err(DataUnavailable)
              else if later[d.objectKey] == Encode(Print(v)) then Ok(Normalize(v))
              else Err(ArchiveIntegrity)
  {
    hide Encode, Decode, Print, Parse, Plain, Normalize, UniqueKeys;
    NoByteOrderMark(v);
    TextReadsBack(v);
  }

  /******* UTF-8 *******/

  // Surrogates without their other half become U+FFFD.
  function Repaired(t: Text): Text {
    if t == [] then []
    else if IsHigh(t[0]) && |t| > 1 && IsLow(t[1]) then t[..2] + Repaired(t[2..])
    else [if IsHigh(t[0]) || IsLow(t[0]) then 0xFFFD else t[0]] + Repaired(t[1..])
  }

  lemma {:induction false} RepairedIsPaired(t: Text)
    ensures WellPaired(Repaired(t)) && |Repaired(t)| == |t|
    decreases |t|
  {
    if t != [] {
      if IsHigh(t[0]) && |t| > 1 && IsLow(t[1]) {
        RepairedIsPaired(t[2..]);
        assert Repaired(t)[2..] == Repaired(t[2..]);
      } else {
        RepairedIsPaired(t[1..]);
        assert Repaired(t)[1..] == Repaired(t[1..]);
      }
    }
  }

  lemma {:induction false} EncodesRepaired(t: Text)
    ensures Encode(t) == Encode(Repaired(t))
    decreases |t|
  {
    if t != [] {
      var r := Repaired(t);
      if IsHigh(t[0]) && |t| > 1 && IsLow(t[1]) {
        EncodesRepaired(t[2..]);
        assert r[2..] == Repaired(t[2..]);
      } else {
        EncodesRepaired(t[1..]);
        assert r[1..] == Repaired(t[1..]);
      }
    }
    hide TwoBytes, ThreeBytes, FourBytes, Joined;
  }

  // The bytes of any text decode to it with its unpaired surrogates replaced, and a leading byte order mark dropped.
  lemma {:induction false} DecodedExactly(t: Text)
    ensures var r := Repaired(t);
            Decode(Encode(t)) == Some(if r != [] && r[0] == 0xFEFF then r[1..] else r)
  {
    var r := Repaired(t);
    hide DecodeFrom, FourBytes, Joined;
    RepairedIsPaired(t);
    EncodesRepaired(t);
    EncodedDecodes(r);
    if r != [] && r[0] == 0xFEFF {
      EncodedDecodes(r[1..]);
      MarkedBytes(r);
    } else {
      UnmarkedBytes(r);
    }
  }

  lemma {:induction false} MarkedBytes(r: Text)
    requires r != [] && r[0] == 0xFEFF
    ensures |Encode(r)| >= 3 && Encode(r)[0] == 239 && Encode(r)[1] == 187 && Encode(r)[2] == 191
    ensures Encode(r)[3..] == Encode(r[1..])
  {
    assert ThreeBytes(0xFEFF) == [239, 187, 191];
  }

  lemma {:induction false} UnmarkedBytes(r: Text)
    requires WellPaired(r) && (r != [] ==> r[0] != 0xFEFF)
    ensures !(|Encode(r)| >= 3 && Encode(r)[0] == 239 && Encode(r)[1] == 187 && Encode(r)[2] == 191)
  {
    if r != [] && r[0] >= 0x800 && !IsHigh(r[0]) {
      var c, d := r[0], r[0] / 64;
      assert ThreeBytes(c) == [224 + d / 64, 128 + d % 64, 128 + c % 64];
      assert Encode(r)[..3] == ThreeBytes(c);
      assert c == 64 * d + c % 64 && d == 64 * (d / 64) + d % 64;
    }
  }

  /******* The bytes *******/

  predicate Continues(b: Byte) { 0x80 <= b <= 0xBF }

  // The bytes spell the scalar value by the table of section 3 of RFC 3629: a lead byte that says how many there are,
  // continuation bytes, and the value's bits in order, in the shortest of the four forms.
  predicate Spells(b: Bytes, c: int) {
    if c < 0x80 then |b| == 1 && b[0] == c
    else if c < 0x800 then
      && |b| == 2 && 0xC0 <= b[0] <= 0xDF && Continues(b[1])
      && Bits(b[0], 0xC0) * 0x40 + Bits(b[1], 0x80) == c
    else if c < 0x1_0000 then
      && |b| == 3 && 0xE0 <= b[0] <= 0xEF && Continues(b[1]) && Continues(b[2])
      && Bits(b[0], 0xE0) * 0x1000 + Bits(b[1], 0x80) * 0x40 + Bits(b[2], 0x80) == c
    else
      && |b| == 4 && 0xF0 <= b[0] <= 0xF4 && Continues(b[1]) && Continues(b[2]) && Continues(b[3])
      && Bits(b[0], 0xF0) * 0x4_0000 + Bits(b[1], 0x80) * 0x1000 + Bits(b[2], 0x80) * 0x40 + Bits(b[3], 0x80) == c
  }

  // The first scalar value of a text and how many code units it takes: a surrogate pair is one value above 0xFFFF, a
  // surrogate alone is read as the replacement character.
  function FirstScalar(t: Text): (int, nat)
    requires t != []
  {
    if 0xD800 <= t[0] <= 0xDBFF && |t| > 1 && 0xDC00 <= t[1] <= 0xDFFF then
      var high: int, low: int := t[0], t[1];
      ((high - 0xD800) * 0x400 + (low - 0xDC00) + 0x1_0000, 2)
    else if 0xD800 <= t[0] <= 0xDFFF then (0xFFFD, 1)
    else (t[0], 1)
  }

  // Archived bytes are the UTF-8 of the text, scalar value by scalar value.
  lemma {:induction false} BytesAreUtf8(t: Text)
    ensures t == [] ==> Encode(t) == []
    ensures t != [] ==>
              var (c, n) := FirstScalar(t);
              var k := |Encode(t)| - |Encode(t[n..])|;
              && 0 < k && Encode(t)[k..] == Encode(t[n..]) && Spells(Encode(t)[..k], c)
  {
    if t != [] {
      var (c, n) := FirstScalar(t);
      var head := HeadBytes(c);
      SpellsItself(c);
      assert Encode(t) == head + Encode(t[n..]);
    }
  }

  function HeadBytes(c: int): Bytes
    requires 0 <= c < 0x11_0000
  {
    if c < 0x80 then [c] else if c < 0x800 then TwoBytes(c) else if c < 0x1_0000 then ThreeBytes(c) else FourBytes(c)
  }

  lemma {:induction false} SpellsItself(c: int)
    requires 0 <= c < 0x11_0000
    ensures Spells(HeadBytes(c), c)
  {
    var d, e := c / 64, c / 64 / 64;
    assert c == 64 * d + c % 64 && d == 64 * e + d % 64 && e == 64 * (e / 64) + e % 64;
  }
}
