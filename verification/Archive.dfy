// The content-addressed object archive: canonical JSON stored as UTF-8 bytes under its own hash.
module Archive {
  import opened Prelude
  import opened Keyed
  import opened CanonicalJson
  import opened JsonRoundTrip

  type Byte = x: int | 0 <= x < 256

  type Bytes = seq<Byte>

  /******* UTF-8 *******/

  function Tail(n: int): Byte { 128 + n % 64 }

  function TwoBytes(c: int): (b: Bytes)
    requires 0x80 <= c < 0x800
    ensures |b| == 2
  {
    [192 + c / 64, Tail(c)]
  }

  function ThreeBytes(c: int): (b: Bytes)
    requires 0x800 <= c < 0x1_0000
    ensures |b| == 3
  {
    [224 + c / 64 / 64, Tail(c / 64), Tail(c)]
  }

  function FourBytes(c: int): (b: Bytes)
    requires 0x1_0000 <= c < 0x11_0000
    ensures |b| == 4
  {
    [240 + c / 64 / 64 / 64, Tail(c / 64 / 64), Tail(c / 64), Tail(c)]
  }

  function Joined(high: Unit, low: Unit): int
    requires IsHigh(high) && IsLow(low)
  {
    0x1_0000 + 1024 * (high - 0xD800) + (low - 0xDC00)
  }

  // TextEncoder.encode; a surrogate without its other half becomes U+FFFD.
  function Encode(t: Text): Bytes {
    if t == [] then []
    else if t[0] < 0x80 then [t[0]] + Encode(t[1..])
    else if t[0] < 0x800 then TwoBytes(t[0]) + Encode(t[1..])
    else if IsHigh(t[0]) && |t| > 1 && IsLow(t[1]) then FourBytes(Joined(t[0], t[1])) + Encode(t[2..])
    else ThreeBytes(if IsHigh(t[0]) || IsLow(t[0]) then 0xFFFD else t[0]) + Encode(t[1..])
  }

  // A byte without its marker.
  function Bits(b: int, marker: int): int { b - marker }

  predicate IsTail(b: Byte) { 128 <= b < 192 }

  function Units(c: int): Text
    requires 0 <= c < 0x11_0000
  {
    if c < 0x1_0000 then [c] else [0xD800 + (c - 0x1_0000) / 1024, 0xDC00 + (c - 0x1_0000) % 1024]
  }

  // The first character of well-formed UTF-8 and how many bytes it takes.
  function FirstChar(b: Bytes): Option<(int, nat)>
    requires b != []
  {
    if b[0] < 128 then Some((b[0], 1))
    else if 194 <= b[0] < 224 && |b| > 1 && IsTail(b[1]) then
      var c: int := 64 * Bits(b[0], 192) + Bits(b[1], 128);
      Some((c, 2))
    else if 224 <= b[0] < 240 && |b| > 2 && IsTail(b[1]) && IsTail(b[2]) then
      var c: int := 4096 * Bits(b[0], 224) + 64 * Bits(b[1], 128) + Bits(b[2], 128);
      if c < 0x800 || IsHigh(c) || IsLow(c) then None else Some((c, 3))
    else if 240 <= b[0] < 245 && |b| > 3 && IsTail(b[1]) && IsTail(b[2]) && IsTail(b[3]) then
      var c: int := 262144 * Bits(b[0], 240) + 4096 * Bits(b[1], 128) + 64 * Bits(b[2], 128) + Bits(b[3], 128);
      if c < 0x1_0000 || c >= 0x11_0000 then None else Some((c, 4))
    else None
  }

  function DecodeFrom(b: Bytes): Option<Text>
    decreases |b|
  {
    if b == [] then Some([])
    else
      var first := FirstChar(b);
      if first.None? then None
      else
        var more := DecodeFrom(b[first.value.1..]);
        if more.None? then None else Some(Units(first.value.0) + more.value)
  }

  // TextDecoder.decode drops a leading byte order mark.
  function Decode(b: Bytes): Option<Text> {
    if |b| >= 3 && b[0] == 239 && b[1] == 187 && b[2] == 191 then DecodeFrom(b[3..]) else DecodeFrom(b)
  }

  lemma {:induction false} TwoBytesRead(c: int, rest: Bytes)
    requires 0x80 <= c < 0x800
    ensures FirstChar(TwoBytes(c) + rest) == Some((c, 2))
  {
    var b := TwoBytes(c) + rest;
    assert b[0] == 192 + c / 64 && b[1] == 128 + c % 64;
  }

  lemma {:induction false} ThreeBytesRead(c: int, rest: Bytes)
    requires 0x800 <= c < 0x1_0000 && !(0xD800 <= c < 0xE000)
    ensures FirstChar(ThreeBytes(c) + rest) == Some((c, 3))
  {
    var b := ThreeBytes(c) + rest;
    var d := c / 64;
    assert b[0] == 224 + d / 64 && b[1] == 128 + d % 64 && b[2] == 128 + c % 64;
    assert c == 64 * d + c % 64 && d == 64 * (d / 64) + d % 64;
  }

  lemma {:induction false} FourBytesRead(c: int, rest: Bytes)
    requires 0x1_0000 <= c < 0x11_0000
    ensures FirstChar(FourBytes(c) + rest) == Some((c, 4))
  {
    var b := FourBytes(c) + rest;
    var d := c / 64;
    var e := d / 64;
    assert b[0] == 240 + e / 64 && b[1] == 128 + e % 64 && b[2] == 128 + d % 64 && b[3] == 128 + c % 64;
    assert c == 64 * d + c % 64 && d == 64 * e + d % 64 && e == 64 * (e / 64) + e % 64;
  }

  // A character read off the front leaves the rest to read.
  lemma {:induction false} ReadOff(head: Bytes, rest: Bytes, c: int)
    requires head != [] && 0 <= c < 0x11_0000 && FirstChar(head + rest) == Some((c, |head|))
    requires DecodeFrom(rest).Some?
    ensures DecodeFrom(head + rest) == Some(Units(c) + DecodeFrom(rest).value)
  {
    assert (head + rest)[|head|..] == rest;
  }

  lemma {:induction false} EncodedDecodes(t: Text)
    requires WellPaired(t)
    ensures DecodeFrom(Encode(t)) == Some(t)
    decreases |t|
  {
    hide FirstChar, TwoBytes, ThreeBytes, FourBytes, DecodeFrom;
    if t == [] {
      assert DecodeFrom([]) == Some([]) by { DecodedNothing(); }
    } else if IsHigh(t[0]) {
      var c, rest := Joined(t[0], t[1]), Encode(t[2..]);
      EncodedDecodes(t[2..]);
      FourBytesRead(c, rest);
      ReadOff(FourBytes(c), rest, c);
      assert Units(c) == t[..2];
      assert t == t[..2] + t[2..];
    } else {
      var c, rest := t[0], Encode(t[1..]);
      EncodedDecodes(t[1..]);
      if c < 0x80 {
        OneByteRead(c, rest);
        ReadOff([c], rest, c);
      } else if c < 0x800 {
        TwoBytesRead(c, rest);
        ReadOff(TwoBytes(c), rest, c);
      } else {
        ThreeBytesRead(c, rest);
        ReadOff(ThreeBytes(c), rest, c);
      }
      assert t == Units(c) + t[1..];
    }
  }

  lemma DecodedNothing()
    ensures DecodeFrom([]) == Some([])
  {
  }

  lemma OneByteRead(c: int, rest: Bytes)
    requires 0 <= c < 0x80
    ensures FirstChar([c] + rest) == Some((c, 1))
  {
  }

  /******* The archive *******/

  // A hash is the bytes it was computed from.
  datatype Digest = Keccak(bytes: Bytes)

  datatype Key = ContentKey(hash: Digest) | OtherKey(name: string)

  datatype Descriptor = Descriptor(objectHash: Digest, objectKey: Key, contentLength: nat, capturedAt: Timestamp)

  type Objects = map<Key, Bytes>

  function Put(objects: Objects, key: Key, bytes: Bytes): Result<Objects> {
    if key in objects then if objects[key] != bytes then Err(ArchiveIntegrity) else Ok(objects)
    else Ok(objects[key := bytes])
  }

  function Archived(objects: Objects, v: Json, capturedAt: Timestamp): Result<(Objects, Descriptor)> {
    var text :- CanonicalText(v);
    var bytes := Encode(text);
    var stored :- Put(objects, ContentKey(Keccak(bytes)), bytes);
    Ok((stored, Descriptor(Keccak(bytes), ContentKey(Keccak(bytes)), |bytes|, capturedAt)))
  }

  function ReadBack(objects: Objects, d: Descriptor): Result<Json> {
    if d.objectKey !in objects then Err(DataUnavailable)
    else
      var bytes := objects[d.objectKey];
      if |bytes| != d.contentLength || Keccak(bytes) != d.objectHash then Err(ArchiveIntegrity)
      else
        var text := Decode(bytes);
        if text.None? || Parse(text.value).Err? then Err(ArchiveIntegrity) else Parse(text.value)
  }

  class MemoryObjectArchive {
    var objects: Objects

    constructor ()
      ensures objects == map[]
    {
      objects := map[];
    }

    method PutIfAbsent(key: Key, bytes: Bytes) returns (result: Result<()>)
      modifies this
      ensures result.Ok? ==> Put(old(objects), key, bytes) == Ok(objects)
      ensures result.Err? ==> Put(old(objects), key, bytes) == Err(result.code) && objects == old(objects)
    {
      if key in objects && objects[key] != bytes { return Err(ArchiveIntegrity); }
      if key !in objects { objects := objects[key := bytes]; }
      return Ok(());
    }

    method Get(key: Key) returns (bytes: Option<Bytes>)
      ensures bytes == if key in objects then Some(objects[key]) else None
    {
      return if key in objects then Some(objects[key]) else None;
    }
  }

  method ArchiveJson(archive: MemoryObjectArchive, v: Json, capturedAt: Timestamp) returns (result: Result<Descriptor>)
    modifies archive
    ensures result.Ok? ==> Archived(old(archive.objects), v, capturedAt) == Ok((archive.objects, result.value))
    ensures result.Err? ==> Archived(old(archive.objects), v, capturedAt) == Err(result.code)
                            && archive.objects == old(archive.objects)
  {
    var text :- CanonicalText(v);
    var bytes := Encode(text);
    var objectHash := Keccak(bytes);
    var objectKey := ContentKey(objectHash);
    var stored :- archive.PutIfAbsent(objectKey, bytes);
    return Ok(Descriptor(objectHash, objectKey, |bytes|, capturedAt));
  }

  method ReadArchivedJson(archive: MemoryObjectArchive, d: Descriptor) returns (result: Result<Json>)
    ensures result == ReadBack(archive.objects, d)
  {
    var bytes := archive.Get(d.objectKey);
    if bytes.None? { return Err(DataUnavailable); }
    if |bytes.value| != d.contentLength { return Err(ArchiveIntegrity); }
    if Keccak(bytes.value) != d.objectHash { return Err(ArchiveIntegrity); }
    var text := Decode(bytes.value);
    if text.None? { return Err(ArchiveIntegrity); }
    var parsed := Parse(text.value);
    return if parsed.Err? then Err(ArchiveIntegrity) else parsed;
  }

  /******* What is archived comes back *******/

  predicate NoSurrogates(t: Text) {
    forall i | 0 <= i < |t| :: !IsHigh(t[i]) && !IsLow(t[i])
  }

  lemma {:induction false} PlainPrefix(t: Text, rest: Text)
    requires NoSurrogates(t) && WellPaired(rest)
    ensures WellPaired(t + rest)
  {
    if t == [] {
      assert t + rest == rest;
    } else {
      PlainPrefix(t[1..], rest);
      assert (t + rest)[1..] == t[1..] + rest;
    }
  }

  lemma {:induction false} PairedTogether(a: Text, b: Text)
    requires WellPaired(a) && WellPaired(b)
    ensures WellPaired(a + b)
    decreases |a|
  {
    if a == [] {
      assert a + b == b;
    } else if IsHigh(a[0]) {
      PairedTogether(a[2..], b);
      assert (a + b)[2..] == a[2..] + b;
    } else {
      PairedTogether(a[1..], b);
      assert (a + b)[1..] == a[1..] + b;
    }
  }

  lemma EscapeOfNonSurrogate(u: Unit)
    requires !IsHigh(u) && !IsLow(u)
    ensures NoSurrogates(Escape(u))
  {
  }

  lemma {:induction false} EscapedIsWellPaired(s: Text)
    requires WellPaired(s)
    ensures WellPaired(EscapeAll(s))
    decreases |s|
  {
    hide Escape;
    if s != [] {
      if IsHigh(s[0]) {
        EscapedIsWellPaired(s[2..]);
        EscapedPair(s);
        PairedTogether(s[..2], EscapeAll(s[2..]));
      } else {
        EscapedIsWellPaired(s[1..]);
        EscapeOfNonSurrogate(s[0]);
        PlainPrefix(Escape(s[0]), EscapeAll(s[1..]));
      }
    }
  }

  lemma EscapeStep(s: Text)
    requires s != []
    ensures EscapeAll(s) == Escape(s[0]) + EscapeAll(s[1..])
  {
  }

  lemma Regrouped(a: Unit, b: Unit, rest: Text)
    ensures [a] + ([b] + rest) == [a, b] + rest
  {
  }

  lemma EscapeOfSurrogate(u: Unit)
    requires IsHigh(u) || IsLow(u)
    ensures Escape(u) == [u]
  {
  }

  lemma Pair(high: Unit, low: Unit)
    requires IsHigh(high) && IsLow(low)
    ensures WellPaired([high, low])
  {
  }

  lemma {:induction false} EscapedPair(s: Text)
    requires |s| > 1 && IsHigh(s[0]) && IsLow(s[1])
    ensures EscapeAll(s) == s[..2] + EscapeAll(s[2..])
    ensures WellPaired(s[..2])
  {
    hide EscapeAll, WellPaired, Escape;
    assert Escape(s[0]) == [s[0]] && Escape(s[1]) == [s[1]] by { EscapeOfSurrogate(s[0]); EscapeOfSurrogate(s[1]); }
    EscapeStep(s);
    EscapeStep(s[1..]);
    assert s[1..][1..] == s[2..];
    Regrouped(s[0], s[1], EscapeAll(s[2..]));
    assert s[..2] == [s[0], s[1]];
    Pair(s[0], s[1]);
  }

  lemma {:induction false} JoinedIsWellPaired(parts: seq<Text>)
    requires forall i | 0 <= i < |parts| :: WellPaired(parts[i])
    ensures WellPaired(Join(parts))
  {
    if |parts| > 1 {
      JoinedIsWellPaired(parts[1..]);
      PlainPrefix([COMMA], Join(parts[1..]));
      PairedTogether(parts[0], [COMMA] + Join(parts[1..]));
      assert Join(parts) == parts[0] + ([COMMA] + Join(parts[1..]));
    }
  }

  lemma {:induction false} QuotedIsWellPaired(s: Text)
    requires WellPaired(s)
    ensures WellPaired(Quote(s))
  {
    EscapedIsWellPaired(s);
    Bracketed(QUOTE, EscapeAll(s), QUOTE);
  }

  lemma {:induction false} DecimalIsPlain(n: nat)
    ensures NoSurrogates(Decimal(n))
  {
    if n >= 10 { DecimalIsPlain(n / 10); }
  }

  lemma {:induction false} Bracketed(open: Unit, t: Text, close: Unit)
    requires WellPaired(t) && NoSurrogates([open]) && NoSurrogates([close])
    ensures WellPaired([open] + t + [close])
  {
    PlainPrefix([close], []);
    assert [close] + [] == [close];
    PlainPrefix([open], t);
    PairedTogether([open] + t, [close]);
  }

  // Canonical text keeps every surrogate in its pair, so its bytes are UTF-8 for exactly that text.
  lemma {:induction false} PrintedIsWellPaired(v: Json)
    requires Plain(v)
    ensures WellPaired(Print(v))
    decreases v
  {
    PrintedParts(v);
    if !v.Arr? && !v.Obj? { AtomIsWellPaired(v); }
    hide Join, Sort, MapEntries, Print, WellPaired, FieldTexts;
    match v
    case Arr(items) =>
      forall i | 0 <= i < |items|
        ensures WellPaired(PrintAll(items)[i])
      {
        PrintedIsWellPaired(items[i]);
      }
      JoinedIsWellPaired(PrintAll(items));
      Bracketed(OPEN_ARRAY, Join(PrintAll(items)), CLOSE_ARRAY);
    case Obj(fields) =>
      var sorted := Sort(fields);
      SortKeeps(fields);
      var parts := FieldTexts(PrintEntries(sorted));
      forall i | 0 <= i < |parts|
        ensures WellPaired(parts[i])
      {
        assert sorted[i] in sorted;
        assert sorted[i] in fields;
        var j :| 0 <= j < |fields| && fields[j] == sorted[i];
        PrintedIsWellPaired(fields[j].value);
        FieldIsWellPaired(fields[j]);
        FieldTextsSplitAt(sorted, i);
      }
      JoinedIsWellPaired(parts);
      Bracketed(OPEN_OBJECT, Join(parts), CLOSE_OBJECT);
    case _ =>
  }

  lemma {:induction false} AtomIsWellPaired(v: Json)
    requires Plain(v) && !v.Arr? && !v.Obj?
    ensures WellPaired(Print(v))
  {
    hide EscapeAll, Decimal, WellPaired;
    match v
    case Null => PlainPrefix(NULL_TEXT, []); Empty(NULL_TEXT);
    case Bool(b) => PlainPrefix(Print(v), []); Empty(Print(v));
    case Num(n) =>
      DecimalIsPlain(if n < 0 then -n else n);
      PlainPrefix(PrintNumber(n), []);
      Empty(PrintNumber(n));
    case Str(s) => QuotedIsWellPaired(s);
  }

  lemma Empty(t: Text)
    ensures WellPaired([]) && t + [] == t
  {
  }

  lemma {:induction false} FieldTextsSplitAt(fields: seq<Entry<Json>>, i: nat)
    requires i < |fields|
    ensures FieldTexts(PrintEntries(fields))[i] == Quote(fields[i].key) + [COLON] + Print(fields[i].value)
  {
    hide Print, Quote;
  }

  lemma {:induction false} FieldIsWellPaired(f: Entry<Json>)
    requires WellPaired(f.key) && WellPaired(Print(f.value))
    ensures WellPaired(Quote(f.key) + [COLON] + Print(f.value))
  {
    hide Print, Quote;
    QuotedIsWellPaired(f.key);
    PlainPrefix([COLON], Print(f.value));
    PairedTogether(Quote(f.key), [COLON] + Print(f.value));
    assert Quote(f.key) + [COLON] + Print(f.value) == Quote(f.key) + ([COLON] + Print(f.value));
  }

  // A later caller's puts, any keys and any bytes; a refused one changes nothing.
  function PutAll(objects: Objects, puts: seq<(Key, Bytes)>): Objects
    decreases puts
  {
    if puts == [] then objects
    else
      var r := Put(objects, puts[0].0, puts[0].1);
      PutAll(if r.Ok? then r.value else objects, puts[1..])
  }

  lemma {:induction false} StoredStays(objects: Objects, puts: seq<(Key, Bytes)>, key: Key)
    requires key in objects
    ensures key in PutAll(objects, puts) && PutAll(objects, puts)[key] == objects[key]
    decreases puts
  {
    if puts != [] {
      var r := Put(objects, puts[0].0, puts[0].1);
      StoredStays(if r.Ok? then r.value else objects, puts[1..], key);
    }
  }

  predicate PutHere(put: (Key, Bytes), key: Key) { put.0 == key }

  // Under a key there are, after any puts, the bytes that were there before; else those of the first put under it;
  // else nothing. Later puts under it, of whatever bytes, change nothing.
  lemma {:induction false} FirstPutWins(objects: Objects, puts: seq<(Key, Bytes)>, key: Key)
    ensures key in objects ==> key in PutAll(objects, puts) && PutAll(objects, puts)[key] == objects[key]
    ensures key in PutAll(objects, puts) <==> key in objects || exists i | 0 <= i < |puts| :: PutHere(puts[i], key)
    ensures forall i | key !in objects && 0 <= i < |puts| && PutHere(puts[i], key)
                       && (forall j | 0 <= j < i :: !PutHere(puts[j], key)) ::
              PutAll(objects, puts)[key] == puts[i].1
    decreases puts
  {
    if key in objects {
      StoredStays(objects, puts, key);
    } else if puts != [] {
      var r := Put(objects, puts[0].0, puts[0].1);
      var next := if r.Ok? then r.value else objects;
      FirstPutWins(next, puts[1..], key);
      assert forall i | 0 < i < |puts| :: puts[1..][i - 1] == puts[i];
      assert forall j | 0 <= j < |puts[1..]| :: puts[1..][j] == puts[j + 1];
    }
  }

  lemma {:induction false} NoByteOrderMark(v: Json)
    requires Plain(v)
    ensures Decode(Encode(Print(v))) == Some(Print(v))
  {
    hide WellPaired;
    PrintedIsWellPaired(v);
    EncodedDecodes(Print(v));
    FirstUnit(v);
    assert Encode(Print(v))[0] < 128;
  }

  lemma FirstUnit(v: Json)
    ensures Print(v) != [] && Print(v)[0] < 128
  {
  }

  // Archiving succeeds exactly on plain values whose key does not already hold other bytes, and what it stored
  // reads back as the same value through any later puts.
  lemma {:induction false} ArchivedComesBack(objects: Objects, v: Json, capturedAt: Timestamp, puts: seq<(Key, Bytes)>)
    requires UniqueKeys(v)
    ensures Archived(objects, v, capturedAt).Ok? <==>
              && Plain(v)
              && var bytes := Encode(Print(v));
                 ContentKey(Keccak(bytes)) in objects ==> objects[ContentKey(Keccak(bytes))] == bytes
    ensures Archived(objects, v, capturedAt).Ok? ==>
              var stored := Archived(objects, v, capturedAt).value;
              ReadBack(PutAll(stored.0, puts), stored.1) == Ok(Normalize(v)) && Equivalent(v, Normalize(v))
  {
    hide Encode, Decode, Print, Parse, Plain, Normalize, Equivalent, UniqueKeys;
    NormalFormIsTheSameValue(v);
    if Archived(objects, v, capturedAt).Ok? {
      var r := Archived(objects, v, capturedAt).value;
      StoredStays(r.0, puts, r.1.objectKey);
      NoByteOrderMark(v);
      TextReadsBack(v);
    }
  }

  // Every content key holds the bytes it names.
  ghost predicate ContentAddressed(objects: Objects) {
    forall h: Digest | ContentKey(h) in objects :: Keccak(objects[ContentKey(h)]) == h
  }

  // An archive only written by archiving never sees a collision.
  lemma {:induction false} ArchivingStaysContentAddressed(objects: Objects, v: Json, capturedAt: Timestamp)
    requires ContentAddressed(objects)
    ensures Archived(objects, v, capturedAt).Ok? <==> Plain(v)
    ensures Archived(objects, v, capturedAt).Ok? ==> ContentAddressed(Archived(objects, v, capturedAt).value.0)
  {
    hide Encode, Plain, Print;
  }
}
