// Canonical text is the one shortest text that reads back as its value.
module ShortestText {
  import opened Prelude
  import opened Keyed
  import opened CanonicalJson
  import opened JsonRoundTrip

  // No longer than the other text, and as long only if it is the same.
  predicate Shorter(a: Text, x: Text) {
    |a| <= |x| && (|a| == |x| ==> a == x)
  }

  // What a reader took off the front of a text.
  function Taken(t: Text, rest: Text): (x: Text)
    requires |rest| <= |t|
    ensures |x| == |t| - |rest|
  {
    t[..|t| - |rest|]
  }

  // The reader took some text off the front, and none shorter than a.
  predicate ReadsAs(a: Text, t: Text, rest: Text) {
    |rest| <= |t| && t == Taken(t, rest) + rest && Shorter(a, Taken(t, rest))
  }

  lemma {:induction false} InTurn(a: Text, b: Text, t: Text, mid: Text, rest: Text)
    requires ReadsAs(a, t, mid) && ReadsAs(b, mid, rest)
    ensures ReadsAs(a + b, t, rest)
  {
    var x, y := Taken(t, mid), Taken(mid, rest);
    assert t == x + (y + rest);
    assert x + (y + rest) == (x + y) + rest;
    assert Taken(t, rest) == x + y;
  }

  lemma {:induction false} OneUnit(t: Text)
    requires t != []
    ensures ReadsAs([t[0]], t, t[1..])
  {
    assert Taken(t, t[1..]) == [t[0]];
  }

  /******* Strings *******/

  lemma {:induction false} EscapeReads(t: Text)
    requires t != [] && t[0] == BACKSLASH && ReadEscape(t[1..]).Some?
    ensures var r := ReadEscape(t[1..]).value;
            ReadsAs(Escape(r.value), t, r.rest)
  {
    var w := t[1..];
    var r := ReadEscape(w).value;
    if w[0] == 117 && |w| > 4 {
      assert r.rest == t[6..];
      assert Taken(t, r.rest) == t[..6];
      HexReads(w[1..5]);
      assert t[..6] == [BACKSLASH, 117] + w[1..5];
    } else {
      assert r.rest == t[2..];
      assert Taken(t, r.rest) == [BACKSLASH, w[0]];
    }
  }

  // Four hexadecimal digits of a unit below 32 start with two zeros.
  lemma {:induction false} HexReads(h: Text)
    requires |h| == 4 && ReadHex(h).Some?
    ensures |Escape(ReadHex(h).value)| <= 6
    ensures |Escape(ReadHex(h).value)| == 6 ==> Escape(ReadHex(h).value) == [BACKSLASH, 117] + h
  {
    var a, b, c, d := HexValue(h[0]).value, HexValue(h[1]).value, HexValue(h[2]).value, HexValue(h[3]).value;
    var u := ReadHex(h).value;
    assert u == 4096 * a + 256 * b + 16 * c + d;
    if u < 32 {
      assert a == 0 && b == 0 && u / 16 == c && u % 16 == d;
      assert h == [h[0], h[1], h[2], h[3]];
    }
  }

  // Whatever text a string is read from, up to its closing quote, none is shorter than the printed one.
  lemma {:induction false} CharsRead(t: Text)
    requires ReadChars(t).Some?
    ensures var r := ReadChars(t).value;
            ReadsAs(EscapeAll(r.value) + [QUOTE], t, r.rest)
    decreases |t|
  {
    var r := ReadChars(t).value;
    if t[0] == QUOTE {
      OneUnit(t);
      assert EscapeAll([]) + [QUOTE] == [QUOTE];
    } else {
      var first := (if t[0] == BACKSLASH then ReadEscape(t[1..]) else Some(Parsed(t[0], t[1..]))).value;
      FirstCharReads(t);
      CharsRead(first.rest);
      var s := ReadChars(first.rest).value.value;
      InTurn(Escape(first.value), EscapeAll(s) + [QUOTE], t, first.rest, r.rest);
      EscapedInTurn(first.value, s);
    }
  }

  lemma {:induction false} FirstCharReads(t: Text)
    requires t != [] && t[0] >= 32 && t[0] != QUOTE
    requires t[0] == BACKSLASH ==> ReadEscape(t[1..]).Some?
    ensures var first := (if t[0] == BACKSLASH then ReadEscape(t[1..]) else Some(Parsed(t[0], t[1..]))).value;
            ReadsAs(Escape(first.value), t, first.rest)
  {
    if t[0] == BACKSLASH {
      EscapeReads(t);
    } else {
      OneUnit(t);
    }
  }

  lemma {:induction false} EscapedInTurn(u: Unit, s: Text)
    ensures Escape(u) + (EscapeAll(s) + [QUOTE]) == EscapeAll([u] + s) + [QUOTE]
  {
    assert ([u] + s)[1..] == s;
  }

  /******* Numbers *******/

  predicate AllDigits(t: Text) {
    forall i | 0 <= i < |t| :: IsDigit(t[i])
  }

  // The value of a run of digits.
  function ValueOf(t: Text): nat
    requires AllDigits(t)
  {
    if t == [] then 0 else 10 * ValueOf(t[..|t| - 1]) + (t[|t| - 1] - 48)
  }

  lemma {:induction false} OneMoreDigit(before: Text, u: Unit)
    requires AllDigits(before) && IsDigit(u)
    ensures AllDigits(before + [u]) && ValueOf(before + [u]) == 10 * ValueOf(before) + (u - 48)
  {
    assert (before + [u])[..|before|] == before;
  }

  lemma {:induction false} TakenMore(before: Text, t: Text, rest: Text)
    requires t != [] && |rest| <= |t[1..]| && t[1..] == Taken(t[1..], rest) + rest
    ensures t == Taken(t, rest) + rest && before + [t[0]] + Taken(t[1..], rest) == before + Taken(t, rest)
  {
    assert Taken(t, rest) == [t[0]] + Taken(t[1..], rest);
  }

  lemma {:induction false} DigitsRead(t: Text, acc: nat, before: Text)
    requires AllDigits(before) && acc == ValueOf(before)
    ensures var r := ReadDigits(acc, t);
            && |r.rest| <= |t| && t == Taken(t, r.rest) + r.rest && AllDigits(before + Taken(t, r.rest))
            && r.value == ValueOf(before + Taken(t, r.rest))
    decreases |t|
  {
    hide ValueOf, AllDigits;
    if t != [] && IsDigit(t[0]) {
      OneMoreDigit(before, t[0]);
      DigitsRead(t[1..], 10 * acc + (t[0] - 48), before + [t[0]]);
      hide Taken;
      TakenMore(before, t, ReadDigits(acc, t).rest);
    } else {
      assert before + [] == before;
    }
  }

  // Leading zeros are the only other way to write a number.
  lemma {:induction false} DecimalIsShortest(t: Text)
    requires AllDigits(t) && t != []
    ensures Shorter(Decimal(ValueOf(t)), t)
    decreases |t|
  {
    var init, d := t[..|t| - 1], t[|t| - 1] - 48;
    assert t == init + [48 + d];
    if init == [] {
      assert ValueOf(init) == 0;
    } else {
      DecimalIsShortest(init);
      var m := ValueOf(init);
      assert ValueOf(t) / 10 == m && ValueOf(t) % 10 == d;
    }
  }

  lemma {:induction false} NatReads(t: Text)
    requires t != [] && IsDigit(t[0])
    ensures var r := ReadDigits(0, t);
            ReadsAs(Decimal(r.value), t, r.rest)
  {
    hide Decimal, Shorter, ReadDigits;
    assert ValueOf([]) == 0;
    DigitsRead(t, 0, []);
    StartsWithDigit(t);
    var x := Taken(t, ReadDigits(0, t).rest);
    assert [] + x == x;
    DecimalIsShortest(x);
  }

  lemma {:induction false} NumberShape(t: Text)
    requires t != [] && ReadNumber(t).Some?
    ensures var digits := if t[0] == MINUS then t[1..] else t;
            && digits != [] && IsDigit(digits[0])
            && var n := ReadDigits(0, digits);
            ReadNumber(t).value == Parsed(Num(if t[0] == MINUS then 0 - n.value else n.value), n.rest)
  {
    var digits := if t[0] == MINUS then t[1..] else t;
    assert t[0] == MINUS ==> digits[1..] == t[2..];
    ReadFromFirstDigit(digits);
    hide ReadDigits;
  }

  lemma {:induction false} NumberReads(t: Text)
    requires t != [] && ReadNumber(t).Some?
    ensures var r := ReadNumber(t).value;
            r.value.Num? && ReadsAs(PrintNumber(r.value.number), t, r.rest)
  {
    hide ReadDigits, ReadNumber, ReadsAs;
    NumberShape(t);
    if t[0] == MINUS {
      var n := ReadDigits(0, t[1..]);
      NatReads(t[1..]);
      OneUnit(t);
      InTurn([MINUS], Decimal(n.value), t, t[1..], n.rest);
      if n.value == 0 {
        NoMinusZero(t, n.rest);
      }
    } else {
      NatReads(t);
    }
  }

  // Minus zero reads as zero, which prints shorter.
  lemma {:induction false} NoMinusZero(t: Text, rest: Text)
    requires ReadsAs([MINUS] + Decimal(0), t, rest)
    ensures ReadsAs(PrintNumber(0), t, rest)
  {
    assert Decimal(0) == [48];
  }

  lemma {:induction false} StartsWithDigit(t: Text)
    requires t != [] && IsDigit(t[0])
    ensures |ReadDigits(0, t).rest| < |t|
  {
  }

  /******* Values *******/

  // Every record lists its keys in order.
  predicate KeysSorted(v: Json) {
    match v
    case Arr(items) => forall i | 0 <= i < |items| :: KeysSorted(items[i])
    case Obj(fields) => Sort(fields) == fields && forall i | 0 <= i < |fields| :: KeysSorted(fields[i].value)
    case _ => true
  }

  lemma {:induction false} WordReads(word: Text, v: Json, t: Text)
    requires word != [] && ReadWord(word, v, t).Some?
    ensures ReadsAs(word, t, ReadWord(word, v, t).value.rest) && ReadWord(word, v, t).value.value == v
  {
    var rest := t[|word|..];
    assert Taken(t, rest) == word;
  }

  lemma {:induction false} ValueReads(t: Text)
    requires Read(t).Some? && KeysSorted(Read(t).value.value)
    ensures ReadsAs(Print(Read(t).value.value), t, Read(t).value.rest)
    decreases |t|, 0
  {
    hide ReadsAs, ReadItems, ReadFields, ReadChars, ReadNumber, ReadWord, Print, EscapeAll, Sort;
    var v := Read(t).value.value;
    if t[0] == NULL_TEXT[0] {
      WordReads(NULL_TEXT, Null, t);
    } else if t[0] == TRUE_TEXT[0] {
      WordReads(TRUE_TEXT, Bool(true), t);
    } else if t[0] == FALSE_TEXT[0] {
      WordReads(FALSE_TEXT, Bool(false), t);
    } else if t[0] == QUOTE {
      CharsRead(t[1..]);
      QuotedReads(t, v.text, Read(t).value.rest);
    } else if t[0] == OPEN_ARRAY {
      if !(|t| > 1 && t[1] == CLOSE_ARRAY) { ItemsRead(t[1..]); }
      ArrayReads(t);
    } else if t[0] == OPEN_OBJECT {
      if !(|t| > 1 && t[1] == CLOSE_OBJECT) { FieldsRead(t[1..]); }
      ObjectReads(t);
    } else {
      NumberReads(t);
    }
    ScalarText(v);
  }

  lemma ScalarText(v: Json)
    ensures v.Null? ==> Print(v) == NULL_TEXT
    ensures v.Bool? ==> Print(v) == if v.flag then TRUE_TEXT else FALSE_TEXT
    ensures v.Num? ==> Print(v) == PrintNumber(v.number)
    ensures v.Str? ==> Print(v) == Quote(v.text)
  {
  }

  lemma {:induction false} QuotedReads(t: Text, s: Text, rest: Text)
    requires t != [] && t[0] == QUOTE && ReadsAs(EscapeAll(s) + [QUOTE], t[1..], rest)
    ensures ReadsAs(Quote(s), t, rest)
  {
    hide ReadsAs, EscapeAll;
    OneUnit(t);
    InTurn([QUOTE], EscapeAll(s) + [QUOTE], t, t[1..], rest);
    assert [QUOTE] + (EscapeAll(s) + [QUOTE]) == Quote(s);
  }

  lemma {:induction false} TwoUnits(t: Text)
    requires |t| > 1
    ensures ReadsAs([t[0], t[1]], t, t[2..])
  {
    assert Taken(t, t[2..]) == [t[0], t[1]];
  }

  lemma {:induction false} ArrayReads(t: Text)
    requires Read(t).Some? && t != [] && t[0] == OPEN_ARRAY
    requires !(|t| > 1 && t[1] == CLOSE_ARRAY) ==>
               && ReadItems(t[1..]).Some?
               && var r := ReadItems(t[1..]).value;
               ReadsAs(Join(PrintAll(r.value)) + [CLOSE_ARRAY], t[1..], r.rest)
    ensures Read(t).value.value.Arr? && ReadsAs(Print(Read(t).value.value), t, Read(t).value.rest)
  {
    hide ReadsAs, ReadItems, ReadFields, ReadChars, ReadNumber, Join, Print;
    var v, rest := Read(t).value.value, Read(t).value.rest;
    PrintedParts(v);
    if |t| > 1 && t[1] == CLOSE_ARRAY {
      TwoUnits(t);
      NoParts();
      assert PrintAll([]) == [];
      assert [OPEN_ARRAY] + [] + [CLOSE_ARRAY] == [t[0], t[1]];
    } else {
      OneUnit(t);
      InTurn([OPEN_ARRAY], Join(PrintAll(v.items)) + [CLOSE_ARRAY], t, t[1..], rest);
      assert [OPEN_ARRAY] + (Join(PrintAll(v.items)) + [CLOSE_ARRAY]) == Print(v);
    }
  }

  lemma {:induction false} ObjectReads(t: Text)
    requires Read(t).Some? && t != [] && t[0] == OPEN_OBJECT && KeysSorted(Read(t).value.value)
    requires !(|t| > 1 && t[1] == CLOSE_OBJECT) ==>
               && ReadFields(t[1..]).Some?
               && var r := ReadFields(t[1..]).value;
               ReadsAs(Join(FieldTexts(PrintEntries(r.value))) + [CLOSE_OBJECT], t[1..], r.rest)
    ensures Read(t).value.value.Obj? && ReadsAs(Print(Read(t).value.value), t, Read(t).value.rest)
  {
    hide ReadsAs, ReadItems, ReadFields, ReadChars, ReadNumber, Join, Print, Sort, FieldTexts, PrintEntries;
    var v, rest := Read(t).value.value, Read(t).value.rest;
    PrintedParts(v);
    if |t| > 1 && t[1] == CLOSE_OBJECT {
      TwoUnits(t);
      NoParts();
      assert [OPEN_OBJECT] + [] + [CLOSE_OBJECT] == [t[0], t[1]];
    } else {
      OneUnit(t);
      var inner := Join(FieldTexts(PrintEntries(v.fields)));
      InTurn([OPEN_OBJECT], inner + [CLOSE_OBJECT], t, t[1..], rest);
      assert [OPEN_OBJECT] + (inner + [CLOSE_OBJECT]) == Print(v);
    }
  }

  lemma {:induction false} ItemsRead(t: Text)
    requires ReadItems(t).Some?
    requires forall i | 0 <= i < |ReadItems(t).value.value| :: KeysSorted(ReadItems(t).value.value[i])
    ensures var r := ReadItems(t).value;
            ReadsAs(Join(PrintAll(r.value)) + [CLOSE_ARRAY], t, r.rest)
    decreases |t|, 1
  {
    hide ReadsAs, Read, Print, Join, KeysSorted;
    var first, r := Read(t).value, ReadItems(t).value;
    assert r.value[0] == first.value;
    ValueReads(t);
    OneUnit(first.rest);
    if first.rest[0] == CLOSE_ARRAY {
      InTurn(Print(first.value), [CLOSE_ARRAY], t, first.rest, r.rest);
      OneItem(first.value);
    } else {
      var more := ReadItems(first.rest[1..]).value;
      assert forall i | 0 <= i < |more.value| :: more.value[i] == r.value[i + 1];
      ItemsRead(first.rest[1..]);
      var tail := Join(PrintAll(more.value)) + [CLOSE_ARRAY];
      InTurn([COMMA], tail, first.rest, first.rest[1..], r.rest);
      InTurn(Print(first.value), [COMMA] + tail, t, first.rest, r.rest);
      MoreItems(first.value, more.value);
    }
  }

  lemma {:induction false} OneItem(v: Json)
    ensures Join(PrintAll([v])) + [CLOSE_ARRAY] == Print(v) + [CLOSE_ARRAY]
  {
    hide Print;
  }

  lemma {:induction false} MoreItems(v: Json, more: seq<Json>)
    requires more != []
    ensures Join(PrintAll([v] + more)) + [CLOSE_ARRAY] == Print(v) + ([COMMA] + (Join(PrintAll(more)) + [CLOSE_ARRAY]))
  {
    hide Print;
    assert PrintAll([v] + more)[1..] == PrintAll(more);
  }

  lemma {:induction false} FieldReads(t: Text)
    requires ReadField(t).Some? && KeysSorted(ReadField(t).value.value.value)
    ensures var r := ReadField(t).value;
            ReadsAs(FieldText(r.value), t, r.rest)
    decreases |t|, 1
  {
    hide ReadsAs, Read, ReadChars, Print, EscapeAll, KeysSorted;
    var r, key := ReadField(t).value, ReadChars(t[1..]).value;
    CharsRead(t[1..]);
    QuotedReads(t, key.value, key.rest);
    OneUnit(key.rest);
    ValueReads(key.rest[1..]);
    InTurn([COLON], Print(r.value.value), key.rest, key.rest[1..], r.rest);
    InTurn(Quote(key.value), [COLON] + Print(r.value.value), t, key.rest, r.rest);
    assert Quote(key.value) + ([COLON] + Print(r.value.value)) == FieldText(r.value);
  }

  lemma {:induction false} FieldsRead(t: Text)
    requires ReadFields(t).Some?
    requires forall i | 0 <= i < |ReadFields(t).value.value| :: KeysSorted(ReadFields(t).value.value[i].value)
    ensures var r := ReadFields(t).value;
            ReadsAs(Join(FieldTexts(PrintEntries(r.value))) + [CLOSE_OBJECT], t, r.rest)
    decreases |t|, 2
  {
    hide ReadsAs, ReadField, Print, Join, KeysSorted, FieldTexts, PrintEntries, FieldText;
    var first, r := ReadField(t).value, ReadFields(t).value;
    assert r.value[0] == first.value;
    FieldReads(t);
    OneUnit(first.rest);
    if first.rest[0] == CLOSE_OBJECT {
      InTurn(FieldText(first.value), [CLOSE_OBJECT], t, first.rest, r.rest);
      OneField(first.value);
    } else {
      var more := ReadFields(first.rest[1..]).value;
      assert forall i | 0 <= i < |more.value| :: more.value[i] == r.value[i + 1];
      FieldsRead(first.rest[1..]);
      var tail := Join(FieldTexts(PrintEntries(more.value))) + [CLOSE_OBJECT];
      InTurn([COMMA], tail, first.rest, first.rest[1..], r.rest);
      InTurn(FieldText(first.value), [COMMA] + tail, t, first.rest, r.rest);
      MoreFields(first.value, more.value);
    }
  }

  lemma {:induction false} OneField(f: Entry<Json>)
    ensures Join(FieldTexts(PrintEntries([f]))) + [CLOSE_OBJECT] == FieldText(f) + [CLOSE_OBJECT]
  {
    hide Print, FieldText, FieldTexts, PrintEntries;
    FieldTextsSplit([f]);
  }

  lemma {:induction false} MoreFields(f: Entry<Json>, more: seq<Entry<Json>>)
    requires more != []
    ensures Join(FieldTexts(PrintEntries([f] + more))) + [CLOSE_OBJECT]
            == FieldText(f) + ([COMMA] + (Join(FieldTexts(PrintEntries(more))) + [CLOSE_OBJECT]))
  {
    hide Print, FieldText, FieldTexts, PrintEntries;
    assert ([f] + more)[1..] == more;
    FieldTextsSplit([f] + more);
    FieldTextsSplit(more);
  }

  lemma {:induction false} NormalFormIsSorted(v: Json)
    requires UniqueKeys(v)
    ensures KeysSorted(Normalize(v))
  {
    PrintedParts(v);
    hide Sort, Print, Normalize, Join, FieldTexts;
    match v
    case Arr(items) =>
      forall i | 0 <= i < |items|
        ensures KeysSorted(NormalizeAll(items)[i])
      {
        NormalFormIsSorted(items[i]);
      }
    case Obj(fields) =>
      var sorted := Sort(fields);
      SortKeeps(fields);
      SortTwice(fields);
      SortMaps(Normalize, sorted);
      forall i | 0 <= i < |sorted|
        ensures KeysSorted(NormalizeEntries(sorted)[i].value)
      {
        assert sorted[i] in sorted;
        assert sorted[i] in fields;
        var j :| 0 <= j < |fields| && fields[j] == sorted[i];
        NormalFormIsSorted(fields[j].value);
      }
    case _ =>
      NormalFormOfScalar(v);
  }

  // Of all texts that read back as what the canonical text reads back as, the canonical one is the one shortest.
  lemma {:induction false} CanonicalIsTheOneShortest(v: Json, t: Text)
    requires UniqueKeys(v) && Parse(t) == Ok(Normalize(v))
    ensures |Print(v)| <= |t| && (|Print(v)| == |t| ==> t == Print(v))
  {
    hide Read, Print, Normalize, KeysSorted;
    NormalFormIsSorted(v);
    ValueReads(t);
    PrintOfNormalForm(v);
    assert Taken(t, []) == t;
  }

  // For one string: whatever escapes a text uses, up to a closing quote, if it reads back as s it is no shorter than
  // the printed s, and only the printed s is as short.
  lemma {:induction false} EscapesAreShortest(s: Text, t: Text)
    requires ReadChars(t + [QUOTE]) == Some(Parsed(s, []))
    ensures |EscapeAll(s)| <= |t| && (|EscapeAll(s)| == |t| ==> t == EscapeAll(s))
  {
    hide EscapeAll, ReadChars;
    CharsRead(t + [QUOTE]);
    assert Taken(t + [QUOTE], []) == t + [QUOTE];
    if |EscapeAll(s)| == |t| {
      assert (t + [QUOTE])[..|t|] == t && (EscapeAll(s) + [QUOTE])[..|t|] == EscapeAll(s);
    }
  }

  // For one number: leading zeros and a minus zero are read, and are longer.
  lemma {:induction false} DigitsAreShortest(n: int, t: Text)
    requires t != [] && ReadNumber(t) == Some(Parsed(Num(n), []))
    ensures |PrintNumber(n)| <= |t| && (|PrintNumber(n)| == |t| ==> t == PrintNumber(n))
  {
    NumberReads(t);
    assert Taken(t, []) == t;
  }

  // What the reader takes in a string, from section 7 of RFC 8259: the eight two-character escapes and nothing else
  // after a backslash but a hexadecimal one, and no raw control character.
  lemma {:induction false} StringsReadAsJson(u: Unit, rest: Text)
    ensures var told := ReadEscape([u] + rest);
            && (u == 34 || u == 92 || u == 47 ==> told == Some(Parsed(u, rest)))
            && (u == 98 ==> told == Some(Parsed(8, rest))) && (u == 102 ==> told == Some(Parsed(12, rest)))
            && (u == 110 ==> told == Some(Parsed(10, rest))) && (u == 114 ==> told == Some(Parsed(13, rest)))
            && (u == 116 ==> told == Some(Parsed(9, rest)))
            && (told.Some? ==> u in {34, 92, 47, 98, 102, 110, 114, 116, 117})
    ensures u < 32 ==> ReadChars([u] + rest).None?
  {
    assert ([u] + rest)[1..] == rest;
  }

  /******* The alphabet *******/

  // The code units of an ASCII string.
  function Ascii(s: string): (t: Text)
    requires forall i | 0 <= i < |s| :: s[i] as int < 128
    ensures |t| == |s|
  {
    seq(|s|, i requires 0 <= i < |s| => s[i] as int)
  }

  // The texts of each kind of value, in the words and marks of RFC 8259, without any space.
  lemma {:induction false} TextsAreJson(k: Text, x: Json, y: Json)
    ensures Print(Null) == Ascii("null") && Print(Bool(true)) == Ascii("true") && Print(Bool(false)) == Ascii("false")
    ensures Print(Num(0)) == Ascii("0") && Print(Num(-120)) == Ascii("-120")
    ensures Print(Str(k)) == Ascii("\"") + EscapeAll(k) + Ascii("\"")
    ensures Print(Arr([])) == Ascii("[]") && Print(Arr([x])) == Ascii("[") + Print(x) + Ascii("]")
    ensures Print(Arr([x, y])) == Ascii("[") + Print(x) + Ascii(",") + Print(y) + Ascii("]")
    ensures Print(Obj([])) == Ascii("{}")
    ensures Print(Obj([Entry(k, x)])) == Ascii("{") + Print(Str(k)) + Ascii(":") + Print(x) + Ascii("}")
  {
    AsciiMarks();
    AsciiWords();
    SomeNumbers();
    ArrayText([]);
    ArrayText([x]);
    ArrayText([x, y]);
    FieldsText([]);
    FieldsText([Entry(k, x)]);
    WordTexts(k);
    hide *;
  }

  lemma {:induction false} AsciiMarks()
    ensures Ascii("[") == [91] && Ascii("]") == [93] && Ascii("[]") == [91] + [93] && Ascii(",") == [44]
    ensures Ascii("{") == [123] && Ascii("}") == [125] && Ascii("{}") == [123] + [125] && Ascii(":") == [58]
    ensures Ascii("\"") == [34]
  {
    assert "[]"[0] == '[' && "[]"[1] == ']' && "{}"[0] == '{' && "{}"[1] == '}';
  }

  lemma {:induction false} AsciiWords()
    ensures Ascii("null") == [110, 117, 108, 108] && Ascii("true") == [116, 114, 117, 101]
    ensures Ascii("false") == [102, 97, 108, 115, 101]
    ensures Ascii("0") == [48] && Ascii("-120") == [45, 49, 50, 48]
  {
  }

  lemma {:induction false} SomeNumbers()
    ensures Print(Num(0)) == [48] && Print(Num(-120)) == [45, 49, 50, 48]
  {
    assert Decimal(1) == [49];
    assert Decimal(12) == Decimal(1) + [50] == [49, 50];
    assert Decimal(120) == Decimal(12) + [48] == [49, 50, 48];
  }

  lemma WordTexts(k: Text)
    ensures Print(Null) == [110, 117, 108, 108] && Print(Bool(true)) == [116, 114, 117, 101]
    ensures Print(Bool(false)) == [102, 97, 108, 115, 101]
    ensures Print(Str(k)) == [34] + EscapeAll(k) + [34]
  {
  }

  lemma {:induction false} ArrayText(items: seq<Json>)
    ensures items == [] ==> Print(Arr(items)) == [91] + [93]
    ensures |items| == 1 ==> Print(Arr(items)) == [91] + Print(items[0]) + [93]
    ensures |items| == 2 ==> Print(Arr(items)) == [91] + Print(items[0]) + [44] + Print(items[1]) + [93]
  {
    var parts := seq(|items|, i requires 0 <= i < |items| => Print(items[i]));
    if |items| == 2 {
      assert parts[1..] == [Print(items[1])];
      assert Join(parts[1..]) == Print(items[1]);
      assert Join(parts) == Print(items[0]) + [44] + Print(items[1]);
    }
  }

  lemma {:induction false} FieldsText(fields: seq<Entry<Json>>)
    ensures fields == [] ==> Print(Obj(fields)) == [123] + [125]
    ensures |fields| == 1 ==>
              Print(Obj(fields)) == [123] + Print(Str(fields[0].key)) + [58] + Print(fields[0].value) + [125]
  {
    var entries := seq(|fields|, i requires 0 <= i < |fields| => Entry(fields[i].key, Print(fields[i].value)));
    if |fields| == 1 {
      assert entries == [Entry(fields[0].key, Print(fields[0].value))];
      assert entries[1..] == [] && Sort(entries) == entries;
      assert FieldTexts(entries) == [Quote(fields[0].key) + [COLON] + Print(fields[0].value)];
    }
  }
}
