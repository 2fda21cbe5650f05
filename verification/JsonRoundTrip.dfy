// The canonical text of a value reads back as that value with its keys sorted; hence it says exactly which value
// it is, whatever order the keys were in.
module JsonRoundTrip {
  import opened Prelude
  import opened Keyed
  import opened CanonicalJson

  /******* Numbers *******/

  predicate NoDigitFirst(t: Text) {
    t == [] || !IsDigit(t[0])
  }

  lemma {:induction false} ReadDecimal(n: nat, acc: nat, rest: Text)
    requires acc == 0
    ensures ReadDigits(acc, Decimal(n) + rest) == ReadDigits(n, rest)
    decreases n
  {
    if n < 10 {
      assert (Decimal(n) + rest)[1..] == rest;
    } else {
      var d := [48 + n % 10];
      assert Decimal(n) + rest == Decimal(n / 10) + (d + rest);
      ReadDecimal(n / 10, acc, d + rest);
      assert (d + rest)[1..] == rest;
    }
  }

  // The first digit of a nonzero number is not zero, so reading from it is reading from nothing.
  lemma ReadFromFirstDigit(t: Text)
    requires t != [] && IsDigit(t[0])
    ensures ReadDigits(t[0] - 48, t[1..]) == ReadDigits(0, t)
  {
  }

  lemma {:induction false} ReadPrintedNumber(n: int, rest: Text)
    requires NoDigitFirst(rest)
    ensures Read(PrintNumber(n) + rest) == Some(Parsed(Num(n), rest))
  {
    hide Decimal, ReadDigits;
    var d := Decimal(if n < 0 then -n else n);
    var t := d + rest;
    ReadDecimal(if n < 0 then -n else n, 0, rest);
    ReadFromFirstDigit(t);
    Stops(if n < 0 then -n else n, rest);
    if n < 0 {
      var u := PrintNumber(n) + rest;
      assert u[0] == MINUS && u[1] == t[0] && u[2..] == t[1..];
    } else {
      assert PrintNumber(n) + rest == t;
    }
  }

  lemma Stops(n: nat, rest: Text)
    requires NoDigitFirst(rest)
    ensures ReadDigits(n, rest) == Parsed(n, rest)
  {
  }

  /******* Strings *******/

  lemma {:induction false} ReadEscaped(u: Unit, t: Text)
    ensures u >= 32 && u != QUOTE && u != BACKSLASH ==> Escape(u) + t == [u] + t
    ensures u < 32 || u == QUOTE || u == BACKSLASH ==>
              Escape(u)[0] == BACKSLASH && ReadEscape((Escape(u) + t)[1..]) == Some(Parsed(u, t))
  {
    var e := (Escape(u) + t)[1..];
    if u == QUOTE || u == BACKSLASH || u in {8, 9, 10, 12, 13} {
      assert e[0] == Escape(u)[1] && e[1..] == t;
    } else if u < 32 {
      assert e == [117, 48, 48, HexDigit(u / 16), HexDigit(u % 16)] + t;
      assert e[1..5] == [48, 48, HexDigit(u / 16), HexDigit(u % 16)] && e[5..] == t;
    }
  }

  lemma {:induction false} ReadPrintedChars(s: Text, rest: Text)
    ensures ReadChars(EscapeAll(s) + [QUOTE] + rest) == Some(Parsed(s, rest))
  {
    hide Escape, ReadEscape;
    if s == [] {
      assert ([QUOTE] + rest)[1..] == rest;
      assert EscapeAll(s) + [QUOTE] + rest == [QUOTE] + rest;
    } else {
      var more := EscapeAll(s[1..]) + [QUOTE] + rest;
      ReadPrintedChars(s[1..], rest);
      ReadEscaped(s[0], more);
      var t := Escape(s[0]) + more;
      assert EscapeAll(s) + [QUOTE] + rest == t;
      assert s == [s[0]] + s[1..];
      if s[0] >= 32 && s[0] != QUOTE && s[0] != BACKSLASH { assert t[1..] == more; }
    }
  }

  lemma {:induction false} ReadQuoted(s: Text, rest: Text)
    ensures (Quote(s) + rest)[0] == QUOTE
    ensures ReadChars((Quote(s) + rest)[1..]) == Some(Parsed(s, rest))
  {
    ReadPrintedChars(s, rest);
    assert (Quote(s) + rest)[1..] == EscapeAll(s) + [QUOTE] + rest;
  }

  /******* Values *******/

  function PrintAll(items: seq<Json>): (parts: seq<Text>)
    ensures |parts| == |items|
  {
    seq(|items|, i requires 0 <= i < |items| => Print(items[i]))
  }

  function NormalizeAll(items: seq<Json>): (r: seq<Json>)
    ensures |r| == |items|
  {
    seq(|items|, i requires 0 <= i < |items| => Normalize(items[i]))
  }

  function PrintEntries(fields: seq<Entry<Json>>): seq<Entry<Text>> {
    MapEntries(Print, fields)
  }

  function NormalizeEntries(fields: seq<Entry<Json>>): seq<Entry<Json>> {
    MapEntries(Normalize, fields)
  }

  lemma {:induction false} PrintedParts(v: Json)
    ensures v.Arr? ==>
              && Print(v) == [OPEN_ARRAY] + Join(PrintAll(v.items)) + [CLOSE_ARRAY]
              && Normalize(v) == Arr(NormalizeAll(v.items))
    ensures v.Obj? ==>
              && Print(v) == [OPEN_OBJECT] + Join(FieldTexts(PrintEntries(Sort(v.fields)))) + [CLOSE_OBJECT]
              && Normalize(v) == Obj(NormalizeEntries(Sort(v.fields)))
  {
    hide Join, FieldTexts, Sort;
    if v.Arr? {
      assert PrintAll(v.items) == seq(|v.items|, i requires 0 <= i < |v.items| => Print(v.items[i]));
      assert NormalizeAll(v.items) == seq(|v.items|, i requires 0 <= i < |v.items| => Normalize(v.items[i]));
    }
    if v.Obj? {
      var f := v.fields;
      assert PrintEntries(f) == seq(|f|, i requires 0 <= i < |f| => Entry(f[i].key, Print(f[i].value)));
      assert NormalizeEntries(f) == seq(|f|, i requires 0 <= i < |f| => Entry(f[i].key, Normalize(f[i].value)));
      SortMaps(Print, f);
      SortMaps(Normalize, f);
    }
  }

  lemma JoinMore(parts: seq<Text>)
    requires |parts| > 1
    ensures Join(parts) == parts[0] + [COMMA] + Join(parts[1..])
  {
  }

  // What follows a value in a canonical text: a comma, a bracket or the end. Never a digit.
  lemma {:induction false} ReadPrinted(v: Json, rest: Text)
    requires NoDigitFirst(rest)
    ensures Read(Print(v) + rest) == Some(Parsed(Normalize(v), rest))
    ensures Print(v) != [] && Print(v)[0] != CLOSE_ARRAY && Print(v)[0] != CLOSE_OBJECT
    decreases v, 3, 0
  {
    hide Join, FieldTexts, Sort, MapEntries, Decimal, EscapeAll, ReadChars, ReadItems, ReadFields, ReadDigits;
    PrintedParts(v);
    match v
    case Null => assert (NULL_TEXT + rest)[4..] == rest;
    case Bool(b) =>
      assert (TRUE_TEXT + rest)[4..] == rest;
      assert (FALSE_TEXT + rest)[5..] == rest;
    case Num(n) => ReadPrintedNumber(n, rest);
    case Str(s) => ReadQuoted(s, rest);
    case Arr(items) =>
      if items != [] { ReadPrintedItems(v, items, rest); }
      ReadBracketed(v, rest);
    case Obj(fields) =>
      SortKeeps(fields);
      if fields != [] { ReadPrintedFields(v, Sort(fields), rest); }
      ReadBraced(v, rest);
  }

  lemma {:induction false} ReadBracketed(v: Json, rest: Text)
    requires v.Arr?
    requires v.items != [] ==>
               && var inner := Join(PrintAll(v.items));
               && ReadItems(inner + [CLOSE_ARRAY] + rest) == Some(Parsed(NormalizeAll(v.items), rest))
               && inner != [] && inner[0] != CLOSE_ARRAY
    ensures Read(Print(v) + rest) == Some(Parsed(Normalize(v), rest))
  {
    PrintedParts(v);
    hide Join, ReadItems, ReadFields, Print, Normalize;
    var t := Print(v) + rest;
    if v.items == [] {
      assert t == [OPEN_ARRAY, CLOSE_ARRAY] + rest by { NoParts(); }
      assert t[2..] == rest;
    } else {
      assert t[1..] == Join(PrintAll(v.items)) + [CLOSE_ARRAY] + rest;
    }
  }

  lemma {:induction false} ReadBraced(v: Json, rest: Text)
    requires v.Obj?
    requires v.fields != [] ==>
               && var inner := Join(FieldTexts(PrintEntries(Sort(v.fields))));
               && ReadFields(inner + [CLOSE_OBJECT] + rest) == Some(Parsed(NormalizeEntries(Sort(v.fields)), rest))
               && inner != [] && inner[0] != CLOSE_OBJECT
    ensures Read(Print(v) + rest) == Some(Parsed(Normalize(v), rest))
  {
    PrintedParts(v);
    hide Join, ReadItems, ReadFields, Print, Normalize, FieldTexts, PrintEntries, Sort, NormalizeEntries;
    var t := Print(v) + rest;
    if v.fields == [] {
      assert t == [OPEN_OBJECT, CLOSE_OBJECT] + rest by { NoParts(); }
      assert NormalizeEntries(Sort([])) == [] by { NoParts(); }
      assert t[2..] == rest;
    } else {
      assert t[1..] == Join(FieldTexts(PrintEntries(Sort(v.fields)))) + [CLOSE_OBJECT] + rest;
    }
  }

  lemma NoParts()
    ensures Join([]) == []
    ensures FieldTexts(PrintEntries(Sort([]))) == []
    ensures NormalizeEntries(Sort([])) == [] && NormalizeEntries([]) == []
  {
  }

  lemma {:induction false} ReadPrintedItems(v: Json, items: seq<Json>, rest: Text)
    requires items != [] && v.Arr? && forall x | x in items :: x in v.items
    ensures ReadItems(Join(PrintAll(items)) + [CLOSE_ARRAY] + rest) == Some(Parsed(NormalizeAll(items), rest))
    ensures Join(PrintAll(items)) != [] && Join(PrintAll(items))[0] != CLOSE_ARRAY
    decreases v, 1, |items|
  {
    hide Print, Normalize, Read;
    var t := Join(PrintAll(items)) + [CLOSE_ARRAY] + rest;
    assert items[0] in v.items;
    if |items| == 1 {
      var after := [CLOSE_ARRAY] + rest;
      ReadPrinted(items[0], after);
      assert t == Print(items[0]) + after;
      assert after[1..] == rest;
      assert NormalizeAll(items) == [Normalize(items[0])];
    } else {
      var after := [COMMA] + Join(PrintAll(items[1..])) + [CLOSE_ARRAY] + rest;
      assert PrintAll(items)[1..] == PrintAll(items[1..]);
      ReadPrinted(items[0], after);
      ReadPrintedItems(v, items[1..], rest);
      assert t == Print(items[0]) + after;
      assert after[1..] == Join(PrintAll(items[1..])) + [CLOSE_ARRAY] + rest;
      assert NormalizeAll(items) == [Normalize(items[0])] + NormalizeAll(items[1..]);
    }
  }

  lemma {:induction false} ReadPrintedField(v: Json, field: Entry<Json>, rest: Text)
    requires v.Obj? && field in v.fields && NoDigitFirst(rest)
    ensures ReadField(Quote(field.key) + [COLON] + Print(field.value) + rest)
            == Some(Parsed(Entry(field.key, Normalize(field.value)), rest))
    decreases v, 1, 0
  {
    hide Print, Normalize, Read, ReadChars, Quote;
    var more := [COLON] + Print(field.value) + rest;
    assert Quote(field.key) + [COLON] + Print(field.value) + rest == Quote(field.key) + more;
    ReadQuoted(field.key, more);
    assert more[1..] == Print(field.value) + rest;
    ReadPrinted(field.value, rest);
  }

  function FieldText(f: Entry<Json>): Text {
    Quote(f.key) + [COLON] + Print(f.value)
  }

  lemma {:induction false} FieldTextsSplit(fields: seq<Entry<Json>>)
    requires fields != []
    ensures var parts := FieldTexts(PrintEntries(fields));
            && |parts| == |fields| && parts[0] == FieldText(fields[0])
            && parts[1..] == FieldTexts(PrintEntries(fields[1..]))
    ensures NormalizeEntries(fields)
            == [Entry(fields[0].key, Normalize(fields[0].value))] + NormalizeEntries(fields[1..])
  {
    hide Print, Normalize, Quote;
  }

  lemma {:induction false} FieldTextOpens(f: Entry<Json>)
    ensures FieldText(f) != [] && FieldText(f)[0] == QUOTE
  {
    hide Print, EscapeAll;
  }

  lemma {:induction false} ReadPrintedFields(v: Json, fields: seq<Entry<Json>>, rest: Text)
    requires fields != [] && v.Obj? && forall f | f in fields :: f in v.fields
    ensures ReadFields(Join(FieldTexts(PrintEntries(fields))) + [CLOSE_OBJECT] + rest)
            == Some(Parsed(NormalizeEntries(fields), rest))
    ensures Join(FieldTexts(PrintEntries(fields))) != [] && Join(FieldTexts(PrintEntries(fields)))[0] != CLOSE_OBJECT
    decreases v, 2, |fields|
  {
    hide Print, Normalize, ReadField, Quote, MapEntries, FieldTexts, PrintEntries, NormalizeEntries;
    var parts, f := FieldTexts(PrintEntries(fields)), fields[0];
    var t, first := Join(parts) + [CLOSE_OBJECT] + rest, FieldText(f);
    FieldTextsSplit(fields);
    FieldTextOpens(f);
    if |fields| == 1 {
      var after := [CLOSE_OBJECT] + rest;
      ReadPrintedField(v, f, after);
      assert t == first + after;
      assert after[1..] == rest;
      assert fields[1..] == [];
      assert NormalizeEntries(fields) == [Entry(f.key, Normalize(f.value))] by { NoParts(); }
    } else {
      var tail := fields[1..];
      var after := [COMMA] + Join(FieldTexts(PrintEntries(tail))) + [CLOSE_OBJECT] + rest;
      ReadPrintedField(v, f, after);
      ReadPrintedFields(v, tail, rest);
      JoinMore(parts);
      assert t == first + after;
      assert after[1..] == Join(FieldTexts(PrintEntries(tail))) + [CLOSE_OBJECT] + rest;
    }
  }

  // JSON.parse undoes the printer, up to key order.
  lemma {:induction false} TextReadsBack(v: Json)
    ensures Parse(Print(v)) == Ok(Normalize(v))
  {
    ReadPrinted(v, []);
    assert Print(v) + [] == Print(v);
  }

  /******* The text says which value it is *******/

  lemma {:induction false} SameNormalItems(a: seq<Json>, b: seq<Json>)
    requires |a| == |b| && forall i | 0 <= i < |a| :: Normalize(a[i]) == Normalize(b[i])
    ensures Normalize(Arr(a)) == Normalize(Arr(b))
  {
    PrintedParts(Arr(a));
    PrintedParts(Arr(b));
    hide Normalize, Print;
    assert NormalizeAll(a) == NormalizeAll(b);
  }

  predicate HasNormalField(fields: seq<Entry<Json>>, f: Entry<Json>) {
    exists j | 0 <= j < |fields| :: f.key == fields[j].key && Normalize(f.value) == Normalize(fields[j].value)
  }

  lemma {:induction false} SameNormalFields(a: seq<Entry<Json>>, b: seq<Entry<Json>>)
    requires DistinctKeys(a) && DistinctKeys(b) && |a| == |b|
    requires forall i | 0 <= i < |a| :: HasNormalField(b, a[i])
    ensures Normalize(Obj(a)) == Normalize(Obj(b))
  {
    PrintedParts(Obj(a));
    PrintedParts(Obj(b));
    hide Normalize, Print, Sort, MapEntries;
    var u, v := NormalizeEntries(a), NormalizeEntries(b);
    forall e | e in u
      ensures e in v
    {
      var i :| 0 <= i < |u| && u[i] == e;
      assert HasNormalField(b, a[i]);
      var j :| 0 <= j < |b| && a[i].key == b[j].key && Normalize(a[i].value) == Normalize(b[j].value);
      assert v[j] == e;
    }
    SameEntriesSortAlike(u, v);
    SortMaps(Normalize, a);
    SortMaps(Normalize, b);
  }

  lemma {:induction false} NormalFormsOfEquals(v: Json, w: Json)
    requires UniqueKeys(v) && UniqueKeys(w) && Equivalent(v, w)
    ensures Normalize(v) == Normalize(w)
  {
    hide Normalize, Print;
    match v
    case Arr(items) =>
      forall i | 0 <= i < |items|
        ensures Normalize(items[i]) == Normalize(w.items[i])
      {
        NormalFormsOfEquals(items[i], w.items[i]);
      }
      SameNormalItems(items, w.items);
    case Obj(fields) =>
      forall i | 0 <= i < |fields|
        ensures HasNormalField(w.fields, fields[i])
      {
        assert HasField(w.fields, fields[i]);
        var j :| 0 <= j < |w.fields| && fields[i].key == w.fields[j].key
                 && Equivalent(fields[i].value, w.fields[j].value);
        NormalFormsOfEquals(fields[i].value, w.fields[j].value);
      }
      SameNormalFields(fields, w.fields);
    case _ =>
  }

  // Where field i of one record is in a record with the same normal form.
  lemma {:induction false} MatchingField(a: seq<Entry<Json>>, b: seq<Entry<Json>>, i: nat) returns (j: nat)
    requires Normalize(Obj(a)) == Normalize(Obj(b)) && i < |a|
    ensures |a| == |b| && j < |b|
    ensures a[i].key == b[j].key && Normalize(a[i].value) == Normalize(b[j].value)
  {
    PrintedParts(Obj(a));
    PrintedParts(Obj(b));
    hide Sort, Print, Normalize;
    SortMaps(Normalize, a);
    SortMaps(Normalize, b);
    var u, v := NormalizeEntries(a), NormalizeEntries(b);
    assert Sort(u) == Sort(v);
    SortKeeps(u);
    SortKeeps(v);
    assert u[i] in u;
    assert u[i] in v;
    j :| 0 <= j < |v| && v[j] == u[i];
  }

  lemma {:induction false} MatchingItem(a: seq<Json>, b: seq<Json>, i: nat)
    requires Normalize(Arr(a)) == Normalize(Arr(b)) && i < |a|
    ensures |a| == |b| && Normalize(a[i]) == Normalize(b[i])
  {
    PrintedParts(Arr(a));
    PrintedParts(Arr(b));
    hide Normalize, Print;
    assert NormalizeAll(a)[i] == NormalizeAll(b)[i];
  }

  lemma {:induction false} SameSizes(a: seq<Entry<Json>>, b: seq<Entry<Json>>)
    requires Normalize(Obj(a)) == Normalize(Obj(b))
    ensures |a| == |b|
  {
    PrintedParts(Obj(a));
    PrintedParts(Obj(b));
    hide Normalize, Print;
  }

  lemma {:induction false} EqualNormalForms(v: Json, w: Json)
    requires Normalize(v) == Normalize(w)
    ensures Equivalent(v, w)
  {
    hide Sort, Print;
    assert v.Obj? ==> w.Obj? && |Sort(v.fields)| == |Sort(w.fields)|;
    match v
    case Arr(items) =>
      assert |NormalizeAll(items)| == |NormalizeAll(w.items)| by { PrintedParts(v); PrintedParts(w); }
      forall i | 0 <= i < |items|
        ensures Equivalent(items[i], w.items[i])
      {
        MatchingItem(items, w.items, i);
        EqualNormalForms(items[i], w.items[i]);
      }
    case Obj(fields) =>
      hide Normalize;
      forall i | 0 <= i < |fields|
        ensures HasField(w.fields, fields[i])
      {
        var j := MatchingField(fields, w.fields, i);
        EqualNormalForms(fields[i].value, w.fields[j].value);
      }
      SameSizes(fields, w.fields);
    case _ =>
  }

  lemma {:induction false} SortedKeysDistinct<T>(entries: seq<Entry<T>>)
    requires DistinctKeys(entries)
    ensures DistinctKeys(Sort(entries))
  {
    hide Sort;
    var sorted := Sort(entries);
    SortAscends(entries);
    forall i, j | 0 <= i < j < |sorted|
      ensures sorted[i].key != sorted[j].key
    {
      BeforeIsTotal(sorted[i].key, sorted[j].key);
    }
  }

  lemma {:induction false} SortTwice<T>(entries: seq<Entry<T>>)
    requires DistinctKeys(entries)
    ensures Sort(Sort(entries)) == Sort(entries)
  {
    hide Sort;
    SortKeeps(entries);
    SortedKeysDistinct(entries);
    SameEntriesSortAlike(Sort(entries), entries);
  }

  // Printing what was read back gives the same text again.
  lemma {:induction false} PrintOfNormalForm(v: Json)
    requires UniqueKeys(v)
    ensures Print(Normalize(v)) == Print(v)
  {
    hide Sort, Join, FieldTexts;
    PrintedParts(v);
    PrintedParts(Normalize(v));
    match v
    case Arr(items) =>
      hide Print, Normalize;
      forall i | 0 <= i < |items|
        ensures PrintAll(NormalizeAll(items))[i] == PrintAll(items)[i]
      {
        PrintOfNormalForm(items[i]);
      }
      assert PrintAll(NormalizeAll(items)) == PrintAll(items);
    case Obj(fields) =>
      hide Print, Normalize;
      var sorted := Sort(fields);
      SortKeeps(fields);
      SortTwice(fields);
      SortMaps(Normalize, sorted);
      forall i | 0 <= i < |sorted|
        ensures PrintEntries(NormalizeEntries(sorted))[i] == PrintEntries(sorted)[i]
      {
        assert sorted[i] in sorted;
        assert sorted[i] in fields;
        var j :| 0 <= j < |fields| && fields[j] == sorted[i];
        PrintOfNormalForm(fields[j].value);
      }
      assert PrintEntries(NormalizeEntries(sorted)) == PrintEntries(sorted);
    case _ =>
  }

  // Two values have the same canonical text exactly when they are the same JSON value.
  lemma {:induction false} SameTextSameValue(v: Json, w: Json)
    requires UniqueKeys(v) && UniqueKeys(w)
    ensures Print(v) == Print(w) <==> Equivalent(v, w)
  {
    TextReadsBack(v);
    TextReadsBack(w);
    if Print(v) == Print(w) { EqualNormalForms(v, w); }
    if Equivalent(v, w) {
      NormalFormsOfEquals(v, w);
      PrintOfNormalForm(v);
      PrintOfNormalForm(w);
    }
  }

  lemma {:induction false} NormalFormKeepsKeys(v: Json)
    requires UniqueKeys(v)
    ensures UniqueKeys(Normalize(v))
  {
    PrintedParts(v);
    hide Sort, Print, Normalize, Join, FieldTexts;
    match v
    case Arr(items) =>
      forall i | 0 <= i < |items|
        ensures UniqueKeys(NormalizeAll(items)[i])
      {
        NormalFormKeepsKeys(items[i]);
      }
    case Obj(fields) =>
      var sorted := Sort(fields);
      SortKeeps(fields);
      SortedKeysDistinct(fields);
      forall i | 0 <= i < |sorted|
        ensures UniqueKeys(NormalizeEntries(sorted)[i].value)
      {
        assert sorted[i] in sorted;
        assert sorted[i] in fields;
        var j :| 0 <= j < |fields| && fields[j] == sorted[i];
        NormalFormKeepsKeys(fields[j].value);
      }
    case _ =>
      NormalFormOfScalar(v);
  }

  lemma NormalFormOfScalar(v: Json)
    requires !v.Arr? && !v.Obj?
    ensures Normalize(v) == v
  {
  }

  // What canonical text reads back as is the same JSON value.
  lemma {:induction false} NormalFormIsTheSameValue(v: Json)
    requires UniqueKeys(v)
    ensures UniqueKeys(Normalize(v)) && Equivalent(v, Normalize(v))
  {
    hide *;
    NormalFormKeepsKeys(v);
    PrintOfNormalForm(v);
    SameTextSameValue(v, Normalize(v));
  }
}
