// Which values canonical JSON accepts: by the numbers and the texts they hold, wherever those stand.
module PlainValues {
  import opened Prelude
  import opened Keyed
  import opened CanonicalJson

  // The numbers anywhere in a value.
  function Numbers(v: Json): set<int> {
    match v
    case Num(n) => {n}
    case Arr(items) => set i, n | 0 <= i < |items| && n in Numbers(items[i]) :: n
    case Obj(fields) => set i, n | 0 <= i < |fields| && n in Numbers(fields[i].value) :: n
    case _ => {}
  }

  // The texts anywhere in a value, keys included.
  function Texts(v: Json): set<Text> {
    match v
    case Str(s) => {s}
    case Arr(items) => set i, s | 0 <= i < |items| && s in Texts(items[i]) :: s
    case Obj(fields) =>
      (set i | 0 <= i < |fields| :: fields[i].key)
      + (set i, s | 0 <= i < |fields| && s in Texts(fields[i].value) :: s)
    case _ => {}
  }

  // Each high surrogate is followed by a low one, and each low one follows a high one.
  predicate PairedAt(s: Text, i: nat)
    requires i < |s|
  {
    && (0xD800 <= s[i] <= 0xDBFF ==> i + 1 < |s| && 0xDC00 <= s[i + 1] <= 0xDFFF)
    && (0xDC00 <= s[i] <= 0xDFFF ==> 0 < i && 0xD800 <= s[i - 1] <= 0xDBFF)
  }

  predicate Paired(s: Text) {
    forall i | 0 <= i < |s| :: PairedAt(s, i)
  }

  lemma {:induction false} PairedIsWellPaired(s: Text)
    ensures WellPaired(s) <==> Paired(s)
    decreases |s|
  {
    if s != [] {
      var n := if IsHigh(s[0]) && |s| > 1 && IsLow(s[1]) then 2 else 1;
      PairedIsWellPaired(s[n..]);
      if Paired(s) && !IsLow(s[0]) && (IsHigh(s[0]) ==> n == 2) {
        forall i | 0 <= i < |s[n..]|
          ensures PairedAt(s[n..], i)
        {
          assert PairedAt(s, i + n);
        }
      }
      if Paired(s[n..]) && !IsLow(s[0]) && (IsHigh(s[0]) ==> n == 2) {
        forall i | 0 <= i < |s|
          ensures PairedAt(s, i)
        {
          if i >= n { assert PairedAt(s[n..], i - n); }
        }
      }
      if Paired(s) { assert PairedAt(s, 0); }
    }
  }

  const TWO_TO_53: int := 0x20_0000_0000_0000

  predicate NumbersFit(v: Json) { forall n | n in Numbers(v) :: -TWO_TO_53 < n < TWO_TO_53 }

  predicate TextsFit(v: Json) { forall s | s in Texts(v) :: Paired(s) }

  lemma {:induction false} ItemsFit(items: seq<Json>)
    ensures NumbersFit(Arr(items)) <==> forall i | 0 <= i < |items| :: NumbersFit(items[i])
    ensures TextsFit(Arr(items)) <==> forall i | 0 <= i < |items| :: TextsFit(items[i])
  {
    hide Paired;
    var v := Arr(items);
    assert forall i | 0 <= i < |items| :: Numbers(items[i]) <= Numbers(v) && Texts(items[i]) <= Texts(v);
    assert forall n | n in Numbers(v) :: exists i :: 0 <= i < |items| && n in Numbers(items[i]);
    assert forall s | s in Texts(v) :: exists i :: 0 <= i < |items| && s in Texts(items[i]);
    hide Numbers, Texts;
  }

  lemma {:induction false} FieldsFit(fields: seq<Entry<Json>>)
    ensures NumbersFit(Obj(fields)) <==> forall i | 0 <= i < |fields| :: NumbersFit(fields[i].value)
    ensures TextsFit(Obj(fields)) <==>
              forall i | 0 <= i < |fields| :: Paired(fields[i].key) && TextsFit(fields[i].value)
  {
    hide Paired;
    var v := Obj(fields);
    assert forall i | 0 <= i < |fields| ::
        Numbers(fields[i].value) <= Numbers(v) && Texts(fields[i].value) <= Texts(v) && fields[i].key in Texts(v);
    assert forall n | n in Numbers(v) :: exists i :: 0 <= i < |fields| && n in Numbers(fields[i].value);
    assert forall s | s in Texts(v) ::
        exists i :: 0 <= i < |fields| && (s == fields[i].key || s in Texts(fields[i].value));
    hide Numbers, Texts;
  }

  lemma {:induction false} ScalarFits(v: Json)
    requires !v.Arr? && !v.Obj?
    ensures Plain(v) <==> NumbersFit(v) && TextsFit(v)
  {
    if v.Str? {
      PairedIsWellPaired(v.text);
      assert v.text in Texts(v);
    }
    if v.Num? {
      assert v.number in Numbers(v);
    }
    hide Paired, WellPaired;
  }

  lemma {:induction false} PlainExactly(v: Json)
    ensures Plain(v) <==> NumbersFit(v) && TextsFit(v)
  {
    match v
    case Arr(items) =>
      hide NumbersFit, TextsFit;
      ItemsFit(items);
      forall i | 0 <= i < |items|
        ensures Plain(items[i]) <==> NumbersFit(items[i]) && TextsFit(items[i])
      {
        PlainExactly(items[i]);
      }
    case Obj(fields) =>
      hide NumbersFit, TextsFit, Paired, WellPaired;
      FieldsFit(fields);
      forall i | 0 <= i < |fields|
        ensures Plain(fields[i].value) <==> NumbersFit(fields[i].value) && TextsFit(fields[i].value)
        ensures WellPaired(fields[i].key) <==> Paired(fields[i].key)
      {
        PlainExactly(fields[i].value);
        PairedIsWellPaired(fields[i].key);
      }
    case _ =>
      ScalarFits(v);
  }

  // A value has a canonical text if and only if every number in it is a whole number a double holds exactly together
  // with its neighbours, and every string and key in it is well-formed UTF-16.
  lemma {:induction false} AcceptedExactly(v: Json)
    ensures CanonicalText(v).Ok? <==> NumbersFit(v) && TextsFit(v)
  {
    hide Plain, NumbersFit, TextsFit;
    PlainExactly(v);
  }
}
