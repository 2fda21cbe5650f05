// Canonical JSON: a printer that sorts keys, and the reader of its texts. Texts are UTF-16 code units.
module CanonicalJson {
  import opened Prelude
  import opened Keyed

  const MAX_SAFE_INTEGER: int := 0x1F_FFFF_FFFF_FFFF

  // Plain JSON. A record lists its own properties in insertion order.
  datatype Json =
    | Null
    | Bool(flag: bool)
    | Num(number: int)
    | Str(text: Text)
    | Arr(items: seq<Json>)
    | Obj(fields: seq<Entry<Json>>)

  predicate IsHigh(u: Unit) { 0xD800 <= u < 0xDC00 }

  predicate IsLow(u: Unit) { 0xDC00 <= u < 0xE000 }

  // Every surrogate stands in a high-low pair.
  predicate WellPaired(s: Text) {
    if s == [] then true
    else if IsHigh(s[0]) then |s| > 1 && IsLow(s[1]) && WellPaired(s[2..])
    else !IsLow(s[0]) && WellPaired(s[1..])
  }

  predicate IsSafe(n: int) { -MAX_SAFE_INTEGER <= n <= MAX_SAFE_INTEGER }

  // What the printer accepts of a tree.
  predicate Plain(v: Json) {
    match v
    case Null => true
    case Bool(_) => true
    case Num(n) => IsSafe(n)
    case Str(s) => WellPaired(s)
    case Arr(items) => forall i | 0 <= i < |items| :: Plain(items[i])
    case Obj(fields) => forall i | 0 <= i < |fields| :: WellPaired(fields[i].key) && Plain(fields[i].value)
  }

  // A JavaScript object cannot hold a key twice.
  predicate UniqueKeys(v: Json) {
    match v
    case Arr(items) => forall i | 0 <= i < |items| :: UniqueKeys(items[i])
    case Obj(fields) => DistinctKeys(fields) && forall i | 0 <= i < |fields| :: UniqueKeys(fields[i].value)
    case _ => true
  }

  /******* The printer *******/

  const QUOTE: Unit := 34
  const COMMA: Unit := 44
  const MINUS: Unit := 45
  const COLON: Unit := 58
  const OPEN_ARRAY: Unit := 91
  const BACKSLASH: Unit := 92
  const CLOSE_ARRAY: Unit := 93
  const OPEN_OBJECT: Unit := 123
  const CLOSE_OBJECT: Unit := 125
  const NULL_TEXT: Text := [110, 117, 108, 108]
  const TRUE_TEXT: Text := [116, 114, 117, 101]
  const FALSE_TEXT: Text := [102, 97, 108, 115, 101]

  predicate IsDigit(u: Unit) { 48 <= u <= 57 }

  function Decimal(n: nat): (t: Text)
    ensures t != [] && IsDigit(t[0])
  {
    if n < 10 then [48 + n] else Decimal(n / 10) + [48 + n % 10]
  }

  function PrintNumber(n: int): Text {
    if n < 0 then [MINUS] + Decimal(-n) else Decimal(n)
  }

  function HexDigit(d: nat): Unit
    requires d < 16
  {
    if d < 10 then 48 + d else 87 + d
  }

  // JSON.stringify of one code unit of a well-paired string.
  function Escape(u: Unit): (t: Text)
    ensures t != [] && t[0] != QUOTE
  {
    if u == QUOTE || u == BACKSLASH then [BACKSLASH, u]
    else if u == 8 then [BACKSLASH, 98]
    else if u == 9 then [BACKSLASH, 116]
    else if u == 10 then [BACKSLASH, 110]
    else if u == 12 then [BACKSLASH, 102]
    else if u == 13 then [BACKSLASH, 114]
    else if u < 32 then [BACKSLASH, 117, 48, 48, HexDigit(u / 16), HexDigit(u % 16)]
    else [u]
  }

  function EscapeAll(s: Text): Text {
    if s == [] then [] else Escape(s[0]) + EscapeAll(s[1..])
  }

  function Quote(s: Text): Text {
    [QUOTE] + EscapeAll(s) + [QUOTE]
  }

  function Join(parts: seq<Text>): Text {
    if parts == [] then [] else if |parts| == 1 then parts[0] else parts[0] + [COMMA] + Join(parts[1..])
  }

  function FieldTexts(entries: seq<Entry<Text>>): (parts: seq<Text>)
    ensures |parts| == |entries|
  {
    seq(|entries|, i requires 0 <= i < |entries| => Quote(entries[i].key) + [COLON] + entries[i].value)
  }

  function Print(v: Json): Text {
    match v
    case Null => NULL_TEXT
    case Bool(b) => if b then TRUE_TEXT else FALSE_TEXT
    case Num(n) => PrintNumber(n)
    case Str(s) => Quote(s)
    case Arr(items) =>
      [OPEN_ARRAY] + Join(seq(|items|, i requires 0 <= i < |items| => Print(items[i]))) + [CLOSE_ARRAY]
    case Obj(fields) =>
      var entries := seq(|fields|, i requires 0 <= i < |fields| => Entry(fields[i].key, Print(fields[i].value)));
      [OPEN_OBJECT] + Join(FieldTexts(Sort(entries))) + [CLOSE_OBJECT]
  }

  // The text of a tree, refused when a string is not well paired or a number is not safe.
  function CanonicalText(v: Json): Result<Text> {
    if Plain(v) then Ok(Print(v)) else Err(InvalidCanonicalValue)
  }

  /******* The reader *******/

  datatype Parsed<+T> = Parsed(value: T, rest: Text)

  function ReadDigits(acc: nat, t: Text): (r: Parsed<nat>)
    ensures |r.rest| <= |t|
    decreases t
  {
    if t != [] && IsDigit(t[0]) then ReadDigits(10 * acc + (t[0] - 48), t[1..]) else Parsed(acc, t)
  }

  function HexValue(u: Unit): Option<nat> {
    if IsDigit(u) then Some(u - 48) else if 97 <= u <= 102 then Some(u - 87) else None
  }

  function ReadHex(t: Text): Option<Unit>
    requires |t| >= 4
  {
    var a, b, c, d := HexValue(t[0]), HexValue(t[1]), HexValue(t[2]), HexValue(t[3]);
    if a.Some? && b.Some? && c.Some? && d.Some? && a.value < 16 && b.value < 16 && c.value < 16 && d.value < 16
    then Some(4096 * a.value + 256 * b.value + 16 * c.value + d.value) else None
  }

  function ReadEscape(t: Text): (r: Option<Parsed<Unit>>)
    ensures r.Some? ==> |r.value.rest| < |t|
  {
    if t == [] then None
    else if t[0] == QUOTE || t[0] == BACKSLASH || t[0] == 47 then Some(Parsed(t[0], t[1..]))
    else if t[0] == 98 then Some(Parsed(8, t[1..]))
    else if t[0] == 116 then Some(Parsed(9, t[1..]))
    else if t[0] == 110 then Some(Parsed(10, t[1..]))
    else if t[0] == 102 then Some(Parsed(12, t[1..]))
    else if t[0] == 114 then Some(Parsed(13, t[1..]))
    else if t[0] == 117 && |t| > 4 then
      var u := ReadHex(t[1..5]);
      if u.Some? then Some(Parsed(u.value, t[5..])) else None
    else None
  }

  // The characters up to the closing quote.
  function ReadChars(t: Text): (r: Option<Parsed<Text>>)
    ensures r.Some? ==> |r.value.rest| < |t|
    decreases |t|
  {
    if t == [] || t[0] < 32 then None
    else if t[0] == QUOTE then Some(Parsed([], t[1..]))
    else
      var first := if t[0] == BACKSLASH then ReadEscape(t[1..]) else Some(Parsed(t[0], t[1..]));
      if first.None? then None
      else
        var more := ReadChars(first.value.rest);
        if more.None? then None else Some(Parsed([first.value.value] + more.value.value, more.value.rest))
  }

  function ReadWord(word: Text, v: Json, t: Text): (r: Option<Parsed<Json>>)
    requires word != []
    ensures r.Some? ==> |r.value.rest| < |t|
  {
    if word <= t then Some(Parsed(v, t[|word|..])) else None
  }

  function ReadNumber(t: Text): (r: Option<Parsed<Json>>)
    requires t != []
    ensures r.Some? ==> |r.value.rest| < |t|
  {
    if t[0] == MINUS then
      if |t| > 1 && IsDigit(t[1]) then
        var n := ReadDigits(t[1] - 48, t[2..]);
        Some(Parsed(Num(0 - n.value), n.rest))
      else None
    else if IsDigit(t[0]) then
      var n := ReadDigits(t[0] - 48, t[1..]);
      Some(Parsed(Num(n.value), n.rest))
    else None
  }

  function Read(t: Text): (r: Option<Parsed<Json>>)
    ensures r.Some? ==> |r.value.rest| < |t|
    decreases |t|, 0
  {
    if t == [] then None
    else if t[0] == NULL_TEXT[0] then ReadWord(NULL_TEXT, Null, t)
    else if t[0] == TRUE_TEXT[0] then ReadWord(TRUE_TEXT, Bool(true), t)
    else if t[0] == FALSE_TEXT[0] then ReadWord(FALSE_TEXT, Bool(false), t)
    else if t[0] == QUOTE then
      var s := ReadChars(t[1..]);
      if s.None? then None else Some(Parsed(Str(s.value.value), s.value.rest))
    else if t[0] == OPEN_ARRAY then
      if |t| > 1 && t[1] == CLOSE_ARRAY then Some(Parsed(Arr([]), t[2..]))
      else
        var r := ReadItems(t[1..]);
        if r.None? then None else Some(Parsed(Arr(r.value.value), r.value.rest))
    else if t[0] == OPEN_OBJECT then
      if |t| > 1 && t[1] == CLOSE_OBJECT then Some(Parsed(Obj([]), t[2..]))
      else
        var r := ReadFields(t[1..]);
        if r.None? then None else Some(Parsed(Obj(r.value.value), r.value.rest))
    else ReadNumber(t)
  }

  function ReadItems(t: Text): (r: Option<Parsed<seq<Json>>>)
    ensures r.Some? ==> |r.value.rest| < |t|
    decreases |t|, 1
  {
    var first := Read(t);
    if first.None? || first.value.rest == [] then None
    else if first.value.rest[0] == CLOSE_ARRAY then Some(Parsed([first.value.value], first.value.rest[1..]))
    else if first.value.rest[0] != COMMA then None
    else
      var more := ReadItems(first.value.rest[1..]);
      if more.None? then None else Some(Parsed([first.value.value] + more.value.value, more.value.rest))
  }

  // One key, a colon and a value.
  function ReadField(t: Text): (r: Option<Parsed<Entry<Json>>>)
    ensures r.Some? ==> |r.value.rest| < |t|
    decreases |t|, 1
  {
    if t == [] || t[0] != QUOTE then None
    else
      var key := ReadChars(t[1..]);
      if key.None? || key.value.rest == [] || key.value.rest[0] != COLON then None
      else
        var value := Read(key.value.rest[1..]);
        if value.None? then None else Some(Parsed(Entry(key.value.value, value.value.value), value.value.rest))
  }

  function ReadFields(t: Text): (r: Option<Parsed<seq<Entry<Json>>>>)
    ensures r.Some? ==> |r.value.rest| < |t|
    decreases |t|, 2
  {
    var first := ReadField(t);
    if first.None? || first.value.rest == [] then None
    else if first.value.rest[0] == CLOSE_OBJECT then Some(Parsed([first.value.value], first.value.rest[1..]))
    else if first.value.rest[0] != COMMA then None
    else
      var more := ReadFields(first.value.rest[1..]);
      if more.None? then None else Some(Parsed([first.value.value] + more.value.value, more.value.rest))
  }

  // JSON.parse of a whole text.
  function Parse(t: Text): Result<Json> {
    var r := Read(t);
    if r.Some? && r.value.rest == [] then Ok(r.value.value) else Err(InvalidCanonicalValue)
  }

  /******* Same value, fields sorted *******/

  function Normalize(v: Json): Json {
    match v
    case Arr(items) => Arr(seq(|items|, i requires 0 <= i < |items| => Normalize(items[i])))
    case Obj(fields) =>
      Obj(Sort(seq(|fields|, i requires 0 <= i < |fields| => Entry(fields[i].key, Normalize(fields[i].value)))))
    case _ => v
  }

  // The same JSON value: records are compared as keyed collections.
  predicate Equivalent(v: Json, w: Json)
    decreases v, 0
  {
    match v
    case Arr(items) =>
      w.Arr? && |items| == |w.items| && forall i | 0 <= i < |items| :: Equivalent(items[i], w.items[i])
    case Obj(fields) =>
      && w.Obj? && |fields| == |w.fields|
      && forall i | 0 <= i < |fields| :: HasField(w.fields, fields[i])
    case _ => v == w
  }

  predicate HasField(fields: seq<Entry<Json>>, f: Entry<Json>)
    decreases f.value, 1
  {
    exists j | 0 <= j < |fields| :: f.key == fields[j].key && Equivalent(f.value, fields[j].value)
  }
}
