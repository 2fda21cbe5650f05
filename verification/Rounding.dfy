// mulDiv and rescaleMinor: integer scaling that says what rounding discarded or added.
module Rounding {
  import opened Prelude

  datatype Direction = Down | Up

  datatype RemainderKind = Exact | Discarded | Added

  datatype ScaleResult = ScaleResult(value: int, kind: RemainderKind, remainder: int, denominator: int)

  function CeilDiv(a: int, d: int): (q: int)
    requires 0 <= a && 0 < d
    ensures 0 <= q
  {
    if a % d != 0 then a / d + 1 else a / d
  }

  function MulDiv(a: int, b: int, d: int, direction: Direction): (r: Result<ScaleResult>)
    ensures r.Ok? ==> 0 <= a && 0 <= b && 0 < d && IsUInt(r.value.value)
  {
    if !IsUInt(a) || !IsUInt(b) || !IsUInt(d) || d == 0 then Err(AccountingInvariant)
    else
      var product := a * b;
      var left := product % d;
      var rounded := if direction.Up? then CeilDiv(product, d) else product / d;
      if !IsUInt(rounded) then Err(AccountingInvariant)
      else Ok(ScaleResult(rounded,
                          if left == 0 then Exact else if direction.Down? then Discarded else Added,
                          if left == 0 || direction.Down? then left else d - left, d))
  }

  const MAX_DECIMALS: int := 36

  function Pow10(n: nat): (p: int)
    ensures 1 <= p
  {
    if n == 0 then 1 else 10 * Pow10(n - 1)
  }

  function RescaleMinor(amount: int, fromDecimals: int, toDecimals: int, direction: Direction): Result<ScaleResult> {
    if !(0 <= fromDecimals <= MAX_DECIMALS && 0 <= toDecimals <= MAX_DECIMALS) || !IsUInt(amount)
    then Err(AccountingInvariant)
    else if fromDecimals <= toDecimals then
      var value := amount * Pow10(toDecimals - fromDecimals);
      if IsUInt(value) then Ok(ScaleResult(value, Exact, 0, 1)) else Err(AccountingInvariant)
    else MulDiv(amount, 1, Pow10(fromDecimals - toDecimals), direction)
  }

  /******* What the results mean *******/

  lemma Multiples(u: int, v: int, d: int)
    requires u <= v && 0 < d
    ensures u * d <= v * d
  {
  }

  // The quotient is the only whole number with n between it and the next, d at a time.
  lemma {:induction false} QuotientIsUnique(n: int, d: int, q: int)
    requires 0 < d && q * d <= n < (q + 1) * d
    ensures n / d == q
  {
    var f := n / d;
    assert f * d <= n < (f + 1) * d;
    if q < f { Multiples(q + 1, f, d); }
    if f < q { Multiples(f + 1, q, d); }
  }

  // CEIL is the least whole number not below the exact quotient.
  lemma {:induction false} CeilIsLeastAbove(a: int, d: int, q: int)
    requires 0 <= a && 0 < d
    ensures q == CeilDiv(a, d) <==> q * d >= a && (q - 1) * d < a
  {
    var c, f := CeilDiv(a, d), a / d;
    assert a == f * d + a % d;
    assert (f + 1) * d == f * d + d && (f - 1) * d == f * d - d;
    assert c * d >= a && (c - 1) * d < a;
    if q * d >= a && (q - 1) * d < a {
      if q < c { Multiples(q, c - 1, d); }
      if c < q { Multiples(c, q - 1, d); }
    }
  }

  // Nothing is lost: the value and the reported remainder give back the product, whichever way it rounded.
  lemma {:induction false} RemainderAccountsForRounding(a: int, b: int, d: int)
    requires MulDiv(a, b, d, Up).Ok?
    ensures MulDiv(a, b, d, Down).Ok?
    ensures var down, up := MulDiv(a, b, d, Down).value, MulDiv(a, b, d, Up).value;
            && a * b == down.value * d + down.remainder
            && a * b == up.value * d - up.remainder
            && 0 <= down.remainder < d && 0 <= up.remainder < d
            && (down.kind.Exact? <==> up.kind.Exact?)
            && up.value - down.value == (if up.kind.Exact? then 0 else 1)
  {
    QuotientAndRemainder(a * b, d);
  }

  lemma {:induction false} QuotientAndRemainder(n: int, d: int)
    requires 0 < d
    ensures n == n / d * d + n % d && (n / d + 1) * d == n / d * d + d && 0 <= n % d < d
    ensures 0 <= n ==> 0 <= n / d
  {
    var f := n / d;
    assert n == f * d + n % d;
    assert (f + 1) * d == f * d + d;
    if 0 <= n && f < 0 { Multiples(f, -1, d); }
  }

  // A scaling of the product n by d: the value is the whole number next to n / d on the asked side, the remainder is
  // the distance to it in d-ths, and the kind says whether there is one and on which side.
  predicate Scales(n: int, d: int, direction: Direction, s: ScaleResult) {
    && s.denominator == d && 0 <= s.remainder < d
    && s.value * d == (if direction.Down? then n - s.remainder else n + s.remainder)
    && s.kind == (if s.remainder == 0 then Exact else if direction.Down? then Discarded else Added)
  }

  lemma NaturalProduct(a: int, b: int)
    requires 0 <= a && 0 <= b
    ensures 0 <= a * b
  {
  }

  function QuotientOf(n: int, d: int, direction: Direction): ScaleResult
    requires 0 <= n && 0 < d
  {
    var left := n % d;
    ScaleResult(if direction.Up? then CeilDiv(n, d) else n / d,
                if left == 0 then Exact else if direction.Down? then Discarded else Added,
                if left == 0 || direction.Down? then left else d - left, d)
  }

  lemma {:induction false} QuotientScales(n: int, d: int, direction: Direction)
    requires 0 <= n && 0 < d
    ensures Scales(n, d, direction, QuotientOf(n, d, direction))
    ensures 0 <= n / d
  {
    QuotientAndRemainder(n, d);
  }

  // Which quotients stay under a limit.
  lemma {:induction false} QuotientsFit(n: int, d: int, limit: int)
    requires 0 <= n && 0 < d
    ensures n / d < limit <==> n < limit * d
    ensures CeilDiv(n, d) < limit <==> n <= (limit - 1) * d
  {
    hide CeilDiv;
    var f, c := n / d, CeilDiv(n, d);
    QuotientAndRemainder(n, d);
    CeilIsLeastAbove(n, d, c);
    if f < limit { Multiples(f + 1, limit, d); } else { Multiples(limit, f, d); }
    if c < limit { Multiples(c, limit - 1, d); } else { Multiples(limit - 1, c - 1, d); }
  }

  // mulDiv answers exactly when its operands are in range, the divisor is positive and the rounded quotient fits, and
  // then with the one scaling there is.
  lemma {:induction false} ScaledExactly(a: int, b: int, d: int, direction: Direction)
    ensures var answer := MulDiv(a, b, d, direction);
            && (answer.Ok? <==> && IsUInt(a) && IsUInt(b) && IsPositiveUInt(d)
                                && (if direction.Up? then a * b <= (UINT256_LIMIT - 1) * d
                                    else a * b < UINT256_LIMIT * d))
            && (answer.Ok? ==> Scales(a * b, d, direction, answer.value))
            && (answer.Err? ==> answer.code == AccountingInvariant)
  {
    hide CeilDiv, Scales;
    if IsUInt(a) && IsUInt(b) && IsPositiveUInt(d) {
      NaturalProduct(a, b);
      QuotientsFit(a * b, d, UINT256_LIMIT);
      QuotientScales(a * b, d, direction);
    }
  }

  // There is only one such scaling.
  lemma {:induction false} OneScaling(n: int, d: int, direction: Direction, s: ScaleResult, t: ScaleResult)
    requires Scales(n, d, direction, s) && Scales(n, d, direction, t)
    ensures s == t
  {
    assert (s.value - 1) * d == s.value * d - d && (t.value - 1) * d == t.value * d - d;
    if s.value < t.value { Multiples(s.value, t.value - 1, d); }
    if t.value < s.value { Multiples(t.value, s.value - 1, d); }
  }

  // rescaleMinor answers exactly for decimals up to 36 and an amount and result in range: to more decimals the amount
  // times the power of ten, to fewer the scaling by it.
  lemma {:induction false} RescaledExactly(amount: int, fromDecimals: int, toDecimals: int, direction: Direction)
    ensures var answer := RescaleMinor(amount, fromDecimals, toDecimals, direction);
            var inRange := 0 <= fromDecimals <= 36 && 0 <= toDecimals <= 36 && IsUInt(amount);
            && (answer.Err? ==> answer.code == AccountingInvariant)
            && (inRange && fromDecimals <= toDecimals ==>
                  var up := amount * Pow10(toDecimals - fromDecimals);
                  && (answer.Ok? <==> up < UINT256_LIMIT)
                  && (answer.Ok? ==> answer.value == ScaleResult(up, Exact, 0, 1)))
            && (inRange && toDecimals < fromDecimals ==>
                  answer.Ok? && Scales(amount, Pow10(fromDecimals - toDecimals), direction, answer.value))
            && (!inRange ==> answer.Err?)
  {
    if 0 <= fromDecimals <= 36 && 0 <= toDecimals <= 36 && IsUInt(amount) {
      if fromDecimals <= toDecimals {
        Multiples(0, amount, Pow10(toDecimals - fromDecimals));
      } else {
        var d := Pow10(fromDecimals - toDecimals);
        PowIsUInt(fromDecimals - toDecimals);
        ScaledExactly(amount, 1, d, direction);
        Multiples(1, d, UINT256_LIMIT - 1);
        assert amount * 1 == amount;
      }
    }
  }

  // Scaling to more decimals and back, rounding either way, returns the amount exactly.
  lemma {:induction false} RescaleRoundTrip(amount: int, fromDecimals: int, toDecimals: int, direction: Direction,
      back: Direction)
    requires fromDecimals <= toDecimals && RescaleMinor(amount, fromDecimals, toDecimals, direction).Ok?
    ensures var up := RescaleMinor(amount, fromDecimals, toDecimals, direction).value;
            && up.kind.Exact?
            && RescaleMinor(up.value, toDecimals, fromDecimals, back).Ok?
            && RescaleMinor(up.value, toDecimals, fromDecimals, back).value.value == amount
            && RescaleMinor(up.value, toDecimals, fromDecimals, back).value.kind.Exact?
  {
    var d := Pow10(toDecimals - fromDecimals);
    var n := amount * d;
    if fromDecimals < toDecimals {
      PowIsUInt(toDecimals - fromDecimals);
      assert (amount + 1) * d == n + d;
      QuotientIsUnique(n, d, amount);
      assert n % d == 0;
    } else {
      assert d == 1;
    }
  }

  lemma {:induction false} PowIsUInt(n: nat)
    requires n <= MAX_DECIMALS
    ensures IsUInt(Pow10(n))
  {
    hide Pow10;
    PowGrows(n, MAX_DECIMALS);
    MillionIsSixZeros();
    PowAdds(6, 6);
    PowAdds(12, 12);
    PowAdds(24, 12);
    assert Pow10(12) == 1_000000_000000;
    assert Pow10(24) == 1_000000_000000_000000_000000;
  }

  lemma {:induction false} MillionIsSixZeros()
    ensures Pow10(6) == 1_000000
  {
    assert Pow10(3) == 1000;
  }

  lemma {:induction false} PowGrows(n: nat, m: nat)
    requires n <= m
    ensures Pow10(n) <= Pow10(m)
    decreases m
  {
    if n < m { PowGrows(n, m - 1); }
  }

  lemma {:induction false} PowAdds(n: nat, m: nat)
    ensures Pow10(n + m) == Pow10(n) * Pow10(m)
    decreases m
  {
    if m > 0 {
      PowAdds(n, m - 1);
      assert Pow10(n) * (10 * Pow10(m - 1)) == 10 * (Pow10(n) * Pow10(m - 1));
    }
  }
}
