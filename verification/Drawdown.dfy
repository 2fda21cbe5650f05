// Running-peak drawdown of a series of portfolio values, in basis points.
module Drawdown {
  import opened Prelude
  import L = Ledger

  const BPS := 10000

  function Draw(peak: int, value: int): int
    requires 0 < peak
  {
    (peak - value) * BPS / peak
  }

  predicate NonNegative(values: seq<int>) {
    forall i | 0 <= i < |values| :: 0 <= values[i]
  }

  // The drawdown of a series is the largest fall from a value to itself or a later one.
  ghost predicate IsDrawdown(values: seq<int>, d: int) {
    && (forall i, j | 0 <= i <= j < |values| && 0 < values[i] :: Draw(values[i], values[j]) <= d)
    && (exists i, j | 0 <= i <= j < |values| && 0 < values[i] :: Draw(values[i], values[j]) == d)
  }

  // Ten-thousandths of the peak, rounded down: losing everything is 10000 of them.
  lemma {:induction false} DrawIsInTenThousandths(peak: int, value: int, d: int)
    requires 0 < peak
    ensures d == Draw(peak, value) <==> d * peak <= (peak - value) * 10000 < (d + 1) * peak
    ensures Draw(peak, 0) == 10000
  {
    var n, q := (peak - value) * 10000, Draw(peak, value);
    assert q * peak <= n < (q + 1) * peak;
    if d * peak <= n < (d + 1) * peak {
      if d < q { Scales(d + 1, q, peak); }
      if q < d { Scales(q + 1, d, peak); }
    }
    assert peak * 10000 == 10000 * peak;
  }

  // A drawdown of d says that some later value fell at least d ten-thousandths below an earlier one, and that none
  // fell d + 1.
  lemma {:induction false} DrawdownReadsOff(values: seq<int>, d: int)
    ensures IsDrawdown(values, d) <==>
              && (forall i, j | 0 <= i <= j < |values| && 0 < values[i] ::
                    (values[i] - values[j]) * 10000 < (d + 1) * values[i])
              && (exists i, j | 0 <= i <= j < |values| && 0 < values[i] ::
                    d * values[i] <= (values[i] - values[j]) * 10000)
  {
    hide Draw;
    forall i, j | 0 <= i <= j < |values| && 0 < values[i]
      ensures Draw(values[i], values[j]) <= d <==> (values[i] - values[j]) * 10000 < (d + 1) * values[i]
      ensures d <= Draw(values[i], values[j]) <==> d * values[i] <= (values[i] - values[j]) * 10000
    {
      DrawCompares(values[i], values[j], d);
    }
  }

  lemma {:induction false} DrawCompares(peak: int, value: int, d: int)
    requires 0 < peak
    ensures Draw(peak, value) <= d <==> (peak - value) * 10000 < (d + 1) * peak
    ensures d <= Draw(peak, value) <==> d * peak <= (peak - value) * 10000
  {
    hide Draw;
    var q := Draw(peak, value);
    DrawIsInTenThousandths(peak, value, q);
    if q <= d { Scales(q + 1, d + 1, peak); } else { Scales(d + 1, q, peak); }
    if d <= q { Scales(d, q, peak); } else { Scales(q + 1, d, peak); }
  }

  // From a higher peak the same value is a deeper fall.
  lemma {:induction false} HigherPeakDeeperFall(a: int, b: int, value: int)
    requires 0 < a <= b && 0 <= value
    ensures Draw(a, value) <= Draw(b, value)
  {
    var q := Draw(a, value);
    assert q * a <= (a - value) * BPS;
    assert (a - value) * b <= (b - value) * a by {
      assert value * a <= value * b;
    }
    Scaled(q, a, b, (a - value) * BPS, (b - value) * BPS);
  }

  lemma Scales(u: int, v: int, a: int)
    requires 0 < a && u <= v
    ensures u * a <= v * a
  {
  }

  lemma {:induction false} Cancels(u: int, v: int, a: int)
    requires 0 < a && u * a <= v * a
    ensures u <= v
  {
    if v < u { Scales(v + 1, u, a); }
  }

  lemma {:induction false} Scaled(q: int, a: int, b: int, x: int, y: int)
    requires 0 < a && 0 < b && q * a <= x && x * b <= y * a
    ensures q <= y / b
  {
    Scales(q * a, x, b);
    Regroup(q, a, b);
    Cancels(q * b, y, a);
    var d := y / b;
    assert y < (d + 1) * b;
    if d < q { Scales(d + 1, q, b); }
  }

  lemma Regroup(q: int, a: int, b: int)
    ensures q * a * b == q * b * a
  {
  }

  lemma {:induction false} DrawIsBounded(peak: int, value: int)
    requires 0 < peak && 0 <= value
    ensures Draw(peak, value) <= BPS
    ensures value <= peak ==> 0 <= Draw(peak, value)
  {
    assert (peak - value) * BPS <= BPS * peak;
  }

  // The largest of the values so far, as the loop keeps it.
  predicate IsPeak(values: seq<int>, peak: int) {
    peak in values && forall i | 0 <= i < |values| :: values[i] <= peak
  }

  lemma {:induction false} PeakMoves(values: seq<int>, peak: int, v: int)
    requires IsPeak(values, peak)
    ensures IsPeak(values + [v], if v > peak then v else peak)
  {
    var more := values + [v];
    assert forall i | 0 <= i < |values| :: more[i] == values[i];
    assert more[|values|] == v;
    var k :| 0 <= k < |values| && values[k] == peak;
    assert more[k] == peak;
  }

  // From the peak so far, new value included, the fall to the new value is the deepest fall to it.
  lemma {:induction false} DeepestFallToLast(values: seq<int>, top: int, v: int)
    requires NonNegative(values) && 0 <= v && 0 < top && IsPeak(values + [v], top)
    ensures forall i | 0 <= i <= |values| && 0 < (values + [v])[i] :: Draw((values + [v])[i], v) <= Draw(top, v)
    ensures exists i | 0 <= i <= |values| && 0 < (values + [v])[i] :: Draw((values + [v])[i], v) == Draw(top, v)
    ensures 0 <= Draw(top, v) <= BPS
  {
    hide Draw;
    var more := values + [v];
    forall i | 0 <= i <= |values| && 0 < more[i]
      ensures Draw(more[i], v) <= Draw(top, v)
    {
      HigherPeakDeeperFall(more[i], top, v);
    }
    var k :| 0 <= k < |more| && more[k] == top;
    assert 0 < more[k] && Draw(more[k], v) == Draw(top, v);
    assert v <= top by { assert more[|values|] == v; }
    DrawIsBounded(top, v);
  }

  lemma {:induction false} DrawdownMoves(values: seq<int>, d: int, v: int, draw: int)
    requires IsDrawdown(values, d)
    requires forall i | 0 <= i <= |values| && 0 < (values + [v])[i] :: Draw((values + [v])[i], v) <= draw
    requires exists i | 0 <= i <= |values| && 0 < (values + [v])[i] :: Draw((values + [v])[i], v) == draw
    ensures IsDrawdown(values + [v], if draw > d then draw else d)
  {
    hide Draw;
    var more, e := values + [v], if draw > d then draw else d;
    assert forall i | 0 <= i < |values| :: more[i] == values[i];
    forall i, j | 0 <= i <= j < |more| && 0 < more[i]
      ensures Draw(more[i], more[j]) <= e
    {
      if j < |values| { assert Draw(values[i], values[j]) <= d; }
    }
    if draw > d {
      var i :| 0 <= i <= |values| && 0 < more[i] && Draw(more[i], v) == draw;
      assert Draw(more[i], more[|values|]) == e;
    } else {
      var i, j :| 0 <= i <= j < |values| && 0 < values[i] && Draw(values[i], values[j]) == d;
      assert Draw(more[i], more[j]) == e;
    }
  }

  lemma {:induction false} OneMoreValue(values: seq<int>, peak: int, d: int, v: int)
    requires NonNegative(values) && 0 < peak && IsPeak(values, peak) && IsDrawdown(values, d) && 0 <= v
    ensures var top := if v > peak then v else peak;
            && IsPeak(values + [v], top)
            && IsDrawdown(values + [v], if Draw(top, v) > d then Draw(top, v) else d)
            && 0 <= Draw(top, v) <= BPS
  {
    hide Draw, IsPeak, IsDrawdown, NonNegative;
    var top := if v > peak then v else peak;
    PeakMoves(values, peak, v);
    DeepestFallToLast(values, top, v);
    DrawdownMoves(values, d, v, Draw(top, v));
  }

  lemma {:induction false} DrawdownIsUnique(values: seq<int>, d: int, e: int)
    requires IsDrawdown(values, d) && IsDrawdown(values, e)
    ensures d == e
  {
    hide Draw;
    var i, j :| 0 <= i <= j < |values| && 0 < values[i] && Draw(values[i], values[j]) == d;
    var k, l :| 0 <= k <= l < |values| && 0 < values[k] && Draw(values[k], values[l]) == e;
  }

  // The loop of replayDemoDiagnostic over the snapshots' values.
  method MaxDrawdown(initialValue: int, values: seq<int>) returns (drawdown: int)
    requires 0 < initialValue && NonNegative(values)
    ensures IsDrawdown([initialValue] + values, drawdown)
    ensures forall d | IsDrawdown([initialValue] + values, d) :: d == drawdown
    ensures 0 <= drawdown <= 10000
  {
    hide Draw;
    var peak := initialValue;
    drawdown := 0;
    StartsFlat(initialValue);
    ghost var seen := [initialValue];
    for n := 0 to |values|
      invariant seen == [initialValue] + values[..n]
      invariant NonNegative(seen) && 0 < peak && IsPeak(seen, peak)
      invariant IsDrawdown(seen, drawdown) && 0 <= drawdown <= 10000
    {
      var value := values[n];
      OneMoreValue(seen, peak, drawdown, value);
      if value > peak { peak := value; }
      var draw := Draw(peak, value);
      if draw > drawdown { drawdown := draw; }
      seen := seen + [value];
    }
    assert values[..|values|] == values;
    forall d | IsDrawdown([initialValue] + values, d)
      ensures d == drawdown
    {
      DrawdownIsUnique([initialValue] + values, d, drawdown);
    }
  }

  lemma {:induction false} StartsFlat(v: int)
    requires 0 < v
    ensures IsPeak([v], v) && IsDrawdown([v], 0)
  {
    assert Draw([v][0], [v][0]) == 0;
  }

  /******* Over snapshots *******/

  // globalBookValue
  method GlobalBookValue(p: L.Portfolio) returns (value: int)
    requires L.Valid(p)
    ensures value == L.NetValue(p) && 0 <= value
  {
    var cash := Total(p.cash, L.CashAmount);
    var reserved := Total(p.reservations, L.ReservedAmount);
    var books := Total(p.positions, L.PositionBook);
    var owed := Total(p.receivables, L.ReceivableAmount);
    var payable := Total(p.payables, L.PayableAmount);
    value := cash + reserved + books + owed - payable;
  }

  // The values of the snapshots a replay took; each was returned by applyReceipt, so it is valid.
  ghost function ValuesOf(snapshots: seq<L.Portfolio>): seq<int> {
    seq(|snapshots|, i requires 0 <= i < |snapshots| => L.NetValue(snapshots[i]))
  }

  method SnapshotDrawdown(initialValue: int, snapshots: seq<L.Portfolio>) returns (drawdown: int)
    requires 0 < initialValue && forall i | 0 <= i < |snapshots| :: L.Valid(snapshots[i])
    ensures IsDrawdown([initialValue] + ValuesOf(snapshots), drawdown)
    ensures forall d | IsDrawdown([initialValue] + ValuesOf(snapshots), d) :: d == drawdown
    ensures 0 <= drawdown <= 10000
  {
    hide L.Valid, L.NetValue, IsDrawdown, Draw;
    var values := [];
    for i := 0 to |snapshots|
      invariant |values| == i && NonNegative(values)
      invariant forall j | 0 <= j < i :: values[j] == L.NetValue(snapshots[j])
    {
      var value := GlobalBookValue(snapshots[i]);
      values := values + [value];
    }
    assert values == ValuesOf(snapshots);
    drawdown := MaxDrawdown(initialValue, values);
  }
}
