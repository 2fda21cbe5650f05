// At-least-once delivery is exactly-once application, and acceptance fixes the order of a stream.
module Redelivery {
  import opened Prelude
  import opened Ledger
  import opened Conservation

  // The receipt is already part of the portfolio's history.
  predicate InHistory(p: Portfolio, r: Receipt) {
    exists i | 0 <= i < |p.applied| :: p.applied[i].receipt == r
  }

  // An accepted receipt either was there already and changes nothing, or is appended to the history
  // at exactly the version it named.
  lemma {:induction false} StepShape(p: Portfolio, r: Receipt, q: Portfolio)
    requires ApplyReceipt(p, r) == Ok(q)
    ensures InHistory(p, r) ==> q == p
    ensures !InHistory(p, r) ==> r.expectedVersion == p.version && q.version == p.version + 1
                                 && q.applied == p.applied + [Applied(r, q.version)]
  {
    hide Effect, Imbalance, Gross, FamiliesHold, ReservationsHold, ReceivablesHold;
    var prior := FindApplied(p.applied, r.operationId);
    if prior.Some? {
    } else {
      EffectBalances(p, r, Effect(p, r).value);
      assert !InHistory(p, r);
    }
  }

  // A receipt of the history is always accepted again, as a no-op.
  lemma {:induction false} KnownReceiptIsNoOp(p: Portfolio, r: Receipt)
    requires Valid(p) && InHistory(p, r) && ReceiptParses(r)
    ensures ApplyReceipt(p, r) == Ok(p)
  {
    hide Effect, Imbalance, Gross, FamiliesHold, ReservationsHold, ReceivablesHold, PositionsHold;
    var i :| 0 <= i < |p.applied| && p.applied[i].receipt == r;
    assert HasOperation(p.applied, r.operationId);
  }

  lemma {:induction false} HistoryParses(p: Portfolio, r: Receipt)
    requires Valid(p) && InHistory(p, r)
    ensures ReceiptParses(r)
  {
    hide ReceiptParses, HeaderHolds, FamiliesHold, ReservationsHold, ReceivablesHold, PositionsHold, Imbalance;
  }

  lemma {:induction false} RunGrowsHistory(p: Portfolio, rs: seq<Receipt>, q: Portfolio)
    requires Replay(p, rs) == Ok(q)
    ensures Valid(p) && Valid(q) && p.applied <= q.applied
    ensures forall i | 0 <= i < |rs| :: InHistory(q, rs[i]) && ReceiptParses(rs[i])
  {
    hide Valid, ApplyReceipt;
    if rs != [] {
      var n := |rs| - 1;
      var earlier := Replay(p, rs[..n]).value;
      RunGrowsHistory(p, rs[..n], earlier);
      StepKeepsHistory(earlier, rs[n], q);
      forall i | 0 <= i < |rs|
        ensures InHistory(q, rs[i]) && ReceiptParses(rs[i])
      {
        if i < n {
          assert rs[..n][i] == rs[i];
        }
      }
    }
  }

  lemma {:induction false} StepKeepsHistory(p: Portfolio, r: Receipt, q: Portfolio)
    requires ApplyReceipt(p, r) == Ok(q)
    ensures Valid(q) && p.applied <= q.applied && InHistory(q, r) && ReceiptParses(r)
    ensures forall x | InHistory(p, x) :: InHistory(q, x)
  {
    StepShape(p, r, q);
    hide Effect, Structured, Imbalance, Gross;
    forall x | InHistory(p, x)
      ensures InHistory(q, x)
    {
      var i :| 0 <= i < |p.applied| && p.applied[i].receipt == x;
      assert q.applied[i].receipt == x;
    }
    if !InHistory(p, r) {
      assert q.applied[|p.applied|].receipt == r;
    }
  }

  // The stream with every receipt dropped that the portfolio, or an earlier delivery, already holds.
  function Once(p: Portfolio, rs: seq<Receipt>): seq<Receipt> {
    if rs == [] then []
    else
      var earlier := Once(p, rs[..|rs| - 1]);
      var last := rs[|rs| - 1];
      if last in earlier || InHistory(p, last) then earlier else earlier + [last]
  }

  lemma {:induction false} OnceMembers(p: Portfolio, rs: seq<Receipt>)
    ensures forall r :: r in Once(p, rs) <==> r in rs && !InHistory(p, r)
  {
    if rs != [] {
      OnceMembers(p, rs[..|rs| - 1]);
      assert rs == rs[..|rs| - 1] + [rs[|rs| - 1]];
    }
  }

  // Redelivering receipts, anywhere in the stream and however often, changes neither the final
  // portfolio nor the refusal a stream ends in.
  lemma {:induction false} RedeliveryIsExactlyOnce(p: Portfolio, rs: seq<Receipt>)
    ensures Replay(p, rs) == Replay(p, Once(p, rs))
  {
    hide ApplyReceipt, Valid;
    if rs != [] {
      var n := |rs| - 1;
      var earlier := Once(p, rs[..n]);
      RedeliveryIsExactlyOnce(p, rs[..n]);
      if rs[n] in earlier || InHistory(p, rs[n]) {
        if Replay(p, earlier).Ok? {
          var m := Replay(p, earlier).value;
          RunGrowsHistory(p, earlier, m);
          if InHistory(p, rs[n]) {
            var i :| 0 <= i < |p.applied| && p.applied[i].receipt == rs[n];
            assert m.applied[i].receipt == rs[n];
          }
          HistoryParses(m, rs[n]);
          KnownReceiptIsNoOp(m, rs[n]);
        }
      } else {
        assert (earlier + [rs[n]])[..|earlier|] == earlier;
      }
    }
  }

  // What a whole accepted stream appends: its first deliveries, at consecutive versions.
  lemma {:induction false} FirstDeliveriesAreConsecutive(p: Portfolio, rs: seq<Receipt>, q: Portfolio)
    requires Replay(p, rs) == Ok(q)
    ensures var once := Once(p, rs);
            && q.version == p.version + |once|
            && (forall i | 0 <= i < |once| :: once[i].expectedVersion == p.version + i)
            && (forall r :: InHistory(q, r) <==> InHistory(p, r) || r in once)
  {
    hide ApplyReceipt, Valid;
    if rs != [] {
      var n := |rs| - 1;
      var m := Replay(p, rs[..n]).value;
      FirstDeliveriesAreConsecutive(p, rs[..n], m);
      StepShape(m, rs[n], q);
      if !InHistory(m, rs[n]) {
        forall r
          ensures InHistory(q, r) <==> InHistory(m, r) || r == rs[n]
        {
          AppendedHistory(m, rs[n], q, r);
        }
      }
    }
  }

  lemma {:induction false} AppendedHistory(m: Portfolio, last: Receipt, q: Portfolio, r: Receipt)
    requires q.applied == m.applied + [Applied(last, q.version)]
    ensures InHistory(q, r) <==> InHistory(m, r) || r == last
  {
    assert q.applied[|m.applied|].receipt == last;
    if InHistory(m, r) {
      var i :| 0 <= i < |m.applied| && m.applied[i].receipt == r;
      assert q.applied[i].receipt == r;
    }
  }

  // Two fully accepted streams over the same receipts, in whatever orders and with whatever repeats,
  // end in the same portfolio.
  lemma {:induction false} AcceptedOrderIsUnique(p: Portfolio, rs: seq<Receipt>, ss: seq<Receipt>, q: Portfolio,
      q': Portfolio)
    requires Replay(p, rs) == Ok(q) && Replay(p, ss) == Ok(q')
    requires forall r :: r in rs <==> r in ss
    ensures q == q'
  {
    hide ApplyReceipt, Valid, Replay;
    var a, b := Once(p, rs), Once(p, ss);
    FirstDeliveriesAreConsecutive(p, rs, q);
    FirstDeliveriesAreConsecutive(p, ss, q');
    OnceMembers(p, rs);
    OnceMembers(p, ss);
    SameMembersAtSameVersions(a, b, p.version);
    SameMembersAtSameVersions(b, a, p.version);
    assert a == b;
    RedeliveryIsExactlyOnce(p, rs);
    RedeliveryIsExactlyOnce(p, ss);
  }

  lemma {:induction false} SameMembersAtSameVersions(a: seq<Receipt>, b: seq<Receipt>, base: int)
    requires forall i | 0 <= i < |a| :: a[i].expectedVersion == base + i
    requires forall i | 0 <= i < |b| :: b[i].expectedVersion == base + i
    requires forall r :: r in a ==> r in b
    ensures |a| <= |b| && forall i | 0 <= i < |a| :: a[i] == b[i]
  {
    forall i | 0 <= i < |a|
      ensures i < |b| && a[i] == b[i]
    {
      assert a[i] in b;
      var j :| 0 <= j < |b| && b[j] == a[i];
    }
    if a != [] {
      var n, last := |a| - 1, a[|a| - 1];
      assert a[n] == last && n < |b|;
    }
  }
}
