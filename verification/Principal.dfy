// How much of a portfolio's own money a transfer receipt moves, measured on the portfolio itself.
module Principal {
  import opened Prelude
  import opened Ledger
  import opened Conservation
  import opened Frames

  function CashFundedPart(x: RecognizedCost): int { if x.cost.funding.AvailableCash? then x.cost.amount else 0 }

  function WithheldCostPart(x: RecognizedCost): int { if x.cost.funding.Withheld? then x.cost.amount else 0 }

  // Cash with the costs paid out of it put back.
  ghost function Principal(p: Portfolio): int { CashTotal(p) + Sum(p.costs, CashFundedPart) }

  ghost function WithheldCosts(p: Portfolio): int { Sum(p.costs, WithheldCostPart) }

  lemma {:induction false} ChargeOnePrincipal(s: Portfolio, r: Receipt, c: Cost, t: Portfolio)
    requires ChargeOne(s, r, c) == Ok(t)
    ensures Principal(t) == Principal(s) && WithheldCosts(t) == WithheldCosts(s) + WithheldPart(c)
  {
    hide Imbalance;
    FundCostAdds(s, c, FundCost(s, c).value);
    SumPut(s.costs, CashFundedPart, c.costId, RecognizedCost(c, r.operationId));
    SumPut(s.costs, WithheldCostPart, c.costId, RecognizedCost(c, r.operationId));
    if c.funding.AvailableCash? {
      DebitMoves(s, c.cashFamily.value, c.amount, FundCost(s, c).value);
    }
  }

  lemma {:induction false} ChargeAllPrincipal(s: Portfolio, r: Receipt, costs: seq<Cost>, t: Portfolio)
    requires ChargeAll(s, r, costs) == Ok(t)
    ensures Principal(t) == Principal(s) && WithheldCosts(t) == WithheldCosts(s) + WithheldTotal(costs)
  {
    hide ChargeOne, Principal, WithheldCosts;
    if costs != [] {
      var earlier := ChargeAll(s, r, costs[..|costs| - 1]).value;
      ChargeAllPrincipal(s, r, costs[..|costs| - 1], earlier);
      ChargeOnePrincipal(earlier, r, costs[|costs| - 1], t);
    }
  }

  // Applying costs with a gap leaves the principal alone and recognises the gap as withheld.
  lemma {:induction false} ApplyCostsPrincipal(s: Portfolio, r: Receipt, gap: int, t: Portfolio)
    requires ApplyCosts(s, r, gap) == Ok(t)
    ensures Principal(t) == Principal(s) && WithheldCosts(t) == WithheldCosts(s) + gap
  {
    hide Principal, WithheldCosts;
    ChargeAllPrincipal(s, r, r.body.Costs(), t);
  }

  lemma {:induction false} ReservePrincipal(s: Portfolio, r: Receipt, t: Portfolio)
    requires r.body.Reserve? && ReserveEffect(s, r) == Ok(t)
    ensures Principal(t) == Principal(s) - r.body.amount && WithheldCosts(t) == WithheldCosts(s)
  {
    var family := s.views[r.body.cashViewId].familyId;
    DebitMoves(s, family, r.body.amount, DebitCash(s, family, r.body.amount).value);
  }

  lemma {:induction false} SourceFailedPrincipal(s: Portfolio, r: Receipt, t: Portfolio)
    requires r.body.TransferSourceFailed? && SourceFailedEffect(s, r) == Ok(t)
    ensures var amount, withheld := s.reservations[r.body.reservationId].amount, WithheldTotal(r.body.costs);
            && withheld <= amount
            && Principal(t) == Principal(s) + amount - withheld
            && WithheldCosts(t) == WithheldCosts(s) + withheld
  {
    hide ApplyCosts, CreditCash;
    var id := r.body.reservationId;
    var x := s.reservations[id];
    var withheld := WithheldTotal(r.body.costs);
    var released := s.(reservations := s.reservations - {id});
    var credited := CreditCash(released, x.familyId, x.amount - withheld).value;
    CreditMoves(released, x.familyId, x.amount - withheld, credited);
    ApplyCostsPrincipal(credited, r, withheld, t);
  }

  lemma {:induction false} BurnPrincipal(s: Portfolio, r: Receipt, t: Portfolio)
    requires r.body.TransferBurned? && BurnedEffect(s, r) == Ok(t)
    ensures Principal(t) == Principal(s)
    ensures WithheldCosts(t) == WithheldCosts(s) + s.reservations[r.body.reservationId].amount - r.body.netReceivable
  {
    hide ApplyCosts;
    var b := r.body;
    var x := s.reservations[b.reservationId];
    var receivable := Receivable(b.messageIdentity, x.networkId, b.destinationNetworkId,
                                 s.views[b.destinationViewId].familyId, b.netReceivable, InTransit, 0,
                                 r.observedAt, r.observedAt);
    var moved := s.(reservations := s.reservations - {b.reservationId},
                    receivables := s.receivables[b.transferId := receivable]);
    ApplyCostsPrincipal(moved, r, x.amount - b.netReceivable, t);
  }

  lemma {:induction false} ReceivablePrincipal(s: Portfolio, r: Receipt, t: Portfolio)
    requires r.body.MovesReceivable() && ReceivableEffect(s, r) == Ok(t)
    ensures r.body.transferId in s.receivables
    ensures var credit := if r.body.TransferSettled? then r.body.destinationCredit else 0;
            var released := if r.body.TransferSettled? then s.receivables[r.body.transferId].amount else 0;
            Principal(t) == Principal(s) + credit && WithheldCosts(t) == WithheldCosts(s) + released - credit
  {
    hide ApplyCosts, CreditCash;
    var id := r.body.transferId;
    var x := s.receivables[id];
    if r.body.TransferSettled? {
      var credited := CreditCash(s, x.destinationFamilyId, r.body.destinationCredit).value;
      CreditMoves(s, x.destinationFamilyId, r.body.destinationCredit, credited);
      ApplyCostsPrincipal(credited.(receivables := credited.receivables - {id}), r,
                          x.amount - r.body.destinationCredit, t);
    } else {
      ApplyCostsPrincipal(s, r, 0, ApplyCosts(s, r, 0).value);
    }
  }
}
