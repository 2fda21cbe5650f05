// Exactly when a transfer event the lifecycle takes is also taken by the ledger, and so commits.
module Commits {
  import opened Prelude
  import opened Transfers
  import opened TransferStore
  import opened Joint
  import opened JointRuns
  import opened Affordable
  import L = Ledger
  import C = Conservation
  import F = Frames
  import R = Redelivery
  import Closing
  import Lifetimes

  /******* New receipts on a valid portfolio *******/

  ghost predicate Sound(p: L.Portfolio) {
    L.Valid(p) && Closing.StartsEmpty(p) && Lifetimes.AttemptsFit(p)
  }

  lemma {:induction false} SoundFacts(p: L.Portfolio)
    requires L.Valid(p)
    ensures L.IndexesPositive(p.positions) && C.PayablesBacked(p) && 0 <= L.NetValue(p) && L.CashHolds(p.cash)
    ensures IsInt256(p.pnl) && IsUInt(p.version)
  {
    hide L.HistoryHolds, L.FamiliesHold, L.ReservationsHold, L.ReceivablesHold, L.AllowancesHold, L.CostsHold;
    hide L.Gross, L.Liabilities;
    Closing.CoherentFacts(p);
  }

  // A new receipt that neither accrues nor approves is taken exactly when it is admitted, its branch succeeds,
  // its costs stay within net value and the version can still count it.
  lemma {:induction false} NewReceiptTaken(p: L.Portfolio, r: L.Receipt)
    requires L.Valid(p) && Closing.StartsEmpty(p) && L.ReceiptParses(r) && !L.HasOperation(p.applied, r.operationId)
    requires !r.body.Accrue? && !r.body.Approve?
    ensures L.IndexesPositive(p.positions)
    ensures L.ApplyReceipt(p, r).Ok? <==>
              && L.Admit(p, r).Ok? && L.Effect(p, r).Ok?
              && L.CostsSum(r.body.Costs()) <= L.NetValue(p) && IsUInt(p.version + 1)
  {
    hide L.Effect, L.Valid, L.Admit, L.ReceiptParses, L.CostsSum, L.NetValue, Closing.StartsEmpty;
    SoundFacts(p);
    if L.Admit(p, r).Ok? && L.Effect(p, r).Ok? {
      var s := L.Effect(p, r).value;
      C.EffectBalances(p, r, s);
      Closing.ClosingCheckRefusesOnlyInsolvency(p, r, s);
    }
  }

  // One family's cash after a credit.
  function Credited(cash: map<Id, L.Cash>, family: Id, amount: int): map<Id, L.Cash> {
    if family in cash then cash[family := cash[family].(amount := cash[family].amount + amount)] else cash
  }

  predicate CanCredit(cash: map<Id, L.Cash>, family: Id, amount: int) {
    family in cash && IsUInt(cash[family].amount + amount)
  }

  predicate ChargesFit(p: L.Portfolio, cash: map<Id, L.Cash>, hashes: seq<SourceHash>, costs: seq<L.Cost>, gap: int) {
    CanCharge(cash, p.costs, hashes, costs) && L.WithheldTotal(costs) == gap
  }

  lemma {:induction false} CreditKeepsRanges(cash: map<Id, L.Cash>, family: Id, amount: int)
    requires L.CashHolds(cash) && CanCredit(cash, family, amount)
    ensures L.CashHolds(Credited(cash, family, amount))
  {
  }

  lemma {:induction false} AdmittedIsNotEarlier(p: L.Portfolio, r: L.Receipt, id: Id)
    requires L.Valid(p) && Closing.StartsEmpty(p) && L.Admit(p, r).Ok? && id in p.receivables
    ensures p.receivables[id].updatedAt <= r.observedAt && p.maxDestinationAttempts < UINT256_LIMIT
  {
    hide L.FamiliesHold, L.ReservationsHold, L.PositionsHold, L.AllowancesHold, L.CostsHold, L.PayablesHold;
    hide L.Gross, L.Liabilities, L.Imbalance, L.CashHolds;
  }

  // The branch of the four receivable receipts: the state machine, room for the credit, and the charges.
  lemma {:induction false} ReceivableTaken(p: L.Portfolio, r: L.Receipt)
    requires r.body.MovesReceivable() && L.CashHolds(p.cash) && L.CostsParse(r.body.Costs())
    requires r.body.transferId in p.receivables ==> p.receivables[r.body.transferId].updatedAt <= r.observedAt
    requires p.maxDestinationAttempts < UINT256_LIMIT
    requires r.body.transferId in p.receivables ==> 0 <= p.receivables[r.body.transferId].attempts
    ensures var b := r.body;
            L.ReceivableEffect(p, r).Ok? <==>
              && b.transferId in p.receivables
              && var x := p.receivables[b.transferId];
              && F.NextReceivable(x, b, r.observedAt, p.maxDestinationAttempts).Ok?
              && if b.TransferSettled? then
                   && CanCredit(p.cash, x.destinationFamilyId, b.destinationCredit)
                   && ChargesFit(p, Credited(p.cash, x.destinationFamilyId, b.destinationCredit), r.sourceHashes,
                                 b.costs, x.amount - b.destinationCredit)
                 else ChargesFit(p, p.cash, r.sourceHashes, b.costs, 0)
  {
    hide L.ApplyCosts, CanCharge, L.CostsParse, L.WithheldTotal, L.CashHolds;
    if r.body.transferId in p.receivables {
      var x := p.receivables[r.body.transferId];
      if r.body.TransferSettled? {
        SettlementTaken(p, r, x);
      } else {
        CostsTaken(p, r, 0);
      }
    }
  }

  lemma {:induction false} SettlementTaken(p: L.Portfolio, r: L.Receipt, x: L.Receivable)
    requires r.body.TransferSettled? && L.CashHolds(p.cash) && L.CostsParse(r.body.Costs())
    ensures var credited := L.CreditCash(p, x.destinationFamilyId, r.body.destinationCredit);
            var gap := x.amount - r.body.destinationCredit;
            && (credited.Ok? <==> CanCredit(p.cash, x.destinationFamilyId, r.body.destinationCredit))
            && (credited.Ok? ==>
                  var u := credited.value.(receivables := credited.value.receivables - {r.body.transferId});
                  (L.ApplyCosts(u, r, gap).Ok?
                   <==> ChargesFit(p, Credited(p.cash, x.destinationFamilyId, r.body.destinationCredit),
                                   r.sourceHashes, r.body.costs, gap)))
  {
    hide L.ApplyCosts, CanCharge, L.CostsParse, L.WithheldTotal, L.CashHolds;
    var credited := L.CreditCash(p, x.destinationFamilyId, r.body.destinationCredit);
    if credited.Ok? {
      CreditKeepsRanges(p.cash, x.destinationFamilyId, r.body.destinationCredit);
      CostsTaken(credited.value.(receivables := credited.value.receivables - {r.body.transferId}), r,
                 x.amount - r.body.destinationCredit);
    }
  }

  lemma {:induction false} SourceFailedTaken(p: L.Portfolio, r: L.Receipt)
    requires r.body.TransferSourceFailed? && L.CashHolds(p.cash) && L.CostsParse(r.body.Costs())
    ensures var b := r.body;
            var withheld := L.WithheldTotal(b.costs);
            L.SourceFailedEffect(p, r).Ok? <==>
              && b.reservationId in p.reservations
              && var x := p.reservations[b.reservationId];
              && withheld <= x.amount && CanCredit(p.cash, x.familyId, x.amount - withheld)
              && ChargesFit(p, Credited(p.cash, x.familyId, x.amount - withheld), r.sourceHashes, b.costs, withheld)
  {
    hide L.ApplyCosts, CanCharge, L.CostsParse, L.WithheldTotal, L.CashHolds;
    var id, withheld := r.body.reservationId, L.WithheldTotal(r.body.costs);
    if id in p.reservations {
      var x := p.reservations[id];
      var credited := L.CreditCash(p.(reservations := p.reservations - {id}), x.familyId, x.amount - withheld);
      if credited.Ok? {
        CreditKeepsRanges(p.cash, x.familyId, x.amount - withheld);
        CostsTaken(credited.value, r, withheld);
      }
    }
  }

  lemma {:induction false} BurnTaken(p: L.Portfolio, r: L.Receipt)
    requires r.body.TransferBurned? && L.CashHolds(p.cash) && L.CostsParse(r.body.Costs())
    ensures var b := r.body;
            L.BurnedEffect(p, r).Ok? <==>
              && b.reservationId in p.reservations && b.transferId !in p.receivables
              && (forall k | k in p.receivables :: p.receivables[k].messageIdentity != b.messageIdentity)
              && b.destinationViewId in p.views
              && var x := p.reservations[b.reservationId];
              && p.views[b.destinationViewId].networkId == b.destinationNetworkId != x.networkId
              && b.netReceivable <= x.amount
              && ChargesFit(p, p.cash, r.sourceHashes, b.costs, x.amount - b.netReceivable)
  {
    hide L.ApplyCosts, CanCharge, L.CostsParse, L.WithheldTotal, L.CashHolds;
    var b := r.body;
    if b.reservationId in p.reservations && b.destinationViewId in p.views {
      var x := p.reservations[b.reservationId];
      var receivable := L.Receivable(b.messageIdentity, x.networkId, b.destinationNetworkId,
                                     p.views[b.destinationViewId].familyId, b.netReceivable, L.InTransit, 0,
                                     r.observedAt, r.observedAt);
      CostsTaken(p.(reservations := p.reservations - {b.reservationId},
                    receivables := p.receivables[b.transferId := receivable]), r, x.amount - b.netReceivable);
    }
  }

  /******* The receipt of an event *******/

  lemma {:induction false} HashesKept(hashes: seq<SourceHash>)
    ensures forall h | h in hashes :: h in DistinctHashes(hashes)
    ensures hashes != [] ==> DistinctHashes(hashes) != []
  {
    if hashes != [] {
      HashesKept(hashes[..|hashes| - 1]);
      assert hashes == hashes[..|hashes| - 1] + [hashes[|hashes| - 1]];
    }
  }

  // An event's receipt carries the hashes of its own costs.
  lemma {:induction false} OwnHashesSuffice(cash: map<Id, L.Cash>, recognized: map<Id, L.RecognizedCost>,
      source: SourceHash, costs: seq<L.Cost>)
    ensures DistinctHashes([source] + HashesOf(costs)) != []
    ensures CanCharge(cash, recognized, DistinctHashes([source] + HashesOf(costs)), costs)
            <==> CanCharge(cash, recognized, HashesOf(costs), costs)
  {
    hide DistinctHashes, TakenFrom, Addressed, L.DistinctCostIds;
    var hashes := [source] + HashesOf(costs);
    HashesKept(hashes);
    forall i | 0 <= i < |costs|
      ensures costs[i].sourceHash in HashesOf(costs) && costs[i].sourceHash in DistinctHashes(hashes)
    {
      assert HashesOf(costs)[i] == costs[i].sourceHash;
      assert hashes[i + 1] == costs[i].sourceHash;
    }
  }

  // The ids, provenance, time order and counter every new receipt must meet.
  predicate InOrder(p: L.Portfolio, t: Transfer, e: Event) {
    && t.experimentId == p.experimentId && t.scenarioId == p.scenarioId && t.provenance == p.provenance
    && (p.lastAppliedAt.Some? ==> p.lastAppliedAt.value <= e.occurredAt)
    && !L.HasOperation(p.applied, e.eventId)
    && IsUInt(p.version + 1)
  }

  // The event's costs can be charged to the given cash, withhold exactly the gap its amounts leave, and stay
  // within net value.
  ghost predicate CostsFit(p: L.Portfolio, cash: map<Id, L.Cash>, costs: seq<L.Cost>, gap: int) {
    L.CostsParse(costs) && ChargesFit(p, cash, HashesOf(costs), costs, gap) && L.CostsSum(costs) <= L.NetValue(p)
  }

  // What the ledger still asks of an event its lifecycle takes.
  ghost predicate LedgerTakes(p: L.Portfolio, t: Transfer, e: Event, costs: seq<L.Cost>) {
    match e.kind
    case ReservationMade =>
      && InOrder(p, t, e) && p.closedAt.None? && 0 < t.amount && !HasReservation(t, p)
      && t.sourceViewId in p.views && p.views[t.sourceViewId].familyId in p.cash
      && t.amount <= p.cash[p.views[t.sourceViewId].familyId].amount
    case SourceFailure =>
      && InOrder(p, t, e) && p.closedAt.None? && HasReservation(t, p)
      && var family, withheld := p.reservations[t.reservationId].familyId, L.WithheldTotal(costs);
      && withheld <= t.amount && CanCredit(p.cash, family, t.amount - withheld)
      && CostsFit(p, Credited(p.cash, family, t.amount - withheld), costs, withheld)
    case BurnConfirmed =>
      && InOrder(p, t, e) && p.closedAt.None? && HasReservation(t, p)
      && RouteDestination(t.routeId).Ok? && t.destinationViewId in p.views
      && p.views[t.destinationViewId].networkId == RouteDestination(t.routeId).value
      && p.views[t.destinationViewId].networkId != p.reservations[t.reservationId].networkId
      && 0 < t.netReceivable <= t.amount
      && CostsFit(p, p.cash, costs, t.amount - t.netReceivable)
    case AttestationObserved =>
      && InOrder(p, t, e) && (t.state.DestinationRetry? ==> t.attempts < p.maxDestinationAttempts)
      && CostsFit(p, p.cash, costs, 0)
    case AttestationDelayed =>
      && InOrder(p, t, e) && HasReceivable(t, p) && p.receivables[t.transferId].state.InTransit?
      && CostsFit(p, p.cash, costs, 0)
    case DestinationFailed =>
      InOrder(p, t, e) && CostsFit(p, p.cash, costs, 0)
    case DestinationConfirmed =>
      && InOrder(p, t, e) && HasReceivable(t, p)
      && var family := p.receivables[t.transferId].destinationFamilyId;
      && CanCredit(p.cash, family, t.netReceivable)
      && CostsFit(p, Credited(p.cash, family, t.netReceivable), costs, 0)
    case DependencyInvalidated => true
    case ClosureRecorded => true
  }

  predicate ReceiptOf(t: Transfer, after: Transfer, e: Event, version: int, costs: seq<L.Cost>, r: L.Receipt) {
    ReceiptFor(t, after, e, version, costs) == Ok(Some(r))
  }

  // The fields of an event's receipt that do not depend on its kind.
  predicate HeaderOf(r: L.Receipt, t: Transfer, e: Event, version: int) {
    && r.operationId == e.eventId && r.observedAt == e.occurredAt && r.expectedVersion == version
    && r.experimentId == t.experimentId && r.scenarioId == t.scenarioId && r.provenance == t.provenance
  }

  lemma {:induction false} ReceiptFields(t: Transfer, after: Transfer, e: Event, version: int, costs: seq<L.Cost>,
      r: L.Receipt)
    requires ReceiptOf(t, after, e, version, costs, r)
    ensures HeaderOf(r, t, e, version)
    ensures r.sourceHashes == DistinctHashes([e.sourceHash] + HashesOf(costs))
    ensures r.body.Costs() == if e.kind.ReservationMade? then [] else costs
    ensures r.body.MovesReceivable() <==>
              e.kind.AttestationObserved? || e.kind.AttestationDelayed? || e.kind.DestinationFailed?
              || e.kind.DestinationConfirmed?
  {
    hide DistinctHashes, HashesOf, RouteDestination;
  }

  lemma {:induction false} ReceiptParsing(t: Transfer, after: Transfer, e: Event, version: int, costs: seq<L.Cost>,
      r: L.Receipt)
    requires ReceiptOf(t, after, e, version, costs, r) && IsUInt(version) && r.sourceHashes != []
    ensures L.ReceiptParses(r) <==>
              match e.kind
              case ReservationMade => IsPositiveUInt(t.amount)
              case BurnConfirmed => L.CostsParse(costs) && IsPositiveUInt(t.netReceivable)
              case DestinationConfirmed => L.CostsParse(costs) && IsUInt(t.netReceivable)
              case _ => L.CostsParse(costs)
  {
    assert L.CostsParse([]);
    hide DistinctHashes, HashesOf, RouteDestination, L.CostsParse;
    match e.kind
    case ReservationMade =>
    case BurnConfirmed =>
    case DestinationConfirmed =>
    case _ =>
  }

  lemma {:induction false} Admission(p: L.Portfolio, t: Transfer, e: Event, r: L.Receipt)
    requires HeaderOf(r, t, e, p.version)
    ensures !L.HasOperation(p.applied, e.eventId) && IsUInt(p.version + 1) && L.Admit(p, r).Ok?
            <==> InOrder(p, t, e) && (p.closedAt.Some? ==> r.body.MovesReceivable())
  {
    hide L.HasOperation;
  }

  // A receipt the history does not hold is taken exactly when it parses, is in order, its branch succeeds and its
  // costs stay within net value.
  lemma {:induction false} PostSplit(p: L.Portfolio, t: Transfer, after: Transfer, e: Event, costs: seq<L.Cost>,
      r: L.Receipt)
    requires Sound(p) && ReceiptOf(t, after, e, p.version, costs, r) && !R.InHistory(p, r)
    ensures L.IndexesPositive(p.positions)
    ensures L.ApplyReceipt(p, r).Ok? <==>
              && L.ReceiptParses(r) && InOrder(p, t, e) && (p.closedAt.Some? ==> r.body.MovesReceivable())
              && L.Effect(p, r).Ok? && L.CostsSum(r.body.Costs()) <= L.NetValue(p)
  {
    hide L.Valid, ReceiptFor, L.Admit, L.Effect, L.HasOperation, L.CostsSum, L.NetValue, L.ReceiptParses;
    SoundFacts(p);
    ReceiptFields(t, after, e, p.version, costs, r);
    Admission(p, t, e, r);
    if L.HasOperation(p.applied, e.eventId) {
      UsedOperationIsRefused(p, r);
    } else if L.ReceiptParses(r) {
      NeverAccruesOrApproves(t, after, e, p.version, costs, r);
      NewReceiptTaken(p, r);
    } else {
      UnparsedIsRefused(p, r);
    }
  }

  lemma NeverAccruesOrApproves(t: Transfer, after: Transfer, e: Event, version: int, costs: seq<L.Cost>, r: L.Receipt)
    requires ReceiptOf(t, after, e, version, costs, r)
    ensures !r.body.Accrue? && !r.body.Approve?
  {
  }

  lemma {:induction false} UsedOperationIsRefused(p: L.Portfolio, r: L.Receipt)
    requires L.HasOperation(p.applied, r.operationId) && !R.InHistory(p, r)
    ensures L.ApplyReceipt(p, r).Err?
  {
    hide L.Valid, L.ReceiptParses;
    assert L.FindApplied(p.applied, r.operationId).Some?;
  }

  lemma UnparsedIsRefused(p: L.Portfolio, r: L.Receipt)
    requires !L.ReceiptParses(r)
    ensures L.ApplyReceipt(p, r).Err?
  {
  }

  /******* Event by event *******/

  // One event's receipt: taken by the ledger exactly when LedgerTakes says so, and for a burn only if no receivable
  // has its message yet.
  ghost predicate TakenExactly(p: L.Portfolio, t: Transfer, e: Event, costs: seq<L.Cost>, r: L.Receipt) {
    L.ApplyReceipt(p, r).Ok? <==>
      LedgerTakes(p, t, e, costs)
      && (e.kind.BurnConfirmed? ==>
            forall k | k in p.receivables :: Some(p.receivables[k].messageIdentity) != e.messageIdentity)
  }

  // What every event lemma below starts from.
  lemma {:induction false} EventPosts(p: L.Portfolio, t: Transfer, after: Transfer, e: Event, costs: seq<L.Cost>,
      r: L.Receipt)
    requires Sound(p) && ReceiptOf(t, after, e, p.version, costs, r) && !R.InHistory(p, r)
    ensures L.IndexesPositive(p.positions) && L.CashHolds(p.cash) && 0 <= L.NetValue(p)
    ensures L.ApplyReceipt(p, r).Ok? <==>
              && L.ReceiptParses(r) && InOrder(p, t, e) && (p.closedAt.Some? ==> r.body.MovesReceivable())
              && L.Effect(p, r).Ok? && L.CostsSum(r.body.Costs()) <= L.NetValue(p)
    ensures L.ReceiptParses(r) <==>
              match e.kind
              case ReservationMade => IsPositiveUInt(t.amount)
              case BurnConfirmed => L.CostsParse(costs) && IsPositiveUInt(t.netReceivable)
              case DestinationConfirmed => L.CostsParse(costs) && IsUInt(t.netReceivable)
              case _ => L.CostsParse(costs)
    ensures HeaderOf(r, t, e, p.version)
    ensures r.body.Costs() == if e.kind.ReservationMade? then [] else costs
    ensures r.body.MovesReceivable() <==>
              e.kind.AttestationObserved? || e.kind.AttestationDelayed? || e.kind.DestinationFailed?
              || e.kind.DestinationConfirmed?
    ensures forall cash, gap :: ChargesFit(p, cash, r.sourceHashes, costs, gap)
                                <==> ChargesFit(p, cash, HashesOf(costs), costs, gap)
  {
    hide *;
    SoundIsValid(p);
    SoundFacts(p);
    PostSplit(p, t, after, e, costs, r);
    ReceiptFields(t, after, e, p.version, costs, r);
    OwnHashesSuffice(map[], map[], e.sourceHash, costs);
    ReceiptParsing(t, after, e, p.version, costs, r);
    forall cash, gap
      ensures ChargesFit(p, cash, r.sourceHashes, costs, gap) <==> ChargesFit(p, cash, HashesOf(costs), costs, gap)
    {
      ChargesFitOwnHashes(p, cash, e.sourceHash, costs, gap);
    }
  }

  lemma SoundIsValid(p: L.Portfolio)
    requires Sound(p)
    ensures L.Valid(p) && Closing.StartsEmpty(p)
  {
  }

  lemma {:induction false} ChargesFitOwnHashes(p: L.Portfolio, cash: map<Id, L.Cash>, source: SourceHash,
      costs: seq<L.Cost>, gap: int)
    ensures ChargesFit(p, cash, DistinctHashes([source] + HashesOf(costs)), costs, gap)
            <==> ChargesFit(p, cash, HashesOf(costs), costs, gap)
  {
    hide DistinctHashes, HashesOf, CanCharge;
    OwnHashesSuffice(cash, p.costs, source, costs);
  }

  lemma {:induction false} ReservationTaken(p: L.Portfolio, t: Transfer, after: Transfer, e: Event, costs: seq<L.Cost>,
      r: L.Receipt)
    requires Sound(p) && ReceiptOf(t, after, e, p.version, costs, r) && !R.InHistory(p, r)
    requires Linked(t, p) && ApplyTransferEvent(t, e) == Ok(after) && e.kind.ReservationMade?
    ensures TakenExactly(p, t, e, costs, r)
  {
    hide L.Valid, L.ApplyReceipt, InOrder, L.NetValue, L.ReceiptParses, DistinctHashes, HashesOf, VerifyEvidence;
    EventPosts(p, t, after, e, costs, r);
    if L.ReceiptParses(r) {
      C.EffectBranch(p, r);
    }
    hide L.Effect, ChargesFit;
  }

  lemma {:induction false} SourceFailureTaken(p: L.Portfolio, t: Transfer, after: Transfer, e: Event,
      costs: seq<L.Cost>, r: L.Receipt)
    requires Sound(p) && ReceiptOf(t, after, e, p.version, costs, r) && !R.InHistory(p, r)
    requires Linked(t, p) && ApplyTransferEvent(t, e) == Ok(after) && e.kind.SourceFailure?
    ensures TakenExactly(p, t, e, costs, r)
  {
    hide L.Valid, L.ApplyReceipt, InOrder, L.NetValue, L.ReceiptParses, DistinctHashes, HashesOf, VerifyEvidence;
    hide L.SourceFailedEffect, ChargesFit, CanCredit, L.WithheldTotal, L.CostsParse, L.CashHolds, InStep;
    EventPosts(p, t, after, e, costs, r);
    if L.ReceiptParses(r) {
      C.EffectBranch(p, r);
      SourceFailedTaken(p, r);
    }
    hide L.Effect;
  }

  lemma {:induction false} BurnEventTaken(p: L.Portfolio, t: Transfer, after: Transfer, e: Event, costs: seq<L.Cost>,
      r: L.Receipt)
    requires Sound(p) && ReceiptOf(t, after, e, p.version, costs, r) && !R.InHistory(p, r)
    requires Linked(t, p) && ApplyTransferEvent(t, e) == Ok(after) && e.kind.BurnConfirmed?
    ensures TakenExactly(p, t, e, costs, r)
  {
    hide L.Valid, L.ApplyReceipt, InOrder, L.NetValue, L.ReceiptParses, DistinctHashes, HashesOf, VerifyEvidence;
    hide L.BurnedEffect, ChargesFit, L.WithheldTotal, L.CostsParse, L.CashHolds, RouteDestination;
    EventPosts(p, t, after, e, costs, r);
    if L.ReceiptParses(r) {
      C.EffectBranch(p, r);
      BurnTaken(p, r);
    }
    hide L.Effect;
  }

  lemma {:induction false} ReceivableEventTaken(p: L.Portfolio, t: Transfer, after: Transfer, e: Event,
      costs: seq<L.Cost>, r: L.Receipt)
    requires Sound(p) && ReceiptOf(t, after, e, p.version, costs, r) && !R.InHistory(p, r)
    requires Linked(t, p) && ApplyTransferEvent(t, e) == Ok(after) && r.body.MovesReceivable()
    ensures TakenExactly(p, t, e, costs, r)
  {
    hide L.Valid, L.ApplyReceipt, InOrder, L.NetValue, L.ReceiptParses, DistinctHashes, HashesOf, VerifyEvidence;
    hide L.ReceivableEffect, ChargesFit, CanCredit, L.WithheldTotal, L.CostsParse, L.CashHolds, L.Effect, L.Admit;
    EventPosts(p, t, after, e, costs, r);
    if L.ReceiptParses(r) && InOrder(p, t, e) {
      C.EffectBranch(p, r);
      Admission(p, t, e, r);
      AdmittedIsNotEarlier(p, r, t.transferId);
      ReceivableTaken(p, r);
    }
  }

  /******* In the store *******/

  // The unique index on messages.
  predicate MessagesDistinct(st: Store) {
    forall j, k | j in st.transfers && k in st.transfers && j != k && st.transfers[j].messageIdentity.Some? ::
      st.transfers[k].messageIdentity != st.transfers[j].messageIdentity
  }

  ghost predicate Healthy(st: Store) {
    (forall key | key in st.scenarios :: Sound(st.scenarios[key])) && MessagesDistinct(st)
  }

  lemma {:induction false} MessageKept(t: Transfer, e: Event, after: Transfer)
    requires ApplyTransferEvent(t, e) == Ok(after)
    ensures after.messageIdentity == if e.kind.BurnConfirmed? then e.messageIdentity else t.messageIdentity
    ensures e.kind.BurnConfirmed? ==> t.state.Reserved? && e.messageIdentity.Some?
  {
    hide VerifyEvidence, TransferParses;
  }

  // A receivable's message is its transfer's, so an unused message is on no receivable either.
  lemma {:induction false} UnusedMessage(st: Store, id: Id, message: Option<Id>)
    requires Inv(st) && id in st.transfers && st.transfers[id].state.Reserved?
    requires !MessageTaken(st, id, message)
    ensures forall k | k in st.scenarios[KeyOf(st.transfers[id])].receivables ::
              Some(st.scenarios[KeyOf(st.transfers[id])].receivables[k].messageIdentity) != message
  {
    var key := KeyOf(st.transfers[id]);
    var p := st.scenarios[key];
    assert Owned(st.transfers, st.events, key, p) && Linked(st.transfers[id], p);
    forall k | k in p.receivables
      ensures Some(p.receivables[k].messageIdentity) != message
    {
      assert OwnsReceivable(st.transfers, k, key);
      assert Linked(st.transfers[k], p);
    }
  }

  lemma {:induction false} ReceiptTaken(st: Store, id: Id, e: Event, after: Transfer, costs: seq<L.Cost>, r: L.Receipt)
    requires Inv(st) && Healthy(st) && id in st.transfers && e.eventId !in st.events
    requires ApplyTransferEvent(st.transfers[id], e) == Ok(after)
    requires KeyOf(st.transfers[id]) in st.scenarios
    requires ReceiptOf(st.transfers[id], after, e, st.scenarios[KeyOf(st.transfers[id])].version, costs, r)
    ensures TakenExactly(st.scenarios[KeyOf(st.transfers[id])], st.transfers[id], e, costs, r)
  {
    var t, key := st.transfers[id], KeyOf(st.transfers[id]);
    var p := st.scenarios[key];
    assert Sound(p) && Linked(t, p) && Owned(st.transfers, st.events, key, p);
    ReceiptNames(t, after, e, p.version, costs, r);
    ReceiptIsFresh(st, key, p, r);
    ReceiptFields(t, after, e, p.version, costs, r);
    hide *;
    match e.kind
    case ReservationMade => ReservationTaken(p, t, after, e, costs, r);
    case SourceFailure => SourceFailureTaken(p, t, after, e, costs, r);
    case BurnConfirmed => BurnEventTaken(p, t, after, e, costs, r);
    case AttestationObserved => ReceivableEventTaken(p, t, after, e, costs, r);
    case AttestationDelayed => ReceivableEventTaken(p, t, after, e, costs, r);
    case DestinationFailed => ReceivableEventTaken(p, t, after, e, costs, r);
    case DestinationConfirmed => ReceivableEventTaken(p, t, after, e, costs, r);
    case DependencyInvalidated => NoReceiptOf(t, after, e, p.version, costs, r);
    case ClosureRecorded => NoReceiptOf(t, after, e, p.version, costs, r);
  }

  lemma NoReceiptOf(t: Transfer, after: Transfer, e: Event, version: int, costs: seq<L.Cost>, r: L.Receipt)
    requires ReceiptOf(t, after, e, version, costs, r)
    ensures !e.kind.DependencyInvalidated? && !e.kind.ClosureRecorded?
  {
  }

  // When an event without a receipt, or with none possible, is posted.
  lemma {:induction false} ReceiptOrNone(t: Transfer, after: Transfer, e: Event, version: int, costs: seq<L.Cost>)
    requires ApplyTransferEvent(t, e) == Ok(after)
    ensures var receipt := ReceiptFor(t, after, e, version, costs);
            && (receipt.Err? <==> e.kind.BurnConfirmed? && RouteDestination(t.routeId).Err?)
            && (receipt.Ok? ==> (receipt.value.None? <==> e.kind.DependencyInvalidated? || e.kind.ClosureRecorded?))
  {
    hide VerifyEvidence, TransferParses, DistinctHashes, HashesOf, RouteDestination;
    IdentityKept(t, e, after);
  }

  // An event the lifecycle takes commits exactly when the ledger takes it, and a burn only under an unused message.
  lemma {:induction false} CommitsExactlyWhenTheLedgerTakesIt(st: Store, id: Id, e: Event, costs: seq<L.Cost>)
    requires Inv(st) && Healthy(st) && id in st.transfers && e.eventId !in st.events
    requires ApplyTransferEvent(st.transfers[id], e).Ok?
    ensures KeyOf(st.transfers[id]) in st.scenarios
    ensures AppendEvent(st, id, e, costs).Ok? <==>
              && LedgerTakes(st.scenarios[KeyOf(st.transfers[id])], st.transfers[id], e, costs)
              && (e.kind.BurnConfirmed? ==> !MessageTaken(st, id, e.messageIdentity))
  {
    hide L.ApplyReceipt, Linked, Owned, ApplyTransferEvent, ReceiptFor, Sound;
    var t := st.transfers[id];
    var p, after := st.scenarios[KeyOf(t)], ApplyTransferEvent(t, e).value;
    var receipt := ReceiptFor(t, after, e, p.version, costs);
    assert EventParses(e) by { LifecycleParses(t, e); }
    MessageKept(t, e, after);
    ReceiptOrNone(t, after, e, p.version, costs);
    if e.kind.BurnConfirmed? && !MessageTaken(st, id, e.messageIdentity) {
      UnusedMessage(st, id, e.messageIdentity);
    }
    if receipt.Ok? && receipt.value.Some? {
      ReceiptTaken(st, id, e, after, costs, receipt.value.value);
    }
  }

  lemma LifecycleParses(t: Transfer, e: Event)
    requires ApplyTransferEvent(t, e).Ok?
    ensures EventParses(e)
  {
  }
}
