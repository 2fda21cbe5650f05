// Where a transfer's money comes from and goes to: its source view's family and its destination view's family.
module FamilyFlows {
  import opened Prelude
  import opened Transfers
  import opened TransferStore
  import opened Joint
  import opened JointRuns
  import L = Ledger
  import F = Frames
  import Invalidation
  import Lifetimes
  import P = Principal

  /******* One family's money *******/

  function PaidBy(family: Id): L.RecognizedCost -> int {
    (x: L.RecognizedCost) =>
      if x.cost.funding.AvailableCash? && x.cost.cashFamily == Some(family) then x.cost.amount else 0
  }

  function CashOf(cash: map<Id, L.Cash>, family: Id): int { if family in cash then cash[family].amount else 0 }

  // One family's cash with the costs paid out of it put back.
  ghost function FamilyPrincipal(p: L.Portfolio, family: Id): int {
    CashOf(p.cash, family) + Sum(p.costs, PaidBy(family))
  }

  lemma {:induction false} ChargeOneFamily(s: L.Portfolio, r: L.Receipt, c: L.Cost, t: L.Portfolio, family: Id)
    requires L.ChargeOne(s, r, c) == Ok(t)
    ensures FamilyPrincipal(t, family) == FamilyPrincipal(s, family)
  {
    hide Sum;
    SumPut(s.costs, PaidBy(family), c.costId, L.RecognizedCost(c, r.operationId));
    F.FundCostAdds(s, c, L.FundCost(s, c).value);
    match c.funding
    case AvailableCash =>
    case OnPayable =>
    case Withheld =>
  }

  lemma {:induction false} ChargeAllFamily(s: L.Portfolio, r: L.Receipt, costs: seq<L.Cost>, t: L.Portfolio, family: Id)
    requires L.ChargeAll(s, r, costs) == Ok(t)
    ensures FamilyPrincipal(t, family) == FamilyPrincipal(s, family)
  {
    hide L.ChargeOne, FamilyPrincipal;
    if costs != [] {
      var earlier := L.ChargeAll(s, r, costs[..|costs| - 1]).value;
      ChargeAllFamily(s, r, costs[..|costs| - 1], earlier, family);
      ChargeOneFamily(earlier, r, costs[|costs| - 1], t, family);
    }
  }

  lemma {:induction false} ApplyCostsFamily(s: L.Portfolio, r: L.Receipt, gap: int, t: L.Portfolio, family: Id)
    requires L.ApplyCosts(s, r, gap) == Ok(t)
    ensures FamilyPrincipal(t, family) == FamilyPrincipal(s, family)
  {
    hide FamilyPrincipal;
    ChargeAllFamily(s, r, r.body.Costs(), t, family);
  }

  lemma DebitFamily(s: L.Portfolio, from: Id, amount: int, t: L.Portfolio, family: Id)
    requires L.DebitCash(s, from, amount) == Ok(t)
    ensures FamilyPrincipal(t, family) == FamilyPrincipal(s, family) - (if family == from then amount else 0)
  {
  }

  lemma CreditFamily(s: L.Portfolio, to: Id, amount: int, t: L.Portfolio, family: Id)
    requires L.CreditCash(s, to, amount) == Ok(t)
    ensures FamilyPrincipal(t, family) == FamilyPrincipal(s, family) + (if family == to then amount else 0)
  {
  }

  lemma {:induction false} ReserveFamily(s: L.Portfolio, r: L.Receipt, t: L.Portfolio, family: Id)
    requires r.body.Reserve? && L.ReserveEffect(s, r) == Ok(t)
    ensures r.body.cashViewId in s.views
    ensures FamilyPrincipal(t, family) == FamilyPrincipal(s, family)
            - (if family == s.views[r.body.cashViewId].familyId then r.body.amount else 0)
  {
    var from := s.views[r.body.cashViewId].familyId;
    DebitFamily(s, from, r.body.amount, L.DebitCash(s, from, r.body.amount).value, family);
    hide Sum;
  }

  lemma {:induction false} SourceFailedFamily(s: L.Portfolio, r: L.Receipt, t: L.Portfolio, family: Id)
    requires r.body.TransferSourceFailed? && L.SourceFailedEffect(s, r) == Ok(t)
    ensures r.body.reservationId in s.reservations
    ensures var x := s.reservations[r.body.reservationId];
            FamilyPrincipal(t, family) == FamilyPrincipal(s, family)
            + (if family == x.familyId then x.amount - L.WithheldTotal(r.body.costs) else 0)
  {
    hide L.ApplyCosts, L.CreditCash;
    var id := r.body.reservationId;
    var x := s.reservations[id];
    var withheld := L.WithheldTotal(r.body.costs);
    var released := s.(reservations := s.reservations - {id});
    var credited := L.CreditCash(released, x.familyId, x.amount - withheld).value;
    CreditFamily(released, x.familyId, x.amount - withheld, credited, family);
    ApplyCostsFamily(credited, r, withheld, t, family);
  }

  lemma {:induction false} BurnFamily(s: L.Portfolio, r: L.Receipt, t: L.Portfolio, family: Id)
    requires r.body.TransferBurned? && L.BurnedEffect(s, r) == Ok(t)
    ensures FamilyPrincipal(t, family) == FamilyPrincipal(s, family)
  {
    hide L.ApplyCosts;
    var b := r.body;
    var x := s.reservations[b.reservationId];
    var receivable := L.Receivable(b.messageIdentity, x.networkId, b.destinationNetworkId,
                                   s.views[b.destinationViewId].familyId, b.netReceivable, L.InTransit, 0,
                                   r.observedAt, r.observedAt);
    var moved := s.(reservations := s.reservations - {b.reservationId},
                    receivables := s.receivables[b.transferId := receivable]);
    ApplyCostsFamily(moved, r, x.amount - b.netReceivable, t, family);
  }

  lemma {:induction false} ReceivableFamily(s: L.Portfolio, r: L.Receipt, t: L.Portfolio, family: Id)
    requires r.body.MovesReceivable() && L.ReceivableEffect(s, r) == Ok(t)
    ensures r.body.transferId in s.receivables
    ensures var x := s.receivables[r.body.transferId];
            FamilyPrincipal(t, family) == FamilyPrincipal(s, family)
            + (if r.body.TransferSettled? && family == x.destinationFamilyId then r.body.destinationCredit else 0)
  {
    hide L.ApplyCosts, L.CreditCash;
    var id := r.body.transferId;
    var x := s.receivables[id];
    if r.body.TransferSettled? {
      var credited := L.CreditCash(s, x.destinationFamilyId, r.body.destinationCredit).value;
      CreditFamily(s, x.destinationFamilyId, r.body.destinationCredit, credited, family);
      ApplyCostsFamily(credited.(receivables := credited.receivables - {id}), r, x.amount - r.body.destinationCredit, t,
                       family);
    } else {
      ApplyCostsFamily(s, r, 0, L.ApplyCosts(s, r, 0).value, family);
    }
  }

  /******* What each transfer receipt does to one family *******/

  lemma {:induction false} ReservePlaces(p: L.Portfolio, r: L.Receipt, q: L.Portfolio, family: Id)
    requires Posted(p, r, q) && r.body.Reserve?
    ensures r.body.cashViewId in p.views && r.body.reservationId in q.reservations
    ensures q.reservations[r.body.reservationId].familyId == p.views[r.body.cashViewId].familyId
    ensures FamilyPrincipal(q, family) == FamilyPrincipal(p, family)
            - (if family == p.views[r.body.cashViewId].familyId then r.body.amount else 0)
  {
    hide Posted, L.ReserveEffect, FamilyPrincipal, F.Framed;
    PostedEffect(p, r, q);
    var s := L.Effect(p, r).value;
    F.ReserveMoves(p, r, s);
    ReserveFamily(p, r, s, family);
    StampFamily(s, r, family);
  }

  lemma StampFamily(s: L.Portfolio, r: L.Receipt, family: Id)
    ensures FamilyPrincipal(L.Stamp(s, r), family) == FamilyPrincipal(s, family)
  {
  }

  lemma {:induction false} SourceFailedPlaces(p: L.Portfolio, r: L.Receipt, q: L.Portfolio, family: Id)
    requires Posted(p, r, q) && r.body.TransferSourceFailed?
    ensures r.body.reservationId in p.reservations
    ensures var x := p.reservations[r.body.reservationId];
            FamilyPrincipal(q, family) == FamilyPrincipal(p, family)
            + (if family == x.familyId then x.amount - L.WithheldTotal(r.body.costs) else 0)
  {
    hide Posted, L.SourceFailedEffect, FamilyPrincipal, F.Framed, L.WithheldTotal;
    PostedEffect(p, r, q);
    var s := L.Effect(p, r).value;
    SourceFailedFamily(p, r, s, family);
    StampFamily(s, r, family);
  }

  lemma {:induction false} BurnPlaces(p: L.Portfolio, r: L.Receipt, q: L.Portfolio, family: Id)
    requires Posted(p, r, q) && r.body.TransferBurned?
    ensures r.body.destinationViewId in p.views && r.body.transferId in q.receivables
    ensures q.receivables[r.body.transferId].destinationFamilyId == p.views[r.body.destinationViewId].familyId
    ensures FamilyPrincipal(q, family) == FamilyPrincipal(p, family)
  {
    hide Posted, L.BurnedEffect, FamilyPrincipal, F.Framed;
    PostedEffect(p, r, q);
    var s := L.Effect(p, r).value;
    F.BurnMoves(p, r, s);
    BurnFamily(p, r, s, family);
    StampFamily(s, r, family);
  }

  lemma {:induction false} ReceivablePlaces(p: L.Portfolio, r: L.Receipt, q: L.Portfolio, family: Id)
    requires Posted(p, r, q) && r.body.MovesReceivable()
    ensures r.body.transferId in p.receivables
    ensures var x := p.receivables[r.body.transferId];
            && FamilyPrincipal(q, family) == FamilyPrincipal(p, family)
               + (if r.body.TransferSettled? && family == x.destinationFamilyId then r.body.destinationCredit else 0)
            && (r.body.transferId in q.receivables ==>
                  q.receivables[r.body.transferId].destinationFamilyId == x.destinationFamilyId)
  {
    hide Posted, L.ReceivableEffect, FamilyPrincipal, F.Framed;
    PostedEffect(p, r, q);
    Lifetimes.ReceivableKinds(p, r);
    var s := L.Effect(p, r).value;
    F.ReceivableMoves(p, r, s);
    ReceivableFamily(p, r, s, family);
    StampFamily(s, r, family);
  }

  /******* One committed event *******/

  // Whatever the ledger holds for a transfer is held for its own two views' families.
  predicate Placed(t: Transfer, p: L.Portfolio) {
    && (HasReservation(t, p) ==>
          && t.sourceViewId in p.views
          && p.reservations[t.reservationId].familyId == p.views[t.sourceViewId].familyId)
    && (HasReceivable(t, p) ==>
          && t.destinationViewId in p.views
          && p.receivables[t.transferId].destinationFamilyId == p.views[t.destinationViewId].familyId)
  }

  predicate IsFamilyOf(p: L.Portfolio, viewId: Id, family: Id) {
    viewId in p.views && p.views[viewId].familyId == family
  }

  // What a transfer's flow means for one family: the source family pays the debit and gets back what a failed
  // source returns, the destination family receives the settlement, every other family nothing.
  function ShareOf(t: Transfer, p: L.Portfolio, f: Flow, family: Id): int {
    (if IsFamilyOf(p, t.sourceViewId, family) then (if t.state.SourceFailed? then f.credited else 0) - f.debited else 0)
    + (if IsFamilyOf(p, t.destinationViewId, family) && t.state.Settled? then f.credited else 0)
  }

  // One own event moves a family by exactly what the transfer's share of it changes.
  ghost predicate Shares(t: Transfer, p: L.Portfolio, after: Transfer, q: L.Portfolio, f: Flow, family: Id) {
    && Placed(after, q)
    && ShareOf(after, q, AddMove(f, p, q), family) ==
       ShareOf(t, p, f, family) + FamilyPrincipal(q, family) - FamilyPrincipal(p, family)
  }

  predicate SameRoute(t: Transfer, after: Transfer) {
    && after.transferId == t.transferId && after.reservationId == t.reservationId
    && after.sourceViewId == t.sourceViewId && after.destinationViewId == t.destinationViewId
  }

  lemma {:induction false} ReservationShares(t: Transfer, p: L.Portfolio, r: L.Receipt, after: Transfer, q: L.Portfolio,
      f: Flow, family: Id)
    requires Linked(t, p) && FlowFits(t, p, f) && Placed(t, p) && Posted(p, r, q) && q.views == p.views
    requires SameRoute(t, after) && t.state.Reserved? && after.state.Reserved?
    requires r.body == L.Reserve(t.reservationId, t.sourceViewId, t.amount, [])
    ensures Shares(t, p, after, q, f, family)
  {
    hide Posted, FamilyPrincipal, L.CostTotal, P.Principal, P.WithheldCosts;
    ReservePosts(p, r, q);
    ReservePlaces(p, r, q, family);
  }

  lemma {:induction false} SourceFailureShares(t: Transfer, p: L.Portfolio, r: L.Receipt, after: Transfer,
      q: L.Portfolio, f: Flow, family: Id)
    requires Linked(t, p) && FlowFits(t, p, f) && Placed(t, p) && Posted(p, r, q) && q.views == p.views
    requires SameRoute(t, after) && t.state.Reserved? && after.state.SourceFailed?
    requires r.body.TransferSourceFailed? && r.body.reservationId == t.reservationId
    ensures Shares(t, p, after, q, f, family)
  {
    hide Posted, FamilyPrincipal, L.CostTotal, P.Principal, P.WithheldCosts;
    SourceFailedPosts(p, r, q);
    SourceFailedPlaces(p, r, q, family);
  }

  lemma {:induction false} BurnShares(t: Transfer, p: L.Portfolio, r: L.Receipt, after: Transfer, q: L.Portfolio,
      f: Flow, family: Id)
    requires Linked(t, p) && FlowFits(t, p, f) && Placed(t, p) && Posted(p, r, q) && q.views == p.views
    requires SameRoute(t, after) && t.state.Reserved? && after.state.AttestationPending?
    requires r.body.TransferBurned? && r.body.reservationId == t.reservationId && r.body.transferId == t.transferId
    requires r.body.destinationViewId == t.destinationViewId
    ensures Shares(t, p, after, q, f, family)
  {
    hide Posted, FamilyPrincipal, L.CostTotal, P.Principal, P.WithheldCosts;
    BurnPosts(p, r, q);
    BurnPlaces(p, r, q, family);
  }

  lemma {:induction false} ReceivableShares(t: Transfer, p: L.Portfolio, r: L.Receipt, after: Transfer, q: L.Portfolio,
      f: Flow, family: Id)
    requires Linked(t, p) && FlowFits(t, p, f) && Placed(t, p) && Posted(p, r, q) && q.views == p.views
    requires SameRoute(t, after) && !t.state.SourceFailed? && !t.state.Settled? && !after.state.SourceFailed?
    requires r.body.MovesReceivable() && r.body.transferId == t.transferId
    requires after.state.Settled? <==> r.body.TransferSettled?
    ensures Shares(t, p, after, q, f, family)
  {
    hide Posted, FamilyPrincipal, L.CostTotal, P.Principal, P.WithheldCosts, F.NextReceivable;
    ReceivablePosts(p, r, q);
    ReceivablePlaces(p, r, q, family);
  }

  lemma {:induction false} ViewsKept(p: L.Portfolio, r: L.Receipt, q: L.Portfolio)
    requires L.ApplyReceipt(p, r) == Ok(q)
    ensures q.views == p.views
  {
    hide L.ApplyReceipt, L.Valid, L.Effect, F.Framed;
    Lifetimes.AcceptedStep(p, r, q);
  }

  lemma {:induction false} RouteKept(t: Transfer, e: Event, after: Transfer)
    requires ApplyTransferEvent(t, e) == Ok(after)
    ensures SameRoute(t, after)
    ensures match e.kind
            case ReservationMade => t.state.Reserved? && after.state.Reserved?
            case SourceFailure => t.state.Reserved? && after.state.SourceFailed?
            case BurnConfirmed => t.state.Reserved? && after.state.AttestationPending?
            case DependencyInvalidated => !t.state.SourceFailed? && !t.state.Settled? && after.state.Invalidated?
            case ClosureRecorded => after.state == t.state
            case _ => !t.state.SourceFailed? && !t.state.Settled? && !after.state.SourceFailed?
                      && (after.state.Settled? <==> e.kind.DestinationConfirmed?)
  {
    hide VerifyEvidence, TransferParses;
  }

  lemma {:induction false} EventShares(t: Transfer, e: Event, after: Transfer, p: L.Portfolio, costs: seq<L.Cost>,
      r: L.Receipt, q: L.Portfolio, f: Flow, family: Id)
    requires Linked(t, p) && FlowFits(t, p, f) && Placed(t, p) && ApplyTransferEvent(t, e) == Ok(after)
    requires ReceiptFor(t, after, e, p.version, costs) == Ok(Some(r)) && Posted(p, r, q)
    ensures Shares(t, p, after, q, f, family)
  {
    hide ApplyTransferEvent, Linked, FlowFits, Placed, Posted, Shares, SameRoute, DistinctHashes, HashesOf;
    RouteKept(t, e, after);
    assert q.views == p.views by { PostedViews(p, r, q); }
    match e.kind
    case ReservationMade => ReservationShares(t, p, r, after, q, f, family);
    case SourceFailure => SourceFailureShares(t, p, r, after, q, f, family);
    case BurnConfirmed => BurnShares(t, p, r, after, q, f, family);
    case AttestationObserved => ReceivableShares(t, p, r, after, q, f, family);
    case AttestationDelayed => ReceivableShares(t, p, r, after, q, f, family);
    case DestinationFailed => ReceivableShares(t, p, r, after, q, f, family);
    case DestinationConfirmed => ReceivableShares(t, p, r, after, q, f, family);
    case DependencyInvalidated =>
    case ClosureRecorded =>
  }

  lemma {:induction false} PostedViews(p: L.Portfolio, r: L.Receipt, q: L.Portfolio)
    requires Posted(p, r, q)
    ensures q.views == p.views
  {
    ViewsKept(p, r, q);
  }

  // An event without a receipt moves no family.
  lemma {:induction false} NoReceiptShares(t: Transfer, e: Event, after: Transfer, p: L.Portfolio, f: Flow, family: Id)
    requires Linked(t, p) && FlowFits(t, p, f) && Placed(t, p) && ApplyTransferEvent(t, e) == Ok(after)
    requires e.kind.DependencyInvalidated? || e.kind.ClosureRecorded?
    ensures Shares(t, p, after, p, f, family)
  {
    hide ApplyTransferEvent, P.Principal, P.WithheldCosts, FamilyPrincipal;
    RouteKept(t, e, after);
  }

  /******* Whole runs *******/

  // What one family gained over the committed events of one transfer.
  ghost function FamilyFlowOfStep(st: Store, step: Step, id: Id, family: Id, moved: int): int {
    if step.AppendStep? && step.transferId == id && Attempt(st, step).Ok? && id in st.transfers
       && KeyOf(st.transfers[id]) in st.scenarios && KeyOf(st.transfers[id]) in After(st, step).scenarios
    then moved + FamilyPrincipal(After(st, step).scenarios[KeyOf(st.transfers[id])], family)
         - FamilyPrincipal(st.scenarios[KeyOf(st.transfers[id])], family)
    else moved
  }

  ghost function FamilyFlowOf(st: Store, steps: seq<Step>, id: Id, family: Id): int {
    if steps == [] then 0
    else
      var n := |steps| - 1;
      FamilyFlowOfStep(Run(st, steps[..n]), steps[n], id, family, FamilyFlowOf(st, steps[..n], id, family))
  }

  ghost predicate FamilyFits(st: Store, id: Id, f: Flow, moved: int, family: Id) {
    if id in st.transfers then
      && KeyOf(st.transfers[id]) in st.scenarios
      && Placed(st.transfers[id], st.scenarios[KeyOf(st.transfers[id])])
      && moved == ShareOf(st.transfers[id], st.scenarios[KeyOf(st.transfers[id])], f, family)
    else moved == 0
  }

  lemma UntouchedStaysPlaced(t: Transfer, p: L.Portfolio, q: L.Portfolio, f: Flow, family: Id)
    requires F.SameAt(p.reservations, q.reservations, t.reservationId)
    requires F.SameAt(p.receivables, q.receivables, t.transferId) && q.views == p.views
    ensures Placed(t, p) ==> Placed(t, q)
    ensures ShareOf(t, q, f, family) == ShareOf(t, p, f, family)
  {
  }

  lemma {:induction false} OwnStepFits(st: Store, id: Id, e: Event, costs: seq<L.Cost>, f: Flow, moved: int, family: Id)
    requires Inv(st) && id in st.transfers && Fits(st, id, f) && FamilyFits(st, id, f, moved, family)
    requires AppendEvent(st, id, e, costs).Ok?
    ensures var step := AppendStep(id, e, costs);
            FamilyFits(AppendEvent(st, id, e, costs).value, id, FlowOfStep(st, step, id, f),
                       FamilyFlowOfStep(st, step, id, family, moved), family)
  {
    hide ApplyTransferEvent, Linked, Owned, L.ApplyReceipt, AppendEvent, ReceiptFor, Placed, FlowFits, FamilyPrincipal;
    hide ShareOf;
    var st' := AppendEvent(st, id, e, costs).value;
    RepeatMovesNothing(st, id, id, f);
    if e.eventId in st.events {
      Invalidation.RepeatChangesNothing(st, id, e, costs);
    } else {
      hide AddMove;
      AppendShape(st, id, e, costs, st');
      var t, p := st.transfers[id], st.scenarios[KeyOf(st.transfers[id])];
      var after := ApplyTransferEvent(t, e).value;
      var receipt := ReceiptFor(t, after, e, p.version, costs).value;
      IdentityKept(t, e, after);
      OwnEventShares(st, id, e, after, costs, receipt, PostReceipt(p, receipt).value, f, family);
    }
  }

  lemma {:induction false} OwnEventShares(st: Store, id: Id, e: Event, after: Transfer, costs: seq<L.Cost>,
      receipt: Option<L.Receipt>, q: L.Portfolio, f: Flow, family: Id)
    requires Inv(st) && id in st.transfers && e.eventId !in st.events
    requires ApplyTransferEvent(st.transfers[id], e) == Ok(after) && KeyOf(st.transfers[id]) in st.scenarios
    requires var t, p := st.transfers[id], st.scenarios[KeyOf(st.transfers[id])];
             && FlowFits(t, p, f) && Placed(t, p)
             && ReceiptFor(t, after, e, p.version, costs) == Ok(receipt) && PostReceipt(p, receipt) == Ok(q)
    ensures Shares(st.transfers[id], st.scenarios[KeyOf(st.transfers[id])], after, q, f, family)
  {
    hide ApplyTransferEvent, Linked, Owned, L.ApplyReceipt, Placed, FlowFits, Shares, DistinctHashes, HashesOf;
    var t, key := st.transfers[id], KeyOf(st.transfers[id]);
    var p := st.scenarios[key];
    if receipt.Some? {
      ReceiptNames(t, after, e, p.version, costs, receipt.value);
      ReceiptIsFresh(st, key, p, receipt.value);
      EventShares(t, e, after, p, costs, receipt.value, q, f, family);
    } else {
      NoReceiptShares(t, e, after, p, f, family);
    }
  }

  lemma {:induction false} OtherStepFits(st: Store, at: Id, e: Event, costs: seq<L.Cost>, id: Id, f: Flow, moved: int,
      family: Id)
    requires Inv(st) && DistinctReservations(st) && at != id && AppendEvent(st, at, e, costs).Ok?
    requires FamilyFits(st, id, f, moved, family)
    ensures FamilyFits(AppendEvent(st, at, e, costs).value, id, f, moved, family)
  {
    hide ApplyTransferEvent, Linked, Owned, L.ApplyReceipt, AppendEvent, ReceiptFor, Placed, ShareOf;
    var st' := AppendEvent(st, at, e, costs).value;
    if e.eventId in st.events {
      Invalidation.RepeatChangesNothing(st, at, e, costs);
    } else {
      AppendShape(st, at, e, costs, st');
      var t, key := st.transfers[at], KeyOf(st.transfers[at]);
      var p := st.scenarios[key];
      var after := ApplyTransferEvent(t, e).value;
      var receipt := ReceiptFor(t, after, e, p.version, costs).value;
      IdentityKept(t, e, after);
      if id in st.transfers && key == KeyOf(st.transfers[id]) {
        if receipt.Some? {
          ReceiptNames(t, after, e, p.version, costs, receipt.value);
          ViewsKept(p, receipt.value, PostReceipt(p, receipt).value);
        }
        OthersUntouched(p, receipt, PostReceipt(p, receipt).value, t, st.transfers[id]);
        UntouchedStaysPlaced(st.transfers[id], p, PostReceipt(p, receipt).value, f, family);
      }
    }
  }

  lemma {:induction false} LocalStepFits(st: Store, key: ScenarioKey, r: L.Receipt, id: Id, f: Flow, moved: int,
      family: Id)
    requires Inv(st) && Attempt(st, LocalStep(key, r)).Ok? && FamilyFits(st, id, f, moved, family)
    ensures FamilyFits(Attempt(st, LocalStep(key, r)).value, id, f, moved, family)
  {
    hide L.ApplyReceipt, Linked, Owned, Placed, ShareOf;
    var q := L.ApplyReceipt(st.scenarios[key], r).value;
    if id in st.transfers && key == KeyOf(st.transfers[id]) {
      LocalTouchesNoTransfer(st.scenarios[key], r, q);
      ViewsKept(st.scenarios[key], r, q);
      UntouchedStaysPlaced(st.transfers[id], st.scenarios[key], q, f, family);
    }
  }

  lemma {:induction false} CreateStepFits(st: Store, d: Draft, id: Id, f: Flow, moved: int, family: Id)
    requires Inv(st) && Create(st, d).Ok? && DistinctReservations(Create(st, d).value)
    requires Fits(st, id, f) && FamilyFits(st, id, f, moved, family)
    ensures FamilyFits(Create(st, d).value, id, f, moved, family)
  {
    hide TransferParses, Owned, Linked;
    var st' := Create(st, d).value;
    var t := CreateTransfer(d).value;
    if t.transferId == id {
      NewTransferOwnsNothing(st, st', t, st.scenarios[KeyOf(t)]);
      NoReceivableYet(st, t, st.scenarios[KeyOf(t)]);
    }
  }

  lemma {:induction false} StepFits(st: Store, step: Step, id: Id, f: Flow, moved: int, family: Id)
    requires Inv(st) && DistinctReservations(st) && DistinctReservations(After(st, step))
    requires Fits(st, id, f) && FamilyFits(st, id, f, moved, family)
    ensures FamilyFits(After(st, step), id, FlowOfStep(st, step, id, f),
                       FamilyFlowOfStep(st, step, id, family, moved), family)
  {
    hide Inv, Fits, FamilyFits, AppendEvent, Create, L.ApplyReceipt, FamilyPrincipal, AddMove;
    if Attempt(st, step).Ok? {
      match step
      case CreateStep(d) => CreateStepFits(st, d, id, f, moved, family);
      case LocalStep(key, r) => LocalStepFits(st, key, r, id, f, moved, family);
      case AppendStep(at, e, costs) =>
        if at != id {
          OtherStepFits(st, at, e, costs, id, f, moved, family);
        } else {
          AppendedToKnown(st, id, e, costs);
          OwnStepFits(st, id, e, costs, f, moved, family);
        }
    }
  }

  lemma AppendedToKnown(st: Store, id: Id, e: Event, costs: seq<L.Cost>)
    requires AppendEvent(st, id, e, costs).Ok?
    ensures id in st.transfers
  {
  }

  lemma {:induction false} FamiliesFit(st: Store, steps: seq<Step>, id: Id, family: Id)
    requires Fresh(st) && DistinctReservations(Run(st, steps))
    ensures FamilyFits(Run(st, steps), id, FlowOf(st, steps, id), FamilyFlowOf(st, steps, id, family), family)
  {
    hide After, FlowOfStep, FamilyFlowOfStep, Inv, Fits;
    if steps == [] {
      assert st.transfers.Keys == {};
    } else {
      hide FamilyFits;
      var n := |steps| - 1;
      var before := Run(st, steps[..n]);
      StepKeepsIdentities(before, steps[n]);
      FamiliesFit(st, steps[..n], id, family);
      LifecycleAndLedgerStayInStep(st, steps[..n], id);
      StepFits(before, steps[n], id, FlowOf(st, steps[..n], id), FamilyFlowOf(st, steps[..n], id, family), family);
    }
  }

  lemma ShareInFull(t: Transfer, p: L.Portfolio, f: Flow, family: Id)
    requires Linked(t, p) && FlowFits(t, p, f)
    ensures var source := IsFamilyOf(p, t.sourceViewId, family);
            var destination := IsFamilyOf(p, t.destinationViewId, family);
            var share := ShareOf(t, p, f, family);
            && (t.state.Settled? ==>
                  share == (if destination then t.netReceivable else 0) - (if source then t.amount else 0))
            && (t.state.SourceFailed? ==> share == if source then f.credited - t.amount else 0)
            && (!t.state.Settled? && !t.state.SourceFailed? ==> share == if source then -f.debited else 0)
            && (f.debited == 0 || f.debited == t.amount)
  {
  }

  // Over every run, a transfer takes its amount from its source view's family alone and pays its net receivable,
  // once settled, into its destination view's family alone; a failed source gives back to the source family; no
  // other family ever moves by its events.
  lemma {:induction false} MoneyMovesBetweenItsFamilies(st: Store, steps: seq<Step>, id: Id, family: Id)
    requires Fresh(st) && DistinctReservations(Run(st, steps)) && id in Run(st, steps).transfers
    ensures var end := Run(st, steps);
            var t, f := end.transfers[id], FlowOf(st, steps, id);
            && KeyOf(t) in end.scenarios
            && var p := end.scenarios[KeyOf(t)];
            var source := IsFamilyOf(p, t.sourceViewId, family);
            var destination := IsFamilyOf(p, t.destinationViewId, family);
            var moved := FamilyFlowOf(st, steps, id, family);
            && Placed(t, p)
            && (t.state.Settled? ==>
                  moved == (if destination then t.netReceivable else 0) - (if source then t.amount else 0))
            && (t.state.SourceFailed? ==> moved == if source then f.credited - t.amount else 0)
            && (!t.state.Settled? && !t.state.SourceFailed? ==> moved == if source then -f.debited else 0)
            && (f.debited == 0 || f.debited == t.amount)
  {
    LifecycleAndLedgerStayInStep(st, steps, id);
    FamiliesFit(st, steps, id, family);
    hide FlowOf, FamilyFlowOf, Run, Owned, Linked, FlowFits, ShareOf, Placed;
    var end := Run(st, steps);
    ShareInFull(end.transfers[id], end.scenarios[KeyOf(end.transfers[id])], FlowOf(st, steps, id), family);
  }
}
