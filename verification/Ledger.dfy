// The portfolio ledger: state, integrity assertion and the sixteen receipt kinds.
//
// The source keeps arrays that are unique by id and re-sorted after every receipt; here each is a
// map keyed by that id.  A content hash is a free term, so a receipt hash is the receipt itself and
// the deadline state hash is the portfolio that was hashed.
module Ledger {
  import opened Prelude

  /******* Data *******/

  datatype Funding = AvailableCash | OnPayable | Withheld

  datatype CostCategory =
    | ApprovalGas | ExecutionGas | SourceGas | DestinationGas | RetryGas
    | ProtocolFee | SwapFeeImpact | TransferFee | Relayer

  datatype Cost = Cost(
    costId: Id, category: CostCategory, funding: Funding, amount: int,
    networkId: Id, cashFamily: Option<Id>, sourceHash: SourceHash)

  datatype RecognizedCost = RecognizedCost(cost: Cost, operationId: Id)

  datatype View = View(networkId: Id, assetId: Id, familyId: Id, decimals: nat, canonicalDecimals: nat)

  datatype Cash = Cash(networkId: Id, assetId: Id, amount: int)

  datatype Reservation = Reservation(
    operationId: Id, familyId: Id, networkId: Id, assetId: Id, amount: int)

  datatype Position = Position(
    networkId: Id, instrumentId: Id, assetId: Id, shares: int, indexNum: int, indexDen: int,
    book: int, remainder: int, lastSource: SourceHash, lastObservedAt: Timestamp)

  datatype ReceivableState = InTransit | ReadyToReceive | Delayed | DestinationRetry

  datatype Receivable = Receivable(
    messageIdentity: Id, sourceNetworkId: Id, destinationNetworkId: Id, destinationFamilyId: Id,
    amount: int, state: ReceivableState, attempts: int, createdAt: Timestamp, updatedAt: Timestamp)

  // Keyed by its cost id: the ledger only ever creates payables whose id is their cost id.
  datatype FeePayable = FeePayable(networkId: Id, amount: int)

  datatype Allowance = Allowance(networkId: Id, assetId: Id, spenderId: Id, amount: int)

  datatype Applied = Applied(receipt: Receipt, versionApplied: int)

  datatype Portfolio = Portfolio(
    experimentId: Id, scenarioId: Id, portfolioId: Id, provenance: string,
    initialValue: int, maxDestinationAttempts: int, version: int,
    views: map<Id, View>, cash: map<Id, Cash>, reservations: map<Id, Reservation>,
    positions: map<Id, Position>, receivables: map<Id, Receivable>, payables: map<Id, FeePayable>,
    allowances: map<Id, Allowance>, costs: map<Id, RecognizedCost>, pnl: int,
    applied: seq<Applied>, lastAppliedAt: Option<Timestamp>,
    closedAt: Option<Timestamp>, deadlineState: Option<Portfolio>)

  datatype Body =
    | NoEffect
    | Reserve(reservationId: Id, cashViewId: Id, amount: int, costs: seq<Cost>)
    | CostOnly(costs: seq<Cost>)
    | Approve(allowanceId: Id, networkId: Id, assetId: Id, spenderId: Id, amount: int, costs: seq<Cost>)
    | Deposit(cashViewId: Id, positionId: Id, instrumentId: Id, sharesCredit: int,
              indexNum: int, indexDen: int, input: int, costs: seq<Cost>)
    | Withdraw(cashViewId: Id, positionId: Id, sharesDebit: int, cashCredit: int, costs: seq<Cost>)
    | Swap(sourceViewId: Id, destinationViewId: Id, sourceDebit: int, destinationCredit: int, costs: seq<Cost>)
    | PayableSettled(payableId: Id, cashViewId: Id)
    | TransferSourceFailed(reservationId: Id, costs: seq<Cost>)
    | TransferBurned(reservationId: Id, transferId: Id, messageIdentity: Id, destinationNetworkId: Id,
                     destinationViewId: Id, netReceivable: int, costs: seq<Cost>)
    | TransferReady(transferId: Id, costs: seq<Cost>)
    | TransferDelayed(transferId: Id, costs: seq<Cost>)
    | TransferRetry(transferId: Id, costs: seq<Cost>)
    | TransferSettled(transferId: Id, destinationCredit: int, costs: seq<Cost>)
    | Accrue(positionId: Id, nextNum: int, nextDen: int, costs: seq<Cost>)
    | Close(closedAt: Timestamp)
  {
    // The kinds a closed portfolio still accepts.
    predicate MovesReceivable() {
      TransferReady? || TransferDelayed? || TransferRetry? || TransferSettled?
    }

    function Costs(): seq<Cost> {
      if NoEffect? || PayableSettled? || Close? then [] else costs
    }
  }

  datatype Receipt = Receipt(
    operationId: Id, experimentId: Id, scenarioId: Id, expectedVersion: int,
    observedAt: Timestamp, provenance: string, sourceHashes: seq<SourceHash>, body: Body)

  /******* Index arithmetic *******/

  // mulDiv with FLOOR rounding, on an integer product; the caller supplies a positive denominator.
  function FloorDiv(a: int, d: int): int
    requires 0 < d
  {
    a / d
  }

  function BookOf(shares: int, num: int, den: int): int
    requires 0 < den
  {
    FloorDiv(shares * num, den)
  }

  function RemainderOf(shares: int, num: int, den: int): int
    requires 0 < den
  {
    (shares * num) % den
  }

  /******* What a parsed receipt satisfies *******/

  predicate CostsParse(costs: seq<Cost>) {
    forall i | 0 <= i < |costs| :: IsPositiveUInt(costs[i].amount)
  }

  predicate ReceiptParses(r: Receipt) {
    && IsUInt(r.expectedVersion)
    && r.sourceHashes != []
    && CostsParse(r.body.Costs())
    && match r.body {
         case NoEffect | CostOnly(_) | PayableSettled(_, _) | TransferSourceFailed(_, _)
           | TransferReady(_, _) | TransferDelayed(_, _) | TransferRetry(_, _) | Close(_) => true
         case Reserve(_, _, amount, _) => IsPositiveUInt(amount)
         case Approve(_, _, _, _, amount, _) => IsUInt(amount)
         case Deposit(_, _, _, sharesCredit, num, den, input, _) =>
           IsPositiveUInt(sharesCredit) && IsPositiveUInt(num) && IsPositiveUInt(den) && IsPositiveUInt(input)
         case Withdraw(_, _, sharesDebit, cashCredit, _) => IsPositiveUInt(sharesDebit) && IsUInt(cashCredit)
         case Swap(_, _, debit, credit, _) => IsPositiveUInt(debit) && IsUInt(credit)
         case TransferBurned(_, _, _, _, _, net, _) => IsPositiveUInt(net)
         case TransferSettled(_, credit, _) => IsUInt(credit)
         case Accrue(_, num, den, _) => IsPositiveUInt(num) && IsPositiveUInt(den)
       }
  }

  /******* Totals *******/

  function CashAmount(c: Cash): int { c.amount }
  function ReservedAmount(x: Reservation): int { x.amount }
  function PositionBook(x: Position): int { x.book }
  function ReceivableAmount(x: Receivable): int { x.amount }
  function PayableAmount(x: FeePayable): int { x.amount }
  function CostAmount(x: RecognizedCost): int { x.cost.amount }

  ghost function CashTotal(p: Portfolio): int { Sum(p.cash, CashAmount) }

  ghost function Gross(p: Portfolio): int {
    CashTotal(p) + Sum(p.reservations, ReservedAmount) + Sum(p.positions, PositionBook)
    + Sum(p.receivables, ReceivableAmount)
  }

  ghost function Liabilities(p: Portfolio): int { Sum(p.payables, PayableAmount) }

  ghost function CostTotal(p: Portfolio): int { Sum(p.costs, CostAmount) }

  // globalBookValue
  ghost function NetValue(p: Portfolio): int { Gross(p) - Liabilities(p) }

  // Zero exactly when net value is initial value plus modelled PnL minus recognised costs.
  ghost function Imbalance(p: Portfolio): int {
    NetValue(p) - (p.initialValue + p.pnl - CostTotal(p))
  }

  /******* assertPortfolio *******/

  predicate HasAsset(views: map<Id, View>, networkId: Id, assetId: Id) {
    exists v | v in views :: views[v].networkId == networkId && views[v].assetId == assetId
  }

  predicate HasFamily(views: map<Id, View>, family: Id) {
    exists v | v in views :: views[v].familyId == family
  }

  // Two views that share a family must describe the same asset at the same scale.
  predicate Aliases(x: View, y: View) {
    x.familyId == y.familyId ==>
      x.networkId == y.networkId && x.assetId == y.assetId && x.canonicalDecimals == y.canonicalDecimals
  }

  predicate HasOperation(applied: seq<Applied>, operationId: Id) {
    exists i | 0 <= i < |applied| :: applied[i].receipt.operationId == operationId
  }

  // Each check below takes only the fields it reads.  The schema's field ranges come with the
  // collection they range over.

  predicate HeaderHolds(initialValue: int, maxDestinationAttempts: int, version: int, pnl: int) {
    IsPositiveUInt(initialValue) && IsPositiveUInt(maxDestinationAttempts) && IsUInt(version) && IsInt256(pnl)
  }

  // A receipt hash is only ever taken of a receipt that parsed.
  predicate HistoryHolds(version: int, applied: seq<Applied>, lastAppliedAt: Option<Timestamp>) {
    && (forall i | 0 <= i < |applied| :: ReceiptParses(applied[i].receipt))
    && version == |applied|
    && (version == 0) == lastAppliedAt.None?
    && (forall i | 0 <= i < |applied| :: applied[i].versionApplied == i + 1)
    && (forall i, j | 0 <= i < j < |applied| ::
          applied[i].receipt.operationId != applied[j].receipt.operationId)
  }

  datatype FamilyAsset = FamilyAsset(networkId: Id, assetId: Id)

  // The families map of assertPortfolio, read off the canonical cash balances.
  function FamilyAssets(cash: map<Id, Cash>): map<Id, FamilyAsset> {
    map f | f in cash :: FamilyAsset(cash[f].networkId, cash[f].assetId)
  }

  predicate CashHolds(cash: map<Id, Cash>) {
    forall f | f in cash :: IsUInt(cash[f].amount)
  }

  // Views of one family agree, and the families are exactly the canonical cash balances.
  predicate FamiliesHold(views: map<Id, View>, families: map<Id, FamilyAsset>) {
    && (forall v, w {:trigger Aliases(views[v], views[w])} | v in views && w in views ::
          Aliases(views[v], views[w]))
    && (forall v | v in views ::
          views[v].familyId in families
          && families[views[v].familyId] == FamilyAsset(views[v].networkId, views[v].assetId))
    && (forall f | f in families :: HasFamily(views, f))
  }

  predicate ReservationsHold(reservations: map<Id, Reservation>, families: map<Id, FamilyAsset>,
      applied: seq<Applied>) {
    forall k | k in reservations ::
      var x := reservations[k];
      && IsPositiveUInt(x.amount)
      && x.familyId in families
      && families[x.familyId] == FamilyAsset(x.networkId, x.assetId)
      && HasOperation(applied, x.operationId)
  }

  predicate ReceivablesHold(receivables: map<Id, Receivable>, families: map<Id, FamilyAsset>,
      maxDestinationAttempts: int, lastAppliedAt: Option<Timestamp>) {
    && (forall k | k in receivables ::
          var x := receivables[k];
          && IsPositiveUInt(x.amount) && IsUInt(x.attempts)
          && x.destinationFamilyId in families
          && x.destinationNetworkId == families[x.destinationFamilyId].networkId
          && x.sourceNetworkId != x.destinationNetworkId
          && x.createdAt <= x.updatedAt
          && x.attempts <= maxDestinationAttempts
          && (lastAppliedAt.Some? ==> x.updatedAt <= lastAppliedAt.value))
    && (forall j, k | j in receivables && k in receivables && j != k ::
          receivables[j].messageIdentity != receivables[k].messageIdentity)
  }

  predicate IndexDerived(x: Position) {
    && IsPositiveUInt(x.shares) && IsPositiveUInt(x.indexNum) && IsPositiveUInt(x.indexDen)
    && IsUInt(x.book) && IsUInt(x.remainder)
    && x.book == BookOf(x.shares, x.indexNum, x.indexDen)
    && x.remainder == RemainderOf(x.shares, x.indexNum, x.indexDen)
  }

  predicate PositionsHold(positions: map<Id, Position>, views: map<Id, View>, lastAppliedAt: Option<Timestamp>) {
    forall k | k in positions ::
      && IndexDerived(positions[k])
      && HasAsset(views, positions[k].networkId, positions[k].assetId)
      && (lastAppliedAt.Some? ==> positions[k].lastObservedAt <= lastAppliedAt.value)
  }

  predicate PayablesHold(payables: map<Id, FeePayable>, costs: map<Id, RecognizedCost>) {
    forall k | k in payables ::
      && IsPositiveUInt(payables[k].amount)
      && k in costs && costs[k].cost.funding.OnPayable? && costs[k].cost.amount == payables[k].amount
  }

  predicate CostsHold(costs: map<Id, RecognizedCost>, applied: seq<Applied>) {
    forall k | k in costs ::
      IsPositiveUInt(costs[k].cost.amount) && costs[k].cost.costId == k && HasOperation(applied, costs[k].operationId)
  }

  predicate AllowancesHold(allowances: map<Id, Allowance>, views: map<Id, View>) {
    forall k | k in allowances ::
      IsUInt(allowances[k].amount) && HasAsset(views, allowances[k].networkId, allowances[k].assetId)
  }

  predicate ClosureHolds(closedAt: Option<Timestamp>, deadlineState: Option<Portfolio>,
      lastAppliedAt: Option<Timestamp>) {
    && closedAt.None? == deadlineState.None?
    && (closedAt.Some? && lastAppliedAt.Some? ==> closedAt.value <= lastAppliedAt.value)
  }

  // Everything assertPortfolio checks except the value checks, the header ranges and the allowances.
  predicate Coherent(p: Portfolio) {
    && HistoryHolds(p.version, p.applied, p.lastAppliedAt)
    && CashHolds(p.cash)
    && FamiliesHold(p.views, FamilyAssets(p.cash))
    && ReservationsHold(p.reservations, FamilyAssets(p.cash), p.applied)
    && ReceivablesHold(p.receivables, FamilyAssets(p.cash), p.maxDestinationAttempts, p.lastAppliedAt)
    && PositionsHold(p.positions, p.views, p.lastAppliedAt)
    && PayablesHold(p.payables, p.costs)
    && CostsHold(p.costs, p.applied)
    && ClosureHolds(p.closedAt, p.deadlineState, p.lastAppliedAt)
  }

  predicate Structured(p: Portfolio) {
    && HeaderHolds(p.initialValue, p.maxDestinationAttempts, p.version, p.pnl)
    && AllowancesHold(p.allowances, p.views)
    && Coherent(p)
  }

  // assertPortfolio returns normally.
  ghost predicate Valid(p: Portfolio) {
    Structured(p) && Liabilities(p) <= Gross(p) && Imbalance(p) == 0
  }

  /******* Helpers of applyReceipt *******/

  function FindApplied(applied: seq<Applied>, operationId: Id): (found: Option<Receipt>)
    ensures found.Some? <==> HasOperation(applied, operationId)
    ensures found.Some? ==> found.value.operationId == operationId
                            && exists i | 0 <= i < |applied| :: applied[i].receipt == found.value
  {
    if applied == [] then None
    else if applied[0].receipt.operationId == operationId then
      assert applied[0].receipt.operationId == operationId;
      Some(applied[0].receipt)
    else
      var rest := FindApplied(applied[1..], operationId);
      assert forall i | 0 < i < |applied| :: applied[i] == applied[1..][i - 1];
      assert forall i | 0 <= i < |applied[1..]| :: applied[1..][i] == applied[i + 1];
      rest
  }

  function ViewOf(s: Portfolio, viewId: Id): Result<View> {
    if viewId in s.views then Ok(s.views[viewId]) else Err(AccountingInvariant)
  }

  function DebitCash(s: Portfolio, family: Id, amount: int): Result<Portfolio> {
    if family !in s.cash then Err(AccountingInvariant)
    else if s.cash[family].amount < amount then Err(InsufficientAvailableBalance)
    else Ok(s.(cash := s.cash[family := s.cash[family].(amount := s.cash[family].amount - amount)]))
  }

  function CreditCash(s: Portfolio, family: Id, amount: int): Result<Portfolio> {
    if family !in s.cash then Err(AccountingInvariant)
    else if !IsUInt(s.cash[family].amount + amount) then Err(AccountingInvariant)
    else Ok(s.(cash := s.cash[family := s.cash[family].(amount := s.cash[family].amount + amount)]))
  }

  function WithheldTotal(costs: seq<Cost>): int {
    if costs == [] then 0
    else
      WithheldTotal(costs[..|costs| - 1])
      + (if costs[|costs| - 1].funding.Withheld? then costs[|costs| - 1].amount else 0)
  }

  function CostsSum(costs: seq<Cost>): int {
    if costs == [] then 0 else CostsSum(costs[..|costs| - 1]) + costs[|costs| - 1].amount
  }

  // How one cost is funded, before it is recognised.
  function FundCost(s: Portfolio, c: Cost): Result<Portfolio> {
    match c.funding
    case AvailableCash =>
      if c.cashFamily.None? then Err(AccountingInvariant)
      else if c.cashFamily.value !in s.cash then Err(AccountingInvariant)
      else if s.cash[c.cashFamily.value].networkId != c.networkId then Err(AccountingInvariant)
      else DebitCash(s, c.cashFamily.value, c.amount)
    case OnPayable =>
      if c.cashFamily.Some? then Err(AccountingInvariant)
      else Ok(s.(payables := s.payables[c.costId := FeePayable(c.networkId, c.amount)]))
    case Withheld =>
      if c.cashFamily.Some? then Err(AccountingInvariant) else Ok(s)
  }

  function ChargeOne(s: Portfolio, r: Receipt, c: Cost): Result<Portfolio> {
    if c.sourceHash !in r.sourceHashes then Err(AccountingInvariant)
    else if c.costId in s.costs then Err(OperationConflict)
    else
      var funded :- FundCost(s, c);
      Ok(funded.(costs := funded.costs[c.costId := RecognizedCost(c, r.operationId)]))
  }

  function ChargeAll(s: Portfolio, r: Receipt, costs: seq<Cost>): Result<Portfolio> {
    if costs == [] then Ok(s)
    else
      var earlier :- ChargeAll(s, r, costs[..|costs| - 1]);
      ChargeOne(earlier, r, costs[|costs| - 1])
  }

  predicate DistinctCostIds(costs: seq<Cost>) {
    forall i, j | 0 <= i < j < |costs| :: costs[i].costId != costs[j].costId
  }

  function ApplyCosts(s: Portfolio, r: Receipt, expectedWithheld: int): Result<Portfolio> {
    var costs := r.body.Costs();
    if !DistinctCostIds(costs) then Err(AccountingInvariant)
    else
      var charged :- ChargeAll(s, r, costs);
      if WithheldTotal(costs) != expectedWithheld then Err(AccountingInvariant) else Ok(charged)
  }

  /******* One function per receipt kind *******/

  function ReserveEffect(s: Portfolio, r: Receipt): Result<Portfolio>
    requires r.body.Reserve?
  {
    var b := r.body;
    if b.costs != [] then Err(AccountingInvariant)
    else if b.reservationId in s.reservations then Err(AccountingInvariant)
    else
      var view :- ViewOf(s, b.cashViewId);
      var debited :- DebitCash(s, view.familyId, b.amount);
      Ok(debited.(reservations := debited.reservations[b.reservationId :=
        Reservation(r.operationId, view.familyId, view.networkId, view.assetId, b.amount)]))
  }

  function ApproveEffect(s: Portfolio, r: Receipt): Result<Portfolio>
    requires r.body.Approve?
  {
    var b := r.body;
    var known := b.allowanceId in s.allowances;
    var charged :-
      if known && s.allowances[b.allowanceId].amount >= b.amount then
        if b.costs != [] then Err(AccountingInvariant) else Ok(s)
      else ApplyCosts(s, r, 0);
    if known && (s.allowances[b.allowanceId].networkId != b.networkId
                 || s.allowances[b.allowanceId].assetId != b.assetId
                 || s.allowances[b.allowanceId].spenderId != b.spenderId)
    then Err(AccountingInvariant)
    else Ok(charged.(allowances := charged.allowances[b.allowanceId :=
           Allowance(b.networkId, b.assetId, b.spenderId, b.amount)]))
  }

  // A position revalued at an index: the book is the floor, the remainder what the floor discards.
  function Revalue(x: Position, shares: int, num: int, den: int, source: SourceHash, at: Timestamp): Position
    requires 0 < den
  {
    x.(shares := shares, indexNum := num, indexDen := den, book := BookOf(shares, num, den),
       remainder := RemainderOf(shares, num, den), lastSource := source, lastObservedAt := at)
  }

  function DepositEffect(s: Portfolio, r: Receipt): Result<Portfolio>
    requires r.body.Deposit? && ReceiptParses(r)
  {
    var b := r.body;
    var view :- ViewOf(s, b.cashViewId);
    var debited :- DebitCash(s, view.familyId, b.input);
    var known := b.positionId in s.positions;
    if known && (s.positions[b.positionId].networkId != view.networkId
                 || s.positions[b.positionId].instrumentId != b.instrumentId
                 || s.positions[b.positionId].assetId != view.assetId
                 || s.positions[b.positionId].indexNum != b.indexNum
                 || s.positions[b.positionId].indexDen != b.indexDen)
    then Err(AccountingInvariant)
    else
      var start := if known then s.positions[b.positionId]
                   else Position(view.networkId, b.instrumentId, view.assetId, 0, b.indexNum, b.indexDen, 0, 0,
                                 r.sourceHashes[0], r.observedAt);
      var shares := start.shares + b.sharesCredit;
      if !IsUInt(shares) then Err(AccountingInvariant)
      else
        var next := Revalue(start, shares, b.indexNum, b.indexDen, r.sourceHashes[0], r.observedAt);
        var credit := next.book - start.book;
        if !IsUInt(next.book) || credit > b.input then Err(AccountingInvariant)
        else ApplyCosts(debited.(positions := debited.positions[b.positionId := next]), r, b.input - credit)
  }

  predicate IndexesPositive(positions: map<Id, Position>) {
    forall k | k in positions :: 0 < positions[k].indexDen
  }

  function WithdrawEffect(s: Portfolio, r: Receipt): Result<Portfolio>
    requires r.body.Withdraw? && ReceiptParses(r) && IndexesPositive(s.positions)
  {
    var b := r.body;
    var view :- ViewOf(s, b.cashViewId);
    if b.positionId !in s.positions then Err(InvalidTransition)
    else
      var x := s.positions[b.positionId];
      if x.networkId != view.networkId || x.assetId != view.assetId then Err(AccountingInvariant)
      else if b.sharesDebit > x.shares then Err(InvalidTransition)
      else
        var left := x.shares - b.sharesDebit;
        var next := Revalue(x, left, x.indexNum, x.indexDen, r.sourceHashes[0], r.observedAt);
        if left != 0 && !IsUInt(next.book) then Err(AccountingInvariant)
        else
          var positions := if left == 0 then s.positions - {b.positionId} else s.positions[b.positionId := next];
          var bookDebit := x.book - (if left == 0 then 0 else next.book);
          if b.cashCredit > bookDebit then Err(AccountingInvariant)
          else
            var credited :- CreditCash(s.(positions := positions), view.familyId, b.cashCredit);
            ApplyCosts(credited, r, bookDebit - b.cashCredit)
  }

  function SwapEffect(s: Portfolio, r: Receipt): Result<Portfolio>
    requires r.body.Swap?
  {
    var b := r.body;
    var source :- ViewOf(s, b.sourceViewId);
    var destination :- ViewOf(s, b.destinationViewId);
    if source.familyId == destination.familyId then Err(AccountingInvariant)
    else if source.networkId != destination.networkId then Err(AccountingInvariant)
    else if b.destinationCredit > b.sourceDebit then Err(AccountingInvariant)
    else
      var debited :- DebitCash(s, source.familyId, b.sourceDebit);
      var credited :- CreditCash(debited, destination.familyId, b.destinationCredit);
      ApplyCosts(credited, r, b.sourceDebit - b.destinationCredit)
  }

  function PayableSettledEffect(s: Portfolio, r: Receipt): Result<Portfolio>
    requires r.body.PayableSettled?
  {
    var b := r.body;
    var view :- ViewOf(s, b.cashViewId);
    if b.payableId !in s.payables then Err(PayableNotFound)
    else if s.payables[b.payableId].networkId != view.networkId then Err(AccountingInvariant)
    else
      var debited :- DebitCash(s, view.familyId, s.payables[b.payableId].amount);
      Ok(debited.(payables := debited.payables - {b.payableId}))
  }

  function SourceFailedEffect(s: Portfolio, r: Receipt): Result<Portfolio>
    requires r.body.TransferSourceFailed?
  {
    var b := r.body;
    if b.reservationId !in s.reservations then Err(InvalidTransition)
    else
      var x := s.reservations[b.reservationId];
      var withheld := WithheldTotal(b.costs);
      if withheld > x.amount then Err(AccountingInvariant)
      else
        var released := s.(reservations := s.reservations - {b.reservationId});
        var credited :- CreditCash(released, x.familyId, x.amount - withheld);
        ApplyCosts(credited, r, withheld)
  }

  function BurnedEffect(s: Portfolio, r: Receipt): Result<Portfolio>
    requires r.body.TransferBurned?
  {
    var b := r.body;
    if b.reservationId !in s.reservations then Err(InvalidTransition)
    else if b.transferId in s.receivables
            || exists k | k in s.receivables :: s.receivables[k].messageIdentity == b.messageIdentity
    then Err(AccountingInvariant)
    else
      var x := s.reservations[b.reservationId];
      var destination :- ViewOf(s, b.destinationViewId);
      if destination.networkId != b.destinationNetworkId then Err(AccountingInvariant)
      else if x.networkId == destination.networkId then Err(AccountingInvariant)
      else if b.netReceivable > x.amount then Err(AccountingInvariant)
      else
        var moved := s.(
          reservations := s.reservations - {b.reservationId},
          receivables := s.receivables[b.transferId :=
            Receivable(b.messageIdentity, x.networkId, b.destinationNetworkId, destination.familyId,
                       b.netReceivable, InTransit, 0, r.observedAt, r.observedAt)]);
        ApplyCosts(moved, r, x.amount - b.netReceivable)
  }

  // The three receipts that only move a receivable between states.
  function MoveReceivable(s: Portfolio, r: Receipt, transferId: Id, x: Receivable): Result<Portfolio> {
    var charged :- ApplyCosts(s, r, 0);
    Ok(charged.(receivables := charged.receivables[transferId := x.(updatedAt := r.observedAt)]))
  }

  function ReceivableEffect(s: Portfolio, r: Receipt): Result<Portfolio>
    requires r.body.MovesReceivable()
  {
    var id := r.body.transferId;
    if id !in s.receivables then Err(InvalidTransition)
    else
      var x := s.receivables[id];
      if r.observedAt < x.updatedAt then Err(InvalidTransition)
      else match r.body {
        case TransferReady(_, _) =>
          if x.state.ReadyToReceive? then Err(InvalidTransition)
          else if x.state.DestinationRetry? && x.attempts >= s.maxDestinationAttempts then Err(InvalidTransition)
          else MoveReceivable(s, r, id, x.(state := ReadyToReceive))
        case TransferDelayed(_, _) =>
          if !x.state.InTransit? then Err(InvalidTransition)
          else MoveReceivable(s, r, id, x.(state := Delayed))
        case TransferRetry(_, _) =>
          if !x.state.ReadyToReceive? then Err(InvalidTransition)
          else if x.attempts >= s.maxDestinationAttempts then Err(InvalidTransition)
          else if !IsUInt(x.attempts + 1) then Err(AccountingInvariant)
          else MoveReceivable(s, r, id, x.(state := DestinationRetry, attempts := x.attempts + 1))
        case TransferSettled(_, credit, _) =>
          if !x.state.ReadyToReceive? then Err(InvalidTransition)
          else if credit > x.amount then Err(AccountingInvariant)
          else
            var credited :- CreditCash(s, x.destinationFamilyId, credit);
            ApplyCosts(credited.(receivables := credited.receivables - {id}), r, x.amount - credit)
      }
  }

  function AccrueEffect(s: Portfolio, r: Receipt): Result<Portfolio>
    requires r.body.Accrue? && ReceiptParses(r)
  {
    var b := r.body;
    if b.costs != [] then Err(AccountingInvariant)
    else if b.positionId !in s.positions then Err(InvalidTransition)
    else
      var x := s.positions[b.positionId];
      if r.observedAt <= x.lastObservedAt then Err(InvalidTransition)
      else
        var next := Revalue(x, x.shares, b.nextNum, b.nextDen, r.sourceHashes[0], r.observedAt);
        if !IsUInt(next.book) then Err(AccountingInvariant)
        else Ok(s.(positions := s.positions[b.positionId := next], pnl := s.pnl + (next.book - x.book)))
  }

  function CloseEffect(s: Portfolio, r: Receipt): Result<Portfolio>
    requires r.body.Close?
  {
    if r.body.closedAt != r.observedAt then Err(AccountingInvariant)
    else Ok(s.(closedAt := Some(r.body.closedAt), deadlineState := Some(s)))
  }

  // The economic branch of a fresh receipt, before it is stamped into the history.
  function Effect(s: Portfolio, r: Receipt): Result<Portfolio>
    requires ReceiptParses(r) && IndexesPositive(s.positions)
  {
    match r.body
    case NoEffect => Ok(s)
    case Reserve(_, _, _, _) => ReserveEffect(s, r)
    case CostOnly(_) => ApplyCosts(s, r, 0)
    case Approve(_, _, _, _, _, _) => ApproveEffect(s, r)
    case Deposit(_, _, _, _, _, _, _, _) => DepositEffect(s, r)
    case Withdraw(_, _, _, _, _) => WithdrawEffect(s, r)
    case Swap(_, _, _, _, _) => SwapEffect(s, r)
    case PayableSettled(_, _) => PayableSettledEffect(s, r)
    case TransferSourceFailed(_, _) => SourceFailedEffect(s, r)
    case TransferBurned(_, _, _, _, _, _, _) => BurnedEffect(s, r)
    case TransferReady(_, _) => ReceivableEffect(s, r)
    case TransferDelayed(_, _) => ReceivableEffect(s, r)
    case TransferRetry(_, _) => ReceivableEffect(s, r)
    case TransferSettled(_, _, _) => ReceivableEffect(s, r)
    case Accrue(_, _, _, _) => AccrueEffect(s, r)
    case Close(_) => CloseEffect(s, r)
  }

  function Stamp(s: Portfolio, r: Receipt): Portfolio {
    s.(version := s.version + 1, lastAppliedAt := Some(r.observedAt),
       applied := s.applied + [Applied(r, s.version + 1)])
  }

  // The guards a receipt with a new operation id must pass, in the source's order.
  function Admit(p: Portfolio, r: Receipt): Result<()> {
    if r.experimentId != p.experimentId || r.scenarioId != p.scenarioId || r.provenance != p.provenance
    then Err(AccountingInvariant)
    else if r.expectedVersion != p.version then Err(StalePortfolio)
    else if p.lastAppliedAt.Some? && r.observedAt < p.lastAppliedAt.value then Err(InvalidTransition)
    else if p.closedAt.Some? && !r.body.MovesReceivable() then Err(ClosedPortfolio)
    else Ok(())
  }

  ghost function ApplyReceipt(p: Portfolio, r: Receipt): Result<Portfolio> {
    if !Valid(p) then Err(AccountingInvariant)
    else if !ReceiptParses(r) then Err(SchemaRejected)
    else
      var prior := FindApplied(p.applied, r.operationId);
      if prior.Some? then
        if prior.value != r then Err(OperationConflict) else Ok(p)
      else
        var _ :- Admit(p, r);
        var s :- Effect(p, r);
        var stamped := Stamp(s, r);
        if Valid(stamped) then Ok(stamped) else Err(AccountingInvariant)
  }

  // replay: a stream of receipts, stopping at the first refusal.
  ghost function Replay(p: Portfolio, rs: seq<Receipt>): Result<Portfolio> {
    if rs == [] then (if Valid(p) then Ok(p) else Err(AccountingInvariant))
    else
      var earlier :- Replay(p, rs[..|rs| - 1]);
      ApplyReceipt(earlier, rs[|rs| - 1])
  }
}
