# Proof of Alpha: a verified model

This project models the financial core of the Proof of Alpha repository in Dafny and proves what that core is for: that
shadow money is conserved, that cross-chain transfers and the ledger never disagree, that workers which crash and
overlap leave a durable plan half done at worst, and that what is committed and archived can be checked and read back.
All amounts are unbounded integers with the uint256 and int256 ranges written out where the code checks them.

How the files fit together:

- `Prelude` holds results, error codes, integer ranges and sums over keyed collections; `Rounding` is integer scaling.
- `Ledger` states the portfolio, the integrity assertion and the sixteen receipt kinds as functions. `Accounting` is the
  same code as it runs: a working copy changed field by field, loops over costs and receipts, proved equal to `Ledger`.
  `Opening` is the portfolio a scenario starts from.
- `Conservation`, `Closing`, `Redelivery`, `Frames`, `Lifetimes`, `Principal` and `Positions` prove what every receipt
  and every run of receipts keeps. `Affordable` says exactly when a list of costs can be charged, `Acceptance` exactly
  when each kind of receipt is accepted, `Refusals` what each refusal means, and `Postings` what an accepted receipt
  does to every family and every entry. `Provenance` traces every entry of the books to a receipt of the history.
- `Transfers` and `TransferStore` are the transfer lifecycle and the transaction that commits an event together with its
  ledger receipt; `TransferTables` is that repository as a class; `Joint` and `JointRuns` prove that the two machines
  stay in step over every run and that money moves once, `FamilyFlows` that it moves between the families of the
  transfer's two views, and `Invalidation` that an invalidated transfer's capital never moves again; `ReservationNames`
  says exactly in which runs all of that holds, and `SharedReservations` follows a run in which a shared reservation id
  breaks it. `Lifecycle` says exactly which events a transfer takes and what evidence and message every committed one
  carries, `TransferReceipts` which one receipt an event posts. `Commits` gives the exact condition under which an event
  the lifecycle takes commits, `Rollbacks` what that means for events without costs, and `RollbackRuns` two runs that
  end in a rollback.
- `ActionStore` gives each action and job transaction as one step, `ActionProtocol` the workers as program counters over
  those steps with crashes and expired, unfenced leases, and `ActionTables` the repository as a class with the worker's
  program on top. `ActionLaws` says exactly which requests, claims, plans, receipts and stops are taken, and
  `ActionEndings` how an action ends: alone, after interruptions, and while a second worker still holds its job.
- `Digests`, `Merkle`, `AuditLog`, `BatchChain`, `AuditTables`, `AuditRuns`, `AuditLaws`, `Exports` and `ExportLaws` are
  the audit log, the commitment batches and the export verifier. A hash is the term it was computed from, with leaf,
  node and batch preimages kept apart as the source's domain strings do.
- `Keyed`, `CanonicalJson`, `JsonRoundTrip`, `JsonGraph` and `Archive` are canonical JSON, its reader, the walk over an
  object graph and the content-addressed archive. `ShortestText` singles out the canonical text among all texts that
  read back as the same value, `PlainValues` the values that have one, and `ArchiveLaws` what a read demands of the
  stored bytes.
- `Checkpoint`, `Drawdown` and `Adapters` are the smaller arithmetic machines around the ledger. `CheckpointLaws` says
  exactly when a checkpoint is taken and what it leaves, `AdapterLaws` exactly when each adapter hands out receipts and
  what they say. `AaveRoundTrip`, `AaveAcceptance` and `AaveTrip` follow the Aave adapters' receipts through the ledger
  and back, and `AaveExample` is one such trip in numbers and one supply that the ledger refuses.

Collections that the source keeps as arrays unique by id and re-sorted after each receipt are maps keyed by that id. A
hash that is only compared stands for the thing hashed. Where the source throws, the model returns the error code.

Every lemma that has a proof is marked `{:induction false}`: inductions are written out, and nothing rests on Dafny's
automatic induction.

Some findings that the proofs turned up:

- A vault deposit whose rounded-up fee eats the whole amount is not handed out: the invested amount is the receipt's
  index numerator and must be positive. `VaultDepositHandedOut` and `VaultDepositSmallestAmount` say exactly when, and
  `OneUnitIsRefused` that one minor unit is refused at any positive fee.
- `verifyProof` looks at neither the leaf index nor the leaf count; `RepeatedLastLeaf` shows exactly which sizes share a
  root. The export verifier's count check is what makes a root and a range fix the ordered leaves
  (`RootAndRangeFixTheLeaves`).
- The export verifier tolerates a further proof exactly when it is filed under a batch id the export does not contain
  (`ForeignProofsAreTolerated`). No two batches of an accepted export can share an id, although it never compares them.
- The closing check of `applyReceipt` can never fail on conservation. It refuses only what would make the portfolio
  insolvent, an approval for an unknown asset, and figures outside int256 or uint256.
- Not every event the lifecycle takes is taken by the ledger. `CommitsExactlyWhenTheLedgerTakesIt` gives the exact
  condition per event kind. Of the cost-free events after a burn that are in order, exactly three roll back
  (`FreeEventsCommit`): a second `ATTESTATION_DELAYED`, an `ATTESTATION_OBSERVED` from retry when the ledger's
  `maxDestinationAttempts` is spent while the transfer's own `maxAttempts` is not, and a confirmation whose credit
  leaves uint256. `SecondDelayIsReached` and `SpentObservationIsReached` are runs from an opened portfolio that end in
  the first two. A `DESTINATION_FAILED` is never among them, although the two bounds are unrelated: a receivable that is
  ready has always used fewer attempts than the ledger allows.
- Nothing stops two transfers of a scenario from naming one reservation id, and then money no longer moves once.
  `SharedReservationIsPaidOut` is a run from an opened portfolio: create `t`, reserve it, create `u` under the same
  reservation id and amount, fail `u`'s source. `u` is paid the hundred that `t` put in, and neither flow fits its
  transfer any more; `OnePaysOutTheOther` is the same for every such run. `InStepExactlyWhileNamesAreFresh` is the exact
  condition, which a caller can check before each call: lifecycle, ledger and flows are in step throughout a run if and
  only if no committed creation takes a reservation id that is on its scenario's books and no committed reservation one
  that another transfer of the scenario names. Distinct ids are enough (`DistinctRunsAreFresh`, `MoneyMovesOnce`).
- The status of an action does not always say what it did. `ExpiredButPosted` is a run, over any portfolio and any
  receipt it accepts, in which a slow worker plans an action, its one-second lease runs out, a second worker finds the
  action past its time and untouched, the slow one posts the receipt, and the second one ends the action `EXPIRED`:
  counting the receipts and completing are two transactions. `EndsAreTrueExactlyWhenNeverLate` is the exact condition,
  which could be checked before each completion: failed and expired actions have posted nothing if and only if none is
  ended so while receipts are stored for it. Leases that outlive their workers are enough (`LeasesMakeEndsTrue`).
- A checkpoint applies its accruals in the order of the position ids, each at its own observation time, and the ledger
  refuses a receipt earlier than the last. `CheckpointTakenExactly` therefore demands observation times that do not fall
  in that order, besides figures that stay in range and solvent after every single accrual.
- Of the codes on which the worker ends an action for good, the ledger itself ever gives one: a missing balance. So a
  run left alone ends `PARTIALLY_SUCCEEDED` or `FAILED` exactly when the ledger reports a missing balance for its next
  receipt, planning failed for good, or its attempts are used up (`AloneItEndsAsItsPlanPosts`); and a missing balance is
  reported only when some family would be left with less than nothing (`RefusalsTellTheReason`).
- When the Aave adapter hands out an approval but the ledger already knows a sufficient allowance, the ledger refuses
  the supply: a sufficient approval must be free of cost and this one carries its gas (`ApprovalTaken`).
  `SecondSupplyTaken` is the exact condition for a later supply under the same allowance, and `SecondApprovalIsRefused`
  a second supply that the adapter hands out and the ledger refuses because its caller states the allowance as zero,
  while the same supply with the ledger's own figure is taken.

## Model

| member | source | states |
|---|---|---|
| Accounting.WorkingCopy.DebitCash | packages/accounting/src/index.ts:146-159 | a debit takes exactly the amount from one cash family or reports insufficient balance and changes nothing |
| Accounting.WorkingCopy.CreditCash | packages/accounting/src/index.ts:160-169 | a credit adds exactly the amount to one cash family and is refused past uint256 |
| Accounting.WorkingCopy.ChargeOne | packages/accounting/src/index.ts:411-457 | one cost is funded from cash, a payable or the withheld gap and recognised under its own id, once |
| Accounting.WorkingCopy.ApplyCosts | packages/accounting/src/index.ts:411-457 | the loop over costs recognises each exactly once and demands that the withheld ones sum to the gap |
| Accounting.WorkingCopy.Reserve | packages/accounting/src/index.ts:511-528 | a reservation moves cash into a new reservation, free of cost |
| Accounting.WorkingCopy.Approve | packages/accounting/src/index.ts:531-558 | an approval records the allowance; a sufficient one costs nothing |
| Accounting.WorkingCopy.Deposit | packages/accounting/src/index.ts:559-611 | a deposit at the position's index revalues it and withholds what the book did not gain |
| Accounting.WorkingCopy.Withdraw | packages/accounting/src/index.ts:612-651 | a withdrawal pays out at most the book debit, withholds the rest and closes an emptied position |
| Accounting.WorkingCopy.Swap | packages/accounting/src/index.ts:652-664 | a swap moves cash between two families of one network, withholding the difference |
| Accounting.WorkingCopy.SettlePayable | packages/accounting/src/index.ts:665-680 | a settled payable is paid from cash on its network and disappears |
| Accounting.WorkingCopy.FailSource | packages/accounting/src/index.ts:681-698 | a failed source returns the reservation less the withheld costs |
| Accounting.WorkingCopy.Burn | packages/accounting/src/index.ts:699-736 | a burn turns a reservation into a receivable of a new id and message, withholding the difference |
| Accounting.WorkingCopy.MoveReceivable | packages/accounting/src/index.ts:737-801 | the four receivable receipts follow the receivable's state machine and attempt bound |
| Accounting.WorkingCopy.Accrue | packages/accounting/src/index.ts:802-826 | an accrual revalues a position at a newer observation and books the change as modelled PnL |
| Accounting.WorkingCopy.Close | packages/accounting/src/index.ts:827-832 | closing records the time and the state it closed over |
| Accounting.WorkingCopy.ApplyEffect | packages/accounting/src/index.ts:508-833 | the dispatch over the sixteen kinds leaves the working copy the specification names, or its error |
| Accounting.AssertPortfolio | packages/accounting/src/index.ts:184-346 | the summing loops decide exactly the integrity predicate all ledger theorems rest on |
| Accounting.ApplyReceipt | packages/accounting/src/index.ts:466-843 | the reducer: assertion, idempotent repeat, guards, branch, stamp and closing assertion, in that order |
| Acceptance.EveryReceiptIsDecided | packages/accounting/src/index.ts:466-843 | on the books of any run every receipt is decided by figures a caller can read before the call: a known operation is accepted exactly when it is the same receipt, a new one exactly when its header fits, its kind finds what it needs, its costs can be charged and fill the gap, and value and PnL stay in range |
| Refusals.RefusalsTellTheReason | packages/accounting/src/index.ts:466-507 | the answers SCHEMA_REJECTED, STALE_PORTFOLIO, CLOSED_PORTFOLIO and PAYABLE_NOT_FOUND are each given exactly for their reason; a missing balance is answered only when what the receipt moves and charges would leave some family with less than nothing |
| Refusals.MissingBalanceIsTold | packages/accounting/src/index.ts:508-680 | a missing balance is answered exactly when a reservation's or a payable's family lacks the amount, and whenever a deposit's or a swap's does, each kind's own conditions holding |
| Refusals.CostsShortExactly | packages/accounting/src/index.ts:411-457 | the loop over costs is refused for a missing balance if and only if the first cost it stops at is new, attested and addressed and its family lacks what is left to pay |
| Refusals.EveryRefusalIsKnown | packages/accounting/src/index.ts:466-843 | the ledger answers with no codes but eight |
| Refusals.ParsesExactly | packages/schemas/src/accounting.ts:147-275 | a receipt parses exactly when it names a source, its version, costs, quantities and indices are in range and positive where they must be |
| Refusals.RangesAreTwoTo256 | packages/accounting/src/index.ts:14-14 | amounts have 256 bits and modelled PnL 256 with a sign |
| Postings.EveryEntryIsPosted | packages/accounting/src/index.ts:508-840 | an accepted new receipt leaves every part of the portfolio as the receipt and the books before it say: cash of every family, costs and payables, positions, reservations, receivables, allowances, closing, PnL and header |
| Postings.FamilyCash | packages/accounting/src/index.ts:508-833 | every cash family, for every kind: what it held, plus what the receipt moves into it through its views, less what the costs take from it |
| Provenance.EveryEntryComesFromAReceipt | packages/accounting/src/index.ts:348-866 | from a new portfolio on, every recognised cost, reservation, receivable, position, allowance and closing time comes from a receipt of the history as it stands, and receipts stand in the order of their times |
| Provenance.EveryRunIsSound | packages/accounting/src/index.ts:184-346 | from a new portfolio on, in figures: net value = initial + PnL - costs, never negative; payables are unpaid costs; receivables cross networks, one message each, within their attempts; positions are worth the floor of shares times index |
| Accounting.Replay | packages/accounting/src/index.ts:850-866 | the loop over a stream is the fold that stops at the first refusal |
| Opening.CreatePortfolio | packages/accounting/src/index.ts:348-409 | the two funding loops build the start state or report the source's error |
| Opening.OpensExactlyOnItsCapital | packages/accounting/src/index.ts:348-409 | a portfolio opens if and only if its initial cash is its initial value, each family is funded at most once through a known view and views of a family agree; it opens valid, worth its initial value, with nothing in flight |
| Opening.OpensAsAsked | packages/accounting/src/index.ts:348-409 | what opens carries the input's names, figures and views, each family's cash exactly as its one entry funded it, and no entry of any other kind |
| Conservation.ChargeAllMoves | packages/accounting/src/index.ts:411-457 | charging costs unbalances a portfolio by exactly the withheld part and grows recognised costs by exactly their sum |
| Conservation.EffectBalances | packages/accounting/src/index.ts:508-833 | every receipt kind's branch by itself keeps cash + reservations + positions + receivables - payables = initial + PnL - costs, and recognises exactly the receipt's costs |
| Conservation.AcceptedSteps | packages/accounting/src/index.ts:466-843 | an accepted receipt keeps the books balanced, never forgets a cost, and only an accrual moves PnL |
| Conservation.OnlyAccrualsRaiseNetValue | packages/accounting/src/index.ts:850-866 | over any run net value moves by PnL less new costs; a run without accruals never raises it |
| Closing.EffectStampable | packages/accounting/src/index.ts:508-840 | every branch leaves a state that passes all the structural checks of the closing assertion |
| Closing.ClosingCheckRefusesOnlyInsolvency | packages/accounting/src/index.ts:834-843 | the closing assertion refuses an admitted receipt if and only if its costs exceed net value plus the change of book it accrues, it approves an unknown asset, or PnL with that change or the version leave their ranges: never on conservation |
| Affordable.CostsTaken | packages/accounting/src/index.ts:411-457 | a list of costs is charged if and only if its ids are distinct and new, every hash is among the receipt's, each cost is addressed as its funding demands, every family has what the list takes from it, and the withheld ones fill the gap |
| Redelivery.RedeliveryIsExactlyOnce | packages/accounting/src/index.ts:470-482 | a stream with receipts repeated anywhere ends, or is refused, exactly as the stream without repeats |
| Redelivery.FirstDeliveriesAreConsecutive | packages/accounting/src/index.ts:488-492 | an accepted stream's first deliveries carry consecutive versions and are exactly what the history gained |
| Redelivery.AcceptedOrderIsUnique | packages/accounting/src/index.ts:470-492 | two fully accepted streams over the same receipts end in the same portfolio |
| Frames.EffectFrame | packages/accounting/src/index.ts:508-833 | a receipt leaves every reservation, receivable and position it does not name untouched, and only adds costs |
| Frames.SourceFailedMoves | packages/accounting/src/index.ts:681-698 | a failed source removes exactly its reservation and touches no receivable |
| Frames.BurnMoves | packages/accounting/src/index.ts:699-736 | a burn removes exactly its reservation and adds exactly one receivable in transit with no attempts |
| Frames.ReceivableMoves | packages/accounting/src/index.ts:737-801 | a receivable receipt moves exactly the receivable it names, by the state table, or removes it on settlement |
| Lifetimes.ClosureIsFinal | packages/accounting/src/index.ts:502-506 | after CLOSE no continuation changes positions, reservations, allowances, PnL, closing time or deadline state, adds a receivable or pays a payable |
| Lifetimes.PayablesArePaidAtMostOnce | packages/accounting/src/index.ts:436-451 | from a new portfolio on, no payable cost is ever settled by two receipts |
| Lifetimes.TransferReceiptsAreBounded | packages/accounting/src/index.ts:737-801 | from any state whose attempts fit the receivable's state, every transfer receipt lowers a measure, so at most 2 * maxDestinationAttempts + 1 follow |
| Lifetimes.BoundedFromBurnOn | packages/accounting/src/index.ts:699-801 | from the burn of a transfer on, with no assumption on the state before it, its receivable takes at most 2 * maxDestinationAttempts + 1 transfer receipts |
| Lifetimes.BoundedInEveryHistory | packages/accounting/src/index.ts:737-801 | in every history that starts without receivables, as createPortfolio opens it, attempts fit the state at every point and the same bound holds from there on |
| Lifetimes.RunKeepsAttemptsFit | packages/accounting/src/index.ts:737-801 | no run ever leaves a receivable with attempts before its first readiness, or ready with all attempts used |
| Lifetimes.BlockedReceivableKeepsItsValue | packages/accounting/src/index.ts:749-766 | a receivable in retry at the attempt bound accepts nothing more and keeps its full value in every continuation |
| Positions.PositionStep | packages/accounting/src/index.ts:559-651 | one accepted receipt moves a position's shares and book by exactly the receipt's own figures and nothing else |
| Positions.BookIsWhatFlowed | packages/accounting/src/index.ts:559-651 | over any accepted run a book is what deposits credited plus accrual PnL less what withdrawals paid and withheld |
| Positions.RunToZero | packages/accounting/src/index.ts:612-651 | a position opened and run to zero debits exactly its credits plus its accrual PnL |
| Positions.AnySplitSameBook | packages/accounting/src/index.ts:559-651 | at one index any two accepted splits of the same net shares give the same shares, book and remainder |
| Positions.OnlyTheLastIndexMatters | packages/accounting/src/index.ts:802-826 | after any accruals the book is the floor at the position's present index alone, and the PnL gained is the change of the book |
| Positions.RunEndsAtLastIndex | packages/accounting/src/index.ts:802-826 | that index is the one in the last accrual the run delivered for the first time |
| Positions.SameLastIndexSameBook | packages/accounting/src/index.ts:802-826 | two accepted accrual-only runs whose last indices agree leave equal books and remainders and gained equally |
| Positions.OneAccrualInstead | packages/accounting/src/index.ts:802-826 | such a run leaves what its last accrual alone would have left and gained what that one would have gained |
| Positions.BookIsFloorOfProduct | packages/accounting/src/index.ts:170-172 | a position's book and remainder are mulDiv's value and remainder with FLOOR rounding, in range exactly together |
| Rounding.CeilIsLeastAbove | packages/accounting/src/index.ts:56-87 | CEIL is the least whole number not below the exact quotient, and the only one |
| Rounding.RemainderAccountsForRounding | packages/accounting/src/index.ts:56-87 | value and reported remainder give back the product in both directions; the directions differ by one exactly when inexact |
| Rounding.RescaleRoundTrip | packages/accounting/src/index.ts:89-121 | scaling to more decimals and back returns the amount exactly, rounding either way |
| Rounding.ScaledExactly | packages/accounting/src/index.ts:56-87 | mulDiv answers exactly when operands and rounded quotient are in range, and then with value, remainder and kind that give back the product on the asked side |
| Rounding.OneScaling | packages/accounting/src/index.ts:56-87 | there is only one such answer |
| Rounding.RescaledExactly | packages/accounting/src/index.ts:89-121 | rescaleMinor answers exactly for decimals 0 to 36 and figures in range: the multiple, or the scaling in the asked direction |
| TransferTables.TransferRepository.Create | packages/storage/src/m5.ts:36-58 | a transfer row is created once, for a known scenario |
| TransferTables.TransferRepository.AppendEvent | packages/storage/src/m5.ts:71-166 | one transaction commits the lifecycle move and its ledger receipt, or neither; a known event is answered without effect |
| TransferTables.ReplayTransfer | packages/transfers/src/index.ts:283-295 | the replay loop is the fold of the lifecycle over the events |
| Lifecycle.TakenExactly | packages/transfers/src/index.ts:107-281 | per event kind, an if-and-only-if in the fields of transfer and event: state, sequence, time, the burned message, reason, attempts, and for live transfers the chain receipt and attestation |
| Lifecycle.LeavesExactly | packages/transfers/src/index.ts:159-281 | what a taken event leaves of the transfer, field by field |
| Lifecycle.CreatedExactly | packages/transfers/src/index.ts:61-105 | a draft becomes a transfer exactly when its provenance fits its mode and its figures are in range; it starts reserved, with no message, events or attempts |
| Lifecycle.EveryEventIsDecided | packages/storage/src/m5.ts:71-166 | an event commits if and only if it is known and the same, or new, taken by the lifecycle, its message unused by others and its receipt taken by the ledger |
| Lifecycle.EveryEventNamesTheBurnedMessage | packages/transfers/src/index.ts:192-260 | in every run, every attestation, delay, failure and confirmation committed for a transfer names the message of its committed burn, and no other transfer carries it |
| Lifecycle.EventsAreNumberedOnce | packages/transfers/src/index.ts:159-172 | in every run the committed events of a transfer carry different sequence numbers below its next one |
| Lifecycle.EveryEventIsEvidenced | packages/transfers/src/index.ts:107-157 | in every run every committed event carried the evidence its kind and mode ask for |
| TransferReceipts.EveryEventPostsItsReceipt | packages/transfers/src/index.ts:297-383 | a committed new event changes its scenario by exactly one receipt, about the transfer's own reservation, views and amounts, at the present version, from the event's source and each cost's once; an invalidation or a closing posts none |
| Principal.BurnPrincipal | packages/accounting/src/index.ts:699-736 | a burn moves no cash and recognises reservation less receivable as withheld cost |
| Principal.SourceFailedPrincipal | packages/accounting/src/index.ts:681-698 | a failed source credits the reservation less the withheld costs and recognises those |
| Principal.ReceivablePrincipal | packages/accounting/src/index.ts:737-801 | only a settlement credits cash; what the receivable held beyond the credit becomes withheld cost |
| Joint.ReservationAdvances | packages/transfers/src/index.ts:173-175 | the reservation event and its receipt keep lifecycle and ledger in step and debit the amount |
| Joint.SourceFailureAdvances | packages/transfers/src/index.ts:176-181 | a source failure and its receipt keep the two in step and return what was not withheld |
| Joint.BurnAdvances | packages/transfers/src/index.ts:182-191 | a burn and its receipt keep the two in step: pending, with the net receivable in transit |
| Joint.ReceivableAdvances | packages/transfers/src/index.ts:192-260 | attestation, delay, destination failure and confirmation keep the two in step, attempts equal on both sides |
| Joint.NoReceiptAdvances | packages/transfers/src/index.ts:261-276 | an invalidation or closure posts nothing, and lifecycle and ledger are still in step after it |
| Joint.SecondDelayIsRolledBack | packages/storage/src/m5.ts:71-166 | whatever its costs, a delay that passes the lifecycle commits nothing once the receivable is delayed |
| Commits.CommitsExactlyWhenTheLedgerTakesIt | packages/storage/src/m5.ts:71-166 | an event the lifecycle takes commits if and only if its receipt is in order, the ledger holds and can move what the event needs, its costs can be charged and fill the gap within net value, and a burn's message is unused; per event kind, with any costs |
| Rollbacks.CommitsExactlyInEveryRun | packages/storage/src/m5.ts:71-166 | that condition decides every new event of every run over opened portfolios |
| Rollbacks.FreeEventsCommit | packages/accounting/src/index.ts:737-801 | of the cost-free events after a burn that are in order, exactly a second delay, an observation after the ledger's last attempt and an overflowing credit are refused; invalidation and closure never |
| RollbackRuns.SecondDelayIsReached | packages/storage/src/m5.ts:71-166 | create, reserve, burn, delay, delay from an opened portfolio: the last event passes the lifecycle and is rolled back |
| RollbackRuns.SpentObservationIsReached | packages/storage/src/m5.ts:71-166 | create, reserve, burn, observe, fail, observe: the lifecycle has an attempt left, the ledger has none, and the last event is rolled back |
| JointRuns.LifecycleAndLedgerStayInStep | packages/storage/src/m5.ts:71-166 | in every run over transfers with distinct reservations every transfer's state says where its capital is on the ledger, and an invalidated one holds it in at most one place |
| Invalidation.InvalidatedCapitalIsFrozen | packages/transfers/src/index.ts:261-276 | from any state in step, whatever run follows, an invalidated transfer stays invalidated, its reservation and receivable entries stay exactly as they are, and its flow over the run is zero |
| Invalidation.FlowEndsAtInvalidation | packages/storage/src/m5.ts:71-166 | over a run from the start, nothing after the invalidation adds to what the transfer debited, credited or withheld |
| JointRuns.MoneyMovesOnce | packages/storage/src/m5.ts:71-166 | in every run over transfers with distinct reservations each transfer debits its amount at most once, credits exactly its net receivable once it settles and never otherwise before, and debit = credit + withheld cost + what is still held |
| FamilyFlows.MoneyMovesBetweenItsFamilies | packages/storage/src/m5.ts:71-166 | over every run the debit leaves the source view's cash family, the settlement enters the destination view's, a failed source returns to the source family, and a transfer's events move no other family |
| ReservationNames.StepFitsExactly | packages/storage/src/m5.ts:36-166 | from a state of a run where all flows fit, one more step keeps lifecycle, ledger and every flow in step if and only if, should it commit, it neither creates a transfer under a reservation id on the books nor makes a reservation another transfer names |
| ReservationNames.InStepExactlyWhileNamesAreFresh | packages/storage/src/m5.ts:36-166 | in every run from opened portfolios they are in step at every point exactly when every step takes a fresh name in that sense |
| ReservationNames.DistinctRunsAreFresh | packages/storage/src/m5.ts:36-166 | a run that ends with distinct reservation ids per scenario took fresh names all along |
| ReservationNames.FreshNamesMoveMoneyOnce | packages/storage/src/m5.ts:36-166 | while names are fresh each transfer debits at most once, credits its net receivable once it settles, and debit = credit + withheld cost + what is still held |
| SharedReservations.OnePaysOutTheOther | packages/accounting/src/index.ts:681-698 | in every run where one transfer has reserved and another of the same reservation id has not, the other's source failure that is in order commits, pays it the whole reservation against no debit of its own, and leaves neither flow fitting its transfer |
| SharedReservations.SharedReservationIsPaidOut | packages/storage/src/m5.ts:36-166 | create, reserve, create under the same reservation id, fail the second's source, from an opened portfolio: the second's flow is 0 debited and 100 credited, the first's 100 debited with its capital gone, and neither fits |
| ActionTables.ExperimentRepository.Accept | packages/storage/src/m3.ts:626-845 | a known idempotency key is answered with its action or refused for other content; a new request becomes the scenario's active action with a queued job, or nothing changes |
| ActionTables.ExperimentRepository.Claim | packages/storage/src/m3.ts:953-979 | a claim counts an attempt up to the bound and says whether the bound was already reached |
| ActionTables.ExperimentRepository.Save | packages/storage/src/m3.ts:1005-1055 | the first plan is durable; a different one is refused, the same one is no change |
| ActionTables.ExperimentRepository.ApplyOne | packages/storage/src/m3.ts:1068-1133 | a receipt is posted and recorded together, once, and never for a terminal action |
| ActionTables.ExperimentRepository.Complete | packages/storage/src/m3.ts:1135-1211 | completion fixes the status, frees the scenario and finishes the job, unless already terminal |
| ActionTables.ExperimentRepository.Retry | packages/storage/src/m3.ts:1213-1265 | a job goes back to waiting, or at the bound ends its action by what it had applied |
| ActionTables.ExperimentRepository.StopRun | packages/storage/src/operations.ts:165-245 | a recorded stop is answered with its row or refused for another reason; else an experiment stops, recording reason, time and portfolios, only when it is started and no scenario has an active action |
| ActionTables.RunActionWorkerOnce | apps/worker/src/worker.ts:47-135 | an uninterrupted run of the worker's program, with its loop and catch paths, leaves the tables and gives the report that the protocol's steps from the claim to rest give |
| ActionLaws.AcceptedExactly | packages/storage/src/m3.ts:626-845 | under a new key, in every reachable state, a request is accepted if and only if the experiment is started, the scenario known, idle and at the version the request names, the request admitted, its id new and there is an attempt; it is then the one open action with a waiting job |
| ActionLaws.PlansAreMadeAtTheRequestedVersion | packages/storage/src/m3.ts:738-844 | in every reachable state a waiting action's scenario is still at the version its request names, and every plan was made at that version |
| ActionLaws.ClaimedExactly | packages/storage/src/m3.ts:953-979 | a job is handed out if and only if its action is open, and then runs under one more attempt, or as used up |
| ActionLaws.SavedExactly | packages/storage/src/m3.ts:1005-1055 | a plan is taken if and only if its action is open without one or has this one; a first plan records the portfolio it was made on |
| ActionLaws.PostedExactly | packages/storage/src/m3.ts:1068-1133 | a receipt of an action is taken if and only if it is stored already, or the action is open, nothing is stored under its operation id and the ledger takes it; it is then stored together with the new portfolio |
| ActionLaws.StoppedExactly | packages/storage/src/operations.ts:165-245 | a stop is taken if and only if its reason is visible and bounded, and it repeats the recorded one or the experiment runs with no action open |
| ActionEndings.RestIsReached | apps/worker/src/worker.ts:47-135 | a worker left alone comes to rest, within a number of steps its plan bounds |
| ActionEndings.AloneItEndsAsItsPlanPosts | apps/worker/src/worker.ts:47-135 | in every reachable state a claimed action left alone ends, tables and report, as the ledger takes its plan: SUCCEEDED with all of it, PARTIALLY_SUCCEEDED or FAILED on a missing balance after or before the first receipt, EXPIRED only untouched, else waiting, or ended by what it has stored once used up |
| ActionEndings.InterruptionsDoNotMatter | apps/worker/src/worker.ts:47-135 | an action with a plan that is interrupted anywhere and taken up again by any worker ends with the same report and the same row as it would have ended at the first claim |
| ActionEndings.EndsAreTrueExactlyWhenNeverLate | packages/storage/src/m3.ts:1135-1211 | in every run failed and expired actions have posted nothing if and only if no worker ends an action as untouched while receipts are stored for it |
| ActionEndings.LeasesMakeEndsTrue | packages/storage/src/m3.ts:953-979 | while no job is handed out under a worker still at it, every terminal status says what the action stored |
| ActionEndings.ExpiredButPosted | apps/worker/src/worker.ts:75-83 | a run of two workers after which the action is EXPIRED and its receipt is posted |
| ActionProtocol.StoredReceiptsAreAPlanPrefix | packages/storage/src/m3.ts:1005-1265 | under any interleaving, crashes and expired leases, stored receipts are a prefix of the one durable plan, the portfolio is their fold, SUCCEEDED means all of it, PARTIALLY_SUCCEEDED some of it, and a job is finished exactly when its action is terminal |
| ActionProtocol.ActiveIsTheOneOpenAction | packages/storage/src/m3.ts:738-844 | a scenario's active action is exactly its one non-terminal action |
| ActionProtocol.TerminalActionsAreFrozen | packages/storage/src/m3.ts:1104-1113 | no continuation gives a terminal action another effect; plans and receipts only grow |
| ActionProtocol.ClaimsAreBounded | packages/storage/src/m3.ts:953-979 | the attempt counter is the number of non-exhausted claims, so there are at most max_attempts of them |
| ActionProtocol.DistinctPlanIsStoredVerbatim | packages/storage/src/m3.ts:1005-1265 | a plan whose operation ids are distinct is stored verbatim: always a prefix of it, and all of it when the action succeeded |
| ActionProtocol.StopMakesIdle | packages/storage/src/operations.ts:194-206 | a stop leaves every scenario without an active action |
| ActionProtocol.StopIsFinal | packages/storage/src/operations.ts:165-245 | after a stop no action is ever active again and the action path never changes a portfolio |
| ActionProtocol.StopRecordsFinalPortfolios | packages/storage/src/operations.ts:202-225 | the first stop records the portfolios as they stand, and the action path leaves every one of them so in every later state |
| ActionProtocol.RepeatedStopIsAnswered | packages/storage/src/operations.ts:180-194 | in every later state of every run a stop with the recorded reason is answered with the recorded row and changes nothing, and one with another reason is refused |
| ActionProtocol.RepeatedRequestIsAnswered | packages/storage/src/m3.ts:649-664 | in every later state of every run an accepted request is answered with the same action and changes nothing, and other content under its key is refused |
| ActionProtocol.OneActionPerKey | packages/storage/src/m3.ts:649-664 | in every reachable state no two actions share an idempotency key |
| Merkle.NextLevel | packages/commitments/src/index.ts:143-148 | the loop pairs neighbours, an odd last hash with itself |
| Merkle.MerkleRoot | packages/commitments/src/index.ts:150-156 | the loop folds the levels to one root and refuses an empty list |
| Merkle.CreateProof | packages/commitments/src/index.ts:158-193 | the loop lists the siblings on the way up with their sides, or refuses an index out of range |
| Merkle.VerifyProof | packages/commitments/src/index.ts:195-206 | a proof is accepted exactly when its leaf folds through its siblings to its root |
| Merkle.ProofIsAccepted | packages/commitments/src/index.ts:158-206 | every proof made is accepted against the list's root, has as many siblings as the tree is deep, and its sides spell the index in binary |
| Merkle.DepthIsCeilingOfLog | packages/commitments/src/index.ts:158-193 | the depth is the ceiling of the binary logarithm of the leaf count |
| Merkle.EqualRoots | packages/commitments/src/index.ts:143-156 | two lists of leaf hashes have the same root if and only if they fill the same full tree with the same leaves |
| Merkle.RootReadsAsItsLeaves | packages/commitments/src/index.ts:133-156 | a root is the hash tree over its leaves: read from left to right at its depth it gives the leaves in order and then the repeats that fill it up |
| Merkle.EqualCountsFixTheLeaves | packages/commitments/src/index.ts:143-156 | equal roots of equally long lists force equal lists |
| Merkle.RepeatedLastLeaf | packages/commitments/src/index.ts:143-148 | repeating the last of distinct leaves keeps the root exactly at the odd sizes from three on |
| Merkle.AcceptedLeafIsCommitted | packages/commitments/src/index.ts:195-206 | a leaf-domain hash that verifies is in the list at the place its sides spell, and within the list its proof is the one the builder makes |
| AuditLog.AssertAuditContinuity | packages/commitments/src/index.ts:52-66 | the loop accepts exactly the logs numbered from one without gap, each event carrying its predecessor's hash |
| AuditLog.MadeEventContinues | packages/commitments/src/index.ts:68-97 | an event made from the last one of a continuous log continues it |
| AuditLog.HeadFixesLog | packages/commitments/src/index.ts:48-66 | equal hashes of the last events mean equal logs |
| BatchChain.BuildBatch | packages/commitments/src/index.ts:238-299 | the builder's loops check the stretch and produce its leaves, root, hash and one proof per leaf |
| BatchChain.AssertBatchContinuity | packages/commitments/src/index.ts:301-324 | the loop's verdict on a chain, error by error |
| BatchChain.ChainAcceptedExactlyWhenLinked | packages/commitments/src/index.ts:301-324 | a chain is accepted if and only if each batch starts where its predecessor ended, names its hash and stays in its experiment |
| BatchChain.VerifyBatchProofs | packages/commitments/src/index.ts:495-510 | each leaf of a batch must have exactly one proof of its place, count and root that folds up |
| BatchChain.VerifyExport | packages/commitments/src/index.ts:433-510 | the chain part of the export verifier, check by check in the source's order |
| AuditTables.AuditRepository.AppendAuditObject | packages/storage/src/m6.ts:50-106 | an object is audited once; a new one becomes the next event of its experiment |
| AuditTables.AuditRepository.CreateBatch | packages/storage/src/m6.ts:191-276 | a new batch commits the stretch after the last one; a known id is rebuilt and must give the stored hash |
| AuditLaws.AppendedExactly | packages/storage/src/m6.ts:50-106 | in every run an object not audited yet becomes the one next event of its experiment's log, which records type, time, provenance, schema version, content and superseded hash of the input; an object audited before is answered with its event and nothing moves |
| AuditLaws.NextEvent | packages/commitments/src/index.ts:68-97 | an event is made after a continuous log exactly when it takes the next number and the log is of its own experiment |
| AuditLaws.EveryEventIsAnInput | packages/storage/src/m6.ts:50-106 | every event of every run records some appended input |
| AuditLaws.HashFixesBatch | packages/commitments/src/index.ts:212-236 | equal batch hashes mean equal experiment, range, root, predecessor and archived leaves, and those only: the batch id is not committed |
| AuditLaws.BuildsExactly | packages/commitments/src/index.ts:238-299 | a batch is built if and only if there are events, all parsed, of one experiment, numbered without gap and within uint64; it commits exactly them, with one proof each |
| AuditLaws.FaultExactly | packages/commitments/src/index.ts:250-263 | a stretch has no fault exactly when all its events are of the experiment and numbered one after another |
| AuditLaws.CommittedExactly | packages/storage/src/m6.ts:191-276 | in every run a new batch commits if and only if it ends within the log after the last batch, and then commits exactly that stretch |
| AuditRuns.RunIsConsistent | packages/storage/src/m6.ts:50-276 | any run of appends and batch creations keeps every log continuous, every chain linked, every row what the builder makes of its stretch, and no object audited twice |
| AuditRuns.RepeatedBatchIsTheSame | packages/storage/src/m6.ts:206-225 | asking again for a batch gives the stored one exactly when it is that experiment's, and changes nothing |
| ExportLaws.AcceptedExactly | packages/commitments/src/index.ts:433-510 | an export is accepted if and only if its log is continuous, its leaves are those of its events, its batches are linked from the first event to the last, and each is over its own stretch with exactly one leading proof per event and no other filed under it |
| Exports.ExactlyOneBatch | packages/commitments/src/index.ts:301-324 | the batches of a chain cut 1..n into consecutive ranges: each event is in exactly one |
| Exports.BatchIdsAreDistinct | packages/commitments/src/index.ts:462-510 | no two batches of an accepted export share an id, by counting their proofs |
| Exports.OneProofPerEvent | packages/commitments/src/index.ts:462-510 | every event of an accepted export has exactly one proof under its batch, which folds to that batch's root and whose sides lead to its place |
| Exports.RootAndRangeFixTheLeaves | packages/commitments/src/index.ts:462-510 | two batches of accepted exports with the same range and root commit the same leaves over the same events, in the same order |
| Exports.ForeignProofsAreTolerated | packages/commitments/src/index.ts:486-510 | an accepted export with one more proof is accepted if and only if the proof names no batch of the export |
| Exports.EqualHeadsEqualHistories | packages/commitments/src/index.ts:212-236 | two accepted exports have the same head hash if and only if they hold the same batches, events and leaves |
| Exports.BuilderIsAccepted | packages/commitments/src/index.ts:433-510 | whatever was appended and committed, an experiment committed to the end of its log exports something the verifier accepts |
| Keyed.SortAscends | packages/domain/src/index.ts:120-130 | distinct keys are emitted strictly ascending by UTF-16 code units |
| Keyed.SameEntriesSortAlike | packages/domain/src/index.ts:120-130 | the order properties were inserted in does not matter |
| Keyed.BeforeAtFirstDifference | packages/domain/src/index.ts:120-130 | the order is by the first code unit that differs, a prefix first |
| JsonRoundTrip.TextReadsBack | packages/domain/src/index.ts:74-136 | canonical text reads back as the same value with its keys sorted |
| JsonRoundTrip.NormalFormIsTheSameValue | packages/domain/src/index.ts:74-136 | what it reads back as is the same JSON value, with keys still unique |
| JsonRoundTrip.PrintOfNormalForm | packages/domain/src/index.ts:74-136 | printing what was read gives the same text again |
| JsonRoundTrip.SameTextSameValue | packages/domain/src/index.ts:74-136 | two values have the same text if and only if they are the same JSON value up to key order, so the content hash is injective and key-order independent |
| ShortestText.CanonicalIsTheOneShortest | packages/domain/src/index.ts:74-136 | of all texts that read back as the canonical text does, the canonical one is the only shortest |
| ShortestText.EscapesAreShortest | packages/domain/src/index.ts:84-87 | the printed string is the only shortest text that reads back as the string |
| ShortestText.DigitsAreShortest | packages/domain/src/index.ts:89-92 | the printed number is the only shortest text that reads back as the number, leading zeros and minus zero included |
| ShortestText.StringsReadAsJson | packages/market-data/src/index.ts:134-153 | the reader takes the eight two-character escapes of section 7 of RFC 8259 and no raw control character |
| ShortestText.TextsAreJson | packages/domain/src/index.ts:82-135 | the texts of each kind of value, in the words and marks of RFC 8259, without any space |
| PlainValues.AcceptedExactly | packages/domain/src/index.ts:74-136 | a value has a canonical text exactly when all its numbers are strictly within 2^53 and all its strings and keys pair their surrogates |
| JsonGraph.Encoder.Encode | packages/domain/src/index.ts:82-133 | the walk terminates on every finite graph, succeeds exactly on what it should accept, gives the text of the tree and leaves `seen` as it found it |
| JsonGraph.Canonical | packages/domain/src/index.ts:74-135 | a fresh walk from the top value |
| JsonGraph.AcceptsExactlyAcyclicPlain | packages/domain/src/index.ts:82-133 | an object is accepted if and only if no route from it meets an object twice and every object met is plain: shared acyclic objects pass, cycles and invalid values do not |
| JsonGraph.SameTextSameTree | packages/domain/src/index.ts:74-136 | two accepted objects get the same text exactly when they denote the same JSON value, and the text reads back as it |
| Archive.MemoryObjectArchive.PutIfAbsent | packages/market-data/src/index.ts:24-29 | the first bytes under a key stay; other bytes are refused |
| Archive.FirstPutWins | packages/market-data/src/index.ts:24-33 | after any puts a key holds what it held before, else the bytes of the first put under it, else nothing |
| Archive.ArchiveJson | packages/market-data/src/index.ts:92-109 | canonical text is stored as UTF-8 under its own hash |
| Archive.ReadArchivedJson | packages/market-data/src/index.ts:134-153 | a read checks length and hash before parsing |
| Archive.EncodedDecodes | packages/market-data/src/index.ts:97-149 | UTF-8 of a well-paired text decodes to that text |
| Archive.ArchivedComesBack | packages/market-data/src/index.ts:92-153 | archiving succeeds exactly on plain values whose key holds no other bytes, and after any later puts an equivalent value reads back: the same one with its keys sorted |
| Archive.ArchivingStaysContentAddressed | packages/market-data/src/index.ts:92-109 | an archive written only by archiving never meets a collision |
| ArchiveLaws.ReadsExactly | packages/market-data/src/index.ts:134-153 | a read gives a value exactly when the descriptor's key holds bytes of its length and hash that decode and parse, and then that value |
| ArchiveLaws.DescribesItsBytes | packages/market-data/src/index.ts:92-109 | a descriptor names the hash, key, length and time of the bytes it stored, and no other key is touched |
| ArchiveLaws.OnlyTheArchivedValueReads | packages/market-data/src/index.ts:92-153 | whatever bytes a store holds under an archived descriptor, if they read at all they read as the archived value |
| ArchiveLaws.DecodedExactly | packages/market-data/src/index.ts:97-149 | what any text decodes to after encoding: lone surrogates are replaced and a leading byte order mark is dropped |
| ArchiveLaws.BytesAreUtf8 | packages/market-data/src/index.ts:97-100 | stored bytes are the text's UTF-8 by the table of section 3 of RFC 3629, scalar value by scalar value |
| Checkpoint.CheckpointPortfolio | packages/valuation/src/index.ts:91-139 | the loop in position order is the fold of the accruals, and its receipts replay to the same portfolio |
| Checkpoint.AnyInputOrder | packages/valuation/src/index.ts:108-110 | the order the accruals arrive in does not matter |
| Checkpoint.CheckpointMarksEveryPosition | packages/valuation/src/index.ts:91-133 | an accepted fresh checkpoint has one accrual per position, marks each at its new index, advances the version by their number and moves PnL by the total book change |
| CheckpointLaws.CheckpointTakenExactly | packages/valuation/src/index.ts:91-133 | a checkpoint is taken if and only if there is one accrual per open position, each newer than its position with a book in range, the portfolio is open, observation times do not fall in the order of the ids, and PnL and net value stay in range after each accrual |
| CheckpointLaws.CheckpointLeaves | packages/valuation/src/index.ts:107-128 | what it leaves: every position marked by its own accrual, PnL and net value moved by the gains, and one receipt per position in the history, in the order of the ids |
| Drawdown.MaxDrawdown | packages/experiments/src/m7.ts:436-443 | the one-pass running peak gives the one largest fall over all pairs i <= j, initial value included, between 0 and 10000 basis points |
| Drawdown.SnapshotDrawdown | packages/experiments/src/m7.ts:436-443 | the same over the book values of valid snapshots |
| Drawdown.DrawdownReadsOff | packages/experiments/src/m7.ts:436-443 | a drawdown of d says that some later value fell at least d ten-thousandths below an earlier one and none fell d + 1 |
| Drawdown.DrawIsInTenThousandths | packages/experiments/src/m7.ts:436-443 | a fall is counted in ten-thousandths of the peak, rounded down; losing everything is 10000 |
| Drawdown.GlobalBookValue | packages/accounting/src/index.ts:953-962 | the summing loops give the net value, which is never negative |
| Adapters.VaultDepositHandedOut | packages/adapters/src/index.ts:577-646 | past the capture and limit checks a vault deposit is handed out if and only if its rounded-up fee is below the amount |
| Adapters.VaultDepositSmallestAmount | packages/adapters/src/index.ts:577-646 | that is, if and only if amount * (10000 - fee in basis points) reaches 10000 |
| Adapters.OneUnitIsRefused | packages/adapters/src/index.ts:577-646 | one minor unit is refused at any positive fee, everything else being in order |
| Adapters.VaultDepositBooksNetOfFee | packages/adapters/src/index.ts:541-647 | into a fresh position a vault deposit books exactly amount less fee with zero remainder, and the ledger's branch refuses it only for a missing view, too little cash or a used cost id |
| Adapters.FullRedeemGapIsBookLessCash | packages/adapters/src/index.ts:649-766 | a redeem of a whole position is taken if and only if the quoted book value is the ledger's, and withholds exactly book debit less cash |
| Adapters.ChargesTaken | packages/adapters/src/index.ts:78-109 | gas becomes a payable and the gap a recognised cost; cash is untouched |
| AdapterLaws.GasIsOwed | packages/adapters/src/index.ts:74-109 | a gas cost is made exactly when the gas has a positive price in range, and owes that price rounded up |
| AdapterLaws.VaultDepositExactly | packages/adapters/src/index.ts:541-647 | a vault deposit is handed out, or refused with its code, exactly as captures, limits, gas price and fee decide; its receipt books the amount less the fee for the previewed shares |
| AdapterLaws.VaultRedeemExactly | packages/adapters/src/index.ts:649-766 | a vault redeem is handed out exactly when capture, limits, liquidity, book value and gas price allow it; its receipt pays the output less the fee and withholds the rest of the book |
| AdapterLaws.AaveSupplyExactly | packages/adapters/src/index.ts:261-401 | a supply is handed out exactly when the captures match, the reserve takes it and the gas it needs has a price: the deposit at par, after an approval when the allowance is short |
| AdapterLaws.AaveAccrueExactly | packages/adapters/src/index.ts:403-451 | an accrual is handed out exactly when the index did not move backward |
| AdapterLaws.AaveWithdrawExactly | packages/adapters/src/index.ts:453-529 | a withdrawal is handed out exactly when the capture matches, the reserve can pay and the gas has a price; it pays the whole book value |
| AaveAcceptance.ApprovalTaken | packages/accounting/src/index.ts:531-558 | an approval carrying gas is taken if and only if the ledger's own allowance is absent, or smaller between the same parties, the asset is known and the gas is new and within net value |
| AaveAcceptance.DepositTaken | packages/accounting/src/index.ts:559-611 | a deposit at par that opens a position is taken if and only if the view is known, its cash covers the amount and the gas is new and within net value |
| AaveAcceptance.AccrualTaken | packages/accounting/src/index.ts:802-826 | an accrual is taken if and only if the position exists, the observation is newer, book and PnL stay in range and the portfolio stays solvent |
| AaveAcceptance.WithdrawalTaken | packages/accounting/src/index.ts:612-651 | a withdrawal of a whole position is taken if and only if it pays the ledger's own book through a view of its network and asset, cash stays in range and the gas is new and within net value |
| AaveTrip.SupplyTaken | packages/adapters/src/index.ts:261-401 | the supply the adapter hands out, with its approval when the allowance is short, is taken if and only if view, cash, gas and allowance allow it, all read off the portfolio before the first receipt |
| AaveTrip.SecondSupplyTaken | packages/adapters/src/index.ts:261-401 | a later supply under the allowance an earlier one left is taken if and only if view, cash and gas allow it and, where its caller states a smaller allowance than the amount, the amount exceeds the one already approved for the same asset |
| AaveTrip.RoundTripReturnsIndexedAmount | packages/adapters/src/index.ts:261-529 | after an accepted supply and accrual to i1/i0 an accepted full withdrawal, whatever book value it quoted, pays floor(amount * i1 / i0), closes the position and moves PnL by the difference, with gas only as payables |
| AaveTrip.WholeTripTaken | packages/adapters/src/index.ts:261-529 | supply, accrual to i1/i0 and full withdrawal are all taken if and only if the supply can be, the observation is newer, the withdrawal quotes floor(amount * i1 / i0), figures stay in range and the gas is within net value plus the gain; then they pay back exactly that |
| AaveExample.HundredComesBackAsHundredAndFifty | packages/adapters/src/index.ts:261-529 | an opened portfolio and adapter inputs that meet every condition: 100 supplied at index 2 and withdrawn at index 3 come back as 150, with PnL 50 |
| AaveExample.SecondApprovalIsRefused | packages/experiments/src/index.ts:63-74 | on an opened portfolio, after an accepted supply of 40, one of 30 under the same allowance with a stated allowance of 0 is handed out as approval and deposit and refused, and with the stated allowance of 40 it is handed out alone and taken |

## Left out

- PostgreSQL, HTTP, RPC clients and the user interface: each repository method is kept as one atomic step on its tables.
- keccak, ABI bytes and signatures: hashes are free terms, and the signature, policy, quota and allocation checks of acceptAction are one yes or no.
- zod messages and date parsing: field ranges are predicates, timestamps integers; ids are any strings.
- valuePortfolio, evaluation, eligibility, manifests and scenario checkpoints beyond the fold of accruals: case tables and flat checks.
- Incidents, heartbeats, sessions and execution audit entries written beside the modelled rows.
- validateRoute, relayerCost, gasCostUsdcMinor and normalizeArcBalance: single-expression checks of one transfer's inputs.
- Ledger payables whose id differs from their cost id: the ledger never creates one, so payables are keyed by the cost id.
- JointRuns.MoneyMovesOnce: transfers enter the store as createTransfer makes them, and their reservation ids are distinct within a scenario, which the source does not check; ReservationNames gives the exact condition and SharedReservations a run that breaks it.
- AaveTrip.WholeTripTaken: speaks of the three calls one after the other on a position of their own; receipts of other operations between them are covered by the three conditions one by one.
- JointRuns.LifecycleAndLedgerStayInStep: other writers of a scenario post anything but reservation and transfer receipts; the transfer job rows and their claims are not modelled.
- Lifetimes.TransferReceiptsAreBounded: like BoundedFromBurnOn and BoundedInEveryHistory, speaks of runs without a new burn of the same transfer id, which the ledger alone would allow after settlement.
- ActionProtocol.StoredReceiptsAreAPlanPrefix: checkpoints and transfers write a scenario only while it has no active action; which plan a worker makes, which job is due and when a lease expires are left open. That FAILED and EXPIRED mean nothing was applied holds only while no action is ended late, as ActionEndings says.
- ActionTables.ExperimentRepository.StopRun: the tables are those of one experiment, so an unknown experiment id is not modelled; the incident written beside the stop is left out.
- ActionEndings.AloneItEndsAsItsPlanPosts: the planner's own permanent codes are one yes or no, and reason codes and incidents are left out.
- ActionTables.RunActionWorkerOnce: is handed the job that is due instead of selecting it by time; the hooks between steps are the interleavings of ActionProtocol.
- BatchChain.VerifyExport: the object inventory, engine versions, registry receipts and the selected result are not modelled; a batch's publication status, network and block are not part of its hash and are left out.
- Exports.OneProofPerEvent: an accepted last leaf of an odd level may carry a proof through its own copy, so the siblings are not claimed to be the builder's.
- AuditTables.AuditRepository.CreateBatch: the unique indexes on hashes and ranges are not modelled; the advisory locks are what makes each method one step.
- Archive.ReadArchivedJson: bytes that are not UTF-8 are refused, where the source would decode them with replacement characters; JSON.parse is modelled on compact texts of integers, strings, arrays and objects. File and S3 archives are left out.
- ShortestText.CanonicalIsTheOneShortest: speaks of the modelled reader, which takes compact texts with lower-case hexadecimal escapes only; with upper-case ones JSON.parse would read a second text of the same length for a control character.
- JsonGraph.Encoder.Encode: prototypes, accessors, symbol keys and holes are one irregular kind of object, and values outside JSON one unsupported kind.
- Checkpoint.CheckpointPortfolio: localeCompare is a fixed total order given by a sort key per id, and the hashed operation id an injective naming; the valuation attached afterwards is left out.
- CheckpointLaws.CheckpointTakenExactly: like CheckpointMarksEveryPosition, speaks of operations new to the portfolio's history.
- Checkpoint.CheckpointMarksEveryPosition: the checkpoint's operations are new to the portfolio's history, as a new checkpoint id makes them.
- Observation loading, freshness and provenance checks, approvals outside supply, and the swap and quote selection; the swap's gap is charged the same way.
