# Poker API: models and proofs

The poker API moves chips and keeps per-player records in a key-value store whose
writes are conditional, and in a wallet that remembers idempotency keys. Its promises
(chips are conserved, nobody plays without paying the entry fee, a hand is counted
once, ranks agree) hold only over whole runs, with calls that interleave, crash between
steps, lose replies and are retried. This project models those protocols and states
and proves the promises over every run, together with the loop algorithms beside them.

Check it with `dafny verify dfyconfig.toml`.

## How it is built

Each protocol is one module that is a state machine: a `Shared` record of the stores, one
atomic function per store or wallet operation, a program counter per call in progress, and
`Step`/`Run` over a list of actions. An action that is not enabled changes nothing, so *every*
list of actions is a run and a statement about `Run` covers all interleavings, crashes and
lost replies. A reply is `Landed` (took effect and said so), `Refused` (no effect) or `Lost`
(took effect, the caller saw an error). Beside it, a class holds the same stores as mutable
fields, and its methods follow the service's code; their contracts equate the final stores and
the answer with the machine's own steps (`Solo`, `Among`) for the answers the outside gave.

| files | models |
|---|---|
| `ChipMovement`, `ChipConservation`, `ChipService` | sandbox buy-in, cash-out, system removal, reconcile sweep |
| `EntryFee`, `EntryFeeSafety`, `EntryFeeOrigin`, `EntryFeeRecovery`, `EntryFeeService`, `ReservationHistory` | real-money table-entry fee and its reservations |
| `Cosmetics`, `CosmeticsSafety`, `CosmeticsDebits`, `CosmeticsRecovery`, `CosmeticsService` | play-money cosmetic purchase and refund |
| `Streak`, `DailyReward`, `DailyRewardMidnight`, `DailyRewardMoney`, `DailyRewardService` | daily reward trail, claim protocol, calendar |
| `WinRate` | win-rate board kept in step with counters by optimistic retry |
| `Matchup`, `MatchupService` | head-to-head counters with a bounded replay guard |
| `Tiers`, `AchievementProgress`, `AchievementService` | achievement counters, tier crossings, summary |
| `Rank`, `RankService` | two rank algorithms, the sorted-set mirror, the page of best players |
| `TableCleanup`, `TableRefunds` | settling and archiving idle tables, and how much they refund |
| `PokerStats`, `HandItem`, `Exif`, `ChatFilter` | pre-flop metrics, redacted history items, JPEG marker walk, chat mask |
| `Sums`, `Lex`, `Sorting`, `Replies` | sums over maps; byte-wise string order; insertion sort; outcomes of external calls |

## What is assumed

- One conditional write or transaction of the store is atomic; its condition failure is definitive.
- The wallet moves money the first time it sees a key and answers later calls as successes that move nothing.
- Ids that are only compared are numbers; where order or text matters (players in ranks and pair keys) they are strings in byte order. Idempotency keys are built injectively.
- Seat chips change only by the modelled calls and by hands that move chips between two seats of a table, less rake.
- A call that reports failure has taken effect by then or never does.
- A room's mode, tier and fee and a cosmetic's price do not change during a run; days are whole numbers, rates are exact reals.
- The lowercase of chat text works byte by byte, is idempotent and maps only the mask byte to the mask byte (ASCII lowercase is an instance, `AsciiLowerOk`).

## Where the code does not do what one might expect

- A join that commits and reports failure is refunded with the player seated, which mints its amount (`LostJoinMints`, `LostJoinHappens`); nothing else under fresh nonces does (`ChipsConserved`).
- Two buy-ins under one nonce can mint chips (`SharedNonceBreaksTotal`); the total moves exactly as `StepValue` says.
- One entry fee can cover two tables: the table it was bought for still admits the player after the reservation moved (`OneFeeTwoTablesIff`).
- A cosmetic debit can outlive both of its rows (`DebitMayOutliveRows`), exactly when two calls work on one undebited purchase at once (`DebitsKeepRowsIff`); a later purchase under that key uses the debit.
- Of two daily claims that read the streak row around midnight, whichever commits second erases the other (`StaleClaimLosesADay`); claims are counted exactly as long as each commits over the row it read (`EveryClaimCountedIff`).
- A hand redelivered after the guard set dropped it is counted again, and only then (`CountsTwiceIff`, `FourteenCounted`).
- A banned word made of mask bytes only makes the chat mask loop for ever on some message, and nothing else does (`EndsOnEveryMessageIff`).
- A fill byte before a JPEG marker makes the walk misread the marker as a length: what it then answers, and when that is right, is `FillByteAnswer` and `FillByteRightIff`; in a short file it hides everything behind it (`FillByteHidesExif`, `FillByteHidesApp1`).
- A refund paid by a sweep whose archive then failed stands at the old stack (`StaleRefundHappens`, `RefundStands`); it is right exactly when the actions since cancel out (`RefundIsExactIff`). A real-money payout may even differ from its own row (`SettlementIsExactIff`, `PayoutMayDifferFromRow`).

## Model

| member | source | states |
|---|---|---|
| `ChipConservation.ChipsConserved` | api/internal/buyin/service.go:313-349 | For every interleaving of buy-ins with fresh nonces, cash-outs, removals, hands, crashes, lost replies and sweeps: wallets + stacks + in-flight debits + unpaid settlement rows + rake keep one total if and only if no refund posts for a join that committed while reporting failure, and each such refund adds exactly its amount |
| `ChipConservation.NoLostJoinConserves` | api/internal/buyin/service.go:313-349 | So the total is kept by every run with fresh nonces in which no join commits and reports failure |
| `ChipConservation.LostJoinMints` | api/internal/buyin/service.go:315-349 | And in any such run, a join that commits and reports failure, followed by the refund the call goes on to, adds its amount |
| `ChipConservation.LostJoinHappens` | api/internal/buyin/service.go:315-349 | The shortest run that does so, for any key and positive amount: one buy-in under a fresh nonce, checked, debited, seated without being told, and refunded |
| `ChipConservation.StepValue` | api/internal/buyin/service.go:313-349 | The exact law of one step: the total moves only when a join or a refund hands out an amount other than the debit it answers, and by exactly that difference |
| `ChipConservation.RunValue` | api/internal/buyin/service.go:313-349 | Over any run, reused nonces included, the total changes by exactly the sum of those differences |
| `ChipConservation.SharedNonceBreaksTotal` | api/internal/buyin/service.go:313-349 | Why nonces must be fresh: a concrete run of two buy-ins under one nonce in which the loser of the join refunds the debit that paid for the winner, and 100 chips appear |
| `ChipConservation.SettlementSafety` | api/internal/buyin/service.go:892-972 | Over every run: a settlement key is credited with its own row's player and amount, and a row that owes chips is resolved only after its credit is in the ledger |
| `ChipConservation.SettlementStable` | api/internal/buyin/service.go:892-972 | A settlement credit and a row's recorded amount never change again, so each key is credited at most once |
| `ChipConservation.SweepSettles` | api/cmd/reconcile/main.go:55-121 | An undisturbed sweep whose calls succeed leaves every listed row that owes chips credited and resolved |
| `ChipConservation.FailedEntryIsCounted` | api/cmd/reconcile/main.go:55-121 | A row that could not be credited has its attempt counted, leaves the sweeps at the limit, and does not stop the rest |
| `ChipConservation.RunKeepsInv` | api/internal/buyin/service.go:209-401 | The machine's invariant (ledger entries match rows, resolved rows are paid, calls in progress hold what they rely on) survives every run |
| `ChipConservation.OwnAdvance` | api/internal/buyin/service.go:313-349 | A live buy-in owns its key: nothing moved under it yet, or exactly its own debit is there, unrefunded and in flight until its join commits; it mints only by refunding a committed join |
| `ChipConservation.NoDebitLeftBehind` | api/internal/buyin/service.go:313-349 | Over every fresh run in which nothing crashes, no debit reply is lost and every refund applies: once no buy-in is in progress no debit is in flight, so every debit ended in a seat or a refund |
| `ChipConservation.Stranded` | api/internal/buyin/service.go:313-349 | And the condition is needed: each of those steps leaves a debit in flight that no call answers for, unless its player was already seated |
| `ChipMovement.SoloIsRun` | api/internal/buyin/service.go:209-401 | One call alone, with the outside's replies in order, is a run of the machine, so what holds of every run holds of each service call |
| `ChipService.Service.BuyIn` | api/internal/buyin/service.go:209-401 | Amount checks, seat check, capacity, debit, join, refund: success exactly when the join landed or chips were in front already; under a key new to the ledger the debit is all that moved, or the debit and a refund of the same amount whenever the join did not land and the refund applied; nothing moves before the debit; stores and answer are the machine's |
| `ChipService.Service.Settle` | api/internal/buyin/service.go:892-972 | Success exactly when record, credit (none for an empty stack) and resolve landed; the recorded row has that player and stack, a new key is credited exactly the stack once recorded, and the row is resolved only after that |
| `ChipService.Service.CashOut` | api/internal/buyin/service.go:759-809 | The seat goes together with a row of its stack, then is settled: which of seat, row, ledger and answer change, and to what, for every reply; a refused or impossible leave changes nothing |
| `ChipService.Service.SettleSystemRemoval` | api/internal/buyin/service.go:877-884 | The follow-up of a committed removal is the same settlement under the system key |
| `ChipService.Tables.Join` | api/internal/buyin/service.go:313-349 | A join takes a free or busted seat only, and records its key, whether or not its reply arrives |
| `ChipService.Tables.LeaveSeat` | api/internal/buyin/service.go:759-809 | Seat removal and row creation happen together or not at all |
| `ChipService.PendingStore.Record` | api/internal/reconcile/pending.go:104-116 | A settlement row is created once; a second Record is a success that writes nothing |
| `ChipService.PendingStore.RecordFailedAttempt` | api/internal/reconcile/pending.go:157-186 | The attempt counter is the one read plus one, and the fifth failure takes the row out of the sweep |
| `ChipService.PendingStore.ListUnresolved` | api/internal/reconcile/pending.go:265-297 | The sweep lists exactly the open, unresolved rows of the given keys |
| `ChipService.Wallet.Move` | api/internal/buyin/service.go:520-523 | The wallet moves money the first time it sees a key and never again; a zero credit is refused |
| `ChipService.ReconcileEntry` | api/cmd/reconcile/main.go:55-121 | One entry: credited its own amount once, then resolved, or else its attempt counted and closed at the fifth; it needs attention exactly if the bookkeeping did not land or that attempt was the fifth |
| `ChipService.Reconcile` | api/cmd/reconcile/main.go:55-121 | The loop over entries is the machine's sweep and aggregates exactly the entries that need attention; a failed entry never stops the next |
| `EntryFeeSafety.NoUnpaidAdmission` | api/internal/buyin/service.go:408-450 | Under any interleaving of buy-ins, lost claim races, failed debits, crashes and sweeps, whoever is admitted has in the ledger the fee of a reservation of theirs, in the room's tier, that was unexpired when read |
| `EntryFeeSafety.ChargedOnce` | api/internal/buyin/service.go:489-542 | A fee key is charged once, at its reservation's own amount, and a fee row is resolved only after its charge |
| `EntryFeeSafety.RunKeepsInv` | api/internal/buyin/service.go:408-596 | The reservation invariant (every fee row and charge belongs to a reservation once held; every call in progress holds what it read) survives every run |
| `EntryFeeOrigin.LoserIsCoveredIff` | api/internal/buyin/service.go:551-596 | The loser of a claim is covered by the unexpired reservation bought at this table wherever it is bound, so by one bound elsewhere exactly when that one is |
| `EntryFeeOrigin.OneFeeTwoTablesIff` | api/internal/buyin/service.go:408-596 | Undisturbed, with any page that lists the paid reservation bought here and moved elsewhere: the call admits on it while it stays bound elsewhere, one fee covering two tables, iff no reservation on the page is for this table and the other tables are not known to be gone; then it writes nothing |
| `EntryFeeOrigin.MovedAfterPaying` | api/internal/buyin/service.go:408-596 | From an empty store, for any two tables of one tier and any fee, a run that pays at one and moves the reservation to the other |
| `EntryFee.SoloIsRun` | api/internal/buyin/service.go:408-596 | One entitlement resolution alone is a run of the machine |
| `EntryFeeService.EntitlementStore.ClaimRow` | api/internal/entitlement/store.go:65-92 | A claim lands only on a missing or expired row; the row and the answer for every reply |
| `EntryFeeService.EntitlementStore.RebindRow` | api/internal/entitlement/store.go:135-156 | A rebind is a compare-and-swap on an unexpired row still bound where the caller saw it; otherwise nothing changes |
| `EntryFeeService.EntitlementStore.ActiveFor` | api/internal/entitlement/store.go:97-115 | Exactly the player's unexpired reservations among the rows the page returned |
| `EntryFeeService.FindMatch` | api/internal/buyin/service.go:408-450 | The first reservation in the room's tier that is bound to the room, or none if there is none |
| `EntryFeeService.Service.PayEntryFee` | api/internal/buyin/service.go:524-542 | Record, charge, resolve; success means the fee key is in the ledger even if the resolve failed |
| `EntryFeeService.Service.ConfirmFeeCharged` | api/internal/buyin/service.go:502-518 | Only a resolved fee row counts as paid; anything else completes the same charge |
| `EntryFeeService.Service.ChargeEntryFee` | api/internal/buyin/service.go:551-581 | Claims before charging; the loser of a claim confirms the winner's fee |
| `EntryFeeService.Service.ConfirmWinner` | api/internal/buyin/service.go:585-596 | The loser re-reads the reservation that won, whose expiry keys the charge |
| `EntryFeeService.Service.TryCandidate` | api/internal/buyin/service.go:408-450 | A rebind candidate is skipped, lost to somebody else, or moved here |
| `EntryFeeService.Service.RebindOrCharge` | api/internal/buyin/service.go:408-450 | The loop over candidates, early exits and the fresh charge at its end are the machine's scan |
| `EntryFeeService.Service.ResolveEntitlement` | api/internal/buyin/service.go:408-450 | The whole resolution, for any answers from outside, is the machine's, so admission implies the fee is paid |
| `EntryFeeRecovery.UnpaidIsCompleted` | api/internal/buyin/service.go:502-542 | A fee interrupted before its record, charge or resolve is completed by the next undisturbed buy-in: charged once under the same key, row resolved, player admitted |
| `EntryFeeRecovery.PaidIsAdmitted` | api/internal/buyin/service.go:502-518 | A fee already paid admits and writes nothing |
| `EntryFeeRecovery.FailsOnlyUnanswered` | api/internal/buyin/service.go:408-596 | A resolution fails only on an answer it did not get, or when the reservation that beat its claim is gone again; never over the final resolve or a skipped candidate |
| `EntryFeeRecovery.UnheardWriteStops` | api/internal/buyin/service.go:408-596 | It passes a record, charge, claim or rebind only on hearing that it landed |
| `EntryFeeRecovery.SweepSettlesFees` | api/cmd/reconcile/main.go:55-121 | An undisturbed sweep leaves every fee it listed charged and resolved, and undoes none |
| `EntryFeeRecovery.FailedFeeIsCounted` | api/cmd/reconcile/main.go:55-121 | A fee that could not be charged has its attempt counted, leaves the sweeps at the limit, and does not stop the rest |
| `ReservationHistory.WindowsDisjoint` | api/internal/entitlement/store.go:65-92 | If every claim computed its expiry and checked its condition at one clock reading, reservation windows at one (player, table) never overlap |
| `ReservationHistory.FeesBounded` | api/internal/entitlement/store.go:65-92 | Under the same one-clock-reading condition a span T sees at most floor(T/Window)+1 distinct fee keys at one (player, table) |
| `ReservationHistory.RebindsChain` | api/internal/entitlement/store.go:117-156 | Successful rebinds within a window chain: each expected table is what the previous one left |
| `ReservationHistory.SameObservationWinsOnce` | api/internal/entitlement/store.go:117-156 | Two callers with one observation never both win within a window unless a rebind in between returned the binding to it |
| `CosmeticsSafety.OwnershipIsPaid` | api/internal/cosmeticpurchase/service.go:392-571 | Over every interleaving: an active item is confirmed, debited and not credited back; a pending one is processing; a credit means refunding or refunded and returns exactly the debit; refunded means credited |
| `CosmeticsSafety.RefundIsFinal` | api/internal/cosmeticpurchase/service.go:476-571 | Once its refund has begun a purchase is never owned again, however often its key is replayed |
| `CosmeticsSafety.RunKeepsInv` | api/internal/cosmeticpurchase/store.go:199-276 | History row and ownership row tell one story (processing iff pending, confirmed iff active) in every reachable state |
| `CosmeticsSafety.RowLostOnlyByCancel` | api/internal/cosmeticpurchase/store.go:259-276 | A history row disappears only by a cancellation after the wallet's definitive refusal |
| `CosmeticsSafety.FreshPurchase` | api/internal/cosmeticpurchase/service.go:392-454 | A purchase of a free item by a paying player ends owned, confirmed and debited once, also when the debit outlived earlier rows |
| `CosmeticsSafety.FreshRefund` | api/internal/cosmeticpurchase/service.go:476-571 | A refund of an owned, idle item ends with ownership closed, the price credited once and the row refunded |
| `CosmeticsSafety.InUseIsKept` | api/internal/cosmeticpurchase/service.go:476-571 | An item in use is not refunded and nothing changes |
| `CosmeticsSafety.DebitMayOutliveRows` | api/internal/cosmeticpurchase/service.go:628-679 | Such a loss from the empty start: a refresh debits a purchase that its refused creator then cancels; the exact condition is CosmeticsDebits |
| `CosmeticsDebits.OrphanedIff` | api/internal/cosmeticpurchase/store.go:259-276 | One step makes a debit outlive its history row exactly if it cancels a debited pending purchase, or lands a debit where the row is already gone |
| `CosmeticsDebits.AlwaysKeptIff` | api/internal/cosmeticpurchase/service.go:392-679 | A run keeps a purchase's row under its debit at every moment if and only if it takes neither of those steps |
| `CosmeticsDebits.OneCallAtATimeKeepsDebits` | api/internal/cosmeticpurchase/service.go:392-679 | If no create, resume or refresh goes on to a purchase's undebited debit while another call is between that debit and its outcome, every debit keeps its row, in every run from the start |
| `CosmeticsDebits.OverlapCanLose` | api/internal/cosmeticpurchase/service.go:628-679 | And the condition is needed: from every reachable overlap there is a continuation in which the debit loses its row |
| `CosmeticsDebits.DebitsKeepRowsIff` | api/internal/cosmeticpurchase/service.go:392-679 | Both halves for every run from the start: safe up to and including any step that does not overlap, losable from any step that does |
| `Cosmetics.SoloIsRun` | api/internal/cosmeticpurchase/service.go:392-679 | One service call alone is a run of the machine |
| `CosmeticsService.Rows.CreateSandboxReservation` | api/internal/cosmeticpurchase/store.go:199-217 | Both rows are created, or neither; the condition and the rows for every reply |
| `CosmeticsService.Rows.ConfirmSandbox` | api/internal/cosmeticpurchase/store.go:222-254 | Processing and pending become confirmed and active together |
| `CosmeticsService.Rows.CancelSandboxReservation` | api/internal/cosmeticpurchase/store.go:259-276 | Both rows of a processing purchase go together, or nothing changes |
| `CosmeticsService.Rows.BeginRefundRows` | api/internal/cosmeticpurchase/store.go:513-538 | Ownership is closed and the row marked refunding together, only for a confirmed purchase that owns the item |
| `CosmeticsService.Rows.CompleteRefundRow` | api/internal/cosmeticpurchase/store.go:540-560 | Only a refunding row becomes refunded |
| `CosmeticsService.Rows.PutGrant` | api/internal/cosmeticpurchase/service.go:603-623 | A grant is create-only; a repeat that finds the item active succeeds and writes nothing, for every reply |
| `CosmeticsService.Wallet.DebitOnce` | api/internal/cosmeticpurchase/service.go:392-454 | A debit lands once per key; only an unknown key can be refused for good |
| `CosmeticsService.Service.CreateSandbox` | api/internal/cosmeticpurchase/service.go:392-454 | Reserve, debit, confirm, cancel and resume, over the mutable rows, are the machine's steps for the given answers |
| `CosmeticsService.Service.Resume` | api/internal/cosmeticpurchase/service.go:392-454 | An occupied slot is answered, resumed under the key it was reserved with, or refused |
| `CosmeticsService.Service.Refund` | api/internal/cosmeticpurchase/service.go:476-571 | A refund under way whose answers land is credited the price once, marked refunded and answered as done; so is one of an owned, idle item, with ownership closed first; steps are the machine's for any answers |
| `CosmeticsService.Service.CreditAndComplete` | api/internal/cosmeticpurchase/service.go:476-571 | A refund reported done is credited and its row refunded |
| `CosmeticsService.Service.Refresh` | api/internal/cosmeticpurchase/service.go:628-679 | Only an interrupted debit is resumed; any other row is just reported |
| `CosmeticsRecovery.RefundResumes` | api/internal/cosmeticpurchase/service.go:539-571 | From every state with the row refunding, an undisturbed refund ends refunded, with exactly one credit of the price, and answers done |
| `CosmeticsRecovery.RetryCompletes` | api/internal/cosmeticpurchase/service.go:476-571 | From any stage of a refund (not begun, under way, done) one undisturbed call ends refunded with exactly the price credited |
| `CosmeticsRecovery.CutOffRefundIsCompleted` | api/internal/cosmeticpurchase/service.go:476-571 | In any state a run can reach: a refund cut off after any number of steps, whatever it was answered, is completed by one undisturbed retry |
| `CosmeticsRecovery.UnheardCloseGoesOn` | api/internal/cosmeticpurchase/service.go:476-571 | A close of ownership that landed without saying so is found by the re-read and goes on to the credit |
| `CosmeticsRecovery.OvertakenRefund` | api/internal/cosmeticpurchase/service.go:476-571 | A refund finished by another call meanwhile is answered as done with no second credit, from whichever step it had reached |
| `CosmeticsRecovery.OvertakenClose` | api/internal/cosmeticpurchase/service.go:476-571 | One whose ownership another call closed joins in at the credit |
| `CosmeticsRecovery.CreateResumes` | api/internal/cosmeticpurchase/service.go:392-454 | A purchase interrupted between reservation and confirmation is finished, debited once, by a create under its own or any other key |
| `CosmeticsRecovery.RefreshResumes` | api/internal/cosmeticpurchase/service.go:628-679 | And by a refresh |
| `CosmeticsRecovery.OwnedIsAnswered` | api/internal/cosmeticpurchase/service.go:392-454 | A create for an item already bought writes nothing; its own key is answered as owned, any other refused |
| `CosmeticsRecovery.RejectedLeavesNothing` | api/internal/cosmeticpurchase/service.go:392-454 | A player the wallet rejects is left exactly as before, reservation included |
| `CosmeticsRecovery.ConfirmAnswers` | api/internal/cosmeticpurchase/store.go:222-254 | A confirm answers owned exactly while its purchase holds the slot, first or overtaken by another call, and writes nothing in the latter case |
| `CosmeticsRecovery.NothingUnheardIsReported` | api/internal/cosmeticpurchase/service.go:392-679 | No call reports an outcome on an answer it did not get |
| `Streak.StreakMeaning` | api/internal/dailyreward/streak.go:72-95 | A stored streak of k over increasing claim days: the last k claims are one or two days apart, the streak began after a gap no protection covered, and skipped days are at most the protection it started with plus one per seven days |
| `Streak.MissedBound` | api/internal/dailyreward/streak.go:72-95 | So a streak of k skipped at most 1 + floor((k-1)/7) days |
| `Streak.ProtectionMeaning` | api/internal/dailyreward/streak.go:72-95 | A player holds the protection exactly if some claim earned it and no claim since used it up; an unused one is kept to the next claim |
| `Streak.BestIsRunningMax` | api/internal/dailyreward/streak.go:72-95 | BestStreak is the largest streak there ever was, and was attained |
| `Streak.ClaimsCount` | api/internal/dailyreward/streak.go:72-95 | 1 <= CurrentStreak <= BestStreak <= TotalClaims = number of claims, and LastClaimDay is the last of them |
| `Streak.AdvanceRecord` | api/internal/dailyreward/streak.go:72-95 | The field-by-field update is the advance function the runs are folded with |
| `Streak.CycleDayFor` | api/internal/dailyreward/streak.go:45-50 | The trail position is in 1..30 and congruent to the streak |
| `Streak.AnyCyclePaid` | api/internal/dailyreward/streak.go:25-53 | Any thirty consecutive days of a streak pay 2,925,000, wherever they start |
| `DailyRewardService.MilestonePaysMore` | api/internal/dailyreward/streak.go:36-42 | A day is a milestone exactly when it pays more than the day after it, as the comment on milestone days promises |
| `DailyReward.SpinSafety` | api/internal/dailyreward/service.go:84-133 | In every run in which no Spin is in flight at midnight, however many Spins run, crash or are retried: the streak row has counted every claimed day exactly once, a day is credited at most once and only with the award of the claim that committed, and whoever was told paid was paid |
| `DailyRewardMoney.MoneyIsSafe` | api/internal/dailyreward/service.go:84-133 | The money half in every run, midnights anywhere, of claims that do not outlive their 48-hour day row: no day is claimed twice, a day is credited at most once and only with the award of its claim that committed, paid rows are credited, and whoever was told paid was |
| `DailyRewardMoney.CreditStands` | api/internal/dailyreward/service.go:84-133 | A credit once made never changes, in any run |
| `DailyReward.RunKeeps` | api/internal/dailyreward/store.go:51-105 | Day rows, streak row and credits stay in agreement over every run with quiet midnights, row expiry included |
| `DailyReward.SettledDayPaysNothing` | api/internal/dailyreward/service.go:84-133 | Once any Spin of today has answered, one that starts later is never told paid |
| `DailyRewardMidnight.CommitCountsIff` | api/internal/dailyreward/service.go:84-133 | A commit leaves every committed claim counted by the streak row if and only if the row the claim had read is still the stored one (and has not counted the day already); otherwise the row falls behind |
| `DailyRewardMidnight.EveryClaimCountedIff` | api/internal/dailyreward/store.go:51-79 | Every run, with claims in flight across any midnight: the streak row counts every claim at every moment if and only if every commit had read the current row |
| `DailyRewardMidnight.QuietMidnightsSuffice` | api/internal/dailyreward/service.go:84-133 | No claim in flight at any midnight is enough for that |
| `DailyRewardMidnight.StaleClaimLosesADay` | api/internal/dailyreward/service.go:84-133 | And it is needed: from every consistent state with a claim about to commit at midnight, both commit orders are runs, and whichever claim commits second erases the other |
| `DailyReward.PreviewIsPaid` | api/internal/dailyreward/service.go:154-219 | From every consistent state an undisturbed Spin pays exactly what the calendar's slot of today shows, or nothing if it is settled |
| `DailyRewardService.Service.Claim` | api/internal/dailyreward/store.go:51-79 | Create-only day row with the streak row; a duplicate answers with the stored row and writes nothing |
| `DailyRewardService.Service.Spin` | api/internal/dailyreward/service.go:84-133 | Load, claim, credit, complete over the mutable rows are the machine's steps; a paid Spin credited exactly the previewed amount, and a settled day changes nothing |
| `DailyRewardService.Service.Pay` | api/internal/dailyreward/service.go:84-133 | Credit then complete; every answer and both stores |
| `DailyRewardService.Service.Status` | api/internal/dailyreward/service.go:154-219 | Thirty numbered slots, exactly one Today at the cycle day of the streak the next claim makes, the claimed ones a prefix, lost and at-risk exclusive and exhaustive for a held streak, at-risk and covered streaks really extended by the next claim, covered exactly after one skipped day with a protection held, and today's amount the one the claim pays |
| `DailyRewardService.PreviewFixed` | api/internal/dailyreward/service.go:137-142 | No step of any claim changes what today's slot promises |
| `DailyRewardService.PaidIsPreview` | api/internal/dailyreward/service.go:84-142 | Whatever the replies, a Spin that reports paid credited exactly the previewed amount |
| `Streak.AwardMeaning` | api/internal/dailyreward/service.go:137-142 | The first claim ever pays the welcome award, every later one the trail's amount for its streak |
| `DailyReward.UnheardIsError` | api/internal/dailyreward/service.go:84-133 | A claim reports an outcome only on an answer it got |
| `WinRate.NoOlderRateSurvives` | api/internal/leaderboard/store.go:65-165 | From any row at all: once every call returned without a store error and counters moved at least once, the row is on the board iff hands_played >= 100, and then its score is won/played of the final counters |
| `WinRate.BoardFollowsCounters` | api/internal/leaderboard/store.go:122-165 | With store errors and crashes allowed: the row is in step, or a call that failed is the very one that left the final counters |
| `WinRate.WriteKeeps` | api/internal/leaderboard/store.go:122-165 | Only the conditional write with the current counters pinned may end the last call answering for them, and it leaves the row in step |
| `WinRate.CountersAreSums` | api/internal/leaderboard/store.go:65-96 | Over every run the counters and points are the starting values plus the sums of the increments whose add was applied |
| `WinRate.ScoreIsTrueRate` | api/internal/leaderboard/store.go:65-165 | So once every call returned without a store error, the score is the true rate: starting wins plus those of all increments applied, over the same of hands; and the row is ranked iff those are at least 100 |
| `WinRate.AnswersAreEarned` | api/internal/leaderboard/store.go:122-165 | Success only on an answer received, a failed re-read ends the call, contention is reported only after all attempts |
| `WinRateStore.Store.SyncWinRateRow` | api/internal/leaderboard/store.go:122-165 | The retry loop among other writers: Ok means the row was in step when answered; giving up means five conditional writes were all overtaken; steps are the machine's |
| `WinRateStore.Store.IncrementStats` | api/internal/leaderboard/store.go:65-96 | The counters after the add are those met plus both deltas, and no other write of the call moves them; Ok means the row was in step and the last answer landed |
| `WinRateStore.Store.IncrementAchievementPoints` | api/internal/leaderboard/store.go:182-209 | The points are those met plus the delta and the counters stay; Ok means board membership agrees with the floor, a second write being spent only if it did not |
| `Matchup.CountersAreExact` | api/internal/matchup/store.go:179-212 | When each redelivery comes while fewer than eight newer hands were applied, the counters are the sum over the distinct hands applied, whatever the order, repeats and interleaving |
| `Matchup.CountsTwiceIff` | api/internal/matchup/store.go:179-212 | A hand already counted is counted again exactly when it is delivered while the guard set does not hold it, which takes at least eight newer hands; its delta is then added again |
| `Matchup.FourteenCounted` | api/internal/matchup/store.go:220-255 | A run that does so, for any first hand and delta: thirteen consecutive hands, the prune, the first hand redelivered, and counters of fourteen hands |
| `Matchup.NewestEightGuarded` | api/internal/matchup/store.go:220-255 | In every run the guard set holds every applied hand with fewer than eight newer ones, and nothing never applied |
| `Matchup.GuardStaysSmall` | api/internal/matchup/store.go:220-255 | Once all calls returned with their prunes landed the set has at most twelve members, even when applies and prunes interleaved |
| `Matchup.OrderDoesNotMatter` | api/internal/matchup/store.go:179-212 | Two timely histories that applied the same hands agree on every counter |
| `Matchup.CountersAreSums` | api/internal/matchup/store.go:179-212 | Each counter is the sum of that same counter of the hands applied |
| `Matchup.SuccessIsRecorded` | api/internal/matchup/store.go:161-212 | A call that reported success has its hand among those applied |
| `Matchup.AnswersAreHonest` | api/internal/matchup/store.go:161-240 | A delivery fails only unheard, succeeds only with its hand in the guard set, and never fails for its prune |
| `Matchup.FewAtTheTop` | api/internal/matchup/store.go:247-255 | No more than n members of a set have fewer than n above them, which bounds what a prune leaves |
| `MatchupService.PairKeySymmetric` | api/internal/matchup/store.go:78-84 | The pair's key and id order do not depend on who asks |
| `MatchupService.PairKeyInjective` | api/internal/matchup/store.go:78-84 | Keys are equal exactly for the same mode and unordered pair, for ids without the separator |
| `MatchupService.DeltasFor` | api/internal/matchup/store.go:109-143 | One delta for every pair of seats held by two different known players, and no other |
| `MatchupService.EachPairOnce` | api/internal/matchup/store.go:109-143 | With distinct participants no pair of players gets two deltas in one hand |
| `MatchupService.DeltaMeaning` | api/internal/matchup/store.go:109-143 | Exactly one of low win, high win and tie iff somebody of the pair won; each win is its winner's; one hand each; heads-up each side's chips are that player's own payout minus contribution, else none |
| `MatchupService.StaleHandIDs` | api/internal/matchup/store.go:247-255 | Sorting a clone and cutting it drops exactly the ids with eight or more newer ones, never the one just applied |
| `MatchupService.DeliverKeepsCap` | api/internal/matchup/store.go:179-240 | A delivery with its prune and nobody in between keeps the set within twelve and keeps its own hand |
| `MatchupService.Store.ApplyPair` | api/internal/matchup/store.go:179-212 | The conditional update and its prune, for every reply; other pairs untouched |
| `MatchupService.Store.RecordHand` | api/internal/matchup/store.go:161-171 | Every pair counts the hand once or not at all, a pair that had it is untouched, success means all have it and follows when all updates land, however far earlier attempts got; a hand without an id is ignored |
| `AchievementProgress.ProgressIsExact` | api/internal/achievements/store.go:112-221 | Every run, whoever created the row: a counter never overwritten ends at its start plus what was added, each threshold in between is crossed by exactly one write, and the stars earned plus those at the start are the stars shown |
| `AchievementProgress.CrossedExactlyOnce` | api/internal/achievements/service.go:489-507 | The intervals of the writes tile the range: a threshold is crossed iff it lies in it, and then by one write only |
| `AchievementProgress.StarsAddUp` | api/internal/achievements/summary.go:76-102 | The best of the initial stars and of every write's stars is what the summary shows |
| `AchievementProgress.CounterLaw` | api/internal/achievements/store.go:112-221 | Final count = start + sum of adds |
| `AchievementProgress.CountersAreExact` | api/internal/achievements/store.go:112-221 | Every run and counter, adds and overwrites mixed: the final count is the value of the last committed write that set it plus what was added after it, or start plus all adds if none did |
| `AchievementProgress.LastSetCounts` | api/internal/achievements/store.go:138-170 | That fold over the committed deltas, read at the last write that set the counter |
| `AchievementProgress.AnswersAreHonest` | api/internal/achievements/store.go:55-221 | A call that gets every answer errs only on an invalid delta, is skipped only for a guarded hand, and reports no write it did not hear of |
| `AchievementProgress.HandCountedOnce` | api/internal/app/handpipeline.go:264-292 | However many instances pass the handhook, a hand's deltas reach the counters at most once |
| `AchievementProgress.ReportsAreTrue` | api/internal/achievements/store.go:307-316 | What a call reports is the interval its own write covered; an overwritten counter never looks like a crossing |
| `AchievementProgress.RunKeeps` | api/internal/achievements/store.go:55-221 | Writes chain, claimed hands are unique and calls in progress are consistent, over every run including the create race |
| `AchievementService.HandDeltas.Add` | api/internal/achievements/service.go:467-477 | The maps mean exactly the rules fired so far: an increment of a counter this hand also resets is dropped |
| `AchievementService.HandDeltas.Set` | api/internal/achievements/service.go:479-485 | A reset replaces increments and earlier resets of its counter |
| `AchievementService.HandDeltas.Track` | api/internal/achievements/service.go:456-465 | A player is listed once, at first sight; the empty id never |
| `AchievementService.HandDeltas.DeltaOf` | api/internal/achievements/service.go:444-485 | What is flushed for a player is the net effect of every rule: last reset, else the sum of increments, never both |
| `AchievementService.BumpsCommute` | api/internal/achievements/service.go:444-485 | The order in which increments fire does not matter |
| `AchievementService.Store.ClaimHandCounters` | api/internal/achievements/store.go:55-78 | True only for the first caller; an unclear answer is never a yes; a hand without an id is not gated |
| `AchievementService.Store.ApplyHandProgress` | api/internal/achievements/store.go:112-136 | On the row met (or the older rows if none): every overwritten counter gets its new value, every incremented one grows by its delta, the rest stay; the report is that row and what it was before; undisturbed landing answers always report; steps are the machine's among other writers |
| `AchievementService.Store.SeedAggregate` | api/internal/achievements/store.go:181-221 | Create-only row out of the older rows; the loser of the race updates the winner's row |
| `AchievementService.FlushPlayer` | api/internal/achievements/service.go:489-507 | Announces exactly the tiers that the reported increments crossed |
| `AchievementService.StreakMeaning` | api/internal/achievements/store.go:323-374 | The table streak is the signed length of the run of equal results it ends in, and no longer |
| `AchievementService.TableStreak.Update` | api/internal/achievements/store.go:323-374 | Continuing adds on the same side of zero, a change of side starts at one: the counter is the streak of all results |
| `Tiers.CrossingLaw` | api/internal/achievements/service.go:622-636 | Moving a counter up earns exactly what it crosses: max of stars before and stars crossed is the stars after |
| `Tiers.StarsAtMeaning` | api/internal/achievements/summary.go:76-102 | The stars shown are the largest among the tiers reached, none if none is |
| `Tiers.StarsCrossedMeaning` | api/internal/achievements/service.go:622-636 | The stars announced are the largest among the tiers passed |
| `Tiers.NextTargetMeaning` | api/internal/achievements/summary.go:76-102 | The next target is the nearest threshold ahead; none exactly when every tier is reached |
| `Tiers.StateMeaning` | api/internal/achievements/summary.go:76-102 | Unlocked iff a tier with stars is reached, completed iff every tier is, and the last target is the farthest threshold |
| `Tiers.ShownMeaning` | api/internal/achievements/summary.go:47-74 | A secret is shown exactly once one of its tiers is reached |
| `Tiers.TotalsAddUp` | api/internal/achievements/summary.go:47-74 | The header adds up exactly the states listed under it |
| `Tiers.FirstEntryCounts` | api/internal/achievements/service.go:622-636 | A key's tiers are those of its first catalog entry |
| `Tiers.StateFor` | api/internal/achievements/summary.go:76-102 | One pass computes stars, next and farthest target, unlocked and completed |
| `Tiers.TotalsBounds` | api/internal/achievements/summary.go:47-74 | The header never shows more stars than there are or more unlocked or completed than revealed, and all completed means all stars |
| `Tiers.StatesAreShown` | api/internal/achievements/summary.go:47-74 | An achievement is listed iff it may be shown: a secret below its first tier leaves no trace |
| `Tiers.LastRowWins` | api/internal/achievements/summary.go:47-74 | A key repeated among the rows is read from its last row |
| `Tiers.BuildSummary` | api/internal/achievements/summary.go:47-74 | The two loops compute those totals and states |
| `Tiers.TierCrossed` | api/internal/achievements/service.go:622-636 | The stars crossed of the first catalog entry with the key, nothing for an unknown key |
| `Rank.CountIsIndex` | api/internal/leaderboard/store.go:332-362 | better + tiedBefore + 1 is the 1-based index in any listing ordered by score descending, id ascending |
| `Rank.MirrorAgrees` | api/internal/leaderboard/rankmirror.go:36-50 | The 0-based position in the ascending set of negated scores, plus one, is the counted rank, and the set's size is the total |
| `Rank.RankInRange` | api/internal/leaderboard/store.go:332-362 | Every member's rank is between 1 and the total |
| `Rank.RanksDiffer` | api/internal/leaderboard/store.go:332-362 | No two members share a rank |
| `Rank.EveryRankTaken` | api/internal/leaderboard/store.go:332-362 | Every rank from 1 to the total is somebody's, so ranks are a bijection |
| `Rank.RankFollowsOrder` | api/internal/leaderboard/store.go:332-362 | One member is ahead of another iff its rank is smaller |
| `Rank.CountPages` | api/internal/leaderboard/store.go:404-449 | The page-summed count is that of the concatenated pages up to the 200-page cap, so it does not depend on how they are split |
| `Rank.RankByPages` | api/internal/leaderboard/store.go:332-362 | Three page-summed counts give the exact rank and total |
| `RankService.MirrorOfBoard` | api/internal/leaderboard/rankmirror.go:120-149 | The sorted set built from a board's members mirrors it |
| `RankService.RefreshMirrors` | api/internal/leaderboard/rankmirror.go:36-50 | A mirror wrong at most about the caller is right once the caller's own score is written |
| `RankService.RankMirror.Publish` | api/internal/leaderboard/rankmirror.go:120-149 | The chunked build is all or nothing for readers whichever command fails, and the claim is always released |
| `RankService.RankMirror.RankOf` | api/internal/leaderboard/rankmirror.go:73-98 | Missing board: no answer; otherwise the caller's counted rank and the total on every board the mirror shows but for the caller's own row |
| `RankService.RankMirror.ClaimRebuild` | api/internal/leaderboard/rankmirror.go:104-114 | Only the first caller rebuilds |
| `RankService.LoadBoardMembers` | api/internal/leaderboard/rankmirror.go:157-191 | Every row with an id, in order, up to the page cap |
| `RankService.NamedMembers` | api/internal/leaderboard/rankmirror.go:157-191 | Nobody with an id is dropped or repeated, and nobody without one is kept |
| `RankService.Top` | api/internal/leaderboard/service.go:143-195 | An unknown metric is an error; else the page is in the order the metric's name promises (its own counter or rate, larger first, ties by id), every shown rate is that of the shown counters, a win-rate page has only players with 100 hands, and it is as long as the limit and the eligible rows allow; it is cut from a sorted permutation of all eligible rows |
| `RankService.PageShowsRanks` | api/internal/leaderboard/service.go:176-190 | On a page cut from the whole board a player's place is the rank that counting reports |
| `RankService.StatsService.RecordHand` | api/internal/leaderboard/service.go:92-114 | Success means every distinct known participant got one hand, and a win iff a winner, on both boards, and nobody else moved; after a failed write nobody is counted twice |
| `Exif.DetectsPrintedExif` | api/internal/avatar/service.go:226-253 | For SOI followed by any well-formed segments, standalone markers and stray bytes, then an end marker and anything: the walk says yes iff some APP1 segment starts with the EXIF header |
| `Exif.DetectExif` | api/internal/avatar/service.go:226-253 | For any bytes the offset loop ends, never reads past the end and decides as the walk specified |
| `Exif.ScanFindsOne` | api/internal/avatar/service.go:226-253 | For any bytes a yes is never invented: an APP1 marker with the EXIF header is in the data |
| `Exif.ScanPassesPrint` | api/internal/avatar/service.go:226-253 | Whatever bytes follow well-formed items, the walk says yes for an EXIF item among them and else as for what follows |
| `Exif.FillByteAnswer` | api/internal/avatar/service.go:226-253 | With a fill byte (section B.1.1.2 of ITU-T T.81) after any well-formed items and any bytes behind it, the walk says yes iff an earlier item carries EXIF, or the length misread from the real marker and the byte after it fits and the walk says yes there |
| `Exif.FillByteRightIff` | api/internal/avatar/service.go:226-253 | The same answer compared with the items of the file: it is right if and only if an earlier item carries EXIF, or the misread continuation says yes exactly when a later item does |
| `Exif.FillByteHidesExif` | api/internal/avatar/service.go:226-253 | When the misread length passes the end, only items before the fill byte count, and the answer is wrong exactly if the metadata comes after it |
| `Exif.FillByteHidesApp1` | api/internal/avatar/service.go:226-253 | A fill byte before an APP1 segment hides it, and all behind it, whenever at most 57,600 bytes are left |
| `ChatFilter.WordEndsIff` | api/internal/chatfilter/filter.go:36-50 | Masking a word ends iff it has a byte other than the mask byte or does not occur |
| `ChatFilter.EndsOnEveryMessageIff` | api/internal/chatfilter/filter.go:36-50 | A filter ends on every message iff none of its words consists of mask bytes only |
| `ChatFilter.Filter.Clean` | api/internal/chatfilter/filter.go:36-50 | The nested loops, on message and lowercase at once, whenever they end: the message with a mask byte wherever its lowercase got one |
| `ChatFilter.CleanedIsClean` | api/internal/chatfilter/filter.go:36-50 | Length kept, bytes change only into mask bytes, and no mask-free word is left in the lowercased result |
| `ChatFilter.OnlyWordsMasked` | api/internal/chatfilter/filter.go:36-50 | For mask-free words, a byte is masked only if it was part of a word in the message as it came |
| `ChatFilter.ExtraOnlyAdds` | api/internal/chatfilter/filter.go:23-34 | A personal list on top of the global one masks every byte the global one masks |
| `ChatFilter.Effective` | api/internal/chatfilter/filter.go:23-34 | No global filter: the personal one; no extra words: the global filter itself; else global words, then extra ones |
| `ChatFilter.Filter.constructor` | api/internal/chatfilter/filter.go:7-15 | Keeps the lowercased, trimmed words that are not blank, in order |
| `ChatFilter.NormalizedIsStored` | api/internal/chatfilter/filter.go:7-15 | Normalising a stored word again changes nothing |
| `ChatFilter.NormalizedMembers` | api/internal/chatfilter/filter.go:7-15 | A word is stored exactly if it is the lowercased, trimmed form of a given one and not blank |
| `ChatFilter.TrimTakesSpaces` | api/internal/chatfilter/filter.go:7-15 | Trimming takes off all the white space at both ends and nothing else |
| `TableCleanup.ArchivedMeansSettled` | api/cmd/tablecleanup/main.go:81-223 | Over every interleaving of sweeps, crashes, retries and player actions: an archived table has every positive stack at the archived version in its own mode's ledger or durable rows; other modes are never touched; a room goes only after the archive |
| `TableCleanup.NoRoomNoSettlement` | api/cmd/tablecleanup/main.go:88-103 | A table without a room record is never settled, paid out or archived |
| `TableRefunds.RefundIsExactIff` | api/cmd/tablecleanup/main.go:128-152 | A refund differs from the archived stack by exactly what the actions between the version its sweep read and the archived one did to the player's stack; it is right iff they cancel out |
| `TableRefunds.SettlementIsExactIff` | api/cmd/tablecleanup/main.go:169-207 | At a real-money table the row and the payout each differ from the archived stack by what the actions since their own sweep's reading did, each is right iff those cancel out, and they agree iff those come to the same |
| `TableRefunds.PayoutMayDifferFromRow` | api/cmd/tablecleanup/main.go:169-207 | For any two positive stacks x and y, a run in which the row says x, y is paid under its key, and the table is archived at y |
| `TableRefunds.UntouchedStackIsExact` | api/cmd/tablecleanup/main.go:128-152 | If no action in between changed the player's stack the refund is the archived stack |
| `TableRefunds.QuietTableIsExact` | api/cmd/tablecleanup/main.go:128-152 | If no player acts once sweeping has begun, every refund, row and payout of an archived seat is the archived stack |
| `TableRefunds.StaleRefundHappens` | api/cmd/tablecleanup/main.go:128-152 | For any two positive stacks x and y, a run in which a sweep refunds x, the player acts, and the next sweep archives the table at y with x refunded |
| `TableRefunds.InTimeRun` | api/cmd/tablecleanup/main.go:213-223 | Nothing paid or in progress refers to a version later than the archived one, in every run |
| `TableRefunds.RefundStands` | api/cmd/tablecleanup/main.go:128-152 | A refund is never topped up or changed by a later sweep |
| `TableCleanup.RunKeeps` | api/cmd/tablecleanup/main.go:169-207 | Money moves only in the table's own mode and out of a stack some sweep saw, a resolved row has been paid, and nothing settled is taken back |
| `TableCleanup.Table.RefundSandboxAndArchive` | api/cmd/tablecleanup/main.go:128-152 | Every new refund is exactly a positive stack of that player as read at that version, none that was credited is missing, earlier ones stay; done exactly when all credits and the archive landed and nobody moved on; archiving means every positive seat is in the ledger |
| `TableCleanup.Table.SettleRealMoneyAndArchive` | api/cmd/tablecleanup/main.go:169-207 | Every new row and cash-out is exactly a positive stack of that player as read at that version, none is missing where record and cash landed, a row is resolved where all three did and only when paid; a failed payout does not block the archive, an unrecorded seat does |
| `TableCleanup.Table.ArchiveTableAndRoom` | api/cmd/tablecleanup/main.go:213-223 | The archive compares the version that was settled with the table's own; the room goes only if the archive said so |
| `TableCleanup.Table.Visit` | api/cmd/tablecleanup/main.go:81-121 | Unknown room or mode: nothing happens; a sandbox table gets exactly those refunds, a real-money one exactly those rows and cash-outs, each mode touching only its own ledgers; when everything lands the table is archived |
| `PokerStats.Analyze` | api/internal/pokerstats/stats.go:134-183 | The loop over the log yields, for each participant, exactly the quantified meaning of its metrics over the pre-flop: volunteered, raised, made the second raise, faced a raise |
| `PokerStats.MetricsConsistent` | api/internal/pokerstats/stats.go:134-183 | ThreeBet implies ThreeBetChance and PFR, and PFR implies VPIP |
| `PokerStats.OneThreeBettor` | api/internal/pokerstats/stats.go:134-183 | At most one three-bettor in a hand |
| `PokerStats.LaterStreetsDoNotMatter` | api/internal/pokerstats/stats.go:134-183 | Nothing after the entry that shows the first board card changes a metric |
| `PokerStats.WordsOfTheLog` | api/internal/pokerstats/stats.go:134-183 | Which words are voluntary, a raise or a decision; an old all-in without a betting action is voluntary and no raise |
| `PokerStats.TallyCounts` | api/internal/pokerstats/stats.go:49-92 | Each counter is the number of distinct hands whose metrics show it for the player |
| `PokerStats.Scan` | api/internal/pokerstats/stats.go:142-176 | The scan with its two breaks stops right after the first entry that shows a board card |
| `PokerStats.Store.RecordHand` | api/internal/pokerstats/stats.go:49-92 | Guard and all counters commit together, so a hand delivered again changes nothing and counters are those of the distinct hands |
| `PokerStats.Increments` | api/internal/pokerstats/stats.go:65-82 | Each named participant's counters grow by its own metric, nobody else's move |
| `PokerStats.TallyBounds` | api/internal/pokerstats/stats.go:49-92 | Over any history: three_bet <= chances <= hands = hands played, and three_bet <= pfr <= vpip <= hands |
| `HandItem.HiddenStaysHidden` | api/internal/app/app.go:734-803 | Outcomes that differ only in opponents' unrevealed cards, and in the seed when some hand is unrevealed, give the player identical items |
| `HandItem.RevealedIsShown` | api/internal/app/app.go:734-803 | An opponent is listed with every card that was revealed and whether they won |
| `HandItem.OnlyRevealedCards` | api/internal/app/app.go:734-803 | An opponent's listed card is either revealed or a card back, and a fully hidden hand lists none |
| `HandItem.SeedNeedsEveryHand` | api/internal/app/app.go:734-803 | The server seed appears only if every dealt hand was revealed |
| `HandItem.HandItemFor` | api/internal/app/app.go:734-803 | The loops build the item: tied beats won, the net is payout minus contribution, own cards, blinds, boards and hashes as dealt, the seed whenever every hand was revealed, the player's own proof |

## Left out

- The poker engine, the table actor and the table store's own commit path: their steps appear only as "a hand moves chips", "a join commits" and "the version moved on".
- PIX and real-money cosmetic purchases and the purchase life-cycle decision table.
- Holds, responsible-gambling limits, presence, session logs, display names, alerts and logging around the modelled calls.
- `Store.RankOf`'s fall-back chain and `Service.MyRank`: they only choose between the two rank computations proved equal.
- Rank-mirror rebuilds that outlive their claim; builds are exclusive here, and the key's expiry is not modelled.
- `formatScore` and nine-decimal rounding of rates: scores are exact.
- The queue depth and slot limits of the hand pipeline's dispatcher.
- The individual achievement rules of a hand (card predicates) and the unlock timestamps; the accumulation they feed is modelled.
- Per-key rows still read for players without an aggregate row, and the secret filter of that listing.
- Time-to-live of replay guards beyond 90 days, and of reservation rows beyond their slack.
- Concurrent updates of one table streak; only sequential ones are modelled.
- AchievementService.FlushPlayer: does not fix the order in which tiers are announced (the code sorts the keys), because only which tiers are announced is promised.
- RankService.Top: does not state the stability of the sort, because distinct ids leave no ties.
- DailyRewardService.Service.Status: does not model the seconds left until midnight.
- ChatFilter.Filter.constructor: trims ASCII white space only.
- EntryFeeOrigin.OneFeeTwoTablesIff: one call alone with no time passing, because whoever interferes may move or outlive the reservation it speaks of.
- ReservationHistory.WindowsDisjoint: needs one clock reading per claim, because the code reads the clock once for the expiry and again for the condition.
- ReservationHistory.FeesBounded: needs the same.
- ChipService.Service.BuyIn: does not promise that a failed buy-in leaves the seats alone, because a join can commit and still report failure.
- ChipService.PendingStore.ListUnresolved: takes the ids past their grace period as its input, because the clock is outside the model.
- RankService.RankMirror.Publish: does not model the expiry of the published key.
- HandItem.HandItemFor: keeps a fairness proof as one value, where the code copies it with its positions written as text.
