# Nutmix in Dafny

A model of the Nutmix Cashu mint and proofs about it. Nutmix moves value between three tables (proofs, quotes, blind
signatures) and a lightning backend, with several short database transactions a request.

## How the project is laid out

- `Prelude`, `Totals`, `Modular`, `Text`: small shared parts: sums over maps and sequences, remainders, text.
- `Cashu`, `Store`: entities and tables. `Transactions`: each begin..commit block as a function from tables to tables,
  uint64 wrap-around included. `Database` and `Mint`: the same blocks as methods that change tables and the caller's
  arrays in place, with every statement, COMMIT and rollback able to fail, proved against those functions.
- `World`: the mint as a state machine. One event is one block, one answer of lightning, or a crash; requests on
  different quotes and different swaps interleave freely. `Assumed` holds what the code relies on and does not check.
- `Invariant`, and the proofs that every event keeps it: `Frames`, `Steps`, `MeltSteps`, `Settlement`, `Reserve`, `MintSums`,
  `MintSteps`, `QuoteSteps`, `SwapSteps`, `RotateSteps`, joined in `Ledger`. `Finality`: what no later step undoes.
  `Theorems`: what follows over every run whose swaps name no melt quote. `Issuing`: mint quotes, over every run.
- `NamedQuote`, `TwiceSpent`: why and exactly when a swap must not name a melt quote. `Interrupted`: melts settled between
  two quotes of this mint and then lost. `Overtaken`: a mint quote paid under a request that has read it. `FirstTokens`,
  `FirstMelt` (with `Singles`): runs that meet all assumptions.
- `Acceptance`: which swaps, melts and issuings pass their tests, over the integers. `Vouched`: whatever was consumed had
  passed them. `Requests`: when a request is in flight, and with what.
  `Billing`: what a melt quote asks for, and what lightning takes. `WhoMaySpend`: whose signatures open a lock.
- `Amounts`, `Fees`, `LoopFee`, `Exact`: splitting, change, fees, and when uint64 arithmetic is exact.
- `SpendConditions`, `TagText`: P2PK, HTLC and SIG_ALL; tags to text and back.
- `Signer`, `KeysetId`, `Bdhke`: rotation and keysets, keyset ids and derivation paths, blind signatures and DLEQ.
- `Stats`, `StatsRuns`, `LightningChart`: snapshots, runs of them over tables that change, and charts. `StatsLedger`: which
  rows of the ledger count.

`dafny verify dfyconfig.toml` checks everything.

## What the ledger assumes

`World.Assumed` states these, event by event.

- Y is a unique key of the proofs table and B_ of the stored signatures (part of `Store`, as the insert statements).
- Rollback reports nil only for a transaction that is still open (`World.RollbackTells`). `Mint.ObservedTells` proves it of
  the database object; `SwapSteps.RollbackPromiseNeeded` shows what would happen without it.
- The fee of a payment is at most the fee reserve of its quote.
- When a recheck answers FAILED or UNKNOWN, or a refresh answers FAILED, that payment never settles.
- Requests on one mint quote, and on one melt quote, are serialised.
- Invoices are new when a mint quote is made for them, and quote ids are random: no row names a new one.
- Fewer than 2^20 inputs or outputs a request, quote amounts below 2^62, keyset fees below 2^32.
- A mint quote is reported as settled only when its invoice was paid.

One more condition is in the theorems themselves, as `World.SwapsNameNoQuote`: no input of an accepted swap names a melt
quote of this mint in the `quote` field it was sent with. The code takes this field from the client and does not check it,
and the theorems need it: see the first point below. What is said of mint quotes in `Issuing` holds without it.

The order of a mint quote's states has a condition of its own, `World.NothingOvertaken`: no melt settles a mint quote
internally while a request on that mint quote is in flight. Of the other theorems only `StatsLedger.MintCountsForGood`,
which follows from it, needs it.

## Where the code departs from what one would expect

- A swap saves its inputs with the `quote` field they were sent with, and the refresh of a melt quote takes every row with
  its id for its own. `TwiceSpent.SameProofTwice` is a run that meets every assumption and spends a proof twice this way;
  `NamedQuote.LedgerSurvivesIff` says that naming no melt quote is exactly what an accepted swap has to keep to.
- The balance test of a swap is modular, and exact for given outputs exactly while outputs and fee fit a uint64
  (`Exact.BalanceIsExactIff`); it is exact for amounts of a keyset, which signing enforces later.
- The amount test of issuing likewise (`Exact.IssuanceIsExactIff`); with fewer than 2^20 outputs of keyset amounts it is exact
  (`MintSteps.IssuedExactly`).
- A failed batch statement after the first is not reported; the aborted transaction then refuses to commit
  (`Database.Database.SetProofsState`). The retry loops run inside one transaction and cannot succeed after a failure.
- A request on a mint quote writes the backend's answer into a row that a melt may have paid since; a FAILED makes the paid
  quote UNPAID again (`Overtaken.OrderCanBreak` is such a run, `Issuing.OrderSurvivesIff` the exact condition).
- A row that enters the statistics gets there by its state, while its window is that of the moment it was first seen: a
  quote paid after that window was inserted is in no snapshot (`StatsRuns.LateRowIsLost` is such a run,
  `StatsRuns.RowCountedIff` says exactly which rows are counted).
- Leading inputs with an empty keyset id pass the fee loop unlooked-up (`Fees.FeeLoopIsPerProofIff`). The unit check then
  refuses them, so no request is accepted or refused otherwise for it (`LoopFee.SwapEitherFee`, `MeltEitherFee`,
  `SettlingEitherFee`), given that no keyset has an empty id.
- A locktime of 2^63 or more has always passed (`SpendConditions.TimelockIsExactIff`).
- The joint check of SIG_ALL and the single check differ in exactly three families of conditions
  (`SpendConditions.SigAllAgreesAlwaysIff`), and `SigAllAgreesIff` says on which witnesses (`SigAllRefundWithoutKeys`,
  `SigAllHtlcWithoutKeys`, `SigAllBadKey`; `SigAllIgnoresKeyLimit` for the number of keys). The joint one does not compare kinds (`SpendConditions.RepetitionIgnoresKind`, `MixedKindsPass`).
- `VerifyDLEQ` leaves the caller's scalar negated (`Bdhke.VerifyTwice`); a fresh copy for each call is enough
  (`Bdhke.VerifyWithCopies`).
- Rotation restarts version numbers after the last uint32 (`Signer.RunOfRotations` has the exact condition), and versions from 2^31 on are
  not hardened indices (`KeysetId.PathRoundTrip`).
- A rotation drops the error of reading the old seeds; should the transaction survive it, the new seed is added with version
  0 and nothing is switched off (`Signer.DroppedReadKeepsOneActiveIff`). One whose COMMIT is applied but not acknowledged
  leaves old keysets in memory until the next start (`Signer.StaleSignsIff`, `Signer.LocalSigner.LoadKeysets`).
- A melt that was settled internally and then interrupted keeps its inputs PENDING for good, and its change is never signed:
  only PENDING quotes are recovered (`FirstMelt.MeltCanBeLost` is such a run, `Interrupted.OpenForGoodIff` the exact condition).

## Model

| member | source | states |
|---|---|---|
| `Theorems.Conservation` | internal/mint/melting.go:171-768 | over every run whose swaps name no melt quote, per unit: signed value + what lightning took + PAID mint quotes not yet issued never exceeds lightning value received + value of inputs SPENT or held for a settled or paid melt; what lightning took is the amount it answered when the quote was made and the fee of the payment, for every payment that went through |
| `Theorems.RecordsWhatWasTaken` | internal/mint/melting.go:694-768 | after every such run a melt quote paid over lightning has in its row exactly what lightning took for it: its amount is the answer at quoting, its fee the fee of the payment |
| `Theorems.NoDoubleSpend` | internal/mint/swapping.go:43-62 | over every such run no two committed swaps or melts consume the same Y, and no mint quote is issued twice |
| `Theorems.SpentIffConsumed` | internal/mint/swapping.go:43-127 | over every such run a Y is SPENT exactly when some committed swap or melt consumed it |
| `Theorems.SpentIsFinal` | internal/mint/swapping.go:228-251 | a SPENT row is there and SPENT after every further such run |
| `Theorems.MeltLifecycle` | internal/mint/melting.go:248-692 | after every such run: UNPAID has no rows and no change messages, PENDING has rows, all PENDING, PAID has rows, all PENDING or all SPENT; melted exactly when PAID |
| `Theorems.PaidIsFinal` | internal/mint/melting.go:503-768 | a PAID melt quote stays PAID and melted over every further such run, and none of its rows disappears |
| `Theorems.CrashRecoveryAgrees` | internal/mint/melting.go:265-351 | after every such run that left a PENDING quote with a confirmed payment, recovery from the tables, with the rows in any order, leaves the same proofs, signatures, change messages and quote as the request would have |
| `Theorems.RecoveryNeverWraps` | internal/mint/melting.go:296-300 | after every such run the recovery's unsigned subtraction equals the true, non-negative difference |
| `Vouched.ConsumedWasVerified` | internal/mint/swapping.go:156-183 | over every assumed run, whatever swaps name: every Y that a committed swap or melt consumed was an input of an earlier request whose proofs verified and that passed all its tests over the integers; for a melt, a request of that melt or a swap whose input names its quote |
| `Requests.SwapInFlight` | internal/mint/swapping.go:14-154 | after any event a swap is in flight, and holds what it holds, exactly so: it starts with the acknowledged COMMIT of its reservation, for a sound request with new inputs and outputs, turns to the clean-up when its second block failed and surely did not land, and is over with its last block, an error or a crash |
| `Requests.MeltInFlight` | internal/mint/melting.go:503-768 | a melt, or a refresh of one, likewise: it starts with the acknowledged COMMIT of the reserving block or the read of a PENDING row, goes on with its inputs and outputs one stage further at each answer of lightning, and is over with its last block, an unacknowledged COMMIT or a crash |
| `Requests.MintInFlight` | internal/mint/minting.go:115-373 | a request on a mint quote likewise: it holds the row as it read it or as it last wrote it, starts only for an UNPAID quote or for outputs that pass, and a refresh is over with its one block |
| `Requests.MeltReservedIff` | internal/mint/melting.go:503-568 | the reserving block of a melt can be committed exactly when the quote is neither PENDING nor melted, inputs and outputs are new, and the mint quote for its invoice, if this mint has one, is UNPAID and of the same unit |
| `Billing.SentAsksForBill` | internal/mint/melting.go:55-79 | over every run from a first start, no assumption made: a melt quote that was sent to lightning asks for exactly the amount that lightning answered when it was made, with a reserve of one above lightning's fee |
| `Issuing.MintLifecycle` | internal/mint/minting.go:152-203 | over every run, whatever swaps name: minted says ISSUED, PENDING never occurs, and ISSUED says that exactly an issuing block was committed |
| `Issuing.NoDoubleIssue` | internal/mint/minting.go:205-373 | over every run no mint quote is issued twice |
| `Issuing.MintMovesForward` | internal/mint/minting.go:152-373 | over every further run a mint quote keeps its invoice and its state only moves UNPAID, PAID, ISSUED, as long as no melt pays a mint quote internally while a request on it is in flight |
| `Issuing.OrderSurvivesIff` | internal/mint/minting.go:178-203 | in every reachable state a mint quote keeps that order over every further run exactly when no request in flight holds its row as UNPAID while the row is PAID |
| `Issuing.GoesStaleIff` | internal/mint/melting.go:171-213 | a row gets into that state exactly when a melt settles it internally while a request that has read it is in flight |
| `Overtaken.OrderCanBreak` | internal/mint/minting.go:186-190 | a run from the start, every assumption met: a mint quote is read, paid by a melt of this mint, and written back as UNPAID on the backend's FAILED, while the melt stays PAID |
| `Issuing.IssuedForTheInvoice` | internal/mint/minting.go:308-319 | over every run the outputs signed for a mint quote are worth, over the integers, exactly its invoice |
| `NamedQuote.LedgerSurvivesIff` | internal/mint/swapping.go:14-63 | after an accepted swap with signable outputs: value kept, SPENT means consumed, nothing spent twice and every melt quote's proofs in its state over every further run, exactly when no input of the swap names a melt quote |
| `NamedQuote.BreaksAtOnce` | internal/database/postgresql/main.go:323-338 | an input naming an UNPAID quote, or a PAID one with SPENT inputs, breaks that quote's state as soon as it is saved |
| `NamedQuote.SwapLeavesQuoteAloneIff` | internal/mint/swapping.go:43-62 | reserving a swap leaves the rows of a melt quote alone exactly when no input names that quote in its quote field |
| `TwiceSpent.SameProofTwice` | internal/mint/melting.go:248-388 | a run from the start that meets every assumption, with one input naming a melt quote: the same Y consumed by two swaps, and signatures worth 2 against a consumed proof of 1 |
| `Interrupted.OpenForGoodIff` | internal/mint/melting.go:248-264 | a PAID melt quote with PENDING inputs keeps them PENDING, with no block that spends them or signs its change, over every further run, exactly when the request that settled it is gone, or the change due names a keyset out of use or is signed already |
| `Interrupted.RecoveryReachesIff` | internal/mint/melting.go:248-351 | crash, read the rows, ask lightning, settle: this leaves the tables the request would have left exactly when the quote is still PENDING or the request could not have finished |
| `Ledger.StepKeepsInv` | internal/mint/melting.go:215-768 | every step of every request, of lightning, of a rotation and every crash keeps the whole invariant, for swaps that name no melt quote |
| `Ledger.RunKeepsInv` | internal/mint/melting.go:215-768 | the invariant holds after every run that meets the assumptions and whose swaps name no melt quote |
| `FirstTokens.TokensCanBeIssued` | internal/mint/minting.go:205-373 | the assumptions can be met by a run that ends with an issued quote and a stored signature |
| `FirstMelt.MeltCanRecover` | internal/mint/melting.go:248-692 | and by a run through a swap and a melt that is doubted, rechecked without an answer, and settled by a refresh with its change signed |
| `FirstMelt.MeltCanBeLost` | internal/mint/melting.go:171-213 | and by a run that settles a melt internally and then crashes: PAID, inputs PENDING, and no request left to finish it |
| `Acceptance.SwapAcceptedIff` | internal/mint/swapping.go:156-226 | the tests of a swap accept exactly: inputs and outputs, every keyset known and of one unit, inputs verified and of keyset amounts, and inputs, outputs and rounded-up fee balanced modulo 2^64; for requests of any size |
| `Acceptance.SoundIsPaid` | internal/mint/swapping.go:185-206 | with outputs that can be signed and within the limits that balance is one over the integers, for a swap and its refusal alike |
| `Acceptance.SwapRefusal` | internal/mint/swapping.go:156-226 | each refusal of a swap exactly under its own condition, in the source's order of tests |
| `Acceptance.MeltAcceptedIff` | internal/mint/melting.go:418-501 | within the limits the tests of a melt accept exactly: a quote neither PENDING nor melted, every input and output of a known keyset of the quote's unit, inputs verified and of keyset amounts, and covering amount, reserve and fee over the integers |
| `Acceptance.MeltRefusal` | internal/mint/melting.go:418-501 | each refusal of a melt exactly under its own condition, in the source's order of tests; for requests of any size |
| `Acceptance.IssuanceAcceptedIff` | internal/mint/minting.go:224-319 | the tests of issuing accept exactly: a known quote not issued, new outputs of known keysets of its unit, no two the same, worth the invoice modulo 2^64 |
| `Acceptance.IssuanceRefusal` | internal/mint/minting.go:224-319 | each refusal of issuing exactly under its own condition, in the source's order of tests |
| `Acceptance.SignableIssuanceIff` | internal/mint/minting.go:287-373 | with outputs that can be signed, worth it over the integers |
| `Exact.BalanceIsModular` | internal/mint/swapping.go:185-206 | the balance test passes exactly when the two sides differ by a multiple of 2^64 |
| `Exact.BalanceIsExactIff` | internal/mint/swapping.go:202-206 | for given outputs and fee the test means equality over the integers for every amount paid in, exactly when outputs and fee fit a uint64 together |
| `Exact.HugeOutputsPassTheBalanceTest` | internal/mint/swapping.go:185-226 | one input of 1 with a fee of 1 and two outputs of 2^63 pass the whole validation of a swap |
| `Exact.BalanceOfKeysetAmounts` | internal/mint/swapping.go:185-206 | for fewer than 2^32 inputs and outputs of at most 2^31 and a bounded fee the test means inputs = outputs + fee |
| `Exact.IssuanceIsExactIff` | internal/mint/minting.go:308-319 | for given outputs the amount test of issuing means outputs worth the invoice, for every invoice, exactly when their worth in millisatoshi fits a uint64 |
| `Exact.HugeOutputsPassTheIssuanceTest` | internal/mint/minting.go:287-319 | one output of 2^61 + 1 satoshis passes the checks of issuing for an invoice of one satoshi |
| `Settlement.RecoveryAgrees` | internal/mint/melting.go:265-351 | for the same rows, messages, fee and preimage the SETTLED branch and the direct path leave equal tables, whenever the inputs cover amount and fees |
| `Settlement.NoWrapIff` | internal/mint/melting.go:300-300 | the unsigned subtraction is the true difference exactly when what was spent is at most what was paid in |
| `Settlement.FinalizedTables` | internal/mint/melting.go:694-768 | what the direct path leaves, over the integers: change signatures stored, saved messages gone if any change was due, inputs SPENT, quote PAID with fee and preimage |
| `Settlement.ChangeSigsSum` | internal/mint/melting.go:704-719 | the change that is signed is worth at most what was overpaid |
| `Settlement.SettleKeeps` | internal/mint/melting.go:694-768 | finishing a paid melt, directly or after a crash, keeps the invariant |
| `Reserve.ReservedFunds` | internal/mint/melting.go:418-448 | the check of the inputs means, over the integers, that the reserved rows cover amount, fee reserve and input fee |
| `Reserve.MeltReserveKeeps` | internal/mint/melting.go:503-568 | reserving inputs, with or without internal settlement, keeps the invariant |
| `Reserve.InternalConserved` | internal/mint/melting.go:171-213 | settling between two quotes of this mint conserves value: the melt's inputs cover what the mint now owes |
| `MeltSteps.PayInvoiceKeeps` | internal/mint/melting.go:586-592 | handing the payment to lightning keeps the invariant, whatever lightning does with it |
| `MeltSteps.RecheckKeeps` | internal/mint/melting.go:623-678 | the recheck of a doubtful payment, in all four answers and all endings of COMMIT, keeps the invariant |
| `MeltSteps.RefreshFailedKeeps` | internal/mint/melting.go:352-388 | releasing a failed payment's inputs keeps the invariant |
| `MeltSteps.CrashKeeps` | internal/mint/melting.go:393-410 | losing every request in flight keeps the invariant |
| `SwapSteps.SwapIsAllOrNothing` | internal/mint/swapping.go:84-127 | under every failure of signing, BEGIN, write, COMMIT and rollback: inputs SPENT with all signatures stored, or tables untouched; and the clean-up is asked for only when the block did not land |
| `SwapSteps.RollbackPromiseNeeded` | internal/mint/swapping.go:98-154 | if a rollback reported nil for a block whose COMMIT was applied, the clean-up would delete the SPENT rows of a landed swap while its signatures stay |
| `SwapSteps.SwapGivesNoMore` | internal/mint/swapping.go:185-206 | the signatures of an accepted swap are worth no more than its inputs, in the inputs' unit |
| `SwapSteps.SwapReserveKeeps` | internal/mint/swapping.go:14-63 | reserving a swap keeps the invariant, if an accepted one names no melt quote |
| `SwapSteps.SwapSettleKeeps` | internal/mint/swapping.go:84-127 | settling a swap, however it ends, keeps the invariant |
| `SwapSteps.SwapCleanKeeps` | internal/mint/swapping.go:129-154 | deleting a failed swap's pending inputs keeps the invariant |
| `MintSteps.IssuedExactly` | internal/mint/minting.go:308-319 | the amount test on uint64s together with signing means outputs worth exactly the invoice |
| `MintSteps.ReconcileWrites` | internal/mint/minting.go:152-203 | the block writes the backend's answer into the state of a row that is UNPAID, or that a melt has paid since it was read, and touches nothing else; a request to issue goes on with the row as written, a refresh ends |
| `MintSteps.MintReconcileKeeps` | internal/mint/minting.go:152-203 | reconciling a mint quote keeps the invariant |
| `MintSteps.MintIssueKeeps` | internal/mint/minting.go:338-373 | issuing a mint quote keeps the invariant |
| `QuoteSteps.CreateMintQuoteKeeps` | internal/mint/minting.go:63-113 | creating a mint quote keeps the invariant |
| `QuoteSteps.CreateMeltQuoteKeeps` | internal/mint/melting.go:45-169 | creating a melt quote keeps the invariant |
| `Billing.MeltQuoteSavedIff` | internal/mint/melting.go:45-169 | a melt quote is saved exactly for a unit of sat or msat, an invoice with an amount, a part of at most all of it, no part for an invoice of this mint, and a new id, and each refusal has its own condition; then field by field what the row holds: lightning's amount and fee + 1 and its id for another node's invoice, the whole invoice and 1 and the quote's own id for one of this mint |
| `Billing.StepKeepsTerms` | internal/mint/melting.go:215-768 | no step changes invoice, unit, amount or reserve of a melt quote or the invoice of a mint quote, or drops one, and only making a melt quote adds one |
| `Billing.CheckingIdIs` | internal/mint/melting.go:605-616 | the id that a refresh asks lightning by is that of the payment: one saved when the payment was doubted, the one it was made with until then; no other step changes it |
| `RotateSteps.RotateKeeps` | internal/signer/local_signer/signer.go:191-275 | rotating a keyset keeps the invariant: nothing reserved or counted under older keysets moves |
| `Finality.StepForward` | internal/mint/melting.go:215-768 | no step undoes a paid melt, drops a row of one or a stored signature; and none moves a mint quote back, unless it writes back a row that a melt has paid meanwhile |
| `Database.Database.Commit` | internal/database/postgresql/main.go:62-64 | an aborted transaction is never applied; an applied one keeps all its writes; a refused one is undone |
| `Database.Database.Rollback` | internal/database/postgresql/main.go:65-67 | reports nil exactly when the transaction was still open, and then restores every table |
| `Database.Database.SaveProof` | internal/database/postgresql/main.go:323-338 | inserts all rows or fails and aborts: exactly when a Y is known or repeated, the statement fails, or the transaction is aborted already |
| `Database.Database.SetProofsState` | internal/database/postgresql/main.go:391-413 | updates the rows of all listed Ys; only a failure of the first statement is reported, a later one still aborts |
| `Database.Database.DeleteProofs` | internal/database/postgresql/main.go:415-437 | deletes the rows of all listed Ys, with the same reporting |
| `Database.Database.SaveRestoreSigs` | internal/database/postgresql/main.go:489-514 | three tries in one transaction store all rows or none, and never succeed after the first failed |
| `Database.Database.ChangeMeltRequestState` | internal/database/postgresql/main.go:278-285 | writes state, melted and fee of one quote and nothing else |
| `Database.Database.AddPreimageMeltRequest` | internal/database/postgresql/main.go:270-277 | writes the preimage of one quote and nothing else |
| `Database.Database.ChangeMintRequestState` | internal/database/postgresql/main.go:187-194 | writes state and minted of one quote and nothing else |
| `Database.Database.GetMintRequestByRequest` | internal/database/postgresql/main.go:212-226 | finds a mint quote with the invoice exactly when there is one |
| `Database.Database.SaveMeltChange` | internal/database/postgresql/change.go:13-38 | appends the messages to the quote's saved ones, or fails as a whole |
| `Database.Database.DeleteChangeByQuote` | internal/database/postgresql/change.go:65-73 | removes the saved messages of one quote and nothing else |
| `Mint.CalculateProofsValues` | internal/utils/proofs.go:142-160 | writes every Y and the time into the caller's own array and returns the Ys in order |
| `Mint.SetPendingAndQuoteRef` | api/cashu/proofs.go:25-30 | marks every proof of the array PENDING for the quote, in place |
| `Mint.SetProofsState` | api/cashu/proofs.go:39-43 | sets the state of every proof of the array, in place |
| `Mint.ProofsAmount` | api/cashu/proofs.go:31-37 | the accumulated uint64 is the sum modulo 2^64 |
| `Mint.SignBlindMessages` | internal/signer/local_signer/signer.go:277-317 | signs all messages, or none as soon as one has no active key |
| `Mint.ObservedTells` | internal/mint/swapping.go:98-124 | the rollback promise that the swap relies on is kept by the database object |
| `Mint.ReserveUndone` | internal/mint/swapping.go:129-154 | deleting the reserved inputs gives back the tables from before the reservation |
| `Mint.Mint.ValidateProofsUnspent` | internal/mint/swapping.go:228-250 | fills in the caller's Ys and reports pending before spent before nothing known |
| `Mint.Mint.ValidateOutputsNotSpent` | internal/mint/swapping.go:252-278 | reports a repeated output before one already signed before none |
| `Mint.Mint.ReserveSwapInputs` | internal/mint/swapping.go:27-63 | the first block of a swap refines its table function, and leaves the caller's inputs PENDING with their Ys |
| `Mint.Mint.SignSwapOutputsAndMarkInputsSpent` | internal/mint/swapping.go:84-127 | tables, error and the named result that the deferred rollback may override are those of the swap's table function |
| `Mint.Mint.RemovePendingSwapProofs` | internal/mint/swapping.go:129-154 | deletes the inputs' rows, or nothing |
| `Mint.Mint.ExecuteSwap` | internal/mint/swapping.go:14-82 | success only for inputs that verified, of one unit with the outputs, new, balanced, and with outputs new and signable, and then all inputs SPENT and every output signed as asked; within the limits balanced over the integers, and then every such request succeeds when nothing fails; a refusal hands out no signature, reports the first test that failed, and leaves the tables as they were, or the inputs pending where the clean-up failed too; only a lost acknowledgement of the second COMMIT can leave a landed swap reported as failed |
| `Mint.Mint.SettleIfInternalMelt` | internal/mint/melting.go:171-213 | refines the table function, with its refusals in the source's order |
| `Mint.Mint.ReserveMeltInputsAndMarkPending` | internal/mint/melting.go:503-568 | refines the table function: all of rows, quote, messages and internal settlement, or nothing; with the first refusal in the source's order |
| `Mint.Mint.ReleaseFailedMelt` | internal/mint/melting.go:656-676 | quote back to UNPAID, inputs and messages deleted in one block, by the Ys that an earlier call wrote into the array |
| `Mint.Mint.FinalizePaidBolt11Melt` | internal/mint/melting.go:694-768 | refines the table function; change amounts and SPENT are written into the caller's arrays |
| `Mint.Mint.SettleRecoveredMelt` | internal/mint/melting.go:265-351 | refines the table function of the SETTLED branch, in that branch's order of statements, wrapping subtraction included |
| `Mint.Mint.GetChangeOutput` | internal/mint/utils.go:14-27 | writes the change amounts into the first messages and leaves the others, and signs exactly those, or fails |
| `Mint.Mint.ReconcileMintQuoteState` | internal/mint/minting.go:152-203 | writes the answer with the minted flag as read before, and returns the row as committed |
| `Mint.Mint.SignMintOutputsAndMarkIssued` | internal/mint/minting.go:338-373 | quote ISSUED and signatures stored together, or neither |
| `Amounts.AmountSplit` | api/cashu/keys.go:129-138 | the loop yields the powers of two at the one bits, lowest first |
| `Amounts.SplitIsBinary` | api/cashu/keys.go:126-138 | the split is strictly increasing, made of powers of two, and adds up to the amount |
| `Amounts.SplitIsShortest` | api/cashu/keys.go:126-138 | no list of powers of two with that sum is shorter |
| `Amounts.GetMessagesForChange` | internal/utils/proofs.go:161-179 | gives the lowest parts to the first outputs, in place, and leaves the others alone |
| `Amounts.ChangeIsAtMostOverpaid` | internal/utils/proofs.go:161-179 | the change is at most the overpaid amount, with equality exactly when there is an output for every part |
| `Fees.Fees` | api/cashu/util.go:53-77 | the cached loop gives the per-proof fee of the proofs from the first named one on |
| `Fees.FeeLoopIsPerProofIff` | api/cashu/util.go:53-77 | that is the per-proof fee of all proofs, unless leading unnamed proofs were skipped and all others found |
| `LoopFee.SwapEitherFee` | internal/mint/swapping.go:185-226 | a swap is accepted with the fee as the loop gives it exactly when it is with every proof looked up, and the error is the same, or Unbalanced for a first input without a keyset id |
| `LoopFee.MeltEitherFee` | internal/mint/melting.go:418-501 | a melt likewise, with NotEnoughProofs as the other error; `Acceptance.MeltAcceptedIff` says which are accepted |
| `LoopFee.SettlingEitherFee` | internal/mint/melting.go:296-310 | whatever a request on a melt quote settles or recovers, both fees are the same |
| `Fees.FeeIgnoresOrder` | api/cashu/util.go:53-77 | the fee does not depend on the order of the inputs |
| `Fees.RoundingEachPart` | internal/stats/service.go:117-126 | rounding once charges at most the sum of the parts rounded, and less than one unit a part less |
| `SpendConditions.CountSignatures` | api/cashu/spend_condition.go:580-598 | the nested loops, deleting from the map they range over, count the distinct keys for which some signature verifies |
| `SpendConditions.CountIgnoresOrder` | api/cashu/proofs.go:73-87 | order and repetition of signatures do not change whose signatures count |
| `SpendConditions.VerifyRefund` | api/cashu/proofs.go:203-244 | accepts exactly when the refund threshold is met, and tells nobody signed from too few |
| `SpendConditions.VerifyMainP2PK` | api/cashu/proofs.go:63-100 | accepts exactly when the lock's own way in is met, and tells apart a bad key, nobody of those who may having signed, and too few |
| `SpendConditions.VerifyMainHTLC` | api/cashu/proofs.go:121-171 | accepts exactly when the preimage matches and, if keys are listed, enough of them signed; a wrong preimage is reported first |
| `SpendConditions.VerifyLock` | api/cashu/proofs.go:102-196 | accepts exactly the witnesses that may spend, as `WhoMaySpend.MaySpendIff` spells them out; a refusal is the main path's, whatever the refund path said |
| `WhoMaySpend.MaySpendIff` | api/cashu/proofs.go:63-288 | a witness may spend exactly by the lock's own way in, or, once the locktime has passed, by as many distinct refund keys as are asked for and at least one if there is any |
| `WhoMaySpend.P2pkBeforeLocktimeIff` | api/cashu/proofs.go:63-100 | before the locktime a P2PK proof is accepted exactly when the lock's key parses and there are at least max(1, n_sigs) distinct keys, each the lock's key or a listed one, with a signature that verifies |
| `WhoMaySpend.HtlcBeforeLocktimeIff` | api/cashu/proofs.go:121-171 | an HTLC exactly when the preimage has the digest and, if keys are listed, at least max(1, n_sigs) distinct listed ones have a signature that verifies |
| `WhoMaySpend.StrangersChangeNothing` | api/cashu/proofs.go:246-278 | before the locktime a signature that verifies for none of these keys, one of a refund key included, changes no answer |
| `WhoMaySpend.SigAllIff` | api/cashu/spend_condition.go:472-578 | the joint check of SIG_ALL accepts exactly by the same ways in, with the key parsing and the numbers that it asks for |
| `SpendConditions.VerifyProofCondition` | api/cashu/proofs.go:446-481 | plain secrets of 64 characters, or at most ten keys and the lock's condition, each refusal with its reason |
| `SpendConditions.VerifyProofsSpendConditions` | api/cashu/proofs.go:484-492 | accepts exactly when every input may be spent on its own; otherwise the reason is that of the first that may not |
| `SpendConditions.MaySpendIsMonotone` | api/cashu/proofs.go:102-244 | more signatures and more time never turn an accepted witness away |
| `SpendConditions.TimelockIsExactIff` | api/cashu/proofs.go:198-201 | the locktime test means what it says exactly for locktimes below 2^63 |
| `SpendConditions.CheckForSigAll` | api/cashu/spend_condition.go:472-517 | the first input whose tags say SIG_ALL decides: its kind, keys, refund keys and the two numbers are recorded, or its key does not parse; without such an input nothing is |
| `SpendConditions.ValidateSigflag` | api/cashu/swap.go:13-74 | accepts exactly when the flagged key parses, all inputs repeat the first one's data and tags, and the joint threshold is met; the first of these to fail is the reason |
| `SpendConditions.SigAllAgreesIff` | api/cashu/spend_condition.go:534-578 | for one witness: the joint check decides as the single one does exactly where none of three stated families of conditions parts them on it |
| `SpendConditions.SigAllAgreesAlwaysIff` | api/cashu/spend_condition.go:534-578 | the two checks agree on every witness exactly when the condition is in none of the three families, which the tags, the key and the clock decide; given refund keys that can sign, and a digest that some preimages have and some have not |
| `SpendConditions.SigAllRefundWithoutKeys` | api/cashu/spend_condition.go:502-508 | a refund threshold without refund keys: jointly anybody may spend after the locktime, singly only the main path may |
| `SpendConditions.SigAllHtlcWithoutKeys` | api/cashu/spend_condition.go:488-500 | an HTLC without keys asking for several signatures: singly the preimage is enough, jointly it never is |
| `SpendConditions.SigAllBadKey` | api/cashu/spend_condition.go:493-496 | a key that does not parse: jointly nothing is accepted, singly the refund path still is |
| `SpendConditions.SigAllIgnoresKeyLimit` | api/cashu/proofs.go:451-455 | more than ten keys are turned away singly, and not jointly |
| `SpendConditions.SigAllCoversEveryInput` | api/cashu/swap.go:50-74 | one accepted joint check satisfies every repeated input of the same kind |
| `SpendConditions.RepetitionIgnoresKind` | api/cashu/swap.go:50-74 | the repetition check does not compare kinds: an HTLC behind a P2PK input passes without its preimage |
| `SpendConditions.MixedKindsPass` | api/cashu/swap.go:50-74 | that can happen: with a key's 66 characters as its data the HTLC accepts no witness alone, and passes behind the P2PK input |
| `TagText.MarshalTags` | api/cashu/spend_condition.go:140-182 | writes exactly the set and non-zero tags, in the source's order |
| `TagText.UnmarshalTags` | api/cashu/spend_condition.go:184-282 | reads tag by tag, appending keys and setting numbers, and stops at the first error |
| `TagText.TagsRoundTrip` | api/cashu/spend_condition.go:140-282 | writing tags and reading them back gives the same flag, keys, refund keys and numbers |
| `Text.DecimalRoundTrip` | api/cashu/spend_condition.go:161-177 | printing a number and parsing it gives it back exactly when it fits the width |
| `Text.ParseUintIff` | api/cashu/spend_condition.go:248-277 | a text parses to a number exactly when it is that number as printed, any zeros in front of it, and the number fits |
| `Text.HexRoundTrip` | api/cashu/spend_condition.go:152-173 | encoding bytes and decoding the text gives them back |
| `Text.DecodeHexIff` | api/cashu/spend_condition.go:224-242 | a text decodes to some bytes exactly when it is, in lower case, their encoding |
| `Signer.DeriveKeyset` | internal/signer/local_signer/derivation.go:18-56 | files a seed's keys by amount, each at its index |
| `Signer.KeysetAmounts` | api/cashu/keys.go:117-124 | the amounts of a keyset are the powers of two up to 2^31 |
| `Signer.RunOfRotations` | internal/signer/local_signer/signer.go:191-275 | over every run of rotations old seeds keep all but their flag and other units are untouched; each unit with seeds has exactly one active seed, the newest, exactly when its next version and the number of its rotations fit a uint32 together |
| `Signer.TrackedIsNextIff` | internal/signer/local_signer/signer.go:206-222 | the version tracked by the loop, in any order of the rows, is one past the highest exactly when no seed of the unit sits at the last uint32 |
| `Signer.StillVerifies` | internal/signer/local_signer/signer.go:330-354 | a proof that verified once verifies after every later rotation |
| `Signer.LocalSigner.LoadKeysets` | internal/signer/local_signer/derivation.go:185-238 | in any order of the seeds, and whatever was in memory: all keysets of all seeds in memory, the active ones among them |
| `Signer.LocalSigner.SwitchOff` | internal/signer/local_signer/signer.go:214-222 | switches every row off in place and tracks the version, wrapping as a uint32 |
| `Signer.LocalSigner.RotateKeyset` | internal/signer/local_signer/signer.go:191-275 | whatever fails on the way: on success the seeds gain exactly one id, the one derived for it, its seed active, of the asked unit and fee, with the 32 keyset amounts and the next version, and the unit's other seeds are off; keysets in memory then match the disk; otherwise the keysets in memory are unchanged |
| `Signer.AttemptRotates` | internal/signer/local_signer/signer.go:191-275 | a rotation that read its rows and reports success switches the unit's seeds off and adds the new one with the tracked version |
| `Signer.DroppedReadKeepsOneActiveIff` | internal/signer/local_signer/signer.go:206-222 | when the read of the old seeds fails and its error is dropped, each unit keeps one active seed exactly if the rotated unit had no seed at all |
| `Signer.StaleSignsIff` | internal/signer/local_signer/signer.go:254-273 | after a rotation whose acknowledgement was lost, the keysets in memory sign what those on disk would not exactly for the active keysets of the rotated unit |
| `Signer.LocalSigner.SignBlindMessages` | internal/signer/local_signer/signer.go:277-317 | signs all messages exactly when each names an active keyset and one of its amounts, each with the key of its amount; otherwise reports the first that does not |
| `Signer.LocalSigner.ValidateProof` | internal/signer/local_signer/signer.go:330-354 | accepts exactly the proofs signed with the key of their amount in their keyset, active or not |
| `Signer.RotationOfTheLedger` | internal/signer/local_signer/signer.go:191-275 | rotating seeds is the keyset rotation that the ledger steps through |
| `Signer.RotationGains` | internal/signer/local_signer/signer.go:191-275 | a rotation that read its rows gains exactly that one seed, for any outcome that reaches the disk |
| `Signer.RunIsTheLedgers` | internal/signer/local_signer/signer.go:191-275 | over every run of rotations the keysets of the seeds are what the ledger's rotations make of the first ones, each with its own unit and fee |
| `Signer.SignsWhatTheLedgerSigns` | internal/signer/local_signer/signer.go:277-317 | the signer signs exactly the messages that the ledger takes it to sign |
| `KeysetId.CompareIsOrder` | api/cashu/keys.go:50-52 | below 2^63 the comparison orders amounts |
| `KeysetId.CompareCanCycle` | api/cashu/keys.go:50-52 | from 2^63 on it can go round in a circle |
| `KeysetId.SortPubkeyMapToOrganizedArray` | internal/signer/local_signer/derivation.go:77-93 | whatever order the map is ranged over in, the keys by increasing amount |
| `KeysetId.GenerateKeysetV2Preimage` | api/cashu/keys.go:56-75 | the loop builds the fields joined by '|', the keys joined by ',' |
| `KeysetId.PreimageIgnoresOrder` | api/cashu/keys.go:77-82 | the preimage depends only on the contents of the key map, the unit, the fee and the expiry |
| `KeysetId.PreimageInjective` | api/cashu/keys.go:56-75 | equal preimages mean equal keys, unit, fee and expiry, for units without '|' |
| `KeysetId.ImplementationsAgreeIff` | internal/signer/local_signer/derivation.go:95-114 | the two implementations agree exactly when the unit has no capital letter |
| `KeysetId.StartupCheckSucceeds` | internal/signer/local_signer/signer.go:151-189 | the id check at start succeeds for every seed that createNewSeed makes, AUTH included, with any fee and any expiry, which is stored as a uint64 and read as an int64 |
| `KeysetId.StartupCheckIff` | internal/signer/local_signer/derivation.go:209-224 | for any text as the unit it succeeds exactly when the text has no capital letter, for a hash that does not collide on the two preimages |
| `KeysetId.GetDerivationSteps` | internal/signer/local_signer/derivation.go:143-168 | one number for each part of the path, or an error at the first part that does not parse |
| `KeysetId.PathRoundTrip` | internal/signer/local_signer/signatory.go:15-18 | a seed's path parses back to its three numbers; the version is a hardened index exactly below 2^31 |
| `Bdhke.UnblindedVerifies` | pkg/crypto/bdhke.go:52-124 | blind, sign, unblind gives a signature that verifies, for every secret, blinding factor and key |
| `Bdhke.UnblindedVerifiesIff` | pkg/crypto/bdhke.go:73-124 | the unblinded signature verifies exactly when the blinded one was made with the key: any other residue is refused |
| `Bdhke.GenerateDLEQ` | api/cashu/types.go:525-560 | with the source's multiplications in place, produces the proof for key, message, signature and nonce, and leaves the key alone |
| `Bdhke.VerifyDLEQ` | api/cashu/types.go:571-625 | decides the proof, and leaves the caller's e negated |
| `Bdhke.GeneratedIsAccepted` | api/cashu/types.go:525-625 | every generated proof of a true signature is accepted |
| `Bdhke.VerifyTwice` | api/cashu/types.go:571-625 | a second verification on the same scalars asks whether the negated e passes |
| `Bdhke.VerifyWithCopies` | api/cashu/types.go:571-625 | with a fresh copy of e for each, any number of verifications gives the same answer and leaves e alone |
| `Bdhke.SecondVerificationCanFail` | api/cashu/types.go:571-625 | for a hash that is always 1 the second verification on the same scalars turns every true signature away |
| `Stats.AddSummaryItem` | internal/stats/service.go:108-115 | increments the unit's item in place, or makes one; other items are untouched |
| `Stats.AggregateSummary` | internal/stats/service.go:90-106 | in whatever order the map is ranged over: one item a unit, sorted, with count and sum of its rows |
| `Stats.BeforeIff` | internal/stats/service.go:90-94 | the order of the items: at the first difference of two units the smaller character, or the end, comes first |
| `Stats.Service.GetLatestStatsSnapshot` | internal/database/postgresql/stats.go:20-27 | the one with the latest end is the last inserted |
| `Stats.Service.CreateSnapshot` | internal/stats/service.go:128-252 | with any clock, any tables, and with failing queries, undecodable rows or a failing insert: the outcome of the source's tests in their order; windows stay contiguous from 0; an inserted one sums exactly the rows in its window, and its fee is that of its window's proofs; otherwise nothing changes |
| `Stats.CountedOnce` | internal/stats/service.go:143-153 | no moment lies in two windows |
| `Stats.NoMomentMissed` | internal/stats/service.go:143-153 | the windows cover exactly the moments from 0 to the last end |
| `StatsRuns.RowCountedIff` | internal/database/postgresql/stats.go:82-161 | over every run of calls whose tables change in between: a row is counted, and then once, exactly when its state counted at the one call that inserted the window over the moment it was first seen |
| `StatsRuns.RowsCountedAre` | internal/database/postgresql/stats.go:82-161 | the rows counted over such a run are exactly those, each with the contents it had at that call |
| `StatsRuns.RunSums` | internal/stats/service.go:90-115 | per unit, the quantities of all snapshots add up to the number of those rows, and the amounts to their sum, exactly while it fits a uint64 and modulo 2^64 always |
| `StatsRuns.LateRowIsLost` | internal/database/postgresql/stats.go:82-101 | two calls that insert two snapshots: a quote seen in the first window and PAID between the calls is in neither |
| `StatsLedger.MintCountsIff` | internal/database/postgresql/stats.go:82-100 | over every run of the mint a mint quote counts exactly when it is paid or some block issued it |
| `StatsLedger.MeltCountsIff` | internal/database/postgresql/stats.go:102-120 | over every run whose swaps name no melt quote a melt quote counts exactly when it is melted |
| `StatsLedger.ProofCountsIff` | internal/database/postgresql/stats.go:122-141 | over every such run a proof counts exactly when a committed swap or melt consumed it |
| `StatsLedger.CountsForGood` | internal/database/postgresql/stats.go:102-141 | a melt quote or proof that counts is there and counts after every further such run |
| `StatsLedger.MintCountsForGood` | internal/database/postgresql/stats.go:82-100 | so does a mint quote, as long as no melt overtakes a request on it |
| `Stats.InsertedIff` | internal/stats/service.go:128-252 | a snapshot is inserted exactly when nothing fails and there is something to count, every quote with an amount of its own or, in satoshis, of its invoice, every signature and proof with a known unit; and which amount a quote then adds |
| `Stats.CalculateSnapshotFees` | internal/stats/service.go:117-126 | the sum of quantity times fee, AUTH keysets left out, and the rounding, on uint64s |
| `Stats.SnapshotFeesExactIff` | internal/stats/service.go:117-126 | the stored fee is the rounded-up fee of the window's proofs exactly when their sum and the rounding fit a uint64 |
| `Stats.GroupedFee` | internal/database/postgresql/stats.go:163-184 | grouping spent proofs by keyset loses nothing of the fee |
| `Stats.SnapshotFeeIsClose` | internal/stats/service.go:205-240 | the fee stored in a snapshot is at most what the transactions that spent its proofs were charged, however they were split, and less than one unit a transaction below it |
| `Stats.ChargedIsFee` | api/cashu/util.go:53-77 | what one transaction is taken to be charged there is the input fee of swaps and melts |
| `Stats.SelectFeeRows` | internal/database/postgresql/stats.go:163-184 | one row for each known keyset among the spent proofs, with its number of proofs and its fee |
| `Stats.BucketHoldsItsEnds` | internal/routes/admin/pages.go:464-470 | a bucket starts at a multiple of its width, less than a width from the ends it holds and on the side of 0; a width of 0 or less leaves the ends as they are |
| `Stats.SumStatsSummary` | internal/routes/admin/pages.go:454-462 | one summary added up: amounts on an int64, counts on a uint64 |
| `Stats.BuildTimeSeries` | internal/routes/admin/pages.go:506-533 | strictly increasing timestamps, one point a bucket, holding the sums of its snapshots' summaries |
| `Stats.ChartKeepsTheTotals` | internal/routes/admin/pages.go:506-533 | bucketing loses no amount and no count: exactly while they fit a uint64, and modulo 2^64 always |
| `Stats.ChartAndSummary` | internal/routes/admin/pages.go:111-128 | so amount and count of the chart's summary are the sums over all summaries behind it, whatever the buckets |
| `LightningChart.BuildMintMeltTimeSeries` | internal/routes/admin/pages.go:472-504 | one point a bucket with increasing timestamps; mints and melts each hold the sums of their summaries, amounts on int64s |
| `LightningChart.CalculateLnChartSummary` | internal/routes/admin/pages.go:440-452 | totals of both sides and their difference, on int64s |
| `LightningChart.ChartAndFlow` | internal/routes/admin/pages.go:440-504 | whatever the buckets, the totals are those of the summaries behind the chart, and the net flow is the true difference exactly when that fits an int64, even where a total does not |

## Left out

- The elliptic curve, SHA-256, Schnorr signatures, key derivation, JSON and invoice decoding: parameters, or residues for points; the point at infinity is an ordinary residue.
- Lightning backends, HTTP routes, gRPC, admin pages, Nostr, OIDC, websockets, configuration, logging: input and output only; the backend is an oracle.
- Units other than sat and msat for quotes, and the float arithmetic of unit conversion and of the fee reserve: integer floor division, and a reserve that the backend supplies.
- AUTH keysets and blind authentication, peg-out limits whether the backend supports partial payments, and the signature that a mint quote with a public key asks for (internal/mint/minting.go:375-391): further refusals only.
- Error texts and codes: the model keeps which check fails first, not how it is reported.
- `World.Assumed` excludes concurrent requests on one quote: two of them could both pass the checks, and the row locks that hold within one block do not reach across blocks.
- Mint.Mint.ExecuteSwap: one request with no other in between; interleavings are the subject of `World`, `Ledger` and `Vouched`. Whether the proofs verified is a parameter; `SpendConditions` and `Signer` say when they do.
- Mint.Mint.SignSwapOutputsAndMarkInputsSpent: at least one input, as validation demands; an empty batch is an error of the driver.
- Signer.LocalSigner.RotateKeyset: rotations that run one after the other; two at once are the database's to order by the key of the new seed. `World` takes the keysets in memory and on disk as one, as after every rotation that reports success.
- KeysetId.SortPubkeyMapToOrganizedArray: amounts below 2^63, as every keyset has; the library's sort is an insertion sort here.
- SpendConditions.ValidateSigflag: every input parses as P2PK or HTLC; the text of the joint message is part of the verification parameter.
- Stats.Service.CreateSnapshot: the decoder of invoices is a parameter; the five queries of one call see the same tables, and calls do not overlap.
- StatsRuns.RowCountedIff: a row is known by its id and the moment it was first seen; an id that is deleted and saved again later is another row.
- Stats.BuildTimeSeries: snapshots that end at 0 or later, as all stored ones do.
- Bdhke.SecondVerificationCanFail: the hash is a parameter, so nothing is said of SHA-256; `Bdhke.VerifyTwice` is the exact condition for any hash.
- NamedQuote.LedgerSurvivesIff: the swap's outputs can be signed with the keysets as they are; without that the swap can only fail and be cleaned up, and `NamedQuote.BreaksAtOnce` still applies.
- Mint.CalculateProofsValues: hashing a secret to a point always succeeds.
- KeysetId.ImplementationsAgreeIff: lower-casing is that of ASCII letters, which all unit names are made of.
- TagText.TagsRoundTrip: from the arrays of strings on; the JSON text around them is not modelled.
- Legacy keysets and version-1 ids, the liquidity swap loop, the proof-state query and the mock database.
