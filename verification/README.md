# Sponsored native fees: a verified model

This project models the sponsored-fee pallet and its transaction extension as an escrow protocol,
and proves what holds over whole runs of it. A sponsor escrows funds in a *budget* hold. `validate`
decides whether a transaction may be sponsored, `prepare` moves the worst-case fee to a *pending*
hold, the call is dispatched, and settlement charges the actual fee out of the pending hold, routes
fee and tip credit, returns the rest to the budget and logs an event. Seven calls (register,
increase, decrease, set policy, pause, resume, unregister) act on the same holds, between
transactions or inside a dispatch.

## How it is organised

| file | contents |
|---|---|
| `Types.dfy` | accounts, policies, events, chain state; the ledger steps and the sum of balances |
| `Pallet.dfy`, `Extension.dfy` | what each call, `validate`, `prepare` and settlement do, as functions of the state |
| `Chain.dfy` | the pallet and the extension as a class that updates its storage step by step, proved against those functions |
| `Machine.dfy` | runs: calls, outside moves, reservations and settlements in any overlap, with any ledger refusal; conservation of money |
| `Safety.dfy`, `Interleaving.dfy`, `Spending.dfy` | theorems about every such run |
| `Answers.dfy` | what every call and every validation answers, and what the log says of it, by the history of accepted calls |
| `Discipline.dfy` | runs with one reservation in flight per sponsor, and runs in which accounts are kept alive |
| `Marks.dfy` | losses and what clears them, over a run of anything |
| `Sequential.dfy`, `Settlement.dfy`, `Isolation.dfy` | transactions one at a time, with arbitrary dispatch and rollback |
| `ReplayGuard.dfy`, `Recovery.dfy` | exactly when the event log replays the escrow; when and how much of it can be recovered |
| `Fees.dfy`, `Limits.dfy` | the runtime's fee arithmetic; settlement in every overlap, and where guarantees stop |
| `Holds.dfy`, `Payload.dfy` | the demo client's hold collector and payload bytes |

## Assumptions

* Balances: `hold` is all-or-nothing and leaves the existential deposit free; `release` is exact or
  best-effort; `slash` takes what is held and reports the shortfall; a hold or a release that would
  leave the balance type fails. Every hold and release also takes a flag by which the ledger may
  refuse for any other reason. Theorems that name no hypothesis about refusals hold for all values
  of these flags.
* `Genesis`: no sponsor, no sponsorship hold, empty log. `Fits`: the sum of all balances is within
  the balance type. `Start`: both, and no account with holds is below the existential deposit.
* Keep-alive (`Courteous` steps, `Kind` transactions): other code does not take an account below the
  existential deposit, and the ledger has no refusal of its own during `prepare` and settlement.
  Calls may still be refused. `Ready` is the state this keeps between transactions.
* `OneEachRun`: each sponsor has at most one reservation in flight. `Releasable`: settlements are not
  refused the release of what they restore. `SerialRun`: both.
* Dispatch is any finite list of pallet calls by anyone and of outside moves (transfers, withdrawals
  such as unsponsored fees, other pallets' holds). A failed dispatch is rolled back and settled; a
  transaction whose reservation fails is discarded with all it did.
* The inclusion fee is a parameter of length and weight. That it never rises as weight falls
  (`MonotoneFees`) is an explicit hypothesis where needed, and is proved of the runtime's fees.
* `books`, `receipts` and `Reservation.cap` are history, and `Account.owner` repeats the account's key:
  no modelled step reads them.

## What the model found

* Exact charges and the absence of shortfalls rest on one reservation in flight per sponsor, and on
  nothing else (`ExactInOverlap`; `SettlementLaw` is the law without even that). Settlement restores
  *everything* pending, so a second reservation of the same sponsor then settles for nothing
  (`OverlapStarves`; `OverlapReachable` gives the runs, `ShortfallIff` the exact condition). Money is
  conserved and the event stays truthful even then.
* With monotone fees the clamp and the shortfall never happen to transactions run one at a time,
  whatever the ledger refuses and whatever dispatch does (`ClampAndShortfallDead`). The restore can
  fail: exactly if a remainder is left and the ledger refuses a step or the sponsor's free balance is
  below the existential deposit when dispatch ends (`RestoreOf`).
* So the comment that re-escrowing "should always succeed" is true when the account is kept alive.
  Otherwise a reservation or settlement may release a positive amount that it then cannot hold, and
  the log overstates the escrow. `EventReplay` states when it is exact: if and only if every step
  that, by the free balance and the refusals it meets, releases an amount it cannot hold again is
  followed by an accepted unregistration. `CourteousReplay` is the clean case and
  `RefusalBreaksReplay` gives runs that fail.
* What `validate` accepts `prepare` may still fail to reserve: exactly if the ledger refuses a step or
  the sponsor's free balance is below the existential deposit (`ReservedIff`; `AcceptedNotReserved`
  gives the runs).
* A remainder whose release is refused stays pending, and blocks unregistration, until a later
  transaction of the same sponsor settles with its release granted (`QuiescentIff`,
  `SequentialRecoverableIff`).
* A settlement event may name an account that is no longer a sponsor; it then always reports a fee
  of zero (`RemovedSponsorUntouched`).

## Model

| member | source | states |
|---|---|---|
| Chain.EnsureValidPolicy | pallets/sponsored-tx/src/lib.rs:431-439 | the nested scan accepts exactly the non-empty, pairwise distinct lists, and says which way a list fails |
| Chain.IsAllowed | pallets/sponsored-tx/src/extension.rs:171-173 | the linear scan agrees with membership in the set of allowed callers |
| Chain.Chain.RegisterSponsor | pallets/sponsored-tx/src/lib.rs:193-212 | checks, hold, record and event, in that order, give the specified state and error; an error changes nothing |
| Chain.Chain.IncreaseBudget | pallets/sponsored-tx/src/lib.rs:217-226 | whole new state and error; an error changes nothing |
| Chain.Chain.DecreaseBudget | pallets/sponsored-tx/src/lib.rs:231-249 | whole new state and error; an error changes nothing |
| Chain.Chain.SetPolicy | pallets/sponsored-tx/src/lib.rs:254-265 | whole new state and error; an error changes nothing |
| Chain.Chain.Pause | pallets/sponsored-tx/src/lib.rs:270-281 | whole new state and error; an error changes nothing |
| Chain.Chain.Resume | pallets/sponsored-tx/src/lib.rs:286-297 | whole new state and error; an error changes nothing |
| Chain.Chain.Unregister | pallets/sponsored-tx/src/lib.rs:302-323 | whole new state and error; an error changes nothing |
| Chain.Chain.ValidateTx | pallets/sponsored-tx/src/extension.rs:161-202 | the checks of the sponsored path, in order, give the specified reservation or rejection; accepted if and only if the signer is in the set of allowed callers of an active sponsor and the fee is within cap and budget; the reservation carries the transaction's own sponsor, signer and tip |
| Chain.Chain.MoveToPending | pallets/sponsored-tx/src/lib.rs:350-376 | release then hold: the outcome and the account left behind in all three cases |
| Chain.Chain.Prepare | pallets/sponsored-tx/src/extension.rs:221-231 | the whole state after the reservation, failed ones included |
| Chain.Chain.Restore | pallets/sponsored-tx/src/lib.rs:380-422 | which branch runs and what the account is afterwards, for any refusal |
| Chain.Chain.TakeFee | pallets/sponsored-tx/src/extension.rs:292-326 | clamp, slash and split together charge the least of actual fee, estimate and pending hold, tip first |
| Chain.Chain.Settle | pallets/sponsored-tx/src/extension.rs:273-341 | the whole settlement refines its closed form: charge, credit, refund and event |
| Conservation.WealthConserved | pallets/sponsored-tx/src/extension.rs:303-338 | for any overlap and any refusals, all balances plus all credit routed out are constant |
| Safety.ReachableIsGood | pallets/sponsored-tx/src/lib.rs:193-323 | in every state reachable from genesis, per account: truthful log, balanced books, owned escrow, valid policy |
| Answers.RecordIsHistory | pallets/sponsored-tx/src/lib.rs:193-323 | over every run from genesis: an account is a sponsor if and only if its last accepted registration or unregistration was a registration; its stored policy is the one its last accepted register_sponsor or set_policy gave; it is active unless its last accepted registration, pause or resume was a pause |
| Answers.RegisterAnswers | pallets/sponsored-tx/src/lib.rs:193-212 | over every run from genesis: each error, and acceptance, if and only if its guard holds of amount, logged registration, allowlist (duplicates counted against the set), free balance, existential deposit and balance type |
| Answers.IncreaseAnswers | pallets/sponsored-tx/src/lib.rs:217-226 | the same for amount, logged registration and free balance |
| Answers.DecreaseAnswers | pallets/sponsored-tx/src/lib.rs:231-249 | the same for amount, logged registration and budget: anything from one unit up to the whole budget is released |
| Answers.SetPolicyAnswers | pallets/sponsored-tx/src/lib.rs:254-265 | the same for allowlist and logged registration, the allowlist first |
| Answers.FlagAnswers | pallets/sponsored-tx/src/lib.rs:270-297 | pause is accepted if and only if the replayed log says registered and active, resume if and only if it says registered and paused; otherwise NotRegistered, AlreadyPaused or AlreadyActive, each with its guard |
| Answers.UnregisterAnswers | pallets/sponsored-tx/src/lib.rs:302-323 | the same for logged registration, pending hold and budget |
| Answers.DispatchMoves | pallets/sponsored-tx/src/lib.rs:193-323 | an unsigned origin is refused; a refused call changes nothing; an accepted one moves exactly the amount it names (the whole budget for unregister) between the caller's own free balance and budget and touches no other hold and nobody else |
| Answers.LogReportsCalls | pallets/sponsored-tx/src/lib.rs:139-161 | over every run from genesis the log, settlements aside, is one event for each accepted call, in order, of its kind and with its caller and amount |
| Answers.ValidateAnswers | pallets/sponsored-tx/src/extension.rs:157-202 | over every run from genesis: which answer validate gives, each if and only if its guard holds of the replayed log, the last policy set, the ledger and the saturated fee with tip; an accepted transaction is reserved for its own signer, fee and tip |
| ReplayGuard.EventReplay | pallets/sponsored-tx/src/lib.rs:139-161 | from genesis, with `Fits`, in any overlap and under any refusals: folding the log rebuilds registration and active flag always, and budget plus pending if and only if every step that releases a positive amount it cannot hold again (hold refused, or free balance below the existential deposit) is followed by an accepted unregistration |
| ReplayGuard.CourteousReplay | pallets/sponsored-tx/src/lib.rs:139-161 | from `Start` with `Courteous` steps, in every overlap, several reservations of one sponsor included: the log alone gives registration, active flag and exactly budget plus pending |
| ReplayGuard.SequentialReplay | pallets/sponsored-tx/src/lib.rs:409-421 | over every sequential run, where only settlements can leave escrow spendable: the replayed escrow is exact if and only if every settlement that does is followed by an unregistration that is accepted and kept |
| Interleaving.ReplayUpToStray | pallets/sponsored-tx/src/lib.rs:409-421 | from genesis with no other hypothesis: the replayed escrow is budget plus pending plus what refused holds left spendable since registration |
| Interleaving.LoggedUpToStray | pallets/sponsored-tx/src/lib.rs:217-249 | from genesis with no other hypothesis: a logged new budget is the replayed escrow less what is pending and what refused holds left spendable |
| ReplayGuard.LoggedBudget | pallets/sponsored-tx/src/lib.rs:217-249 | from genesis, with `Fits`, in any overlap and under any refusals: a logged new budget is the replayed escrow less what is pending if and only if every step that releases a positive amount it cannot hold again is followed by an accepted unregistration |
| ReplayGuard.CourteousLoggedBudget | pallets/sponsored-tx/src/lib.rs:217-249 | so from `Start` with `Courteous` steps it always is |
| Interleaving.EscrowHasOwner | pallets/sponsored-tx/src/lib.rs:302-323 | every non-zero budget or pending hold belongs to a registered sponsor; the allowlist is non-empty, bounded and as large as the set of its members |
| Interleaving.RemovedSponsorUntouched | pallets/sponsored-tx/src/extension.rs:311-330 | settling for an account that is no sponsor any more charges nothing and changes no balance |
| Interleaving.RunKeepsReceipts | pallets/sponsored-tx/src/extension.rs:303-338 | over any run: each charge is within its estimate and cap, is the fee credit plus the tip credit, the events are the charges in order, and they add up to the routed credit |
| Interleaving.TermsFixedAtValidation | pallets/sponsored-tx/src/extension.rs:165-186 | every fee paid traces back to a validation earlier in the run, of a transaction with that sponsor, signer and tip, and is within the max fee, the budget and the allowlist stored at that moment |
| Answers.ChargedAsAgreed | pallets/sponsored-tx/src/extension.rs:322-338 | over every run from genesis, in any overlap: the j-th settlement event names sponsor and signer of the transaction that the j-th settlement answers to, the fee charged and as much of that transaction's tip as the fee covers; the fee is within the cap of the last policy its sponsor had set before validation, which allowed the signer |
| Spending.SettledOnce | pallets/sponsored-tx/src/extension.rs:221-258 | over any run from genesis: the reservations settled and those in flight are together, as multisets, exactly those that were made; so each settles at most once and nothing else settles |
| Interleaving.DistinctIsSet | pallets/sponsored-tx/src/lib.rs:433-437 | a duplicate-free allowlist is as long as the set of its elements |
| Spending.SpendingBounded | pallets/sponsored-tx/src/lib.rs:203-249 | everything the log says was escrowed is charged, taken back, leaked by a refused hold or still held; so fees never exceed escrowed less released |
| Spending.SettlementsBounded | pallets/sponsored-tx/src/extension.rs:181-186 | as long as no top-up is accepted (attempts may be made), floor times the number of settlements costing floor or more, plus remaining budget and pending, is within the starting budget plus pending, in any overlap |
| Spending.PauseIsEffective | pallets/sponsored-tx/src/lib.rs:270-297 | after a pause and until a resume or new registration is accepted (attempts may be made), nothing new is reserved and every later charge settles a reservation already in flight |
| Discipline.PendingIsReserved | pallets/sponsored-tx/src/lib.rs:350-422 | in a `SerialRun` with `Fits`, what is pending is exactly the estimate of the reservation in flight, or zero, even under refused holds |
| Discipline.ReservedIff | pallets/sponsored-tx/src/extension.rs:184-225 | in every state that any run reaches, with `Fits`, under any refusals: what validate accepts is reserved if and only if the ledger refuses neither step and the sponsor's existential deposit is free (or the estimate is zero) |
| Discipline.ReachableReserves | pallets/sponsored-tx/src/extension.rs:184-225 | in every state that `Courteous` runs reach from `Start`, overlapping ones included, what validate accepts prepare can reserve |
| Discipline.ExactInOverlap | pallets/sponsored-tx/src/extension.rs:292-330 | in a `OneEachRun` from genesis with `Fits`, whatever was refused to whom: a settlement charges exactly the lesser of actual and estimate and touches no other account; what is left stays pending, becomes free or is budget again by the refusals this settlement meets and the sponsor's own free balance, and the receipt is clean if and only if it could be returned |
| Discipline.KeptAliveInOverlap | pallets/sponsored-tx/src/lib.rs:380-422 | in a `SerialRun` of `Courteous` steps from `Start`, an unrefused settlement returns the whole rest to the budget and touches no free balance |
| Sequential.SequentialIsInterleaving | pallets/sponsored-tx/src/extension.rs:205-260 | every run of transactions one at a time, rollbacks included, is one of the overlapping runs, so the theorems above apply to it |
| Sequential.FailedDispatchUndone | pallets/sponsored-tx/src/extension.rs:235-260 | a failed dispatch leaves no trace but its settlement, and a transaction that is not reserved none at all |
| Sequential.PendingDuringDispatch | pallets/sponsored-tx/src/extension.rs:221-231 | from any state: at every point of a dispatch exactly the estimate is pending of the named sponsor on top of what was pending before, and nothing more of anyone else |
| Sequential.PendingBetween | pallets/sponsored-tx/src/lib.rs:380-403 | over every sequential run with `Fits`, under any refusals: what is pending is the sum of the remainders whose release was refused since the sponsor's last settlement that was granted its release (or, with none, since the start, on top of what was pending then) |
| Sequential.QuiescentIff | pallets/sponsored-tx/src/lib.rs:380-403 | so nothing is pending if and only if every refused release of a remainder, and whatever was pending at the start, is followed by a transaction of that sponsor whose release is granted |
| Sequential.QuietAgain | pallets/sponsored-tx/src/lib.rs:380-403 | with `Fits`, from a state with nothing pending: after a transaction nothing is pending, unless its settlement was refused the release: then exactly the remainder is |
| Sequential.Quiescence | pallets/sponsored-tx/src/extension.rs:311-330 | over every sequential run of `Releasable` transactions, with `Fits`: between transactions no account has a pending hold, even under refused holds |
| Settlement.ValidationSuffices | pallets/sponsored-tx/src/extension.rs:184-225 | in `Ready` states, a `Kind` transaction is reserved if and only if it validates (keep-alive corollary) |
| Settlement.ReservesIff | pallets/sponsored-tx/src/extension.rs:184-225 | in any state with `Fits`: a transaction is reserved if and only if it validates, neither step is refused, and the sponsor's existential deposit is free (or the estimate is zero) |
| Settlement.ExactReservation | pallets/sponsored-tx/src/lib.rs:350-376 | in any state, a reservation that succeeds moves the estimate from budget to pending and touches no free balance, no other account, no record and no event |
| Settlement.ExactSettlement | pallets/sponsored-tx/src/extension.rs:273-341 | for every reserved transaction with `Fits`, whatever dispatch did and whatever is refused: what is due leaves the pending hold and is the credit routed; all other accounts stay as dispatch left them; the rest stays pending, becomes free or is budget again by this settlement's refusals and the sponsor's free balance at the end of dispatch |
| Settlement.KeptAliveSettlement | pallets/sponsored-tx/src/lib.rs:380-422 | for a validated `Kind` transaction from a `Ready` state the whole rest of the estimate is budget again and free balances stay as dispatch left them |
| Settlement.ActualWithinEstimate | pallets/sponsored-tx/src/extension.rs:292-303 | with monotone fees the actual fee never exceeds the estimate |
| Settlement.ReceiptOf | pallets/sponsored-tx/src/extension.rs:292-338 | every reserved transaction, under any refusals and any dispatch, is charged exactly the lesser of actual fee and estimate and never falls short; that much credit is routed; the clamp runs if and only if the actual fee exceeds the estimate |
| Settlement.PriceOf | pallets/sponsored-tx/src/extension.rs:292-338 | every reserved transaction is charged its tip on top of the lesser of the declared price and the price of the weight used (none if it need not pay, never above the declared weight), within the balance type; the estimate is declared price plus tip; the tip is credited first; exactly one event follows what dispatch logged, with sponsor, signer, fee and tip |
| Settlement.PriceCases | pallets/sponsored-tx/src/extension.rs:292-299 | when declared price and tip fit the balance type: the tip is routed in full, and besides it the whole declared price without a reported weight or with one not below the declared, the lesser of the two prices with a lower one, and nothing if the transaction need not pay |
| Settlement.RestoreOf | pallets/sponsored-tx/src/lib.rs:388-421 | with `Fits`, for any dispatch: nothing is left, the release fails or the re-hold fails, each if and only if its guard holds of the remainder, the refusals and the free balance at the end of dispatch |
| Settlement.ClampAndShortfallDead | pallets/sponsored-tx/src/extension.rs:300-320 | with monotone fees no sequential run takes the clamp or meets a slash shortfall, under any refusals, outside moves and dispatches |
| Settlement.DefensiveBranchesDead | pallets/sponsored-tx/src/extension.rs:300-320 | with monotone fees, a sequential run of `Kind` transactions from a `Ready` state takes neither the clamp, a slash shortfall nor a failure of the restore |
| Settlement.ReplayIsState | pallets/sponsored-tx/src/extension.rs:330-338 | from `Start`, between `Kind` transactions, the log alone gives every account's registration, active flag and exact budget |
| Settlement.TransactionsBounded | pallets/sponsored-tx/src/extension.rs:181-186 | from genesis, under any refusals: with a fee floor that transactions naming the sponsor pay, and no top-up of the sponsor that is accepted and kept, floor times the number of its completed transactions, plus remaining budget and pending, is within the starting budget plus pending |
| Isolation.SponsorsIsolated | pallets/sponsored-tx/src/extension.rs:135-233 | transactions of different sponsors whose dispatches stay away from both get the same answers from validate and from prepare and leave the same sponsor balances, holds, records, events and credit in either order |
| Isolation.ItemsCommute | pallets/sponsored-tx/src/extension.rs:273-341 | transactions with disjoint footprints get the same answers from validate and from prepare and commute on every account and on all credit |
| Fees.WeightToFeeMonotone | runtime/src/lib.rs:120-131 | the weight fee is monotone for every coefficient |
| Fees.WeightToFeeNear | runtime/src/lib.rs:120-131 | for every ratio p/q, rounded down to parts per billion in one step, the fee is within w/10^9 + 1 of w*p/q |
| Fees.RuntimeCoefficientExact | runtime/src/weights/extrinsic_weights.rs:28-29 | if the ratio is rounded down in one step, the coefficient for the runtime's constants is exactly 1/125 |
| Fees.RuntimeFeeNear | runtime/src/lib.rs:120-131 | whether the ratio is rounded in one step or both numbers are scaled down first: the parts are 8,000,000 or 7,999,999, and the fee is less than half a unit above and at most w/10^9 plus half a unit below w/125 |
| Fees.RuntimeFeeParts | runtime/src/configs/mod.rs:180-191 | one more byte costs ten micro-units; with a unit multiplier the fee is the base weight's, the bytes' and the weight's together; weight above the block limit costs no more |
| Fees.RuntimeFeesMonotone | runtime/src/lib.rs:118-131 | the fee hypothesis holds of the runtime for every coefficient, multiplier and block limit |
| Limits.OverlapStarves | pallets/sponsored-tx/src/lib.rs:380-394 | with `Fits`, after one settlement whose release is not refused any other reservation of that sponsor settles for nothing |
| Limits.PendingIsOutstanding | pallets/sponsored-tx/src/lib.rs:350-422 | with `Fits`, in any overlap and under any refusals: what is pending is exactly what was reserved against the account since its last settlement that was granted its release, less what settlements refused theirs took |
| Limits.SettlementLaw | pallets/sponsored-tx/src/extension.rs:300-338 | with `Fits`, in any overlap and under any refusals: a settlement charges what is due as far as it is outstanding, reports the difference, routes that much credit, touches no other account and returns what is left by its own refusals and the sponsor's free balance |
| Limits.ShortfallIff | pallets/sponsored-tx/src/extension.rs:303-320 | with `Fits`, in any overlap and under any refusals: a settlement falls short if and only if less is outstanding than the lesser of actual fee and estimate |
| Limits.OverlapReachable | pallets/sponsored-tx/src/extension.rs:311-320 | for every chain with an affordable flat fee, a run from genesis reaches such a shortfall: of two overlapping reservations the second is charged nothing |
| Limits.AcceptedNotReserved | pallets/sponsored-tx/src/lib.rs:350-376 | for every such chain, a run from genesis after which validate accepts a transaction that prepare cannot reserve, because the free balance was taken below the existential deposit |
| Limits.RefusalBreaksReplay | pallets/sponsored-tx/src/lib.rs:409-421 | for every such chain, a run from genesis in which a refused re-hold makes the replayed log overstate the holds by exactly the remainder |
| Limits.RuntimeNeverClamps | pallets/sponsored-tx/src/extension.rs:300-320 | with the runtime's own fees, for every coefficient and multiplier, no sequential run from genesis takes the clamp or meets a shortfall, under any refusals |
| Limits.RuntimeBranchesDead | pallets/sponsored-tx/src/extension.rs:300-320 | with the runtime's own fees no sequential run of `Kind` transactions from `Start` takes any defensive branch |
| Recovery.RecoverableIff | pallets/sponsored-tx/src/lib.rs:302-323 | in any overlap with `Fits`, under any refusals: an unrefused unregister is accepted if and only if the account is a sponsor and nothing reserved against it is outstanding |
| Recovery.EscrowReturned | pallets/sponsored-tx/src/lib.rs:302-323 | from genesis, in any overlap: an accepted unregister leaves no sponsorship hold and returns exactly what was escrowed less fees, releases and leaks; that is the replayed escrow if and only if every step that releases a positive amount it cannot hold again is followed by an accepted unregistration |
| Recovery.SequentialRecoverableIff | pallets/sponsored-tx/src/lib.rs:302-323 | after every sequential run from genesis with `Fits`: it is accepted if and only if the account is a sponsor and each of its transactions refused the release of a remainder is followed by one that was granted it |
| Recovery.AlwaysRecoverable | pallets/sponsored-tx/src/lib.rs:302-323 | so with `Releasable` transactions every sponsor can always get back its escrow less fees, releases and leaks |
| Holds.Collector.Collect | examples/subxt-sponsor-client/src/main.rs:313-348 | for every value tree the recursive walk leaves each accumulator at its last matching entry in pre-order, or at its initial value |
| Holds.WalkVisitsAll | examples/subxt-sponsor-client/src/main.rs:313-348 | the entries of a node are its own, then those of all its children in order, whether fields or items, of a composite or a variant |
| Holds.ChildEntriesKept | examples/subxt-sponsor-client/src/main.rs:323-346 | so no entry of a child is lost |
| Holds.OwnEntry | examples/subxt-sponsor-client/src/main.rs:314-321 | a node makes an entry if and only if it has a number as amount and an id that reads as one of the two reasons |
| Holds.AtFinds | examples/subxt-sponsor-client/src/main.rs:314-315 | a field is looked up by its first occurrence, in composites and in variants |
| Holds.CollectorReadsLedger | examples/subxt-sponsor-client/src/main.rs:297-311 | on a stored list made of an account's non-zero sponsorship holds and unrelated ones, in any order, the walk reports the ledger's budget and pending holds |
| Holds.SponsorHolds | examples/subxt-sponsor-client/src/main.rs:297-311 | from zero, or when storage has nothing, the query returns the ledger's budget and pending holds of the account whose holds are stored |
| Payload.Buffer.EncodeValueTo | examples/subxt-sponsor-client/src/main.rs:104-109 | the printer appends exactly the encoding of tip, then sponsor |
| Payload.Layout | examples/subxt-sponsor-client/src/main.rs:104-109 | the bytes outright: the compact tip, then 0 and nothing more, or 1 and the 32 bytes of the sponsor; a tip below 64 without sponsor is [4 * tip, 0] |
| Payload.ShortLayout | examples/subxt-sponsor-client/src/main.rs:72-78 | a tip below 2^30 is one, two or four bytes, lowest first, that hold four times the tip plus 0, 1 or 2 |
| Payload.LongLayout | examples/subxt-sponsor-client/src/main.rs:72-78 | a larger one is a byte that counts, then the tip, lowest byte first, in no more bytes than it needs |
| Payload.TipRange | examples/subxt-sponsor-client/src/main.rs:75-78 | the tip is any number of 128 bits |
| Payload.RoundTrip | examples/subxt-sponsor-client/src/main.rs:72-109 | decoding by the runtime's layout gives back tip and sponsor and consumes exactly those bytes, whatever follows |
| Payload.DecodeIsCanonical | pallets/sponsored-tx/src/extension.rs:53-58 | whatever decodes is the encoding of what it decodes to, so every payload has one form |

## Left out

- The node, RPC, chain specification, runtime APIs, XCM configuration and genesis presets: wiring without a local algorithm.
- The internals of the balances and transaction-payment pallets: only the contracts listed under Assumptions are modelled; issuance by other pallets is not.
- The unsponsored payment path beyond what other code may do to balances (`OutsideFrame`): it delegates to SDK code.
- Weights, priorities, benchmarks and `pallets/template`: nothing beyond easy members.
- Logging and error codes: the `log::error!` reports appear as fields of the receipt; rejections are named rather than numbered.
- FromRational: states the ratio rounded down to parts per billion; an implementation that first scales a denominator above 10^9 down may lose further parts, which affects `WeightToFeeNear` and `RuntimeCoefficientExact` (`RuntimeFeeNear` covers both) but not the results about the runtime, which hold for every coefficient.
- RuntimeInclusion: takes the fee multiplier as one number per run and does not model its update between blocks.
- Collect: the textual form of a hold reason is a parameter, and of the primitive values only unsigned numbers are told apart.
- ItemsCommute: compares the event log account by account, since the global order of events does depend on the order of transactions.
- Account identifiers are natural numbers in the chain model and 32 bytes in the payload model; the two are not linked.
