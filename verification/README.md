# Transactions of the Polymesh SDK, modelled and proved in Dafny

The SDK turns a procedure into a transaction object, checks who pays for it, hands it to the signer, follows its
receipts until it is finalized, and makes a result of the last receipt. This project models that path and proves what
it keeps over every order of outside events.

| file | what it models |
|---|---|
| `Lifecycle.dfy` | `run` as a state machine: one step per answer of the signer, receipt, block, fee check or resolver; what every state keeps |
| `LifecycleSteps.dfy` | what each event does, with statuses and error codes written out |
| `LifecycleProperties.dfy` | status histories, how the terminal status is chosen, the submission promise |
| `BlockData.dfy` | which block the object's fields name, and when they can still change |
| `Failures.dfy` | runs that were told of a failed extrinsic, and exactly when they can succeed |
| `TransactionObject.dfy` | the object: its fields, and the methods and callbacks that change them, each shown to take one step of the machine |
| `Splitting.dfy`, `SplitSchedule.dfy`, `SplitOverlap.dfy`, `SplitObject.dfy` | `splitTransactions`: n such machines interleaved freely, with the two arrays they share; the in-order schedule; overlapping runs of one object; the objects |
| `Receipts.dfy` | merging receipts into a batch receipt and slicing a batch receipt |
| `BatchMerging.dfy` | `createTransactionBatch`: many transactions into one batch whose resolver slices its receipt |
| `Fees.dfy` | protocol fees, payer, subsidy, and the gate before submission; amounts are exact numbers |
| `Procedures.dfy`, `SigningContext.dfy` | preparing a transaction on a cloned context: overrides, authorization, clean-up, signing manager and address |
| `Distributions.dfy` | chunked fetching of dividend distributions against the plain specification |
| `TypeArguments.dfy` | the expansion of argument types through the table of definitions |
| `MiddlewareSync.dfy` | polling the middleware after a run |
| `DocsHierarchy.dfy` | the tree of documentation links that is built in place and printed destructively |

Classes carry the SDK's own fields and change them in place; a function over values (`Next`, `SplitNext`, `Slice`,
`ForAssets`, `CheckResult`, ...) says what each method does, and the theorems are about these functions.

## How to read the state machine

`Next(s, e)` takes one step: a call of `run`, the answer of the fee check, the signer's approval or refusal, a receipt,
a block that is fetched or lost, the value or the exception of the resolver. An event that cannot happen in a state
changes nothing. `After(batch, es)` is the state after any finite list of steps, so a statement about `After` is one
about every interleaving. `Inv` holds in all of them (`AfterInv`). `Timely` says that no receipt is delivered while the
signer has yet to answer; where it is assumed, a lemma shows what happens without it.

## What the code does not keep

Each of these is proved, with the exact condition where there is one.

- A terminal status is left if, and only if, the signer approves after the promise has been rejected
  (`TerminalLeftExactly`). An error receipt before the approval does this (`LateApprovalAfterError`), but so does a
  block that cannot be fetched (`LateApprovalAfterLostBlock`): the other two completing paths do not always wait for
  the approval either, because `Promise.all` is rejected by whichever part fails first.
- Block data are those of the lookup answered last. They are the newest in-block receipt's if, and only if, that lookup
  carries the same hash, number and index (`BlockDataNewestExactly`). They change whatever the status, if, and only if,
  a pending lookup is answered with other data (`FieldsChangeExactly`), so a run that has succeeded can afterwards come
  to name a block it has left (`StaleBlock`).
- A failed extrinsic is looked for in in-block receipts only. Whatever a finalized receipt reports, it makes an approved
  run succeed if, and only if, the newest lookup is over and a batch was not interrupted (`FinalReceiptDecides`).
- A run that was told of a failed extrinsic in a block can still succeed if, and only if, it has resolved already, or its
  promise is open and a finalized receipt is ahead of the failure (none before it has its lookup or waits for the same
  one), or the signer is still being asked and no lookup a completing receipt waits for has been answered
  (`FailureCanSucceedExactly`). It never does if no finalized receipt comes before the approval
  (`ReportedFailureNeverSucceeds`); `LateApprovalHidesFailure` is a run that does.
- A split costs what the batch costs under every fee table if, and only if, explicit fees come to nothing in all and
  each chargeable tag is multiplied as often as it occurs (`SplitCostsTheSameExactly`): fees and multipliers are not
  passed on. Neither is the third party that pays (`SplitLosesThirdParty`).
- `sliceBatchReceipt` reads the first `BatchCompleted` event. Slicing a merged receipt gives back each part if, and
  only if, that event tells the true counts (`RoundTripExactly`); a member that is itself a batch breaks it
  (`NestedBatchBreaksTheRoundTrip`).
- Merging a single transaction with `createTransactionBatch` gives an ordinary transaction whose resolver still slices a
  batch receipt, so the run is reported as failed after the chain has finalized it (`OneTransactionFailsOnceMerged`).
- `setSigningManager` replaces the manager before it looks at the first address, so a malformed one leaves an old
  address the new manager does not list (`SetManagerFitsExactly`, `OldAddressSurvives`). A change of address that is still
  waiting when the manager is changed does the same exactly if its own manager lists the address and the new one does
  not (`AnswerFitsExactly`, `OverlapBreaksIt`).
- A clone's nonce is always overwritten, so a nonce of the caller's context is not inherited (`OptionsReachTheTransaction`).
- A storage JavaScript takes for none (an empty string, zero, false) is prepared twice (`PreparedOnceExactly`).
- The details of all benefits in one chunk of assets are asked for at once. These requests respect the limit on
  concurrent ones if, and only if, no chunk of assets has more benefits than that (`DetailsLimitedExactly`); for every
  limit there are assets that have (`DetailsAreNotLimited`).
- The indexes a split has noted are 0, 1, .., k - 1 if, and only if, no two runs of one transaction other than the last
  have both resolved (`InOrderExactly`). Two can, if the second is called before the first is over (`NotedTwice`); they
  cannot if no transaction is called while a run of it is going (`InOrderIfOneAtATime`). Once the first wrong index
  stands at place k, exactly the transactions 0 to k pass the order check, whatever happens afterwards
  (`RefusedFromThenOn`).
- An alias hides what it stands for: an argument whose type is an alias of an option is not optional, and an enum is
  simple only if its variants are literally `Null` (`AliasesHide`).

## Model

| member | source | states |
|---|---|---|
| Lifecycle.NextInv | src/base/PolymeshTransactionBase.ts:191-370 | each step keeps the invariant: statuses, error, receipt, result and hash fit each other and the promise; the block fields come from one lookup; whoever decided the promise was entitled to; no promise chain that could decide is left undecided |
| Lifecycle.AfterInv | src/base/PolymeshTransactionBase.ts:191-370 | the state after any list of outside events satisfies the invariant |
| Lifecycle.Flush | src/base/PolymeshTransactionBase.ts:331-347 | letting the waiting promise chains go on changes at most the promise and the run, nothing once it is settled, and the status only by way of `catch` |
| Lifecycle.FirstReady | src/base/PolymeshTransactionBase.ts:336-347 | finds the first promise chain that need not wait any longer, because its lookup and unsubscription are over or broken, if there is any |
| Lifecycle.OnReceipt | src/base/PolymeshTransactionBase.ts:279-349 | one receipt adds at most one promise chain, of the right verdict and waiting for the newest lookup, and changes nothing of a run whose promise is settled |
| Lifecycle.FlushInv | src/base/PolymeshTransactionBase.ts:331-347 | when a chain decides, the state is consistent again and no other chain is left that should have decided |
| LifecycleSteps.FeesMean | src/base/PolymeshTransactionBase.ts:199-276 | covered fees ask the signer; a transaction that cannot be composed fails after Unapproved; a balance that is too small fails with InsufficientBalance, subsidy faults with UnmetPrerequisite, before it |
| LifecycleSteps.RefusalMeans | src/base/PolymeshTransactionBase.ts:358-368 | a user who cancels ends the run as Rejected with TransactionRejectedByUser, any other refusal as Failed with UnexpectedError |
| LifecycleSteps.ApprovalMeans | src/base/PolymeshTransactionBase.ts:352-356 | the approval stores the hash and appends Running |
| LifecycleSteps.ReceiptMeans | src/base/PolymeshTransactionBase.ts:279-342 | an in-block receipt starts one lookup with its hash and index; one with a failed extrinsic, and a finalized one, add one chain that waits for the newest lookup |
| LifecycleSteps.ErrorReceiptMeans | src/base/PolymeshTransactionBase.ts:343-344 | an error receipt ends an open run as Aborted with TransactionAborted |
| LifecycleSteps.ApprovalDecides | src/base/PolymeshTransactionBase.ts:331-342 | on approval the first chain with an answered lookup decides: a failed extrinsic or an interrupted batch ends the run as Failed with TransactionReverted, any other finalized receipt resolves it |
| LifecycleSteps.BlockDecides | src/base/PolymeshTransactionBase.ts:331-342 | so does, once approved, the first chain that waits for the lookup just answered |
| LifecycleSteps.LostBlockMeans | src/base/PolymeshTransactionBase.ts:336-347 | a failed lookup ends an open run as Failed exactly if some chain waits for it |
| LifecycleSteps.ValueMeans | src/base/PolymeshTransactionBase.ts:205-244 | the value of the transformer is the result of a Succeeded run; an error thrown ends it as Aborted, Rejected or Failed by its code |
| LifecycleProperties.EmittedIsAssigned | src/base/PolymeshTransactionBase.ts:550-569 | over every run, the StatusChange events are exactly the statuses assigned after Idle, in order |
| LifecycleProperties.HistoryOfEveryRun | src/base/PolymeshTransactionBase.ts:199-256 | over every interleaving, the status history is one of the seven ordinary forms or one of the three only a late approval can give; a terminal status is Succeeded exactly without an error and with a result, and otherwise the one for the error's code |
| LifecycleProperties.TimelyHistory | src/base/PolymeshTransactionBase.ts:199-370 | with the approval before the receipts: only ordinary histories, and no further event changes or re-emits a terminal status |
| LifecycleProperties.TerminalLeftExactly | src/base/PolymeshTransactionBase.ts:352-368 | a terminal status changes if and only if the signer was still being asked and now approves |
| LifecycleProperties.TerminalMeansDone | src/base/PolymeshTransactionBase.ts:223-255 | a terminal status means `run` is over and marked as such |
| LifecycleProperties.SuccessIsFinal | src/base/PolymeshTransactionBase.ts:219-222 | after a success no event changes anything but pending block lookups and the fields they set, and there is a result |
| LifecycleProperties.OverIsTerminal | src/base/PolymeshTransactionBase.ts:223-248 | a run that is over has a terminal status, unless the signer approved after its error |
| LifecycleProperties.TimelyRun | src/base/PolymeshTransactionBase.ts:279-347 | with the approval first, at most one promise chain ever waits, and it waits for the newest lookup there is |
| LifecycleProperties.LateApprovalAfterError | src/base/PolymeshTransactionBase.ts:343-356 | an error receipt before the approval: Aborted, then Running |
| LifecycleProperties.LateApprovalAfterLostBlock | src/base/PolymeshTransactionBase.ts:336-356 | a finalized receipt and a lost block before the approval: Failed, then Running |
| LifecycleProperties.NeverRunsAgain | src/base/PolymeshTransactionBase.ts:192-197 | calling `run` on a transaction that has a terminal status changes nothing |
| LifecycleProperties.SentExactlyWhenCovered | src/base/PolymeshTransactionBase.ts:199-202 | the signer is asked if and only if the payer can spend fees and gas and a subsidizer may and is allowed to; otherwise the run is over and Failed |
| BlockData.BlockDataAlwaysAgrees | src/base/PolymeshTransactionBase.ts:287-304 | over every interleaving, block hash, number and index are all unset or all of the in-block receipt whose lookup was answered last |
| BlockData.BlockDataSet | src/base/PolymeshTransactionBase.ts:287-342 | they are set in every reverted run of a single transaction, and in every resolved or interrupted run with an in-block receipt before the first completing one |
| BlockData.BlockDataNewestExactly | src/base/PolymeshTransactionBase.ts:295-304 | after any events, they are the newest in-block receipt's if and only if the lookup answered last carries the same data |
| BlockData.AnsweredInOrder | src/base/PolymeshTransactionBase.ts:295-304 | after any events, lookups answered in order leave the newest receipt's data |
| BlockData.FieldsChangeExactly | src/base/PolymeshTransactionBase.ts:295-304 | in any state, an event changes them if and only if it answers a pending lookup with other data |
| BlockData.FieldsCanChangeExactly | src/base/PolymeshTransactionBase.ts:295-304 | some event can still change them if and only if a lookup is pending, also after the run is over |
| BlockData.StaleBlock | src/base/PolymeshTransactionBase.ts:219-304 | a whole run: it succeeds with the block it is in, and the late answer about a retracted block then replaces that |
| LifecycleProperties.SettledOnce | src/base/PolymeshTransactionBase.ts:273-369 | no event settles the promise a second time |
| LifecycleProperties.ResolvedOnlyAfter | src/base/PolymeshTransactionBase.ts:339-342 | the promise resolves only with a finalized receipt, after approval and after the lookup it waited for, and for a batch only without an interruption |
| LifecycleProperties.TimelySuccess | src/base/PolymeshTransactionBase.ts:306-342 | with the approval first, that lookup is the newest there is and no failure was reported |
| LifecycleProperties.SettledWhenAnswered | src/base/PolymeshTransactionBase.ts:331-347 | once the signer has approved and a completing receipt has come, the promise is settled as soon as no lookup is under way |
| Failures.ReportedFailureNeverSucceeds | src/base/PolymeshTransactionBase.ts:306-337 | if no finalized receipt comes before the signer has answered, a run that was told of a failed extrinsic in a block never resolves, whatever else happens |
| Failures.FailureCanSucceedExactly | src/base/PolymeshTransactionBase.ts:287-347 | after any run that was told of a failed extrinsic, some continuation succeeds if and only if it has resolved, or a finalized receipt is ahead of the failure, or the signer is still being asked and no completing receipt has its lookup |
| Failures.HopelessForGood | src/base/PolymeshTransactionBase.ts:287-347 | if none of these holds, it holds after no continuation |
| Failures.LateApprovalHidesFailure | src/base/PolymeshTransactionBase.ts:287-342 | a whole run: a failure in a block that is retracted is forgotten, and the run resolves |
| Failures.FinalReceiptDecides | src/base/PolymeshTransactionBase.ts:287-342 | in any approved, open, listening state a finalized receipt resolves the run if and only if the newest lookup is over and a batch was not interrupted, whatever failure it reports; the run stays open exactly while that lookup is pending |
| TransactionObject.Transaction.constructor | src/base/PolymeshTransactionBase.ts:67-183 | a new object is idle, with nothing set and nothing emitted |
| TransactionObject.Transaction.UpdateStatus | src/base/PolymeshTransactionBase.ts:550-569 | sets the status and emits it, unless it is Idle |
| TransactionObject.Transaction.ReportError | src/base/PolymeshTransactionBase.ts:228-243 | aborted and rejected-by-user errors have their own status, all others are failures |
| TransactionObject.Transaction.Fail | src/base/PolymeshTransactionBase.ts:223-247 | the error is stored before its status is set, then the run is over |
| TransactionObject.Transaction.HandleExtrinsicSuccess | src/base/PolymeshTransactionBatch.ts:239-259 | a batch receipt with an interruption rejects, any other receipt resolves |
| TransactionObject.Transaction.HandleExtrinsicFailure | src/base/PolymeshTransactionBase.ts:613-637 | rejects with a revert, unless the promise is settled |
| TransactionObject.Transaction.Start | src/base/PolymeshTransactionBase.ts:191-200 | refuses exactly a transaction that has run, without a change |
| TransactionObject.Transaction.FeesCameBack | src/base/PolymeshTransactionBase.ts:200-276 | uncovered fees end the run before Unapproved; a transaction that cannot be composed ends it after |
| TransactionObject.Transaction.SignerApproved | src/base/PolymeshTransactionBase.ts:352-356 | hash, then Running, then the chains that only waited for this |
| TransactionObject.Transaction.SignerRefused | src/base/PolymeshTransactionBase.ts:358-368 | cancelled means rejected by the user, anything else is unexpected |
| TransactionObject.Transaction.ReceiptArrived | src/base/PolymeshTransactionBase.ts:279-349 | starts a lookup for an in-block receipt, ends on a failure, a finalized receipt or an error |
| TransactionObject.Transaction.SetBlockData | src/base/PolymeshTransactionBase.ts:295-304 | the answer to a lookup writes the three block fields of its own receipt, and nothing else |
| TransactionObject.Transaction.BlockFetched | src/base/PolymeshTransactionBase.ts:295-347 | and then lets waiting chains go on |
| TransactionObject.Transaction.BlockLost | src/base/PolymeshTransactionBase.ts:295-347 | writes nothing, and breaks the chains that wait for it |
| TransactionObject.Transaction.ResultReady | src/base/PolymeshTransactionBase.ts:219-247 | stores the result, then Succeeded, then the run is over |
| TransactionObject.Transaction.Handle | src/base/PolymeshTransactionBase.ts:191-370 | whatever event comes, the object does exactly what the state machine does, and keeps the invariant |
| TransactionObject.Transaction.ReadResult | src/base/PolymeshTransactionBase.ts:709-721 | looking at the status alone, it returns a value exactly when the run is over without an error, and then there is one |
| Receipts.MergeReceipts | src/utils/internal.ts:404-440 | the last receipt with all events in order and one more that tells how many each receipt had |
| Receipts.SliceBatchReceipt | src/utils/internal.ts:352-398 | removing events transaction by transaction keeps one contiguous piece, cut at the sums of the counts |
| Receipts.RemoveInTurn | src/utils/internal.ts:376-395 | the same for the loop alone, also when the counts exceed the events |
| Receipts.MergeMeans | src/utils/internal.ts:404-440 | the merged receipt has the last one's status and index, every receipt's events where those before it end, and at the end one BatchCompleted event with every receipt's number of events |
| Receipts.SliceMeans | src/utils/internal.ts:352-398 | a slice is refused exactly without the event or for a range without counts, and otherwise holds the events between the two sums of counts |
| Receipts.EmittedExactly | src/utils/internal.ts:293-315 | an event of a kind is found if and only if there is one |
| Receipts.SliceOfMerge | src/utils/internal.ts:352-440 | if the first counts are true, slicing a merged receipt gives the events of exactly the receipts asked for |
| Receipts.RoundTripExactly | src/utils/internal.ts:352-440 | it does so for every range if and only if they are true |
| Receipts.PlainReceiptsAreTruthful | src/utils/internal.ts:418-432 | they are if no receipt has such an event of its own |
| Receipts.NestedBatchBreaksTheRoundTrip | src/utils/internal.ts:357-361 | a member that is itself a batch is sliced wrongly |
| Splitting.SplitNextInv | src/base/PolymeshTransactionBatch.ts:159-234 | each step of any of the n objects keeps: processed indexes 0..k-1, their receipts in order, later objects untouched, transactions sent in order |
| Splitting.SplitAfter | src/base/PolymeshTransactionBatch.ts:159-234 | so does every schedule of steps of all objects |
| Splitting.AlwaysInOrder | src/base/PolymeshTransactionBatch.ts:168-230 | processed indexes are exactly 0..k-1, receipts those of these k in order, transactions sent a prefix, each once, at most one ahead |
| Splitting.RefusedExactly | src/base/PolymeshTransactionBatch.ts:218-227 | a call passes the order check if and only if every predecessor has resolved |
| Splitting.InOrderIsNeverRefused | src/base/PolymeshTransactionBatch.ts:218-230 | a call whose predecessors succeeded gets as far as its fee check |
| Splitting.FailureStopsTheRest | src/base/PolymeshTransactionBatch.ts:216-230 | once one transaction has ended in anything but success, no later one is started or sent in any continuation |
| Splitting.BadlyForGood | src/base/PolymeshTransactionBase.ts:192-256 | a run that ended badly never turns into a success |
| SplitOverlap.InOrderExactly | src/base/PolymeshTransactionBatch.ts:207-227 | over any calls and events, overlapping or not, the noted indexes are in order if and only if no two runs of one transaction other than the last have both resolved |
| SplitOverlap.InOrderIfOneAtATime | src/base/PolymeshTransactionBase.ts:192-197 | they are if no transaction is called while a run of it is still going |
| SplitOverlap.RefusedFromThenOn | src/base/PolymeshTransactionBatch.ts:218-227 | once the first wrong index stands at place k, a transaction passes the order check if and only if it is one of 0 to k, after any further events |
| SplitOverlap.WrongIndexIsRepeated | src/base/PolymeshTransactionBatch.ts:207-227 | that wrong index is smaller than k and also stands at its own place |
| SplitOverlap.NotedTwice | src/base/PolymeshTransactionBatch.ts:207-209 | one list of events from the start: the first transaction is called twice, both runs are approved and finalized, and its index is noted twice |
| SplitOverlap.OneMoreRun | src/base/PolymeshTransactionBase.ts:192-197 | a call while other runs of the object are under way is not refused, and gets as far as the signer's approval |
| SplitOverlap.OverlapLocksTheBatch | src/base/PolymeshTransactionBatch.ts:218-227 | whenever two such runs have resolved there is a place beyond which every transaction is refused for good, and none up to it is |
| Splitting.SplitEndsAsTheBatch | src/base/PolymeshTransactionBatch.ts:184-214 | over every schedule, once the last transaction has resolved and is over, all n have resolved and it has ended as applied: with the transformer's outcome for the value the resolver function returns for the merge of exactly these n receipts in order, or the error thrown; without a transformer with the function's outcome; a plain resolver takes the place of that value |
| Splitting.ResolverThenTransformer | src/base/PolymeshTransactionBase.ts:205-222 | the same written out for a resolver function and a transformer |
| Splitting.ProduceMeans | src/base/PolymeshTransactionBase.ts:205-219 | what a run makes of a receipt is what applying resolver and transformer gives, case by case, and nothing else |
| Splitting.InnerResultsAreVoid | src/base/PolymeshTransactionBatch.ts:203-214 | every other transaction that is over after resolving has succeeded with no value |
| Splitting.SplitRefinesBatch | src/base/PolymeshTransactionBatch.ts:184-214 | in particular whenever the last transaction succeeds, that value is its result |
| Splitting.BatchGivesTheSame | src/base/PolymeshTransactionBase.ts:202-244 | any run of the batch that resolves with that merge ends with the same status, error and result |
| Splitting.BatchRunReaches | src/base/PolymeshTransactionBatch.ts:239-259 | every finalized receipt without an interruption resolves some run of the batch |
| Splitting.ScheduleDoesNotMatter | src/base/PolymeshTransactionBatch.ts:184-214 | two schedules with the same receipts have the same result |
| SplitSchedule.InOrderMatchesTheBatch | src/base/PolymeshTransactionBatch.ts:128-234 | with one run after the other, each approved and then finalized, nothing is refused: for all receipts, every transaction but the last succeeds, and the last one ends with the value or the error the batch's functions give for the merge of these receipts |
| SplitSchedule.OneTour | src/base/PolymeshTransactionBase.ts:191-256 | the exact effect of one such run on the split: its object ends, its receipt and index are noted unless it is the last, it is sent once |
| SplitObject.SplitBatch.constructor | src/base/PolymeshTransactionBatch.ts:159-234 | n distinct idle objects and two empty arrays |
| SplitObject.SplitBatch.Run | src/base/PolymeshTransactionBatch.ts:216-231 | throws exactly out of order or for an object that has run, and then changes nothing; any other call starts the original `run` |
| SplitObject.SplitBatch.Note | src/base/PolymeshTransactionBatch.ts:203-214 | a resolver other than the last one's pushes its index and its receipt, once |
| SplitObject.SplitBatch.Handle | src/base/PolymeshTransactionBatch.ts:171-233 | an event of one object changes that object and the shared arrays as specified, and no other object |
| BatchMerging.PrepareStorage | src/api/procedures/createTransactionBatch.ts:58-135 | the entries of all inputs in order with their tags, and for each input the range its own entries occupy |
| BatchMerging.EntriesStandInOrder | src/api/procedures/createTransactionBatch.ts:77-112 | every input's entries stand in order where those of its predecessors end, and its range is theirs |
| BatchMerging.Parts | src/api/procedures/createTransactionBatch.ts:31-35 | the combined resolver returns the value of every input's part in order, or the error of one |
| BatchMerging.EachSeesItsOwn | src/api/procedures/createTransactionBatch.ts:118-129 | on a merged receipt every input's resolver is given the events of exactly its own transactions |
| BatchMerging.MergedThenSplit | src/utils/internal.ts:418-428 | merging transactions into a batch and splitting it loses nothing: over every schedule, a successful last transaction holds for each input the result of its own events |
| BatchMerging.NeedsABatchReceipt | src/api/procedures/createTransactionBatch.ts:118-129 | without a BatchCompleted event the combined resolver succeeds if and only if no input has a resolver function and no transformer throws |
| BatchMerging.OneTransactionFailsOnceMerged | src/base/Procedure.ts:358-371 | a single merged transaction is not made a batch, and its finalized run is reported as failed |
| BatchMerging.MergingKeepsFees | src/api/procedures/createTransactionBatch.ts:84-108 | the merged batch costs what its inputs cost, explicit fees and multipliers included |
| Fees.GetProtocolFees | src/base/Context.ts:558-630 | one entry per distinct tag; a chargeable tag costs the balance of its first entry in the table times the coefficient, any other nothing |
| Fees.ChainFeeMeans | src/base/Context.ts:600-618 | the same for one tag |
| Fees.ChargeableTags | src/utils/conversion.ts:2713-2727 | the twelve chargeable tags |
| Fees.EntryFeeMeans | src/base/PolymeshTransaction.ts:100-111 | without a multiplier, an entry costs its explicit fee, or else what its tag costs |
| Fees.MultiplierMeans | src/base/PolymeshTransaction.ts:110 | a multiplier multiplies either |
| Fees.ProtocolFeesMean | src/base/PolymeshTransactionBatch.ts:104-118 | a single transaction costs its entry, a batch the sum of its entries |
| Fees.SingleProtocolFees | src/base/PolymeshTransaction.ts:100-111 | explicit fee or chain fee, times the multiplier |
| Fees.BatchProtocolFees | src/base/PolymeshTransactionBatch.ts:104-118 | the sum over the entries |
| Fees.FeesAddUp | src/base/PolymeshTransactionBatch.ts:104-118 | fees of concatenated batches add up |
| Fees.FeesIgnoreOrder | src/base/PolymeshTransactionBatch.ts:104-118 | reordering a batch does not change its fees |
| Fees.CollapseKeepsFees | src/base/Procedure.ts:358-374 | the collapse of a one-element batch keeps its fees |
| Fees.CollapseIsMorePermissive | src/base/Procedure.ts:358-374 | and refuses nobody the batch would let through; beyond those, only subsidized callers without a third party get through |
| Fees.SplitCostsTheSameExactly | src/base/PolymeshTransactionBatch.ts:171-180 | the split costs the same under every fee table if and only if it is balanced |
| Fees.PlainBatchIsBalanced | src/base/PolymeshTransactionBatch.ts:171-180 | a batch without explicit fees and multipliers is |
| Fees.BalancedSplitCostsTheSame | src/base/PolymeshTransactionBatch.ts:165-180 | the transactions of a balanced split cost in all what the batch costs |
| Fees.SplitCanCostMore | src/base/PolymeshTransactionBatch.ts:171-180 | one explicit fee can make the split dearer |
| Fees.SplitLosesThirdParty | src/base/PolymeshTransactionBatch.ts:171-202 | the third party that would have paid for the batch pays for none of its parts |
| Fees.CoveredExactly | src/base/PolymeshTransactionBase.ts:656-701 | nothing is thrown if and only if whoever pays can spend the total (free balance less the larger freeze) and a subsidizer may pay and has the allowance |
| Fees.FaultExactly | src/base/PolymeshTransactionBase.ts:656-701 | what is thrown tells, in this order, that the payer may not subsidize, that the allowance is too small, that the balance is too small |
| Fees.BalanceMeans | src/base/Context.ts:330-345 | the total is free and reserved, the locked amount the larger freeze, and what can be spent is free less locked |
| Fees.SubsidyMeans | src/base/Context.ts:637-651 | single transactions of nine modules may be subsidized, no batch, and only the removal of a paying key ignores subsidies |
| Fees.OnePayer | src/base/PolymeshTransactionBase.ts:739-772 | precedence of third party, subsidizer and caller leaves exactly one payer |
| Fees.SubsidizedBatchIsRefused | src/base/PolymeshTransactionBatch.ts:120-126 | a batch of a subsidized caller without a third party is never sent |
| Procedures.RefusedExactly | src/base/Procedure.ts:290-343 | `prepare` refuses for lack of authorization if and only if `checkAuthorization` reports something missing, and names the first of identity, freeze, signer, agent, roles |
| Procedures.IdentityMissedExactly | src/base/Procedure.ts:173-221 | an identity is missed exactly when there is none and roles or agent permissions with assets and transactions are asked for; then those are not granted |
| Procedures.SignerAnswer | src/base/Procedure.ts:166-204 | the signer is checked for the signer permissions, or else the general ones: a verdict stands, permissions are looked up for the account, nothing asked is granted |
| Procedures.AgentAnswer | src/base/Procedure.ts:166-225 | likewise for agents: looked up for one asset and its transactions, all missing without an identity, granted if either list is missing |
| Procedures.RolesAndFreezeAnswer | src/base/Procedure.ts:179-231 | roles are checked for the identity, all missing without one; whether the account is frozen is always asked |
| Procedures.NoDecision | src/base/Procedure.ts:164-219 | no decision if the callback throws, without a signing address, or for several assets |
| Procedures.CloneMeans | src/base/Procedure.ts:120-136 | the clone has the nonce given, and the address given if the manager lists it; otherwise what is thrown |
| Procedures.CheckMeans | src/base/Procedure.ts:138-162 | the decision is made for the clone and the storage prepared with it |
| Procedures.PreparedMeans | src/base/Procedure.ts:345-374 | with everything granted, the transaction prepared, or the batch of several, one alone unwrapped, with its third party; or what preparing them threw |
| Procedures.OptionsReachTheTransaction | src/base/Procedure.ts:120-136 | a prepared transaction carries the overrides, is sent with the given nonce or -1 whatever the caller's context holds, and signs only for an address the manager lists |
| Procedures.PreparedOnceExactly | src/base/Procedure.ts:138-142 | storage is prepared at most once exactly if it is not one JavaScript takes for none |
| Procedures.Procedure.Setup | src/base/Procedure.ts:120-143 | clones, overrides and prepares only what is not there yet, and leaves storage unset when preparing it throws |
| Procedures.Procedure.Authorize | src/base/Procedure.ts:157-239 | the step-by-step decision, with its shared identity lookup, is the declarative one |
| Procedures.Procedure.CheckAuthorization | src/base/Procedure.ts:246-256 | its answer is a function of the arguments alone, and context and storage are unset afterwards, on success and error |
| Procedures.Procedure.Prepare | src/base/Procedure.ts:266-378 | so is that of `prepare`, which changes the procedure only, never the caller's context |
| SigningContext.SetManagerFitsExactly | src/base/Context.ts:213-236 | changing the manager leaves an address it lists, or none, if and only if its first address is well formed or the old one is its own |
| SigningContext.OldAddressSurvives | src/base/Context.ts:222-235 | an input for which it does not |
| SigningContext.AlwaysFits | src/base/Context.ts:213-295 | over any sequence of completed changes with well-formed addresses the signing address is unset or listed by the current manager |
| SigningContext.CompletedIsApplied | src/base/Context.ts:213-295 | step by step, a change that is completed before the next one starts does what the specification says |
| SigningContext.AnswerFitsExactly | src/base/Context.ts:280-294 | the accounts a waiting change of address gets make the address unfit if and only if its own manager lists it and the current one does not |
| SigningContext.FitsWhenQuiet | src/base/Context.ts:213-295 | over any events of overlapping changes, if no answer does that, the signing address is unset or listed by the current manager whenever no change is under way |
| SigningContext.OverlapBreaksIt | src/base/Context.ts:213-295 | five events of two overlapping changes after which nothing is pending and the manager does not list the address |
| SigningContext.SetAddressFits | src/base/Context.ts:274-295 | an address is accepted if and only if there is a manager, it is well formed and listed |
| SigningContext.SetAddressMeans | src/base/Context.ts:274-295 | a refused address changes nothing and says why; an accepted one changes nothing else |
| SigningContext.SetManagerMeans | src/base/Context.ts:213-236 | no manager clears both, one without accounts the address; otherwise its first account becomes the address, or, malformed, is refused |
| SigningContext.Context.Clone | src/base/Context.ts:1309-1315 | a new object with the same manager, address and nonce |
| SigningContext.Context.SetSigningAddress | src/base/Context.ts:274-295 | a refused change leaves everything as it was |
| SigningContext.Context.SetSigningManager | src/base/Context.ts:213-236 | clearing the manager clears the address; a new one brings its first address |
| Distributions.Chunk | src/base/Context.ts:695 | consecutive non-empty pieces that make up the whole, all of the given size but the last |
| Distributions.FetchBenefits | src/base/Context.ts:690-738 | the parallel arrays hold the eligible benefits of all assets in order; waves of assets respect the limit; each wave of details is that of one chunk's benefits |
| Distributions.FetchStored | src/base/Context.ts:740-750 | each key is asked for once, in order; no call exceeds a page, no wave the limit |
| Distributions.Assemble | src/base/Context.ts:752-778 | matching by index pairs each stored distribution with its own ticker, id and parameters |
| Distributions.GetDividendDistributionsForAssets | src/base/Context.ts:681-781 | for all positive sizes the result is the unchunked specification, each key and each detail is asked for once, and the waves of details respect the limit exactly if no chunk of assets has too many benefits |
| Distributions.ForAssetsByBenefit | src/base/Context.ts:690-778 | asset by asset is the same as over the list of all benefits |
| Distributions.ForAssetsMean | src/base/Context.ts:690-778 | a distribution is in the specification if and only if it is stored for a predictable or unpredictable benefit of one of the assets, and carries that benefit's ticker, number, action and details |
| Distributions.ForAssetsInOrder | src/base/Context.ts:690-778 | the results of a list of assets follow each other asset by asset |
| Distributions.ForActionsInOrder | src/base/Context.ts:705-778 | and those of one asset action by action |
| Distributions.DetailsLimitedExactly | src/base/Context.ts:709-730 | every wave of requests for details respects the limit if and only if no chunk of assets has more benefits than that |
| Distributions.DetailsAreNotLimited | src/base/Context.ts:709-730 | for every limit there is an asset whose only wave goes beyond it |
| TypeArguments.ProcessType | src/base/utils.ts:56-141 | keeps the caller's name and raw type, and is optional exactly for an outermost Option |
| TypeArguments.TerminatesExactlyIfAcyclic | src/base/utils.ts:17-54 | every name's expansion ends if and only if no definition refers back to itself through other definitions |
| TypeArguments.TerminatesExactlyIfRanked | src/base/utils.ts:17-54 | that is, if and only if the names can be ranked by the depth of their expansions |
| TypeArguments.Expand | src/base/utils.ts:56-141 | for every table without cycles and every type, with no ranking given, there is a result with the caller's name and raw type, optional exactly for an outermost Option |
| TypeArguments.RankedIsAcyclic | src/base/utils.ts:17-141 | any ranked table is one without cycles, and any ranking gives that result |
| TypeArguments.RankDoesNotMatter | src/base/utils.ts:17-141 | the ranking that shows it has no influence on the result |
| TypeArguments.AliasChainsCanBeShortened | src/base/utils.ts:46-54 | replacing every alias by the end of its chain changes no result at any nesting |
| TypeArguments.AliasesStandForTheirEnds | src/base/utils.ts:46-54 | the same for every table without cycles and every type, which stays without cycles |
| TypeArguments.Precedence | src/base/utils.ts:24-54 | root types win, undefined names are unknown, a followed name has the shape of the end of its chain |
| TypeArguments.WrappersKeepShape | src/base/utils.ts:72-83 | any stack of Compact and Option leaves the shape alone |
| TypeArguments.MembersAreKept | src/base/utils.ts:84-132 | structs, tuples and enums keep number, order and names of their members; an enum is simple exactly if all its variants are Null |
| TypeArguments.ShapeMeans | src/base/utils.ts:65-139 | for every table without cycles: a vector is an array of its expanded element, structs, tuples and rich enums hold their members, each expanded by itself, wrappers have the shape of what they wrap, a vector of fixed length is text, anything else unknown |
| TypeArguments.NameShapeMeans | src/base/utils.ts:24-54 | for every such table: the shape of a name is its root type, Null, unknown, or that of its definition expanded |
| TypeArguments.DecimalMeans | src/base/utils.ts:88 | the name of a place in a tuple is its number in decimal notation |
| TypeArguments.AliasesHide | src/base/utils.ts:65-70 | an alias of an option is not optional, an alias of Null makes no enum simple |
| MiddlewareSync.EmitWhenMiddlewareIsSynced | src/base/PolymeshTransactionBase.ts:492-545 | exactly one notice: success right at the first poll that reaches the target and no poll after it, or an error at the sixth or when the target is unknown |
| MiddlewareSync.FirstReach | src/base/PolymeshTransactionBase.ts:511-515 | the first answer that reaches the target, if any does |
| DocsHierarchy.WalkUnique | scripts/processDocs.js:28-40 | a folder lies at the end of one path only |
| DocsHierarchy.LastMeans | scripts/processDocs.js:37 | a path's link is that of the last module with that path, and of no other |
| DocsHierarchy.Hierarchy.Insert | scripts/processDocs.js:30-38 | one module sets the link at its path and changes no other |
| DocsHierarchy.Hierarchy.Convert | scripts/processDocs.js:28-40 | afterwards each path has the link of the last module with that path, and the folders are those the modules' paths go through, in the order in which they came up |
| DocsHierarchy.EachPathOnce | scripts/processDocs.js:79-108 | the order of printing lists each path that has a link once, and nothing else |
| DocsHierarchy.ListedInOrder | scripts/processDocs.js:79-108 | the order of printing is depth first, with the children of a folder in the order in which they came up |
| DocsHierarchy.Hierarchy.Print | scripts/processDocs.js:79-108 | printing a folder gives every link below it, depth first, each at its depth and inside the dropdowns of the folders around it, deletes exactly those, and closes every dropdown it opens |
| DocsHierarchy.Hierarchy.Render | scripts/processDocs.js:28-108 | the printed links are those of the distinct paths, each once, the last module winning; a path comes before what is below it, and where two part, the one whose way came up first; each link has its depth and its open dropdowns, as given by its path alone |

## Left out

- Splitting.SplitEndsAsTheBatch: runs of one object are assumed not to overlap, because `hasRun` is only set when a run is over (src/base/PolymeshTransactionBase.ts:247); `SplitOverlap.InOrderExactly` says what is lost otherwise.
- SplitOverlap.InOrderExactly: each started run is followed by itself; of the fields two runs of one object share, only `hasRun` is looked at, and results are not.
- SplitSchedule.InOrderMatchesTheBatch: each run is one list of events, with no in-block receipt; `Splitting.SplitEndsAsTheBatch` and `Splitting.InOrderIsNeverRefused` are about all schedules.
- LifecycleProperties.TimelyHistory: assumes that no receipt is delivered before the signer has answered; `TerminalLeftExactly` says exactly what happens without that.
- Failures.FailureCanSucceedExactly: unsubscribing takes effect or throws, and all pending calls of `unsub` of one run do the same.
- SigningContext.AlwaysFits: managers have fixed lists of addresses, and a change is completed before the next one starts; `SigningContext.FitsWhenQuiet` is about changes that overlap.
- Procedures.Procedure.Prepare: the callbacks and the chain answer alike when asked alike, and a callback that throws does so by rejecting; mortality, signer objects and transformers are passed along unchanged and not modelled.
- Procedures.Procedure.Authorize: the concurrent lookups of permissions and of the freeze are taken in sequence, so which of two simultaneous failures is reported is not captured.
- BatchMerging.Parts: the resolvers are settled values; `createTransactionBatch.ts:122-127` hands a resolver's promise to the transformer without awaiting it. Of several failing parts the first in order is reported, not the first in time.
- TypeArguments.ProcessType: takes a ranking of the definitions, which every table without cycles has; `TypeArguments.Expand` is without. A plain definition's text is taken to be the definition itself, and property names JavaScript objects inherit are not looked up in the tables.
- DocsHierarchy.Hierarchy.Convert: the objects of the tree are entries of one list and references are indexes into it; segments named `__value`, inherited property names (`Usable`) and empty links are excluded by the precondition, because the script loses links for them; integer-like names, which JavaScript lists first, are listed in order of creation.
- DocsHierarchy.Hierarchy.Print: labels made of names, spaces and the text of the Markdown are left out; names, links, depths and the beginnings and ends of dropdowns are kept.
- Distributions.GetDividendDistributionsForAssets: requests of one wave are answered together; the chain's storage is a function of the key.
- Status listeners that throw, and listeners as such: only the sequence of events is kept.
- The polkadot API, SCALE codecs, signing, GraphQL and balances as integers: the chain's answers are inputs, amounts are real numbers; `Account.getBalance` is taken to be `Context.accountBalance`.
- Overflow of the `u32` event counts in a merged receipt: counts are unbounded.
- The parser behind `getTypeDef` and the contents of the tables of root types and definitions, which are parameters.
- Error messages and their data, delays between polls, gas estimation.
- Fees at an earlier block, subscriptions to balances and subsidies: the same assembly behind another call.
- Claims from the chain and from the middleware, the disconnect proxy, account management, settlements, corporate actions and the other build scripts: wiring or tables without behaviour of their own.
