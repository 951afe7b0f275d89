# Verified models of the firm books

A Dafny 4.11 model of the ledger, the subledgers and the protocols around them, with proofs about
whole runs. `dafny verify dfyconfig.toml` checks everything.

The model keeps the tables of one organization. A row's id is its position in its table, amounts are
whole cents, a date is the number yyyymmdd. A service method is one transaction on a class of tables:
its contract says that the new tables are what a specification function computes from the old ones,
and that a refusal changes nothing. Laws are lemmas about those specification functions, from one
step up to every run.

| modules | what they model |
|---|---|
| `Tables`, `PostingEngine`, `JournalReversal` | posting entries and drafts, cached account and bank balances, locks and cutoffs, mirror journals |
| `LedgerLaws`, `LedgerSteps`, `LedgerRuns` | the ledger invariant; runs of posting, reversing, allocating, unmatching, matching by document, verifying, creating entries from statement lines and removing them |
| `StatementReversal` | removing an entry created from a statement line: the one reversal that may take an active allocation with it |
| `LegacyMatches`, `LegacyLaws` | matching statement lines by document without a journal line, entries created that way, and dropping such matches |
| `StatementEntries`, `EntryLaws` | booking and allocating what is left of a statement line, against its removal |
| `ManualReversal`, `FullRuns`, `BankExamples` | reversals of manual journals and fixed assets, which leave out checks; runs of everything; concrete books |
| `PostingChecks`, `BankChecks`, `UndoEffects` | what accepted postings, reversals, allocations, matches and undos have checked and moved, in the columns themselves |
| `BankAllocations`, `BankLaws` | allocations sharing the capacity of statement lines and journal lines, and legacy matches promoted to them |
| `Subledger`, `SubledgerServices` | undoing payments, notes, refunds, write-offs, advances and applications, and voiding documents, for customers and vendors |
| `VendorRefunds`, `RefundExample` | paying out a vendor note, its reversal, and refunds whose note is reversed first |
| `SubledgerLaws`, `VendorLaws`, `FinanceRuns` | settlement sums, vendor balances, and runs of the ledger and both subledgers together |
| `CanonicalJson`, `CanonicalJsonLaws` | canonical text and redaction of JSON values |
| `CommandService`, `CommandLaws`, `ApiClient`, `ExactlyOnce` | command receipts, the browser's pending keys, and both over a lossy network |
| `Approvals`, `ApprovalLaws` | approval requests pinned to a document hash |
| `InvoiceGuards` | the guards around invoice creation in one browser tab |
| `BankFeed` | importing a paged bank feed under duplicate fingerprints |
| `MonthlyRollup` | monthly turnovers kept up line by line, against a rebuild |
| `QuotationTotals`, `Base32`, `NumberWords` | quotation arithmetic, the TOTP secret codec, amounts in words |
| `UrlText`, `FinanceRoute`, `FinanceRouteLaws` | form-encoded texts and routes written into the address bar |
| `Sums`, `Texts` | sums over rows; trimming, splitting and joining |

Findings. Some properties one would expect fail in the code; a lemma says exactly when each one holds.

- A statement line has the status of its allocations unless a live legacy match rests on it: matching by
  document marks a line MATCHED that no allocation uses. The invariant of the books says so, and
  `BankExamples.MatchedByLegacyOnly` has one such line, whose match can be verified
  (`BankExamples.LegacyOnlyVerified`).
- Dropping a legacy match marks its line MATCHED as soon as any matched row is left, whatever its amount.
  The status is wrong exactly when no live legacy match is left on the line and its allocations take up
  some but not all of it (`LegacyLaws.DropKeepsBooksIff`, `LegacyLaws.DropUnsoundIff`, and a line of 100 with
  60 allocated in `BankExamples.DropLeavesMatched`).
- Reversing a manual journal, or the journal of a fixed asset, leaves out three checks of
  `reversePostedJournal`. It keeps the books consistent exactly when the journal is posted, is no reversal
  and has no active allocation (`ManualReversal.SourceKeepsBooksIff`); one allocated journal and one reversal
  go through in `BankExamples.AllocatedJournalReversed` and `BankExamples.ReversalReversed`. Reversing a draft
  takes back what was never posted (`ManualReversal.SourceTakesBack`). Cached balances, trial balance, history
  and closed periods hold in all runs nevertheless (`FullRuns`).
- An entry created from a statement line by the older route is the line's last one, even after its removal
  (`FullRuns.CreatedAtMostOnce`).
- The import of a bank feed stores two transactions with one date, amount, direction, reference and
  narration once. A finished pass stores every transaction exactly when all fingerprints differ
  (`BankFeed.AllStoredIffPrintsDiffer`, and two such transactions in `BankFeed.TwinStoredOnce`).
- Paying out a vendor note lowers its remaining credit and not the vendor's unused credits, so the two
  differ by exactly the live refunds of the vendor's notes until these are undone
  (`VendorRefunds.RefundingOpensGap`, `VendorRefunds.RefundThenReverseKeepsDrift`,
  `VendorLaws.CreditsAgreeIffNothingRefunded`, and a note of 100 in `VendorRefunds.PaidOutNote`).
- Reversing a vendor credit does not check for live refunds of it, as reversing a credit note does. A
  refund left behind can never be undone, and the unused credits it was paid from stay
  (`VendorRefunds.NoteReversalStrandsRefunds`, `FinanceRuns.StrandedForEver`, and the same note in a run
  of three transactions in `RefundExample.PaidOutNoteIsReversed`).
- An answer to an older attempt drops the key of a newer attempt of the same request
  (`ExactlyOnce.LateAnswerDropsNewerKey`, `ExactlyOnce.OtherAttemptLosesKey`).
- A repeated command whose recorded result is null is answered as still in progress, for ever
  (`CommandLaws.ExecutedOnce`, and one such command in `CommandLaws.NullResultIsNeverReplayed`). The failure
  is latent: the commands run through the service today all seem to return an object.
- Configuring a first approval rule, for any other type, drops the default rule of period reopenings and
  with it their approval by the owner; what the other types require, and of whom, stays
  (`ApprovalLaws.ConfiguringDropsOnlyReopenings`, `ApprovalLaws.ReopeningApprovalIsDropped`).
- Requests of types without a table are approvable only for amounts within a cent of zero
  (`ApprovalLaws.TablelessApprovable`).
- A base32 text of forty hexadecimal digits is decoded as hexadecimal (`Base32.DecodeInvertsEncode`),
  and Western number words end at two trillion (`NumberWords.WesternTextMeans`).

## Model

| member | source | states |
|---|---|---|
| `PostingEngine.AddUpLines` | server/src/accounting/postingEngine.ts:203-218 | accepts exactly the lines with one positive safe amount each, and returns the two column totals |
| `PostingEngine.InsertEntry` | server/src/accounting/postingEngine.ts:278-303 | one more journal with these lines; every account and bank balance moved by the signed sum of the lines on it |
| `PostingEngine.PostEntry` | server/src/accounting/postingEngine.ts:192-309 | either the first failing check in the code's order and unchanged tables, or the posted journal and moved balances |
| `PostingEngine.PostExistingDraft` | server/src/accounting/postingEngine.ts:84-190 | the same for a stored draft, whose lines are posted as they are |
| `PostingEngine.FirstProblemAt` | server/src/accounting/postingEngine.ts:232-270 | the reported problem is that of the first line failing a check, and none is reported exactly when every line passes |
| `PostingChecks.PostMovesAccount` | server/src/accounting/postingEngine.ts:46-55 | posting raises an account by its debits less its credits if it is said to be debit-normal, or not said and no liability, equity or income account; otherwise by its credits less its debits |
| `PostingChecks.DraftMovesAccount` | server/src/accounting/postingEngine.ts:130-160 | the same for posting a draft |
| `PostingChecks.PostMovesBank` | server/src/accounting/postingEngine.ts:286-303 | a bank moves by the lines on its ledger account, or on an account with its own id, each by that account's normal side |
| `PostingChecks.DraftMovesBank` | server/src/accounting/postingEngine.ts:130-160 | the same for a draft |
| `PostingChecks.PostedIff` | server/src/accounting/postingEngine.ts:192-285 | an entry is posted exactly when number, date, lines, references, balance, locks, reconciliations and the uniqueness of its number allow it, and is then the last journal |
| `PostingChecks.PostRefusedBecause` | server/src/accounting/postingEngine.ts:192-285 | which reason a refused entry gets, in the order they are looked for |
| `PostingChecks.FirstBadLine` | server/src/accounting/postingEngine.ts:234-266 | the first line that is not usable decides, its account before its references |
| `PostingChecks.DraftPostedIff` | server/src/accounting/postingEngine.ts:84-128 | a draft is posted exactly when its lines, locks and reconciliations allow it |
| `JournalReversal.ReversePostedJournal` | server/src/accounting/FinancialDestructiveActionsService.ts:36-135 | posts the mirror journal and links both ways, or refuses with unchanged tables |
| `PostingChecks.ReversedIff` | server/src/accounting/FinancialDestructiveActionsService.ts:49-134 | a journal is reversed exactly when it is posted, unlinked, free of other active allocations and its mirror can be posted; the mirror has each line with its sides exchanged and all its references |
| `PostingChecks.ReverseRefusedBecause` | server/src/accounting/FinancialDestructiveActionsService.ts:49-134 | which reason a refused reversal gets: allocations, then the journal, then its mirror |
| `StatementReversal.RemoveCreatedTransaction` | server/src/banking/BankReconciliationService.ts:1424-1508 | the chosen statement-created entry is reversed, its match released and the statement line reclassified, or nothing changes |
| `LedgerLaws.PostKeepsLedger` | server/src/accounting/postingEngine.ts:192-309 | a posting keeps: balances equal to folds of posted lines, equal side totals, distinct numbers, matched reversal links |
| `LedgerLaws.DraftKeepsLedger` | server/src/accounting/postingEngine.ts:84-190 | the same for posting a draft |
| `LedgerLaws.ReverseKeepsLedger` | server/src/accounting/FinancialDestructiveActionsService.ts:75-134 | the same for a reversal, with or without an exempted allocation |
| `LedgerLaws.LinesShiftTrial` | server/src/accounting/postingEngine.ts:130-160 | lines move the difference between debit-normal and credit-normal totals by their debits minus credits, whatever the normal sides |
| `LedgerLaws.ReversalHasZeroNetEffect` | server/src/accounting/FinancialDestructiveActionsService.ts:98-134 | journal and reversal cancel on every account, and each cached balance returns by exactly what the journal moved it |
| `LedgerLaws.PostThenReverseRestoresBalances` | server/src/accounting/FinancialDestructiveActionsService.ts:98-134 | posting and then reversing leaves every account and bank balance where it was |
| `LedgerRuns.RunKeepsBooks` | server/src/accounting/postingEngine.ts:57-60 | every run of postings, drafts, reversals, allocations, unmatches, matches by document, verifications, both ways of creating an entry from a statement line and the removal of such entries keeps the ledger and bank invariants, from any consistent books, live legacy matches on matched lines among them |
| `LedgerSteps.RemoveStepKeepsBooks` | server/src/banking/BankReconciliationService.ts:1487-1507 | removing a created entry keeps the invariants, whether its match is a legacy one or an active allocation, which is released in the transaction that reverses the journal under it |
| `LedgerRuns.FreshBooksOk` | server/src/accounting/postingEngine.ts:84-190 | books with nothing posted and nothing allocated satisfy them, with any drafts and legacy matches, and with statement lines of any status as long as those marked MATCHED or PARTIALLY_MATCHED have a live legacy match |
| `LedgerRuns.ReversalsFormMatching` | server/src/accounting/FinancialDestructiveActionsService.ts:75-134 | in every such run a journal is reversed at most once, a reversal never, and forward and backward links agree |
| `LedgerRuns.NoAllocationOnReversedJournal` | server/src/accounting/FinancialDestructiveActionsService.ts:49-85 | in every such run no active allocation points at a reversal or a reversed journal; the reversals that leave out checks are in `FullRuns` |
| `LedgerRuns.RunKeepsHistory` | server/src/accounting/FinancialDestructiveActionsService.ts:98-134 | no run changes a journal's number, date, lines or backward link, un-posts it or replaces its reversal |
| `LedgerRuns.RunKeepsClosedBalances` | server/src/accounting/postingEngine.ts:222-230 | while a period lock or bank reconciliation covers a day, no run changes the account's balance as of that day |
| `ManualReversal.ReverseJournal` | server/src/services/ManualJournalService.ts:267-338 | posts the mirror of a JV/ journal without references and links both ways, or refuses with unchanged tables |
| `ManualReversal.ReverseSourceJournal` | server/src/services/FixedAssetService.ts:34-79 | the same for the journal of a fixed asset, on a given day |
| `PostingChecks.ManualReversedIff` | server/src/services/ManualJournalService.ts:273-324 | by hand a JV/ journal is reversed exactly when it is not reversed yet, its stored reason does not differ and its mirror, without references, can be posted |
| `ManualReversal.SourceTakesBack` | server/src/services/FixedAssetService.ts:49-62 | whatever the journal's status, every account and bank balance moves by the opposite of its lines |
| `ManualReversal.SourceKeepsBooksIff` | server/src/services/ManualJournalService.ts:279-324 | an accepted one keeps the ledger and bank invariants exactly when the journal is posted, is no reversal and has no active allocation |
| `BankExamples.AllocatedJournalReversed` | server/src/services/ManualJournalService.ts:279-324 | a journal under an active allocation is reversed by hand, which `reversePostedJournal` refuses |
| `BankExamples.ReversalReversed` | server/src/services/ManualJournalService.ts:286-324 | so is a reversal, for the reason it was posted with |
| `FullRuns.ConsistentIffSound` | server/src/services/ManualJournalService.ts:279-324 | a run with dropped matches and reversals of both kinds stays consistent throughout exactly when each such move meets its condition |
| `FullRuns.RunKeepsBalances` | server/src/accounting/postingEngine.ts:57-60 | in every run, sound or not, cached balances are folds of posted lines, the trial balance holds and numbers are distinct |
| `FullRuns.RunKeepsMatched` | server/src/banking/BankReconciliationService.ts:982-984 | in every run, allocations and legacy matches together never exceed a statement line's amount |
| `FullRuns.RunKeepsPlaced` | server/src/banking/BankMovementAllocationService.ts:247-275 | in every run, an active allocation lies on a line of the ledger account of its statement line's bank, on the debit side for money in and the credit side for money out |
| `FullRuns.RunKeepsHistory` | server/src/database/enterpriseHardeningSchema.ts:249-272 | no run with those moves changes a journal's number, date, lines or backward link, un-posts it or replaces its reversal |
| `FullRuns.RunKeepsClosedBalances` | server/src/accounting/postingEngine.ts:222-230 | nor the balance of an account as of a day that a period lock or bank reconciliation covers |
| `FullRuns.CreatedAtMostOnce` | server/src/banking/BankReconciliationService.ts:1110-1117 | after an entry was created the older way, no run makes creating another one from that line possible |
| `BankAllocations.AllocateMovement` | server/src/banking/BankMovementAllocationService.ts:168-335 | one more active allocation and a recomputed status, or the first refusal and unchanged tables |
| `BankAllocations.RecomputeStatementStatus` | server/src/banking/BankMovementAllocationService.ts:61-82 | the status classified from the sum of active verified allocations, or a refusal |
| `BankAllocations.UnmatchMovement` | server/src/banking/BankMovementAllocationService.ts:337-399 | the allocation is released and the status recomputed, or nothing changes |
| `BankAllocations.VerifyLegacyMatch` | server/src/banking/BankLegacyAllocationVerificationService.ts:193-253 | the legacy row becomes an active verified allocation of the one proven line, or nothing changes |
| `BankLaws.AllocateKeepsBank` | server/src/banking/BankMovementAllocationService.ts:261-326 | an allocation keeps both capacities, the status classified from the allocations for every line without a live legacy match, that allocations rest on live journals, and that each lies on a line of its statement bank's ledger account, money in on the debit side and money out on the credit side |
| `BankChecks.AllocatedIff` | server/src/banking/BankMovementAllocationService.ts:168-326 | an allocation is made exactly when the statement line, its bank and currencies, the journal line's account, side and journal, the month's locks and both remaining amounts allow it, and adds this row |
| `BankChecks.AllocateRefusedBecause` | server/src/banking/BankMovementAllocationService.ts:168-326 | which reason a refused allocation gets, in order |
| `BankChecks.StatementRefusedBecause` | server/src/banking/BankMovementAllocationService.ts:196-236 | what each reason for turning a statement line down means in its columns |
| `BankChecks.StatusByUse` | server/src/banking/BankMovementAllocationService.ts:61-82 | a line is left UNMATCHED, MATCHED or PARTIALLY_MATCHED as its verified active rows take none, all or part of it |
| `BankChecks.UnmatchedIff` | server/src/banking/BankMovementAllocationService.ts:337-387 | when an allocation can be released, and the row it leaves |
| `BankLaws.UnmatchKeepsBank` | server/src/banking/BankMovementAllocationService.ts:379-387 | releasing an allocation keeps them |
| `BankLaws.UnmatchLowersUse` | server/src/banking/BankMovementAllocationService.ts:379-387 | from any state, unmatching lowers the use of its statement line and its journal line by exactly the allocation's amount, and no other use or row changes |
| `BankLaws.UnmatchRestoresCapacities` | server/src/banking/BankMovementAllocationService.ts:379-387 | allocating and unmatching restores the used amount of every statement line and every journal line |
| `BankLaws.VerifyChecked` | server/src/banking/BankLegacyAllocationVerificationService.ts:119-166 | an accepted verification has checked the line's side, its free capacity and that its journal is live |
| `BankLaws.VerifyKeepsBank` | server/src/banking/BankLegacyAllocationVerificationService.ts:193-240 | a promoted legacy match shares the same capacities without exceeding them; its line may have been marked by the legacy match before |
| `BankChecks.VerifiedIff` | server/src/banking/BankLegacyAllocationVerificationService.ts:60-240 | a legacy match is verified exactly when its line is open for it, its document has a live journal not later than the line and, in that, one line only on the bank's account and side with room left, which is the expected one, and all that is held on the statement line fits it |
| `BankChecks.MatchedIff` | server/src/banking/BankReconciliationService.ts:934-1008 | when a document is matched to a line, the row and the status it leaves |
| `BankChecks.CreatedFromLineIff` | server/src/banking/BankReconciliationService.ts:1098-1180 | when the older creation may be tried, and its journal: money out credits the bank's account, everything else debits it |
| `BankChecks.EntryIff` | server/src/banking/BankStatementEntryCreationService.ts:63-190 | when the remainder of a line may be booked, and the journal and amount it is booked with |
| `BankChecks.RemovedRow` | server/src/banking/BankReconciliationService.ts:1459-1497 | which row is removed, which journal is reversed with it, and what the row is left as |
| `BankChecks.ChosenIff` | server/src/banking/BankReconciliationService.ts:1456-1472 | the named row is taken if it was created from the line, and without a name the only such row |
| `BankChecks.RemovedIff` | server/src/banking/BankReconciliationService.ts:1431-1486 | when a removal gets as far as the reversal, and which journal that reverses under which exemption |
| `BankChecks.DroppedIff` | server/src/banking/BankReconciliationService.ts:1387-1414 | when a match is dropped, the emptied row and the status of its line |
| `LegacyMatches.MatchTransaction` | server/src/banking/BankReconciliationService.ts:934-1028 | one more legacy match and the status of the matched sum, or the first refusal and unchanged tables |
| `LegacyMatches.CreateTransactionFromStatement` | server/src/banking/BankReconciliationService.ts:1081-1180 | a posted journal of the whole line with a legacy match, the line marked MATCHED, or nothing |
| `LegacyMatches.UnmatchTransaction` | server/src/banking/BankReconciliationService.ts:1378-1422 | the match is deleted and its line marked by whether a matched row is left, or nothing changes |
| `LegacyLaws.MatchKeepsBooks` | server/src/banking/BankReconciliationService.ts:981-1008 | matching by document keeps the ledger and bank invariants |
| `LegacyLaws.CreationKeepsBooks` | server/src/banking/BankReconciliationService.ts:1136-1180 | so does creating an entry the older way |
| `LegacyLaws.DropKeepsBooksIff` | server/src/banking/BankReconciliationService.ts:1403-1414 | dropping a match keeps them exactly when the status it leaves is that of the allocations, or another live legacy match rests on the line |
| `LegacyLaws.DropUnsoundIff` | server/src/banking/BankReconciliationService.ts:1404-1414 | which fails exactly when the line has no other live legacy match and its allocations use part of its amount |
| `BankExamples.MatchedByLegacyOnly` | server/src/banking/BankReconciliationService.ts:981-1008 | a line of 100 matched by document is MATCHED with nothing allocated, in consistent books |
| `BankExamples.LegacyOnlyVerified` | server/src/banking/BankLegacyAllocationVerificationService.ts:193-240 | the verification of that match goes through |
| `BankExamples.OneOfTwoVerified` | server/src/banking/BankLegacyAllocationVerificationService.ts:225-240 | matches of 60 and 40 on that line, the first one verified: all three steps go through |
| `BankExamples.DropLeavesMatched` | server/src/banking/BankReconciliationService.ts:1404-1414 | dropping the second one leaves the line MATCHED with 60 allocated and no legacy match |
| `StatementEntries.AddUpAllocations` | server/src/banking/BankStatementEntryCreationService.ts:153-160 | the loop over the active allocations accepts exactly verified positive ones and returns their sum |
| `StatementEntries.OneBankLine` | server/src/banking/BankStatementEntryCreationService.ts:214-225 | exactly one line of the new journal answers the query for the bank line, so that guard never acts |
| `StatementEntries.CreateStatementEntry` | server/src/banking/BankStatementEntryCreationService.ts:54-251 | a posted journal of the remainder with an active allocation of its bank line, or the first refusal and unchanged tables |
| `EntryLaws.EntryFillsLine` | server/src/banking/BankStatementEntryCreationService.ts:153-241 | from any state, the allocations then add up to the line's amount and it is MATCHED |
| `EntryLaws.EntryKeepsBooks` | server/src/banking/BankStatementEntryCreationService.ts:191-241 | such an entry keeps the ledger and bank invariants |
| `EntryLaws.RemovalFreesLines` | server/src/banking/BankReconciliationService.ts:1478-1497 | from any state, removing the entry just created gives back the use of every statement and journal line, and the status the other allocations stand for |
| `EntryLaws.RemovalRestoresBalances` | server/src/banking/BankReconciliationService.ts:1478-1484 | and every account and bank balance |
| `EntryLaws.EntryRemovable` | server/src/banking/BankReconciliationService.ts:1432-1484 | in consistent books that removal is refused exactly for its reason, a bank reconciled over the line, or the posting of the mirror journal |
| `SubledgerServices.UnwindRows` | server/src/accounting/FinancialDestructiveActionsService.ts:318-352 | the loop gives each row's amount back to its document in turn, or stops at the first document that cannot take it |
| `SubledgerServices.ReversePayment` | server/src/accounting/FinancialDestructiveActionsService.ts:276-505 | undoes a payment in all its tables together with its journal, or rolls everything back |
| `SubledgerServices.ReverseNote` | server/src/accounting/FinancialDestructiveActionsService.ts:507-585 | undoes a credit note or vendor credit |
| `SubledgerServices.ReverseRefund` | server/src/accounting/FinancialDestructiveActionsService.ts:587-757 | undoes a refund and restores the source it was paid from |
| `SubledgerServices.ReverseWriteOff` | server/src/accounting/FinancialDestructiveActionsService.ts:759-839 | undoes a write-off of a receivable or payable |
| `SubledgerServices.ReverseAdvance` | server/src/accounting/FinancialDestructiveActionsService.ts:930-1016 | cancels an unapplied advance |
| `SubledgerServices.ReverseAdvanceApplication` | server/src/accounting/FinancialDestructiveActionsService.ts:1018-1092 | takes an advance back from a document |
| `SubledgerServices.Void` | server/src/accounting/FinancialDestructiveActionsService.ts:155-274 | voids a document without live settlements, takes it out of its order and releases the expenses billed on it |
| `UndoEffects.CustomerPaymentUndone` | server/src/accounting/FinancialDestructiveActionsService.ts:345-363 | undoing a customer's payment: the customer owes the sum of its allocations more, its advances fall by the payment's advances but not below zero, and no other customer moves |
| `UndoEffects.CustomerInvoiceVoided` | server/src/accounting/FinancialDestructiveActionsService.ts:251-258 | voiding an invoice: its customer owes its total less, but not less than zero, and no other customer moves |
| `UndoEffects.CustomerRefundUndone` | server/src/accounting/FinancialDestructiveActionsService.ts:587-680 | undoing a customer refund gives its amount back to the advance balance unless it was paid from a note |
| `UndoEffects.AdvanceUndone` | server/src/accounting/FinancialDestructiveActionsService.ts:930-1016 | cancelling an advance takes its amount off the advance balance and moves nobody else |
| `UndoEffects.CustomersOtherwiseUnmoved` | server/src/accounting/FinancialDestructiveActionsService.ts:507-585 | undoing a note, write-off or applied advance leaves every customer balance alone |
| `UndoEffects.UndoneDocumentsFit` | server/src/accounting/FinancialDestructiveActionsService.ts:333-343 | every document an undo touches has the balance of its amounts and is paid, partly paid or posted by it |
| `UndoEffects.RefundedSourcesFit` | server/src/accounting/FinancialDestructiveActionsService.ts:600-740 | a note or advance given money back is open or unapplied exactly when it is whole again |
| `UndoEffects.VoidedDocument` | server/src/accounting/FinancialDestructiveActionsService.ts:201-229 | a voided document owes nothing and its order has been billed its total less; no other order changes |
| `UndoEffects.VoidedSalesOrder` | server/src/accounting/FinancialDestructiveActionsService.ts:213-222 | the status of the sales order by what is still invoiced, then fulfilled, then where it stood |
| `UndoEffects.VoidedPurchaseOrder` | server/src/accounting/FinancialDestructiveActionsService.ts:1195-1215 | the status of the purchase order by what is still billed |
| `UndoEffects.VoidedOrderConsistent` | server/src/accounting/FinancialDestructiveActionsService.ts:201-229 | the voiding is kept exactly when the counters of its order still agree |
| `UndoEffects.PaymentUndoneIff` | server/src/accounting/FinancialDestructiveActionsService.ts:287-317 | in a consistent subledger a payment is undone exactly when it is live and posted, not matched by the bank, and its advances are unused |
| `UndoEffects.NoteUndoneIff` | server/src/accounting/FinancialDestructiveActionsService.ts:507-560 | the same for notes: no live refund of a customer's, enough unused credits of a vendor's |
| `UndoEffects.RefundUndoneIff` | server/src/accounting/FinancialDestructiveActionsService.ts:587-757 | the same for refunds: the note, the one advance, the expense or the payable balance they were paid from |
| `UndoEffects.WriteOffUndoneIff` | server/src/accounting/FinancialDestructiveActionsService.ts:779-822 | when a write-off is undone |
| `UndoEffects.AdvanceUndoneIff` | server/src/accounting/FinancialDestructiveActionsService.ts:930-1016 | when an advance is cancelled |
| `UndoEffects.ApplicationUndoneIff` | server/src/accounting/FinancialDestructiveActionsService.ts:1018-1090 | when an applied advance is undone |
| `UndoEffects.PaymentRefusedBecause` | server/src/accounting/FinancialDestructiveActionsService.ts:287-363 | which reason a refused undoing of a payment gets, in order |
| `UndoEffects.VoidedIff` | server/src/accounting/FinancialDestructiveActionsService.ts:162-193 | the same for voiding: nothing settled, and no live allocation on an invoice |
| `UndoEffects.VoidRefusedBecause` | server/src/accounting/FinancialDestructiveActionsService.ts:162-193 | which reason a refused voiding gets, in order |
| `SubledgerLaws.UnwindEffect` | server/src/accounting/FinancialDestructiveActionsService.ts:318-352 | unwinding many rows lowers each document's settled amount by the sum of its rows and restates its balance |
| `SubledgerLaws.PaymentKeepsSub` | server/src/accounting/FinancialDestructiveActionsService.ts:276-505 | undoing a payment keeps balance due = total - paid - credited - written off and all live sums |
| `SubledgerLaws.NoteKeepsSub` | server/src/accounting/FinancialDestructiveActionsService.ts:507-585 | undoing a note keeps, for every live note, total = remaining + live applications + live refunds, and the document sums; a reversed customer note has no live refunds, a reversed vendor note may keep some, within its total |
| `SubledgerLaws.RefundKeepsSub` | server/src/accounting/FinancialDestructiveActionsService.ts:587-757 | undoing a refund keeps the sums of notes and advances |
| `SubledgerLaws.WriteOffKeepsSub` | server/src/accounting/FinancialDestructiveActionsService.ts:779-839 | undoing a write-off keeps the document sums |
| `SubledgerLaws.AdvanceKeepsSub` | server/src/accounting/FinancialDestructiveActionsService.ts:930-1016 | cancelling an advance keeps the advance sums |
| `SubledgerLaws.ApplicationKeepsSub` | server/src/accounting/FinancialDestructiveActionsService.ts:1018-1092 | undoing an application keeps the advance and document sums |
| `SubledgerLaws.VoidKeepsSub` | server/src/accounting/FinancialDestructiveActionsService.ts:180-258 | voiding keeps all sums |
| `SubledgerLaws.UndoKeepsExpensesFree` | server/src/accounting/FinancialDestructiveActionsService.ts:231-245 | no undo leaves an expense billed on a voided invoice; voiding an invoice unbills exactly its expenses and no other undo touches any |
| `SubledgerLaws.UndoNeverOverRestores` | server/src/accounting/FinancialDestructiveActionsService.ts:318-352 | in a consistent subledger no undo is stopped for giving back more than was settled or for a voided document |
| `SubledgerLaws.VoidableIffSettlementsUndone` | server/src/accounting/FinancialDestructiveActionsService.ts:180-192 | the settlement guard of voiding passes exactly when no live settlement rests on the document, which then owes its total |
| `VendorLaws.UndoConserves` | server/src/accounting/FinancialDestructiveActionsService.ts:442-489 | every undo conserves, per vendor, payables minus open bills, advance balance minus live unapplied advances, and unused credits minus remaining credits minus live note refunds |
| `VendorLaws.CreditsKeptIffNotNoteRefund` | server/src/accounting/FinancialDestructiveActionsService.ts:682-697 | an undo changes the difference between unused and remaining credits exactly when it takes back a refund of one of the vendor's notes |
| `VendorLaws.CreditsAgreeIffNothingRefunded` | server/src/purchases/PurchasesEngine.ts:2543-2561 | unused credits equal the remaining credits of live notes exactly while no refund of the vendor's notes is live |
| `VendorRefunds.RecordVendorRefund` | server/src/purchases/PurchasesEngine.ts:2498-2679 | paying out a vendor note changes the note, the vendor, the refunds and the ledger together, or nothing |
| `VendorRefunds.RefundRecordedIff` | server/src/purchases/PurchasesEngine.ts:2498-2640 | a refund is recorded exactly for a positive amount within what is left of the vendor's own note, on an unlocked day, with money debited to the deposit account and credited to payables |
| `VendorRefunds.RefundRecordedRows` | server/src/purchases/PurchasesEngine.ts:2543-2679 | the note, vendor and refund row it leaves |
| `VendorRefunds.RefundingKeepsSub` | server/src/purchases/PurchasesEngine.ts:2543-2561 | paying out a note keeps the settlement sums |
| `VendorRefunds.RefundingOpensGap` | server/src/purchases/PurchasesEngine.ts:2554-2561 | it moves unused credits against remaining credits by exactly its amount, and leaves payables and advances explained |
| `VendorRefunds.RefundThenReverse` | server/src/accounting/FinancialDestructiveActionsService.ts:682-736 | its reversal goes through exactly when the vendor was not owed less than nothing, and restores every table but the note's status and the marked row |
| `VendorRefunds.RefundThenReverseKeepsDrift` | server/src/accounting/FinancialDestructiveActionsService.ts:682-697 | refund and reversal together leave the difference between unused and remaining credits as it was |
| `VendorRefunds.PaidOutNote` | server/src/purchases/PurchasesEngine.ts:2554-2561 | one vendor with a note of 100: after paying it out the difference is 100 |
| `VendorRefunds.PaidOutNoteUndone` | server/src/accounting/FinancialDestructiveActionsService.ts:682-697 | undoing that refund makes it zero again |
| `VendorRefunds.NoteReversalStrandsRefunds` | server/src/accounting/FinancialDestructiveActionsService.ts:841-928 | reversing a note leaves no live refund of it exactly for customers or when it had none; each one left is refused undoing because its note is unavailable |
| `RefundExample.PaidOutNoteIsReversed` | server/src/accounting/FinancialDestructiveActionsService.ts:841-928 | a run that posts the note of 100, pays it out and reverses it, from and to a consistent world: it goes through, the refund is stranded and the unused credits are still 100 |
| `VendorLaws.UndoKeepsPartiesAgree` | server/src/accounting/FinancialDestructiveActionsService.ts:442-489 | every undo keeps documents and settlements with one vendor, and payments' unallocated amounts equal to their advances |
| `FinanceRuns.RunKeepsWorld` | server/src/accounting/FinancialDestructiveActionsService.ts:36-135 | every run mixing ledger, bank, undo and note refund transactions keeps all invariants |
| `FinanceRuns.ReachableUndoNeverOverRestores` | server/src/accounting/FinancialDestructiveActionsService.ts:318-352 | after any run no undo trips an over-restore guard |
| `FinanceRuns.RunConservesVendorBalances` | server/src/accounting/FinancialDestructiveActionsService.ts:864-906 | over any run all three vendor differences stay what they were |
| `FinanceRuns.UndoneDocumentIsVoidable` | server/src/accounting/FinancialDestructiveActionsService.ts:180-229 | after any run, a document with a live settlement is not voided, and one whose settlements are undone owes its total and is voided exactly when its journal can be reversed, its order agrees and a bill's vendor exists |
| `FinanceRuns.StrandedForEver` | server/src/accounting/FinancialDestructiveActionsService.ts:682-690 | a live refund of a reversed vendor note stays so in every run, and its undoing is refused |
| `FinanceRuns.RunKeepsExpensesFree` | server/src/accounting/FinancialDestructiveActionsService.ts:231-245 | no run leaves an expense billed on a voided invoice |
| `CanonicalJsonLaws.CanonicalDecidesSameness` | server/src/accounting/FinancialCommandService.ts:54-60 | two JSON values have the same canonical text exactly when they are the same up to the order of properties |
| `CanonicalJsonLaws.Delimited` | server/src/accounting/FinancialCommandService.ts:54-60 | a canonical text determines its value and its own end inside a longer text |
| `CanonicalJsonLaws.BodyDelimited` | server/src/accounting/FinancialCommandService.ts:57-57 | a quoted string with escapes, pairs and lone surrogates determines its text and its end |
| `CanonicalJsonLaws.SamePrintsSame` | server/src/accounting/FinancialCommandService.ts:54-60 | reordering properties at any depth does not change the text |
| `CanonicalJsonLaws.RedactedIsClean` | server/src/accounting/FinancialCommandService.ts:40-52 | no value under a sensitive name survives redaction, at any depth |
| `CanonicalJsonLaws.CleanIsFixed` | server/src/accounting/FinancialCommandService.ts:40-52 | redacting a redacted payload changes nothing |
| `CanonicalJsonLaws.SensitiveIff` | server/src/accounting/FinancialCommandService.ts:40-44 | a property name is sensitive exactly when one of the nine words stands in it, in any case |
| `CanonicalJsonLaws.EscapesAre` | server/src/accounting/FinancialCommandService.ts:57-57 | how each character of a string is written |
| `CanonicalJsonLaws.ShortTexts` | server/src/accounting/FinancialCommandService.ts:54-60 | an array of two and an object of two, written out with its names in order |
| `CommandService.CommandStore.Run` | server/src/accounting/FinancialCommandService.ts:69-184 | one command: replay of the stored result, conflict, or receipt, effect, outbox rows and evidence links together, or nothing |
| `CommandService.CommandStore.InsertLinks` | server/src/accounting/FinancialCommandService.ts:157-177 | the links not yet there, in order, each relation once |
| `CommandLaws.ExecuteKeepsStore` | server/src/accounting/FinancialCommandService.ts:69-184 | one receipt per organization, key and type; one effect per receipt; every event in the outbox once with its evidence link once |
| `CommandLaws.ExecutedOnce` | server/src/accounting/FinancialCommandService.ts:78-103 | after a keyed command and any later calls, the key changes nothing: same redacted payload gets the result as stored (in progress if it is null), any other a conflict |
| `CommandLaws.StoredIsFixed` | server/src/accounting/FinancialCommandService.ts:98-103 | storing a result and reading it back is idempotent and keeps whether it is null |
| `CommandLaws.NullResultIsNeverReplayed` | server/src/accounting/FinancialCommandService.ts:95-97 | if a command returns nothing, its repetition is told that it is in progress |
| `CommandLaws.OnlyDoneChangesStore` | server/src/accounting/FinancialCommandService.ts:69-184 | the store changes exactly when a command without receipt completes |
| `CommandLaws.CompletedIff` | server/src/accounting/FinancialCommandService.ts:105-184 | a new command completes exactly when its events differ in type or aggregate, and then has this receipt and these outbox rows |
| `CommandLaws.LinkedAsResults` | server/src/accounting/FinancialCommandService.ts:157-177 | every event of a completed command is linked to it as a result |
| `CommandLaws.StoredIsSame` | server/src/accounting/FinancialCommandService.ts:98-103 | a result without undefined properties is replayed as the same value |
| `ApiClient.Client.ChooseKey` | src/api/client.ts:158-171 | the key is the given one, else the held one, else the new one, and is remembered before sending in memory and session storage |
| `ApiClient.Client.Settle` | src/api/client.ts:182-206 | no reply, a status of 500 or more, a 409 in progress and an unreadable success change nothing; a readable success and every other status below 500 drop this request's key and no other |
| `ExactlyOnce.RunKeepsNet` | server/src/accounting/FinancialCommandService.ts:69-184 | over any run of sends, copies, losses and retries, at most one effect per organization, key and type, and every success carries the recorded result |
| `ExactlyOnce.SuccessesAgree` | server/src/accounting/FinancialCommandService.ts:91-103 | any two successes for one organization, key and type name one command and send the same JSON result |
| `ExactlyOnce.EffectsBounded` | src/api/client.ts:158-206 | a request takes effect at most once more than the number of conclusive answers (a readable success, a conflict, any other failure below 500), given keys and reloads without storage |
| `ExactlyOnce.UncertainRetriesRunOnce` | src/api/client.ts:182-206 | a request whose attempts all end without reply, with a server error, in progress or unreadable takes effect at most once, however often it is retried |
| `ExactlyOnce.RetriesKeepTheKey` | src/api/client.ts:164-171 | until one of those, every retry of a request carries the same key |
| `ExactlyOnce.OtherAttemptLosesKey` | src/api/client.ts:117-126 | a reply drops the key of another open attempt exactly when it is a conclusive one for the same request |
| `ExactlyOnce.LateAnswerDropsNewerKey` | src/api/client.ts:206-206 | a run in which an answer to an old attempt drops a newer attempt's key |
| `ExactlyOnce.KeyHeldUntilOwnReply` | src/api/client.ts:164-206 | if attempts of one request never overlap, an open attempt's key stays held until its own definitive reply |
| `Approvals.ApprovalDesk.SubmitForApproval` | server/src/approvals/ApprovalWorkflowService.ts:299-351 | one more submitted request with the given or resolved hash |
| `Approvals.ApprovalDesk.ApproveRequestById` | server/src/approvals/ApprovalWorkflowService.ts:358-460 | approval with the approver and the pinned hash, or the first refusal |
| `Approvals.ApprovalDesk.RejectRequestById` | server/src/approvals/ApprovalWorkflowService.ts:465-518 | rejection by a holder of the rule's role, or the first refusal |
| `Approvals.ApprovalDesk.InvalidateApproval` | server/src/approvals/ApprovalWorkflowService.ts:524-542 | every submitted or approved request of the entity is rejected, no other changes |
| `Approvals.ApprovalDesk.LatestRequest` | server/src/approvals/ApprovalWorkflowService.ts:619-626 | a newest request of the entity, or none if it has none |
| `Approvals.ApprovalDesk.ConsumeApproval` | server/src/approvals/ApprovalWorkflowService.ts:612-656 | the newest request is consumed if it is approved and the current hash equals the pinned one, else nothing changes |
| `ApprovalLaws.StepTransitions` | server/src/approvals/ApprovalRegistry.ts:29-35 | every status change stored by any operation is an allowed transition; entity, submitter, time and amount never change |
| `ApprovalLaws.EveryRequestHasAStory` | server/src/approvals/ApprovalWorkflowService.ts:299-542 | in every run a request's status is accounted for by the operations that submitted, approved, consumed or rejected it; a rejection is a role holder's decision or a hook of its entity |
| `ApprovalLaws.ConsumedWasApproved` | server/src/approvals/ApprovalWorkflowService.ts:358-656 | a consumed request was submitted, then approved by an eligible actor, then consumed as the newest, with no invalidation between and the same document hash; `ApprovalLaws.ApprovalFollowedTheRules` says who is eligible |
| `ApprovalLaws.ApprovalFollowedTheRules` | server/src/approvals/ApprovalWorkflowService.ts:405-431 | in every run an approved or consumed request was approved by someone with the role of the type's entry (finance manager if none is named, the registry default while no rule exists), and by its submitter only if that entry allows it |
| `ApprovalLaws.ApprovedIff` | server/src/approvals/ApprovalWorkflowService.ts:358-431 | a request is approved exactly when it is submitted, its document has the submitted amount to a cent and hash, and the actor may decide; it is pinned to the document's hash |
| `ApprovalLaws.RejectedIff` | server/src/approvals/ApprovalWorkflowService.ts:483-499 | a request is rejected exactly when it is submitted and the actor holds the role |
| `ApprovalLaws.RefusedBecause` | server/src/approvals/ApprovalWorkflowService.ts:358-499 | which reason a refused decision gets: the status, the document, the actor |
| `ApprovalLaws.SubmittedRow` | server/src/approvals/ApprovalWorkflowService.ts:299-356 | the row a submission leaves |
| `ApprovalLaws.TransitionTable` | server/src/approvals/ApprovalRegistry.ts:29-35 | the six transitions there are |
| `ApprovalLaws.RequiredIff` | server/src/approvals/ApprovalWorkflowService.ts:141-161 | when approval is required, by the type's entry and threshold |
| `ApprovalLaws.ConfiguredRule` | server/src/approvals/ApprovalWorkflowService.ts:86-119 | what configuring a type demands of it from then on, of others nothing new |
| `ApprovalLaws.ConsumedIff` | server/src/approvals/ApprovalWorkflowService.ts:628-641 | when the newest request is consumed, by the hash it is compared with |
| `ApprovalLaws.ConsumedOnce` | server/src/approvals/ApprovalWorkflowService.ts:628-656 | a request is consumed by at most one operation |
| `ApprovalLaws.EachConsumptionNeedsNewApproval` | server/src/approvals/ApprovalWorkflowService.ts:619-656 | with an advancing clock, between two consumptions for one entity lie a submission and an approval of the second |
| `ApprovalLaws.TablelessApprovable` | server/src/approvals/ApprovalWorkflowService.ts:293-295 | exactly when a request of a type without a table can be approved |
| `ApprovalLaws.TablelessNeverApproved` | server/src/approvals/ApprovalWorkflowService.ts:395-399 | in no run does such a request with an amount over a cent get approved or consumed |
| `ApprovalLaws.ConfiguringOneTypeKeepsAnother` | server/src/approvals/ApprovalWorkflowService.ts:53-84 | configuring one type keeps whether another needs approval exactly when rules existed already or the other's default asked for nothing |
| `ApprovalLaws.ConfiguringOneTypeKeepsApprover` | server/src/approvals/ApprovalWorkflowService.ts:53-84 | it keeps the other's approver role exactly when rules existed already or that default is the finance manager, and self-approval always |
| `ApprovalLaws.ConfiguringDropsOnlyReopenings` | server/src/approvals/ApprovalWorkflowService.ts:53-84 | taken together, it keeps the other's rules exactly when rules existed already or the other is not period reopening |
| `ApprovalLaws.ReopeningApprovalIsDropped` | server/src/approvals/ApprovalWorkflowService.ts:63-73 | a first rule for invoices turns off the owner's approval of period reopenings |
| `InvoiceGuards.Tab.BeginInvoice` | src/context/BooksContext.tsx:2102-2110 | reserves the owner, or refuses because of a guard, a waiting call or a missing identity |
| `InvoiceGuards.Tab.ContinueInvoice` | src/context/BooksContext.tsx:2114-2131 | saves the guard, then sends under the same identity, or discards the guard and does not send |
| `InvoiceGuards.Tab.UpdateGuard` | src/context/BooksContext.tsx:1334-1336 | the guard of the key gets the reported status if storage takes it |
| `InvoiceGuards.Tab.DismissGuard` | src/context/BooksContext.tsx:1337-1341 | removes the owner's guard if it is committed or rejected |
| `InvoiceGuards.RunKeeps` | src/context/BooksContext.tsx:1328-1365 | over any run each owner has at most one guard, and a sent request keeps its guard until dismissed after a definitive report |
| `InvoiceGuards.EachRequestFollowsASettledOne` | src/context/BooksContext.tsx:2102-2132 | whenever a request is sent its guard is stored, the identity is unchanged and every earlier request of the owner was settled and dismissed |
| `InvoiceGuards.ReloadKeeps` | src/context/BooksContext.tsx:433-439 | reading the guards back after a reload keeps all of it |
| `InvoiceGuards.SentIff` | src/context/BooksContext.tsx:2114-2131 | a prepared request is sent exactly when its hash is known, its owner has no guard, the new guard was saved and all five parts of the identity are unchanged |
| `InvoiceGuards.DismissedIff` | src/context/BooksContext.tsx:1337-1341 | which guard is dismissed, and when |
| `InvoiceGuards.ReportedStatus` | src/context/BooksContext.tsx:1334-1336 | a guard is committed, rejected or in conflict exactly by such a report, and to be verified by any other |
| `MonthlyRollup.SummaryLedger.RecordJournalLines` | server/src/accounting/SummaryLedgerService.ts:21-53 | the rows with each line's amounts added to its account and month |
| `MonthlyRollup.SummaryLedger.RebuildMonthlyRollups` | server/src/accounting/SummaryLedgerService.ts:58-98 | exactly one row per account and month with a posted line, with the summed amounts |
| `MonthlyRollup.RecordingEqualsRebuilding` | server/src/accounting/SummaryLedgerService.ts:21-98 | recording any journals from an empty table gives the rebuilt table |
| `MonthlyRollup.OrderDoesNotMatter` | server/src/accounting/SummaryLedgerService.ts:21-53 | any order of posting gives the same table |
| `MonthlyRollup.MonthsBalance` | server/src/accounting/SummaryLedgerService.ts:21-53 | if every posted journal balances, a month's net turnovers cancel over all accounts |
| `MonthlyRollup.LedgerMonthsBalance` | server/src/accounting/SummaryLedgerService.ts:58-98 | so they do in every consistent ledger |
| `MonthlyRollup.ClosingIsNet` | server/src/accounting/SummaryLedgerService.ts:37-47 | closing balance is the month's net turnover, not a running balance |
| `MonthlyRollup.RowHolds` | server/src/accounting/SummaryLedgerService.ts:58-98 | the row of an account and month holds the debits and credits posted on it in that month, and is there exactly when there are such lines |
| `BankFeed.Feed.SyncFeed` | server/src/banking/BankFeedSyncService.ts:160-315 | stores the page's transactions with new fingerprints in order, counts every one as synced or duplicate, and moves the cursor |
| `BankFeed.CompletePassImportsAll` | server/src/banking/BankFeedSyncService.ts:184-305 | over any syncs of a growing feed, whenever no page is left every transaction of the feed has a row with its fingerprint, and each fingerprint has one row |
| `BankFeed.AllStoredIffPrintsDiffer` | server/src/banking/BankFeedSyncService.ts:184-305 | a finished pass stores no more rows than the feed has transactions, and as many exactly when their fingerprints are pairwise distinct |
| `BankFeed.TwinStoredOnce` | server/src/banking/BankFeedSyncService.ts:222-230 | two transactions that differ in the bank's own id only are stored once |
| `BankFeed.SamePrintIff` | server/src/banking/BankFeedSyncService.ts:222-226 | two transactions have one fingerprint exactly when date, amount, direction, reference and trimmed narration agree |
| `BankFeed.ResyncAddsNothing` | server/src/banking/BankFeedSyncService.ts:222-230 | syncing an imported feed again adds nothing, from any cursor |
| `QuotationTotals.Compute` | src/hooks/useQuotationBuilder.ts:174-241 | the loops compute the totals of the specification |
| `QuotationTotals.LineBounds` | src/hooks/useQuotationBuilder.ts:179-191 | a discount lies between zero and its line's gross amount, and no net amount is negative |
| `QuotationTotals.LineMeaning` | src/hooks/useQuotationBuilder.ts:179-191 | gross amount, discount by amount or else percentage, and clamped tax rate of a line |
| `QuotationTotals.TaxOnTop` | src/hooks/useQuotationBuilder.ts:215-223 | without GST in the price, the tax is the rate of the taxable amount to half a cent |
| `QuotationTotals.TaxContained` | src/hooks/useQuotationBuilder.ts:215-223 | with it, the taxable amount times (100 + rate) is the price times 100 and both parts make up the price, to half a cent |
| `QuotationTotals.DiscountIsSharedOut` | src/hooks/useQuotationBuilder.ts:204-214 | the shares add up to the document discount and no line goes below zero, so the clamp never acts |
| `QuotationTotals.TotalsAgree` | src/hooks/useQuotationBuilder.ts:211-231 | for any number n of lines: no negative total; exact without GST in the price; within 0.005(n + 2) with it |
| `Base32.EncodeBase32` | server/src/auth/MfaService.ts:298-318 | despite 32-bit wrap-around, the text is the unpadded base32 of the bytes, bit for bit |
| `Base32.DecodeBase32OrHex` | server/src/auth/MfaService.ts:320-345 | the whole bytes in the bits of the characters left after upper-casing, or the hexadecimal reading of forty hexadecimal digits |
| `Base32.DecodeInvertsEncode` | server/src/auth/MfaService.ts:298-345 | decoding gives the encoded bytes back exactly when the text is not forty hexadecimal digits |
| `Base32.TotpSecretsRoundTrip` | server/src/auth/MfaService.ts:77-80 | every twenty-byte secret round-trips, in thirty-two characters |
| `Base32.EncodingIsUnique` | server/src/auth/MfaService.ts:298-318 | a buffer has one base32 text |
| `Base32.CharactersAre` | server/src/auth/MfaService.ts:296-296 | the alphabet of RFC 4648 |
| `Base32.LettersFold` | server/src/auth/MfaService.ts:320-345 | letters count in either case |
| `Base32.HexDigitsAre` | server/src/auth/MfaService.ts:320-324 | which characters are hexadecimal digits |
| `Base32.ZeroBytesDoNotRoundTrip` | server/src/auth/MfaService.ts:320-324 | twenty-five zero bytes are the exception made concrete |
| `NumberWords.ConvertThreeDigits` | src/utils/formatters.ts:122-129 | the words of hundreds and the rest, "undefined" past nineteen hundreds |
| `NumberWords.ConvertIndianNumber` | src/utils/formatters.ts:131-146 | the text of the Indian words, crores by recursion |
| `NumberWords.ConvertWesternNumber` | src/utils/formatters.ts:148-163 | the text of the Western words |
| `NumberWords.IndianTextMeans` | src/utils/formatters.ts:131-146 | every natural number is read back from its text |
| `NumberWords.IndianTextsDiffer` | src/utils/formatters.ts:131-146 | different numbers have different texts |
| `NumberWords.WesternTextMeans` | src/utils/formatters.ts:148-163 | a number is read back from its text exactly when it is below two trillion |
| `NumberWords.SmallNumbers` | src/utils/formatters.ts:112-112 | each number below twenty has its English word |
| `NumberWords.TensAndScales` | src/utils/formatters.ts:112-163 | so have the tens and the scales |
| `UrlText.EscapeRoundTrip` | src/navigation/financeRoute.ts:96-96 | unescaping undoes form-escaping of any text, through UTF-8 |
| `UrlText.QueryRoundTrip` | src/navigation/financeRoute.ts:176-177 | parsing a serialized parameter list gives the list back |
| `UrlText.EscapeLength` | src/navigation/financeRoute.ts:176-182 | escaping takes at most nine characters for each UTF-16 unit |
| `UrlText.AsciiEscapes` | src/navigation/financeRoute.ts:176-177 | how each ASCII character is written in a query |
| `UrlText.BrokenSequence` | src/navigation/financeRoute.ts:96-96 | a broken UTF-8 sequence is read as one replacement character |
| `FinanceRouteLaws.RoundTrip` | src/navigation/financeRoute.ts:88-188 | every canonical route that builds is parsed back as it was, with its return route |
| `FinanceRouteLaws.TargetRoundTrip` | src/navigation/financeRoute.ts:132-183 | the same for one level, whether or not return routes are read |
| `FinanceRouteLaws.ReportRoundTrip` | src/navigation/financeRoute.ts:65-86 | every field of a report filter survives |
| `FinanceRouteLaws.ShortRoutesFit` | src/navigation/financeRoute.ts:178-181 | a route without return route and report always fits, so the shortened fallback is never used |
| `FinanceRouteLaws.ParsedIsCanonical` | src/navigation/financeRoute.ts:88-122 | whatever hash is parsed, the route is canonical |
| `FinanceRouteLaws.BuildAfterParseIsFixed` | src/navigation/financeRoute.ts:88-188 | writing back what was read from any hash reads the same and writes the same again |
| `FinanceRouteLaws.ReportIds` | src/navigation/financeRoute.ts:65-86 | which parameters give a report, its ids and its search text |
| `FinanceRouteLaws.ReportChoices` | src/navigation/financeRoute.ts:65-86 | which give its status, page and focus |
| `FinanceRouteLaws.DateFields` | src/navigation/financeRoute.ts:65-86 | its dates are the given ones if they are days of the calendar and in order |
| `FinanceRouteLaws.RouteFields` | src/navigation/financeRoute.ts:88-122 | which parts of an address give tab, entity, report and return route |
| `FinanceRouteLaws.IsDateIff` | src/navigation/financeRoute.ts:58-63 | a date is ten characters naming a day of the calendar |
| `FinanceRouteLaws.PathCuts` | src/navigation/financeRoute.ts:93-93 | where the path of an address begins |
| `FinanceRouteLaws.BuildsIff` | src/navigation/financeRoute.ts:132-183 | a canonical route is built exactly when it and its return route fit their limits, and as what text |
| `FinanceRouteLaws.NeverBuilt` | src/navigation/financeRoute.ts:133-141 | routes that are never built, whatever their length |

## Left out

Weaker or relative statements:

- CommandService.CommandStore.Run: the result column keeps JSON properties in an order of its own; the model keeps theirs, since objects are compared up to order. No command of the result type returns a bare text, which the column would not take as it is.
- LedgerRuns.RunKeepsBooks: dropping a legacy match and the reversals of manual journals and fixed assets are not operations of these runs, because they can break the invariant; `FullRuns` has them, with the exact conditions.
- LegacyMatches.MatchTransaction: whether the named document exists is given, and amounts are whole cents, so that the tolerances of a tenth of a cent and of a cent do not matter.
- LegacyMatches.CreateTransactionFromStatement: the bank's ledger account is given, as the policy that resolves it is not part of this model; the status CATEGORIZED is not modelled.
- LegacyMatches.UnmatchTransaction: a deleted row stays as an empty rejected row; verifying it is refused for its state instead of as missing.
- StatementEntries.CreateStatementEntry: whether the counter account's type and role allow the entry is given, and an amount out of range and one that is not positive are refused alike.
- ManualReversal.ReverseJournal: the reversal reason stored with a journal is given, as the tables leave that column out.
- VendorRefunds.RecordVendorRefund: the deposit and payables accounts are given, as the policies that look them up are not part of this model, and amounts are whole cents.
- VendorLaws.UndoConserves: assumes that settlements and documents name one vendor and that unallocated amounts equal advances; the forward operations that establish this, other than paying out a vendor note, are not part of this model.
- SubledgerLaws.UndoNeverOverRestores: assumes the settlement sums and strictly positive settlement amounts, which the forward operations establish.
- ExactlyOnce.EffectsBounded: session storage and SHA-256 either work for the whole life of the tab or not at all; a single failing storage call is not modelled.
- Approvals.ApprovalDesk.ConsumeApproval: requests submitted at the same instant come in no fixed order, so the contract speaks of a newest request.
- Approvals.ApprovalDesk.ApproveRequestById: approvers are also compared with the document's creator, but no document that is looked up carries one, so that check never acts.
- InvoiceGuards.RunKeeps: idempotency keys are random, so drawing one twice is not considered; session storage is not edited from outside.
- QuotationTotals.TotalsAgree: exact rationals instead of IEEE floating point.
- FinanceRouteLaws.RoundTrip: texts are well-formed Unicode, and the navigation's tabs and reports are any sets whose names are short plain words.

Not modelled:

- SQL, connections and advisory locks: a transaction is one atomic step, as under PostgreSQL; memory mode is left out.
- Row identifiers, organization columns, audit rows, notices and error wording; the reasons callers give for undoing, which the subledger methods check first, and the reversal columns that repeat the journal link.
- `Number(cents) / 100` conversions: amounts are exact cents.
- Customer receivables balances: one branch of reversing an advance application leaves them alone.
- Expense voiding, and of an expense anything but whether it is live and billed; manual journals and fixed assets beyond the reversal of their journals.
- Categorizing statement lines, internal transfers between banks, dispositions, and completing or reopening reconciliations.
- The approval hook that undo methods call: approvals are modelled on their own.
- The request-level idempotency store of the HTTP middleware, `postBlob`, and commands whose result is a bare JSON text.
- SHA-256: a hash is represented by the text it is taken of; request and transaction fingerprints by their components.
- JSON values no parser produces (dates, symbols, cycles).
- How document rows become canonical approval payloads.
- TOTP verification, recovery codes, bank feed connections and other providers, reconciliation rules, the read worker pool and account read tickets: single-branch updates.
- `amountToWords` beyond the integer part, and digit grouping.
- The portal token of `parseFinanceLocation`.
