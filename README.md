# Loan marketplace ledger, modelled in Dafny

The repository is a demonstration front end for a peer-to-peer lending
marketplace. Its one piece of real logic is the loan provider: it holds two
ordered lists, loan offers (`Open`, `Active`, `Completed`, `Defaulted`) and
loan requests (`Pending`, `Fulfilled`, `Cancelled`). It has seven operations:
create offer, create request, accept, fulfil, repay, cancel offer and cancel
request. Each operation checks the wallet, finds the record by id and checks
its status. Repay and the two cancels also check ownership. The operation
then either replaces the list and saves it to browser storage, or returns
early and changes nothing. Around the provider sit the dashboard's derived
lists and market average, and the two cards that decide which action buttons
an account sees.

The model has nine modules:

- `SeqUtil` (`seq_util.dfy`) models `filter` and `find` as first match. It
  also defines the subsequence relation and id uniqueness.
- `LoanTypes` (`loan_types.dfy`) holds the records, the statuses, the wallet
  test, the result codes and the transition table for one record.
- `LoanRules` (`loan_rules.dfy`) is the pure half of the provider. It holds
  the guard chains as `...Check` functions, the `map`/`filter`/spread
  builders of the new lists, the seeded demonstration data and the
  per-account views.
- `LedgerProperties` (`ledger_properties.dfy`) proves three things. With
  unique ids, each successful operation changes only the record it found.
  Every record moves only along the transition table. The ledger invariant is
  kept: ids are unique, an Open offer has no borrower, and an Active or
  Completed loan has one.
- `LoanLedger` (`ledger.dfy`) is the provider as a class with `seq` fields.
  It has one method per operation plus `LoadData`, and four client scenarios
  that use only the methods' contracts.
- `Dashboard` (`dashboard.dfy`), `AddressFormat` (`address_format.dfy`),
  `LoanOfferCard` (`loan_offer_card.dfy`) and `LoanRequestCard`
  (`loan_request_card.dfy`) are the read views and the button predicates. The
  cards' lemmas tie each button to the ledger's guards.

Modelling choices:

- The wallet is passed in as `account: Option<string>` plus `hasSigner`.
  The provider's test `!account || !signer` also rejects an empty account
  string.
- JavaScript `===` between `string | null` values is modelled as `Option`
  equality, so `null === null` holds. Two lemmas show the effect:
  - with no account connected, `userLoans` lists every loan that has no
    borrower (`NoAccountViews`);
  - a card would offer Repay on an Active loan with no borrower to a viewer
    with no account, a case the ledger invariant rules out
    (`NoRepayWithoutAccount`).
- New ids and clock readings are parameters. The source builds ids from
  `Date.now()`, which does not guarantee uniqueness. Uniqueness is therefore
  a premise of the frame and invariant lemmas, never a `requires` of an
  operation. `find` looks only at the first record with an id, while `map`
  and `filter` change every such record. `DuplicateIdReopensCompletedLoan`
  shows what duplicates break.
- Each early return becomes an `Outcome`: `NotConnected`, `NotFound`,
  `NotAvailable`, `NotOwner` or `Ok`. State is unchanged unless the outcome
  is `Ok`.
- Browser storage becomes the two fields `savedLoans` and `savedRequests`,
  holding already-parsed lists.

Facts about the provider (the last three are discussed under "## Left out"):

- The provider validates no amount, rate, duration or purpose, so no outcome
  rejects input.
- `acceptLoanOffer` does not exclude the lender, and `fulfillLoanRequest`
  does not exclude the borrower. Only the cards hide those buttons
  (`LenderMayAcceptOwnOffer`, `BorrowerMayFundOwnRequest`).
- Ids come from the clock and are not guaranteed unique.
- Operations take no lock.
- The in-memory state is replaced before the storage write, so a failed
  write does not roll it back.
- When no requests are saved, start-up seeding overwrites any loans that
  were saved.

## Model

| member | source | states |
|---|---|---|
| LoanTypes.LoanStepIsMonotone | src/context/LoanContext.tsx:7-16 | under the loan transition table, Completed and Defaulted are final, nothing enters Defaulted, and a borrower once set is kept |
| LoanTypes.RequestStepIsMonotone | src/context/LoanContext.tsx:18-25 | under the request transition table, Fulfilled and Cancelled are final, and id and borrower never change |
| LoanRules.FindLoan | src/context/LoanContext.tsx:223 | `find` gives nothing exactly when no loan has the id; otherwise it gives the first loan in the list with that id |
| LoanRules.FindRequest | src/context/LoanContext.tsx:271 | `find` gives nothing exactly when no request has the id; otherwise it gives the first request in the list with that id |
| LoanRules.UserLoans | src/context/LoanContext.tsx:132-134 | exactly the loans the account lends or borrows, each as often as listed, as a subsequence (order kept) |
| LoanRules.UserLoanRequests | src/context/LoanContext.tsx:136-138 | exactly the requests whose borrower is the account, each as often as listed, in order |
| LoanRules.NoAccountViews | src/context/LoanContext.tsx:132-138 | with no account, `userLoans` is the loans without a borrower and `userLoanRequests` is empty |
| LoanTypes.Connected | src/context/LoanContext.tsx:142-145 | definition of the wallet test `!account \|\| !signer`: an account must be present and non-empty, and a signer must exist |
| LoanRules.NewOffer | src/context/LoanContext.tsx:152-161 | definition of the offer appended by createLoanOffer: Open, no borrower, the caller as lender, the given terms, id and timestamp |
| LoanRules.NewRequest | src/context/LoanContext.tsx:188-195 | definition of the request appended by createLoanRequest: Pending, the caller as borrower, the given amount, purpose, id and timestamp |
| LoanRules.FundedLoan | src/context/LoanContext.tsx:295-304 | definition of the loan appended by fulfillLoanRequest: Active, the caller as lender, the request's borrower and amount, rate 5 and duration 30 |
| LoanRules.DemoRequests | src/context/LoanContext.tsx:78-95 | definition of the two seeded Pending requests, with their addresses, amounts, purposes and timestamps one and two hours back |
| LoanRules.DemoLoans | src/context/LoanContext.tsx:100-121 | definition of the two seeded loans: an Open offer without a borrower and an Active loan, one and two days back |
| LoanRules.AcceptAll | src/context/LoanContext.tsx:237-246 | the ids and their order are unchanged; every loan with the id has the caller as borrower and is Active; every other loan is kept |
| LoanRules.RepayAll | src/context/LoanContext.tsx:354-362 | the ids and their order are unchanged; every loan with the id is Completed; every other loan is kept |
| LoanRules.WithoutLoan | src/context/LoanContext.tsx:405 | exactly the loans without the id remain, so no loan with the id is left |
| LoanRules.SetRequestStatus | src/context/LoanContext.tsx:284-292 | the ids and their order are unchanged; every request with the id gets the new status (Fulfilled here, Cancelled at lines 447-455); every other request is kept |
| Dashboard.SumRates | src/pages/Dashboard.tsx:202 | definition of the `reduce` that adds up the interest rates, starting from 0 |
| LoanOfferCard.IsLender | src/components/LoanOfferCard.tsx:26 | definition of `loan.lender === account`, false when there is no account |
| LoanOfferCard.IsBorrower | src/components/LoanOfferCard.tsx:29 | definition of `loan.borrower === account`, true for a loan without a borrower when there is no account |
| LoanOfferCard.ShowAccept | src/components/LoanOfferCard.tsx:88 | definition of when Accept shows: an Open loan seen by anyone but its lender |
| LoanOfferCard.ShowCancel | src/components/LoanOfferCard.tsx:98 | definition of when Cancel shows: an Open loan seen by its lender |
| LoanOfferCard.ShowRepay | src/components/LoanOfferCard.tsx:109 | definition of when Repay shows: an Active loan seen by its borrower |
| LoanRequestCard.IsBorrower | src/components/LoanRequestCard.tsx:26 | definition of `request.borrower === account`, false when there is no account |
| LoanRequestCard.ShowFund | src/components/LoanRequestCard.tsx:69 | definition of when Fund shows: a Pending request seen by anyone but its borrower |
| LoanRequestCard.ShowCancel | src/components/LoanRequestCard.tsx:79 | definition of when Cancel shows: a Pending request seen by its borrower |
| LoanRules.CreateCheck | src/context/LoanContext.tsx:141-145 | creating fails only for a missing account, an empty account or a missing signer |
| LoanRules.AcceptCheck | src/context/LoanContext.tsx:213-233 | never NotOwner (the lender is not excluded); NotConnected iff no wallet; NotFound iff no such id; NotAvailable iff the first loan with the id is not Open, for any ids; with unique ids, Ok iff connected and that loan is Open |
| LoanRules.FulfillCheck | src/context/LoanContext.tsx:261-281 | never NotOwner; NotConnected and NotFound as above; NotAvailable iff the first request with the id is not Pending, for any ids; with unique ids, Ok iff connected and that request is Pending |
| LoanRules.RepayCheck | src/context/LoanContext.tsx:325-350 | the status test comes before the ownership test (NotAvailable iff the first loan with the id is not Active); NotOwner iff that first loan is Active and has another borrower, for any ids; with unique ids, Ok iff the loan is Active and borrowed by the caller |
| LoanRules.CancelOfferCheck | src/context/LoanContext.tsx:377-402 | NotAvailable iff the first loan with the id is not Open; NotOwner iff that first loan is Open and has another lender, for any ids; with unique ids, Ok iff Open and lent by the caller |
| LoanRules.CancelRequestCheck | src/context/LoanContext.tsx:419-444 | NotAvailable iff the first request with the id is not Pending; NotOwner iff that first request is Pending and made by another borrower, for any ids; with unique ids, Ok iff Pending and made by the caller |
| LedgerProperties.AcceptChangesOnlyTarget | src/context/LoanContext.tsx:237-246 | with unique ids, accepting replaces only the found loan: borrower set, status Active, all other fields and loans untouched |
| LedgerProperties.RepayChangesOnlyTarget | src/context/LoanContext.tsx:354-362 | with unique ids, repaying sets only the found loan to Completed |
| LedgerProperties.SetRequestStatusChangesOnlyTarget | src/context/LoanContext.tsx:447-455 | with unique ids, marking a request (Fulfilled or Cancelled) changes only that request's status |
| LedgerProperties.CancelRemovesOnlyTarget | src/context/LoanContext.tsx:405 | with unique ids, cancelling an offer deletes exactly that loan, keeps the others in order, and shortens the list by one |
| LedgerProperties.CreateOfferKeepsInvariant | src/context/LoanContext.tsx:152-164 | appending an offer with a fresh id keeps the invariant and leaves every earlier loan as it was |
| LedgerProperties.CreateRequestKeepsInvariant | src/context/LoanContext.tsx:188-198 | appending a request with a fresh id keeps the invariant and leaves every earlier request as it was |
| LedgerProperties.AcceptKeepsInvariant | src/context/LoanContext.tsx:223-249 | a successful accept keeps the invariant, keeps the length, and moves each loan only along the table |
| LedgerProperties.RepayKeepsInvariant | src/context/LoanContext.tsx:335-365 | a successful repay keeps the invariant, keeps the length, and moves each loan only along the table |
| LedgerProperties.RemoveAtKeepsInvariant | src/context/LoanContext.tsx:405 | deleting one loan keeps unique ids and the borrower rule |
| LedgerProperties.CancelOfferKeepsInvariant | src/context/LoanContext.tsx:387-407 | a successful offer cancel keeps the invariant; the result is a subsequence one shorter |
| LedgerProperties.FulfillKeepsInvariant | src/context/LoanContext.tsx:271-313 | a successful fulfil with a fresh loan id keeps the invariant; loans and requests move only along their tables |
| LedgerProperties.CancelRequestKeepsInvariant | src/context/LoanContext.tsx:429-458 | a successful request cancel keeps the invariant and the length, and moves the request only along the table |
| LedgerProperties.DemoDataKeepsInvariant | src/context/LoanContext.tsx:78-121 | the seeded requests and loans have unique ids; the Open loan has no borrower and the Active one has one |
| LedgerProperties.DuplicateIdReopensCompletedLoan | src/context/LoanContext.tsx:223-246 | with two loans sharing an id, accept passes on the first, Open, one and turns the second, Completed, one back to Active |
| LoanLedger.Ledger.constructor | src/context/LoanContext.tsx:59-60 | the provider starts with both lists empty |
| LoanLedger.Ledger.LoadData | src/context/LoanContext.tsx:65-129 | saved lists are taken as they are; with no saved requests, two Pending requests and two loans (one Open without a borrower, one Active) are seeded and saved, even over saved loans, and satisfy the invariant |
| LoanLedger.Ledger.CreateLoanOffer | src/context/LoanContext.tsx:141-176 | without a wallet nothing changes; otherwise exactly one Open offer lent by the caller, with no borrower and the given terms, is appended and saved; requests untouched |
| LoanLedger.Ledger.CreateLoanRequest | src/context/LoanContext.tsx:179-210 | without a wallet nothing changes; otherwise exactly one Pending request by the caller is appended and saved; loans untouched |
| LoanLedger.Ledger.AcceptLoanOffer | src/context/LoanContext.tsx:213-258 | the outcome is AcceptCheck's; unless Ok nothing changes; on Ok the matching loans get the caller as borrower and become Active and are saved; the invariant and transition table are kept |
| LoanLedger.Ledger.FulfillLoanRequest | src/context/LoanContext.tsx:261-322 | the outcome is FulfillCheck's; unless Ok neither list changes; on Ok the request becomes Fulfilled and one Active loan is appended, from the caller to the request's borrower, with the request's amount and rate 5 and duration 30; both lists are saved |
| LoanLedger.Ledger.RepayLoan | src/context/LoanContext.tsx:325-374 | the outcome is RepayCheck's; unless Ok nothing changes; on Ok the loan becomes Completed and is saved; the invariant and transition table are kept |
| LoanLedger.Ledger.CancelLoanOffer | src/context/LoanContext.tsx:377-416 | the outcome is CancelOfferCheck's; unless Ok nothing changes; on Ok the offer is removed, the list is a subsequence of the old one and one shorter, and it is saved |
| LoanLedger.Ledger.CancelLoanRequest | src/context/LoanContext.tsx:419-467 | the outcome is CancelRequestCheck's; unless Ok nothing changes; on Ok the request stays listed as Cancelled, the length is unchanged, and it is saved |
| Dashboard.OpenLoans | src/pages/Dashboard.tsx:19 | exactly the Open loans, each as often as listed, in order |
| Dashboard.PendingRequests | src/pages/Dashboard.tsx:22 | exactly the Pending requests, each as often as listed, in order |
| Dashboard.UserActiveLoans | src/pages/Dashboard.tsx:25 | exactly the Active loans among the account's loans, each as often as listed, in order |
| Dashboard.UserOpenLoans | src/pages/Dashboard.tsx:26 | exactly the Open loans among the account's loans, each as often as listed, in order |
| Dashboard.UserPendingRequests | src/pages/Dashboard.tsx:27 | exactly the Pending requests among the account's requests, each as often as listed, in order |
| Dashboard.UserActiveAndOpenDisjoint | src/pages/Dashboard.tsx:25-26 | the account's active and open lists share no loan, and their sizes add up to at most the account's loans |
| Dashboard.UserOpenLoansWithinOpenLoans | src/pages/Dashboard.tsx:19-26 | the account's open offers are the account's part of the market's open offers, as a subsequence |
| Dashboard.UserPendingWithinPending | src/pages/Dashboard.tsx:22-27 | the account's pending requests are the account's part of all pending requests, as a subsequence |
| Dashboard.AverageInterestRate | src/pages/Dashboard.tsx:201-203 | no average ("N/A") exactly when there is no open offer, so there is no division by zero |
| Dashboard.SumRatesBounds | src/pages/Dashboard.tsx:202 | the sum of n rates, each between lo and hi, lies between n·lo and n·hi |
| Dashboard.AverageWithinRates | src/pages/Dashboard.tsx:201-203 | the average lies between any lower and upper bound of the open offers' rates |
| AddressFormat.FormatAddress | src/components/LoanOfferCard.tsx:17-19 | the first six characters, "...", then the last four, with substring clamping; 13 characters for addresses of at least six |
| AddressFormat.SameEndsSameShortForm | src/components/LoanRequestCard.tsx:17-19 | the same helper in the request card hides the middle: addresses that agree on the first six and last four characters display alike |
| LoanOfferCard.BadgeColor | src/components/LoanOfferCard.tsx:32-44 | any text other than the four status names gets the gray class |
| LoanOfferCard.BadgeColorsDistinct | src/components/LoanOfferCard.tsx:32-44 | the four loan statuses get four different classes, none of them gray |
| LoanOfferCard.AtMostOneAction | src/components/LoanOfferCard.tsx:88-117 | Accept and Cancel are never both shown, and an Open offer shows exactly one of them; Repay never appears with either; Completed and Defaulted loans show nothing |
| LoanOfferCard.NoRepayWithoutAccount | src/components/LoanOfferCard.tsx:109 | under the borrower rule, a viewer without an account never sees Repay |
| LoanOfferCard.ShownAcceptSucceeds | src/components/LoanOfferCard.tsx:88-96 | with unique ids and a connected wallet, a shown Accept passes every guard of acceptLoanOffer |
| LoanOfferCard.LenderMayAcceptOwnOffer | src/components/LoanOfferCard.tsx:88 | the ledger accepts a lender's acceptance of their own Open offer, which the card does not show |
| LoanOfferCard.CancelSucceedsIffShown | src/components/LoanOfferCard.tsx:98-107 | with unique ids and a connected wallet, cancelLoanOffer succeeds if and only if the card shows Cancel |
| LoanOfferCard.RepaySucceedsIffShown | src/components/LoanOfferCard.tsx:109-117 | with unique ids and a connected wallet, repayLoan succeeds if and only if the card shows Repay |
| LoanRequestCard.BadgeColor | src/components/LoanRequestCard.tsx:29-39 | any text other than Pending or Fulfilled gets the gray class |
| LoanRequestCard.BadgeColorsOfStatuses | src/components/LoanRequestCard.tsx:29-39 | Pending and Fulfilled get distinct classes; Cancelled gets the same gray as an unknown status |
| LoanRequestCard.ExactlyOneActionWhilePending | src/components/LoanRequestCard.tsx:69-88 | a Pending request shows exactly one of Fund and Cancel; Fulfilled and Cancelled requests show neither |
| LoanRequestCard.ShownFundSucceeds | src/components/LoanRequestCard.tsx:69-77 | with unique ids and a connected wallet, a shown Fund passes every guard of fulfillLoanRequest |
| LoanRequestCard.BorrowerMayFundOwnRequest | src/components/LoanRequestCard.tsx:69 | the ledger lets a borrower fund their own Pending request, which the card does not show |
| LoanRequestCard.CancelSucceedsIffShown | src/components/LoanRequestCard.tsx:79-88 | with unique ids and a connected wallet, cancelLoanRequest succeeds if and only if the card shows Cancel |

## Left out

- The wallet provider (`src/context/WalletContext.tsx`) is left out: the MetaMask calls, event listeners, page reload and floating-point balance. Its account and signer are parameters.
- Notifications (`toast`), `console.error`, the `isActionLoading` flag, `async`/`try`/`finally` and React re-rendering are left out. The `catch` path is also left out: if a storage write threw after the list was replaced in memory, the two would differ, and the model does not capture this.
- JSON serialisation is left out. Saved lists are assumed to hold well-formed records, so malformed stored data is not modelled.
- `Date.now()` is left out. Ids and timestamps are parameters, and the `loan-`/`req-` id prefixes are not modelled. `LoadData` uses one clock reading for all seeded timestamps.
- Ledger.LoadData: states the invariant only for the seeded data, because saved lists are taken as they are.
- AddressFormat.FormatAddress: counts Unicode scalar values, whereas JavaScript's `length` and `substring` count UTF-16 code units. The two differ only for text outside the Basic Multilingual Plane, and wallet addresses are ASCII hexadecimal.
- Interest rates and durations are exact reals. JavaScript's floating-point rounding, the `toFixed(2)` formatting and the `%` suffix of the average are not modelled.
- The cards' `formatDate` (locale date text) and all markup are left out.
- The creation forms (`CreateLoanOffer.tsx`, `CreateLoanRequest.tsx`) and their `Number()` parsing are left out. Their `min`/`max`/`required` constraints are HTML attributes, not ledger checks.
- The static pages, navigation bar, footer and wallet widget are left out, as is the Dashboard's tab state.
- Concurrency is left out. The provider runs its read-check-write steps on one thread without locking.
