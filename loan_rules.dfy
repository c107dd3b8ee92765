/**
 * The pure half of the loan provider: how each operation decides between its
 * early returns (`Check` functions, in the order the provider tests them) and
 * how it builds the replacement collections with `find`, `map`, `filter` and
 * spread. `find` looks at the FIRST record with the id; `map` and `filter`
 * touch EVERY record with it, so the frame lemmas assume unique ids.
 */
module LoanRules {
  import opened SeqUtil
  import opened LoanTypes

  /** Terms a fulfilled request's new loan gets; the request itself carries none. */
  const FulfillInterestRate: real := 5.0
  const FulfillDuration: real := 30.0

  function LoanIds(loans: seq<Loan>): (ids: seq<string>)
    ensures |ids| == |loans| && forall k :: 0 <= k < |loans| ==> ids[k] == loans[k].id
  {
    seq(|loans|, i requires 0 <= i < |loans| => loans[i].id)
  }

  function RequestIds(requests: seq<LoanRequest>): (ids: seq<string>)
    ensures |ids| == |requests| && forall k :: 0 <= k < |requests| ==> ids[k] == requests[k].id
  {
    seq(|requests|, i requires 0 <= i < |requests| => requests[i].id)
  }

  /** `loans.find(loan => loan.id === id)`. */
  function FindLoan(loans: seq<Loan>, id: string): (r: Option<Loan>)
    ensures r.None? <==> id !in LoanIds(loans)
    ensures r.Some? ==> r.value in loans && r.value.id == id
    ensures r.Some? ==> exists k :: 0 <= k < |loans| && loans[k] == r.value && forall j :: 0 <= j < k ==> loans[j].id != id
  {
    match FirstIndex(LoanIds(loans), id)
    case None => None
    case Some(k) => Some(loans[k])
  }

  /** `loanRequests.find(req => req.id === id)`. */
  function FindRequest(requests: seq<LoanRequest>, id: string): (r: Option<LoanRequest>)
    ensures r.None? <==> id !in RequestIds(requests)
    ensures r.Some? ==> r.value in requests && r.value.id == id
    ensures r.Some? ==> exists k :: 0 <= k < |requests| && requests[k] == r.value && forall j :: 0 <= j < k ==> requests[j].id != id
  {
    match FirstIndex(RequestIds(requests), id)
    case None => None
    case Some(k) => Some(requests[k])
  }

  /** With unique ids, `find` returns the record at the one position holding the id. */
  lemma FindLoanAt(loans: seq<Loan>, k: nat)
    requires Unique(LoanIds(loans)) && k < |loans|
    ensures FindLoan(loans, loans[k].id) == Some(loans[k])
  {
    FirstIndexOfUnique(LoanIds(loans), k);
  }

  lemma FindRequestAt(requests: seq<LoanRequest>, k: nat)
    requires Unique(RequestIds(requests)) && k < |requests|
    ensures FindRequest(requests, requests[k].id) == Some(requests[k])
  {
    FirstIndexOfUnique(RequestIds(requests), k);
  }

  // ---------------------------------------------------------------------
  // The current account's records. JavaScript's `===` on `string | null`
  // is Option equality here, so with no account `null === null` holds.

  function Involves(account: Option<string>): Loan -> bool {
    (l: Loan) => Some(l.lender) == account || l.borrower == account
  }

  function BorrowedBy(account: Option<string>): LoanRequest -> bool {
    (r: LoanRequest) => Some(r.borrower) == account
  }

  /** `userLoans`: the loans the account lends or borrows, in list order. */
  function UserLoans(loans: seq<Loan>, account: Option<string>): (r: seq<Loan>)
    ensures forall l :: l in r <==> l in loans && (Some(l.lender) == account || l.borrower == account)
    ensures Subseq(r, loans)
    ensures forall l: Loan :: Some(l.lender) == account || l.borrower == account ==> multiset(r)[l] == multiset(loans)[l]
  {
    FilterIsSubseq(loans, Involves(account));
    FilterMultiplicities(loans, Involves(account));
    Filter(loans, Involves(account))
  }

  /** `userLoanRequests`: the requests the account made, in list order. */
  function UserLoanRequests(requests: seq<LoanRequest>, account: Option<string>): (r: seq<LoanRequest>)
    ensures forall q :: q in r <==> q in requests && Some(q.borrower) == account
    ensures Subseq(r, requests)
    ensures forall q: LoanRequest :: Some(q.borrower) == account ==> multiset(r)[q] == multiset(requests)[q]
  {
    FilterIsSubseq(requests, BorrowedBy(account));
    FilterMultiplicities(requests, BorrowedBy(account));
    Filter(requests, BorrowedBy(account))
  }

  /**
   * With no account connected, `userLoans` is not empty: it holds every loan
   * without a borrower (`null === null`), while `userLoanRequests` is empty.
   */
  lemma NoAccountViews(loans: seq<Loan>, requests: seq<LoanRequest>)
    ensures forall l :: l in UserLoans(loans, None) <==> l in loans && l.borrower.None?
    ensures UserLoanRequests(requests, None) == []
  {
    FilterKeepsNone(requests, BorrowedBy(None));
  }

  // ---------------------------------------------------------------------
  // New records

  /** The record `createLoanOffer` appends. */
  function NewOffer(lender: string, amount: string, interestRate: real, duration: real, id: string, timestamp: int): Loan {
    Loan(id, lender, None, amount, interestRate, duration, Open, timestamp)
  }

  /** The record `createLoanRequest` appends. */
  function NewRequest(borrower: string, amount: string, purpose: string, id: string, timestamp: int): LoanRequest {
    LoanRequest(id, borrower, amount, purpose, Pending, timestamp)
  }

  /** The active loan `fulfillLoanRequest` appends for the funded request. */
  function FundedLoan(request: LoanRequest, lender: string, id: string, timestamp: int): Loan {
    Loan(id, lender, Some(request.borrower), request.amount, FulfillInterestRate, FulfillDuration, Active, timestamp)
  }

  /** The two requests `loadData` seeds when no requests were saved; `now` is the clock reading. */
  function DemoRequests(now: int): seq<LoanRequest> {
    [ LoanRequest("req-001", "0xf39Fd6e51aad88F6F4ce6aB8827279cffFb92266", "0.5", "Business expansion", Pending, now - 3600000),
      LoanRequest("req-002", "0x70997970C51812dc3A010C7d01b50e0d17dc79C8", "1.2", "Home renovation", Pending, now - 7200000) ]
  }

  /** The two loans seeded with them: an open offer and an active loan. */
  function DemoLoans(now: int): seq<Loan> {
    [ Loan("loan-001", "0x3C44CdDdB6a900fa2b585dd299e03d12FA4293BC", None, "2.0", 5.0, 30.0, Open, now - 86400000),
      Loan("loan-002", "0x90F79bf6EB2c4f870365E785982E1f101E93b906", Some("0x70997970C51812dc3A010C7d01b50e0d17dc79C8"),
           "1.5", 7.0, 60.0, Active, now - 172800000) ]
  }

  // ---------------------------------------------------------------------
  // Replacement collections

  /** `loans.map(...)` in acceptLoanOffer: every record with the id gets the borrower and becomes Active. */
  function AcceptAll(loans: seq<Loan>, id: string, account: string): (r: seq<Loan>)
    ensures LoanIds(r) == LoanIds(loans)
    ensures forall l :: l in r && l.id == id ==> l.status == Active && l.borrower == Some(account)
    ensures forall l :: l in loans && l.id != id ==> l in r
  {
    seq(|loans|, i requires 0 <= i < |loans| =>
      if loans[i].id == id then loans[i].(borrower := Some(account), status := Active) else loans[i])
  }

  /** `loans.map(...)` in repayLoan: every record with the id becomes Completed. */
  function RepayAll(loans: seq<Loan>, id: string): (r: seq<Loan>)
    ensures LoanIds(r) == LoanIds(loans)
    ensures forall l :: l in r && l.id == id ==> l.status == Completed
    ensures forall l :: l in loans && l.id != id ==> l in r
  {
    seq(|loans|, i requires 0 <= i < |loans| =>
      if loans[i].id == id then loans[i].(status := Completed) else loans[i])
  }

  /** The `filter` predicate of cancelLoanOffer. */
  function IdIsNot(id: string): Loan -> bool {
    (l: Loan) => l.id != id
  }

  /** `loans.filter(loan => loan.id !== id)` in cancelLoanOffer. */
  function WithoutLoan(loans: seq<Loan>, id: string): (r: seq<Loan>)
    ensures forall l :: l in r <==> l in loans && l.id != id
    ensures id !in LoanIds(r)
  {
    Filter(loans, IdIsNot(id))
  }

  /** `loanRequests.map(...)` in fulfillLoanRequest and cancelLoanRequest. */
  function SetRequestStatus(requests: seq<LoanRequest>, id: string, status: RequestStatus): (r: seq<LoanRequest>)
    ensures RequestIds(r) == RequestIds(requests)
    ensures forall q :: q in r && q.id == id ==> q.status == status
    ensures forall q :: q in requests && q.id != id ==> q in r
  {
    seq(|requests|, i requires 0 <= i < |requests| =>
      if requests[i].id == id then requests[i].(status := status) else requests[i])
  }

  // ---------------------------------------------------------------------
  // Guards, in the order the provider tests them

  /** createLoanOffer and createLoanRequest return early only without a wallet. */
  function CreateCheck(account: Option<string>, hasSigner: bool): (r: Outcome)
    ensures r == Ok <==> Connected(account, hasSigner)
    ensures r in {NotConnected, Ok}
  {
    if !Connected(account, hasSigner) then NotConnected else Ok
  }

  /** acceptLoanOffer: wallet, then found, then Open. The lender is not turned away. */
  function AcceptCheck(loans: seq<Loan>, id: string, account: Option<string>, hasSigner: bool): (r: Outcome)
    ensures r != NotOwner
    ensures r == NotConnected <==> !Connected(account, hasSigner)
    ensures r == NotFound <==> Connected(account, hasSigner) && id !in LoanIds(loans)
    ensures r == NotAvailable <==> Connected(account, hasSigner) && id in LoanIds(loans) && FindLoan(loans, id).value.status != Open
    ensures Unique(LoanIds(loans)) ==>
      (r == Ok <==> Connected(account, hasSigner) && exists k :: 0 <= k < |loans| && loans[k].id == id && loans[k].status == Open)
  {
    if !Connected(account, hasSigner) then NotConnected
    else
      match FindLoan(loans, id)
      case None => NotFound
      case Some(loan) => if loan.status != Open then NotAvailable else Ok
  }

  /** fulfillLoanRequest: wallet, then found, then Pending. The borrower is not turned away. */
  function FulfillCheck(requests: seq<LoanRequest>, id: string, account: Option<string>, hasSigner: bool): (r: Outcome)
    ensures r != NotOwner
    ensures r == NotConnected <==> !Connected(account, hasSigner)
    ensures r == NotFound <==> Connected(account, hasSigner) && id !in RequestIds(requests)
    ensures r == NotAvailable <==> Connected(account, hasSigner) && id in RequestIds(requests) && FindRequest(requests, id).value.status != Pending
    ensures Unique(RequestIds(requests)) ==>
      (r == Ok <==> Connected(account, hasSigner) && exists k :: 0 <= k < |requests| && requests[k].id == id && requests[k].status == Pending)
  {
    if !Connected(account, hasSigner) then NotConnected
    else
      match FindRequest(requests, id)
      case None => NotFound
      case Some(request) => if request.status != Pending then NotAvailable else Ok
  }

  /** repayLoan: wallet, then found, then Active, then caller is the borrower. */
  function RepayCheck(loans: seq<Loan>, id: string, account: Option<string>, hasSigner: bool): (r: Outcome)
    ensures r == NotConnected <==> !Connected(account, hasSigner)
    ensures r == NotFound <==> Connected(account, hasSigner) && id !in LoanIds(loans)
    ensures r == NotAvailable <==> Connected(account, hasSigner) && id in LoanIds(loans) && FindLoan(loans, id).value.status != Active
    ensures r == NotOwner <==> (Connected(account, hasSigner) && id in LoanIds(loans) &&
      FindLoan(loans, id).value.status == Active && FindLoan(loans, id).value.borrower != account)
    ensures Unique(LoanIds(loans)) ==>
      (r == Ok <==> (Connected(account, hasSigner) &&
        exists k :: 0 <= k < |loans| && loans[k].id == id && loans[k].status == Active && loans[k].borrower == account))
  {
    if !Connected(account, hasSigner) then NotConnected
    else
      match FindLoan(loans, id)
      case None => NotFound
      case Some(loan) =>
        if loan.status != Active then NotAvailable
        else if loan.borrower != account then NotOwner
        else Ok
  }

  /** cancelLoanOffer: wallet, then found, then Open, then caller is the lender. */
  function CancelOfferCheck(loans: seq<Loan>, id: string, account: Option<string>, hasSigner: bool): (r: Outcome)
    ensures r == NotConnected <==> !Connected(account, hasSigner)
    ensures r == NotFound <==> Connected(account, hasSigner) && id !in LoanIds(loans)
    ensures r == NotAvailable <==> Connected(account, hasSigner) && id in LoanIds(loans) && FindLoan(loans, id).value.status != Open
    ensures r == NotOwner <==> (Connected(account, hasSigner) && id in LoanIds(loans) &&
      FindLoan(loans, id).value.status == Open && Some(FindLoan(loans, id).value.lender) != account)
    ensures Unique(LoanIds(loans)) ==>
      (r == Ok <==> (Connected(account, hasSigner) &&
        exists k :: 0 <= k < |loans| && loans[k].id == id && loans[k].status == Open && Some(loans[k].lender) == account))
  {
    if !Connected(account, hasSigner) then NotConnected
    else
      match FindLoan(loans, id)
      case None => NotFound
      case Some(loan) =>
        if loan.status != Open then NotAvailable
        else if Some(loan.lender) != account then NotOwner
        else Ok
  }

  /** cancelLoanRequest: wallet, then found, then Pending, then caller is the borrower. */
  function CancelRequestCheck(requests: seq<LoanRequest>, id: string, account: Option<string>, hasSigner: bool): (r: Outcome)
    ensures r == NotConnected <==> !Connected(account, hasSigner)
    ensures r == NotFound <==> Connected(account, hasSigner) && id !in RequestIds(requests)
    ensures r == NotAvailable <==> Connected(account, hasSigner) && id in RequestIds(requests) && FindRequest(requests, id).value.status != Pending
    ensures r == NotOwner <==> (Connected(account, hasSigner) && id in RequestIds(requests) &&
      FindRequest(requests, id).value.status == Pending && Some(FindRequest(requests, id).value.borrower) != account)
    ensures Unique(RequestIds(requests)) ==>
      (r == Ok <==> (Connected(account, hasSigner) &&
        exists k :: 0 <= k < |requests| && requests[k].id == id && requests[k].status == Pending && Some(requests[k].borrower) == account))
  {
    if !Connected(account, hasSigner) then NotConnected
    else
      match FindRequest(requests, id)
      case None => NotFound
      case Some(request) =>
        if request.status != Pending then NotAvailable
        else if Some(request.borrower) != account then NotOwner
        else Ok
  }
}
