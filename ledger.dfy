/**
 * The loan provider as an object: the two collections it holds in memory,
 * the two saved copies it reads at start-up and writes after every
 * successful operation, and one method per operation. Each method tests the
 * wallet, looks the record up, tests its status and (for repay and the two
 * cancels) its owner, returning early with an `Outcome` and no change at the
 * first failed test; otherwise it replaces the collection and saves it.
 *
 * The caller's wallet (`account`, and whether a signer exists), new ids and
 * clock readings come in as parameters.
 */
module LoanLedger {
  import opened SeqUtil
  import opened LoanTypes
  import opened LoanRules
  import opened LedgerProperties

  class Ledger {
    var loans: seq<Loan>
    var loanRequests: seq<LoanRequest>
    /** The saved collections (the two browser-storage keys), absent until first written. */
    var savedLoans: Option<seq<Loan>>
    var savedRequests: Option<seq<LoanRequest>>

    /** A provider starts with both collections empty, over whatever storage holds. */
    constructor (savedLoans: Option<seq<Loan>>, savedRequests: Option<seq<LoanRequest>>)
      ensures loans == [] && loanRequests == []
      ensures this.savedLoans == savedLoans && this.savedRequests == savedRequests
    {
      loans := [];
      loanRequests := [];
      this.savedLoans := savedLoans;
      this.savedRequests := savedRequests;
    }

    /**
     * Start-up: take what is saved; when no requests are saved, seed two
     * requests and two loans and save both, even over saved loans.
     */
    method LoadData(now: int)
      modifies this
      ensures old(savedRequests).None? ==>
        && loans == DemoLoans(now) && loanRequests == DemoRequests(now)
        && savedLoans == Some(loans) && savedRequests == Some(loanRequests)
        && LedgerInvariant(loans, loanRequests)
      ensures old(savedRequests).Some? ==>
        && loanRequests == old(savedRequests).value
        && loans == (if old(savedLoans).Some? then old(savedLoans).value else old(loans))
        && savedLoans == old(savedLoans) && savedRequests == old(savedRequests)
    {
      if savedLoans.Some? {
        loans := savedLoans.value;
      }
      if savedRequests.Some? {
        loanRequests := savedRequests.value;
      } else {
        loanRequests := DemoRequests(now);
        savedRequests := Some(loanRequests);
        loans := DemoLoans(now);
        savedLoans := Some(loans);
        DemoDataKeepsInvariant(now);
      }
    }

    /** createLoanOffer: append an Open offer lent by the caller. */
    method CreateLoanOffer(account: Option<string>, hasSigner: bool, amount: string, interestRate: real, duration: real,
                           id: string, timestamp: int) returns (outcome: Outcome)
      modifies this
      ensures outcome == CreateCheck(account, hasSigner)
      ensures outcome == Ok ==>
        loans == old(loans) + [NewOffer(account.value, amount, interestRate, duration, id, timestamp)] && savedLoans == Some(loans)
      ensures outcome != Ok ==> loans == old(loans) && savedLoans == old(savedLoans)
      ensures loanRequests == old(loanRequests) && savedRequests == old(savedRequests)
      ensures LoansEvolve(old(loans), loans)
      ensures old(LedgerInvariant(loans, loanRequests)) && id !in old(LoanIds(loans)) ==> LedgerInvariant(loans, loanRequests)
    {
      if !Connected(account, hasSigner) {
        return NotConnected;
      }
      ghost var wasValid := LedgerInvariant(loans, loanRequests) && id !in LoanIds(loans);
      if wasValid {
        CreateOfferKeepsInvariant(loans, loanRequests, account.value, amount, interestRate, duration, id, timestamp);
      }
      loans := loans + [NewOffer(account.value, amount, interestRate, duration, id, timestamp)];
      savedLoans := Some(loans);
      outcome := Ok;
    }

    /** createLoanRequest: append a Pending request borrowed by the caller. */
    method CreateLoanRequest(account: Option<string>, hasSigner: bool, amount: string, purpose: string,
                             id: string, timestamp: int) returns (outcome: Outcome)
      modifies this
      ensures outcome == CreateCheck(account, hasSigner)
      ensures outcome == Ok ==>
        loanRequests == old(loanRequests) + [NewRequest(account.value, amount, purpose, id, timestamp)]
        && savedRequests == Some(loanRequests)
      ensures outcome != Ok ==> loanRequests == old(loanRequests) && savedRequests == old(savedRequests)
      ensures loans == old(loans) && savedLoans == old(savedLoans)
      ensures RequestsEvolve(old(loanRequests), loanRequests)
      ensures old(LedgerInvariant(loans, loanRequests)) && id !in old(RequestIds(loanRequests)) ==> LedgerInvariant(loans, loanRequests)
    {
      if !Connected(account, hasSigner) {
        return NotConnected;
      }
      ghost var wasValid := LedgerInvariant(loans, loanRequests) && id !in RequestIds(loanRequests);
      if wasValid {
        CreateRequestKeepsInvariant(loans, loanRequests, account.value, amount, purpose, id, timestamp);
      }
      loanRequests := loanRequests + [NewRequest(account.value, amount, purpose, id, timestamp)];
      savedRequests := Some(loanRequests);
      outcome := Ok;
    }

    /** acceptLoanOffer: the caller becomes the borrower of an Open offer, which becomes Active. */
    method AcceptLoanOffer(account: Option<string>, hasSigner: bool, id: string) returns (outcome: Outcome)
      modifies this
      ensures outcome == AcceptCheck(old(loans), id, account, hasSigner)
      ensures outcome == Ok ==> loans == AcceptAll(old(loans), id, account.value) && savedLoans == Some(loans)
      ensures outcome != Ok ==> loans == old(loans) && savedLoans == old(savedLoans)
      ensures loanRequests == old(loanRequests) && savedRequests == old(savedRequests)
      ensures old(LedgerInvariant(loans, loanRequests)) ==> LedgerInvariant(loans, loanRequests) && LoansEvolve(old(loans), loans)
    {
      if !Connected(account, hasSigner) {
        return NotConnected;
      }
      var found := FindLoan(loans, id);
      if found.None? {
        return NotFound;
      }
      if found.value.status != Open {
        return NotAvailable;
      }
      ghost var wasValid := LedgerInvariant(loans, loanRequests);
      if wasValid {
        AcceptKeepsInvariant(loans, loanRequests, id, account, hasSigner);
      }
      loans := AcceptAll(loans, id, account.value);
      savedLoans := Some(loans);
      outcome := Ok;
    }

    /**
     * fulfillLoanRequest: a Pending request becomes Fulfilled and an Active
     * loan from the caller to the request's borrower is appended; both
     * collections are replaced together.
     */
    method FulfillLoanRequest(account: Option<string>, hasSigner: bool, id: string, newId: string, timestamp: int)
      returns (outcome: Outcome)
      modifies this
      ensures outcome == FulfillCheck(old(loanRequests), id, account, hasSigner)
      ensures outcome == Ok ==>
        && loanRequests == SetRequestStatus(old(loanRequests), id, Fulfilled)
        && loans == old(loans) + [FundedLoan(FindRequest(old(loanRequests), id).value, account.value, newId, timestamp)]
        && savedRequests == Some(loanRequests) && savedLoans == Some(loans)
      ensures outcome != Ok ==>
        && loans == old(loans) && loanRequests == old(loanRequests)
        && savedLoans == old(savedLoans) && savedRequests == old(savedRequests)
      ensures old(LedgerInvariant(loans, loanRequests)) && newId !in old(LoanIds(loans)) ==>
        && LedgerInvariant(loans, loanRequests)
        && LoansEvolve(old(loans), loans) && RequestsEvolve(old(loanRequests), loanRequests)
    {
      if !Connected(account, hasSigner) {
        return NotConnected;
      }
      var found := FindRequest(loanRequests, id);
      if found.None? {
        return NotFound;
      }
      if found.value.status != Pending {
        return NotAvailable;
      }
      ghost var wasValid := LedgerInvariant(loans, loanRequests) && newId !in LoanIds(loans);
      if wasValid {
        FulfillKeepsInvariant(loans, loanRequests, id, account, hasSigner, newId, timestamp);
      }
      var updatedRequests := SetRequestStatus(loanRequests, id, Fulfilled);
      var updatedLoans := loans + [FundedLoan(found.value, account.value, newId, timestamp)];
      loanRequests := updatedRequests;
      loans := updatedLoans;
      savedRequests := Some(updatedRequests);
      savedLoans := Some(updatedLoans);
      outcome := Ok;
    }

    /** repayLoan: the borrower of an Active loan marks it Completed. */
    method RepayLoan(account: Option<string>, hasSigner: bool, id: string) returns (outcome: Outcome)
      modifies this
      ensures outcome == RepayCheck(old(loans), id, account, hasSigner)
      ensures outcome == Ok ==> loans == RepayAll(old(loans), id) && savedLoans == Some(loans)
      ensures outcome != Ok ==> loans == old(loans) && savedLoans == old(savedLoans)
      ensures loanRequests == old(loanRequests) && savedRequests == old(savedRequests)
      ensures old(LedgerInvariant(loans, loanRequests)) ==> LedgerInvariant(loans, loanRequests) && LoansEvolve(old(loans), loans)
    {
      if !Connected(account, hasSigner) {
        return NotConnected;
      }
      var found := FindLoan(loans, id);
      if found.None? {
        return NotFound;
      }
      if found.value.status != Active {
        return NotAvailable;
      }
      if found.value.borrower != account {
        return NotOwner;
      }
      ghost var wasValid := LedgerInvariant(loans, loanRequests);
      if wasValid {
        RepayKeepsInvariant(loans, loanRequests, id, account, hasSigner);
      }
      loans := RepayAll(loans, id);
      savedLoans := Some(loans);
      outcome := Ok;
    }

    /** cancelLoanOffer: the lender of an Open offer removes it from the list. */
    method CancelLoanOffer(account: Option<string>, hasSigner: bool, id: string) returns (outcome: Outcome)
      modifies this
      ensures outcome == CancelOfferCheck(old(loans), id, account, hasSigner)
      ensures outcome == Ok ==> loans == WithoutLoan(old(loans), id) && savedLoans == Some(loans)
      ensures outcome != Ok ==> loans == old(loans) && savedLoans == old(savedLoans)
      ensures loanRequests == old(loanRequests) && savedRequests == old(savedRequests)
      ensures Subseq(loans, old(loans))
      ensures old(LedgerInvariant(loans, loanRequests)) && outcome == Ok ==>
        LedgerInvariant(loans, loanRequests) && |loans| == |old(loans)| - 1
    {
      FilterIsSubseq(loans, IdIsNot(id));
      SubseqRefl(loans);
      if !Connected(account, hasSigner) {
        return NotConnected;
      }
      var found := FindLoan(loans, id);
      if found.None? {
        return NotFound;
      }
      if found.value.status != Open {
        return NotAvailable;
      }
      if Some(found.value.lender) != account {
        return NotOwner;
      }
      ghost var wasValid := LedgerInvariant(loans, loanRequests);
      if wasValid {
        CancelOfferKeepsInvariant(loans, loanRequests, id, account, hasSigner);
      }
      loans := WithoutLoan(loans, id);
      savedLoans := Some(loans);
      outcome := Ok;
    }

    /** cancelLoanRequest: the borrower of a Pending request marks it Cancelled; it stays listed. */
    method CancelLoanRequest(account: Option<string>, hasSigner: bool, id: string) returns (outcome: Outcome)
      modifies this
      ensures outcome == CancelRequestCheck(old(loanRequests), id, account, hasSigner)
      ensures outcome == Ok ==> loanRequests == SetRequestStatus(old(loanRequests), id, Cancelled) && savedRequests == Some(loanRequests)
      ensures outcome != Ok ==> loanRequests == old(loanRequests) && savedRequests == old(savedRequests)
      ensures loans == old(loans) && savedLoans == old(savedLoans)
      ensures |loanRequests| == |old(loanRequests)|
      ensures old(LedgerInvariant(loans, loanRequests)) ==> LedgerInvariant(loans, loanRequests) && RequestsEvolve(old(loanRequests), loanRequests)
    {
      if !Connected(account, hasSigner) {
        return NotConnected;
      }
      var found := FindRequest(loanRequests, id);
      if found.None? {
        return NotFound;
      }
      if found.value.status != Pending {
        return NotAvailable;
      }
      if Some(found.value.borrower) != account {
        return NotOwner;
      }
      ghost var wasValid := LedgerInvariant(loans, loanRequests);
      if wasValid {
        CancelRequestKeepsInvariant(loans, loanRequests, id, account, hasSigner);
      }
      loanRequests := SetRequestStatus(loanRequests, id, Cancelled);
      savedRequests := Some(loanRequests);
      outcome := Ok;
    }
  }

  /** A client of the specifications above: an accept without a wallet leaves 0xA's offer as it was. */
  method UnconnectedAcceptScenario() {
    var ledger := new Ledger(None, None);
    var r := ledger.CreateLoanOffer(Some("0xA"), true, "2.0", 5.0, 30.0, "loan-1", 1000);
    assert r == Ok && ledger.loans == [Loan("loan-1", "0xA", None, "2.0", 5.0, 30.0, Open, 1000)];
    r := ledger.AcceptLoanOffer(None, false, "loan-1");
    assert r == NotConnected && ledger.loans == [Loan("loan-1", "0xA", None, "2.0", 5.0, 30.0, Open, 1000)];
  }

  /**
   * 0xA offers a loan and 0xB takes it, becoming the borrower of an Active
   * loan; then 0xC arrives too late and 0xA can no longer cancel.
   */
  method OfferAcceptScenario() {
    var ledger := new Ledger(None, None);
    var a, b, c := Some("0xA"), Some("0xB"), Some("0xC");
    var r := ledger.CreateLoanOffer(a, true, "2.0", 5.0, 30.0, "loan-1", 1000);
    r := ledger.AcceptLoanOffer(b, true, "loan-1");
    assert LoanIds(ledger.loans) == ["loan-1"];
    assert r == Ok && ledger.loans == [Loan("loan-1", "0xA", b, "2.0", 5.0, 30.0, Active, 1000)];
    r := ledger.AcceptLoanOffer(c, true, "loan-1");
    assert r == NotAvailable;
    r := ledger.CancelLoanOffer(a, true, "loan-1");
    assert r == NotAvailable;
  }

  /** Only the borrower 0xB can repay the loan it took, and only once. */
  method RepayScenario() {
    var ledger := new Ledger(None, None);
    var a, b, c := Some("0xA"), Some("0xB"), Some("0xC");
    var r := ledger.CreateLoanOffer(a, true, "2.0", 5.0, 30.0, "loan-1", 1000);
    r := ledger.AcceptLoanOffer(b, true, "loan-1");
    assert LoanIds(ledger.loans) == ["loan-1"];
    assert r == Ok && ledger.loans == [Loan("loan-1", "0xA", b, "2.0", 5.0, 30.0, Active, 1000)];
    r := ledger.RepayLoan(c, true, "loan-1");
    assert r == NotOwner;
    r := ledger.RepayLoan(b, true, "loan-1");
    assert r == Ok && ledger.loans[0].status == Completed;
    r := ledger.RepayLoan(b, true, "loan-1");
    assert LoanIds(ledger.loans) == ["loan-1"];
    assert r == NotAvailable;
  }

  /** 0xD asks for 1.0 for rent and 0xE funds it: the request is Fulfilled and an Active loan appears. */
  method RequestFundingScenario() {
    var ledger := new Ledger(None, None);
    var d, e := Some("0xD"), Some("0xE");
    var r := ledger.CreateLoanRequest(d, true, "1.0", "rent", "req-1", 1000);
    assert r == Ok;
    r := ledger.FulfillLoanRequest(e, true, "req-1", "loan-1", 2000);
    assert RequestIds([NewRequest("0xD", "1.0", "rent", "req-1", 1000)]) == ["req-1"];
    assert r == Ok;
    assert ledger.loanRequests == [LoanRequest("req-1", "0xD", "1.0", "rent", Fulfilled, 1000)];
    assert ledger.loans == [Loan("loan-1", "0xE", d, "1.0", 5.0, 30.0, Active, 2000)];
    r := ledger.CancelLoanRequest(d, true, "req-1");
    assert RequestIds(ledger.loanRequests) == ["req-1"];
    assert r == NotAvailable;
  }
}
