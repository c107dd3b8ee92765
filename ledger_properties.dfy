/**
 * What the ledger's operations keep true, stated on the pure collection
 * builders: with unique ids each operation touches exactly the record it
 * found, every record only moves along the transition table, and the
 * invariant below (unique ids, borrower present exactly when a loan has been
 * taken up) survives every successful operation. Duplicate ids break this,
 * and one lemma shows how.
 */
module LedgerProperties {
  import opened SeqUtil
  import opened LoanTypes
  import opened LoanRules

  /** An offer has no borrower while Open and keeps one once Active or Completed. */
  predicate BorrowerMatchesStatus(l: Loan) {
    match l.status
    case Open => l.borrower.None?
    case Active => l.borrower.Some?
    case Completed => l.borrower.Some?
    case Defaulted => true
  }

  /** The state the operations maintain. */
  predicate LedgerInvariant(loans: seq<Loan>, requests: seq<LoanRequest>) {
    && Unique(LoanIds(loans))
    && Unique(RequestIds(requests))
    && forall i :: 0 <= i < |loans| ==> BorrowerMatchesStatus(loans[i])
  }

  /** Every record kept in place moves along the transition table; new ones go at the end. */
  predicate LoansEvolve(before: seq<Loan>, after: seq<Loan>) {
    |before| <= |after| && forall i :: 0 <= i < |before| ==> LoanStep(before[i], after[i])
  }

  predicate RequestsEvolve(before: seq<LoanRequest>, after: seq<LoanRequest>) {
    |before| <= |after| && forall i :: 0 <= i < |before| ==> RequestStep(before[i], after[i])
  }

  // ---------------------------------------------------------------------
  // Only the found record changes

  lemma AcceptChangesOnlyTarget(loans: seq<Loan>, id: string, account: string, k: nat)
    requires Unique(LoanIds(loans)) && k < |loans| && loans[k].id == id
    ensures AcceptAll(loans, id, account) == loans[k := loans[k].(borrower := Some(account), status := Active)]
  {
  }

  lemma RepayChangesOnlyTarget(loans: seq<Loan>, id: string, k: nat)
    requires Unique(LoanIds(loans)) && k < |loans| && loans[k].id == id
    ensures RepayAll(loans, id) == loans[k := loans[k].(status := Completed)]
  {
  }

  lemma SetRequestStatusChangesOnlyTarget(requests: seq<LoanRequest>, id: string, status: RequestStatus, k: nat)
    requires Unique(RequestIds(requests)) && k < |requests| && requests[k].id == id
    ensures SetRequestStatus(requests, id, status) == requests[k := requests[k].(status := status)]
  {
  }

  /** Cancelling an offer deletes exactly the found record; the others keep their order. */
  lemma {:induction false} CancelRemovesOnlyTarget(loans: seq<Loan>, id: string, k: nat)
    requires Unique(LoanIds(loans)) && k < |loans| && loans[k].id == id
    ensures WithoutLoan(loans, id) == loans[..k] + loans[k + 1..]
    ensures |WithoutLoan(loans, id)| == |loans| - 1
  {
    var ids := LoanIds(loans);
    var front, back := loans[..k], loans[k + 1..];
    assert loans == front + [loans[k]] + back;
    forall i | 0 <= i < |front| ensures IdIsNot(id)(front[i]) {
      assert ids[i] != ids[k];
    }
    forall i | 0 <= i < |back| ensures IdIsNot(id)(back[i]) {
      assert back[i] == loans[k + 1 + i];
      assert ids[k] != ids[k + 1 + i];
    }
    FilterAppend(front + [loans[k]], back, IdIsNot(id));
    FilterAppend(front, [loans[k]], IdIsNot(id));
    FilterKeepsAll(front, IdIsNot(id));
    FilterKeepsAll(back, IdIsNot(id));
    assert Filter([loans[k]], IdIsNot(id)) == [] by {
      assert [loans[k]][1..] == [];
    }
  }

  // ---------------------------------------------------------------------
  // Each successful operation keeps the invariant and follows the transition table

  lemma CreateOfferKeepsInvariant(loans: seq<Loan>, requests: seq<LoanRequest>, lender: string, amount: string,
                                  interestRate: real, duration: real, id: string, timestamp: int)
    requires LedgerInvariant(loans, requests) && id !in LoanIds(loans)
    ensures LedgerInvariant(loans + [NewOffer(lender, amount, interestRate, duration, id, timestamp)], requests)
    ensures LoansEvolve(loans, loans + [NewOffer(lender, amount, interestRate, duration, id, timestamp)])
  {
    var offer := NewOffer(lender, amount, interestRate, duration, id, timestamp);
    assert LoanIds(loans + [offer]) == LoanIds(loans) + [id];
    UniqueAppend(LoanIds(loans), id);
  }

  lemma CreateRequestKeepsInvariant(loans: seq<Loan>, requests: seq<LoanRequest>, borrower: string, amount: string,
                                    purpose: string, id: string, timestamp: int)
    requires LedgerInvariant(loans, requests) && id !in RequestIds(requests)
    ensures LedgerInvariant(loans, requests + [NewRequest(borrower, amount, purpose, id, timestamp)])
    ensures RequestsEvolve(requests, requests + [NewRequest(borrower, amount, purpose, id, timestamp)])
  {
    var request := NewRequest(borrower, amount, purpose, id, timestamp);
    assert RequestIds(requests + [request]) == RequestIds(requests) + [id];
    UniqueAppend(RequestIds(requests), id);
  }

  lemma AcceptKeepsInvariant(loans: seq<Loan>, requests: seq<LoanRequest>, id: string, account: Option<string>, hasSigner: bool)
    requires LedgerInvariant(loans, requests) && AcceptCheck(loans, id, account, hasSigner) == Ok
    ensures LedgerInvariant(AcceptAll(loans, id, account.value), requests)
    ensures LoansEvolve(loans, AcceptAll(loans, id, account.value))
    ensures |AcceptAll(loans, id, account.value)| == |loans|
  {
    var k :| 0 <= k < |loans| && loans[k].id == id && loans[k].status == Open;
    AcceptChangesOnlyTarget(loans, id, account.value, k);
    var after := AcceptAll(loans, id, account.value);
    assert LoanIds(after) == LoanIds(loans);
  }

  lemma RepayKeepsInvariant(loans: seq<Loan>, requests: seq<LoanRequest>, id: string, account: Option<string>, hasSigner: bool)
    requires LedgerInvariant(loans, requests) && RepayCheck(loans, id, account, hasSigner) == Ok
    ensures LedgerInvariant(RepayAll(loans, id), requests)
    ensures LoansEvolve(loans, RepayAll(loans, id))
    ensures |RepayAll(loans, id)| == |loans|
  {
    var k :| 0 <= k < |loans| && loans[k].id == id && loans[k].status == Active && loans[k].borrower == account;
    RepayChangesOnlyTarget(loans, id, k);
    assert LoanIds(RepayAll(loans, id)) == LoanIds(loans);
  }

  /** Deleting one record keeps the invariant. */
  lemma RemoveAtKeepsInvariant(loans: seq<Loan>, requests: seq<LoanRequest>, k: nat)
    requires LedgerInvariant(loans, requests) && k < |loans|
    ensures LedgerInvariant(loans[..k] + loans[k + 1..], requests)
  {
    var after := loans[..k] + loans[k + 1..];
    var ids, ids' := LoanIds(loans), LoanIds(after);
    forall i | 0 <= i < |after| ensures after[i] == loans[if i < k then i else i + 1] {
    }
    forall i, j | 0 <= i < j < |after| ensures ids'[i] != ids'[j] {
      var i0, j0 := if i < k then i else i + 1, if j < k then j else j + 1;
      assert ids[i0] != ids[j0];
    }
  }

  lemma CancelOfferKeepsInvariant(loans: seq<Loan>, requests: seq<LoanRequest>, id: string, account: Option<string>, hasSigner: bool)
    requires LedgerInvariant(loans, requests) && CancelOfferCheck(loans, id, account, hasSigner) == Ok
    ensures LedgerInvariant(WithoutLoan(loans, id), requests)
    ensures Subseq(WithoutLoan(loans, id), loans)
    ensures |WithoutLoan(loans, id)| == |loans| - 1
  {
    var k :| 0 <= k < |loans| && loans[k].id == id && loans[k].status == Open && Some(loans[k].lender) == account;
    CancelRemovesOnlyTarget(loans, id, k);
    FilterIsSubseq(loans, IdIsNot(id));
    RemoveAtKeepsInvariant(loans, requests, k);
  }

  lemma FulfillKeepsInvariant(loans: seq<Loan>, requests: seq<LoanRequest>, id: string, account: Option<string>, hasSigner: bool,
                             newId: string, timestamp: int)
    requires LedgerInvariant(loans, requests) && FulfillCheck(requests, id, account, hasSigner) == Ok
    requires newId !in LoanIds(loans)
    ensures var loan := FundedLoan(FindRequest(requests, id).value, account.value, newId, timestamp);
      && LedgerInvariant(loans + [loan], SetRequestStatus(requests, id, Fulfilled))
      && LoansEvolve(loans, loans + [loan])
      && RequestsEvolve(requests, SetRequestStatus(requests, id, Fulfilled))
  {
    var k :| 0 <= k < |requests| && requests[k].id == id && requests[k].status == Pending;
    SetRequestStatusChangesOnlyTarget(requests, id, Fulfilled, k);
    var loan := FundedLoan(FindRequest(requests, id).value, account.value, newId, timestamp);
    assert LoanIds(loans + [loan]) == LoanIds(loans) + [newId];
    UniqueAppend(LoanIds(loans), newId);
    assert RequestIds(SetRequestStatus(requests, id, Fulfilled)) == RequestIds(requests);
  }

  lemma CancelRequestKeepsInvariant(loans: seq<Loan>, requests: seq<LoanRequest>, id: string, account: Option<string>, hasSigner: bool)
    requires LedgerInvariant(loans, requests) && CancelRequestCheck(requests, id, account, hasSigner) == Ok
    ensures LedgerInvariant(loans, SetRequestStatus(requests, id, Cancelled))
    ensures RequestsEvolve(requests, SetRequestStatus(requests, id, Cancelled))
    ensures |SetRequestStatus(requests, id, Cancelled)| == |requests|
  {
    var k :| 0 <= k < |requests| && requests[k].id == id && requests[k].status == Pending && Some(requests[k].borrower) == account;
    SetRequestStatusChangesOnlyTarget(requests, id, Cancelled, k);
    assert RequestIds(SetRequestStatus(requests, id, Cancelled)) == RequestIds(requests);
  }

  /** The seeded demonstration data satisfies the invariant. */
  lemma DemoDataKeepsInvariant(now: int)
    ensures LedgerInvariant(DemoLoans(now), DemoRequests(now))
  {
    assert LoanIds(DemoLoans(now)) == ["loan-001", "loan-002"];
    assert RequestIds(DemoRequests(now)) == ["req-001", "req-002"];
  }

  /**
   * Without unique ids the guarantees fail: `find` checks only the first
   * record with the id, but `map` rewrites every one, so accepting an Open
   * offer also turns a Completed loan sharing its id back into an Active one.
   */
  lemma DuplicateIdReopensCompletedLoan()
    ensures var loans := [ Loan("loan-1", "0xA", None, "1.0", 5.0, 30.0, Open, 0),
                           Loan("loan-1", "0xC", Some("0xD"), "2.0", 5.0, 30.0, Completed, 0) ];
      && AcceptCheck(loans, "loan-1", Some("0xB"), true) == Ok
      && AcceptAll(loans, "loan-1", "0xB")[1].status == Active
      && !LoansEvolve(loans, AcceptAll(loans, "loan-1", "0xB"))
  {
    var loans := [ Loan("loan-1", "0xA", None, "1.0", 5.0, 30.0, Open, 0),
                   Loan("loan-1", "0xC", Some("0xD"), "2.0", 5.0, 30.0, Completed, 0) ];
    assert LoanIds(loans)[0] == "loan-1";
    assert !LoanStep(loans[1], AcceptAll(loans, "loan-1", "0xB")[1]);
  }
}
