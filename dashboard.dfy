/**
 * The dashboard's derived lists and its market average: status filters over
 * the ledger's collections and over the current account's records, and the
 * mean interest rate of the open offers, shown only when there is one.
 */
module Dashboard {
  import opened SeqUtil
  import opened LoanTypes
  import opened LoanRules

  function HasLoanStatus(status: LoanStatus): Loan -> bool {
    (l: Loan) => l.status == status
  }

  function HasRequestStatus(status: RequestStatus): LoanRequest -> bool {
    (q: LoanRequest) => q.status == status
  }

  /** `openLoans`: exactly the Open loans, each as often as listed, in list order. */
  function OpenLoans(loans: seq<Loan>): (r: seq<Loan>)
    ensures forall l :: l in r <==> l in loans && l.status == Open
    ensures forall l: Loan :: l.status == Open ==> multiset(r)[l] == multiset(loans)[l]
    ensures Subseq(r, loans)
  {
    FilterIsSubseq(loans, HasLoanStatus(Open));
    FilterMultiplicities(loans, HasLoanStatus(Open));
    Filter(loans, HasLoanStatus(Open))
  }

  /** `pendingRequests`: exactly the Pending requests, each as often as listed, in list order. */
  function PendingRequests(requests: seq<LoanRequest>): (r: seq<LoanRequest>)
    ensures forall q :: q in r <==> q in requests && q.status == Pending
    ensures forall q: LoanRequest :: q.status == Pending ==> multiset(r)[q] == multiset(requests)[q]
    ensures Subseq(r, requests)
  {
    FilterIsSubseq(requests, HasRequestStatus(Pending));
    FilterMultiplicities(requests, HasRequestStatus(Pending));
    Filter(requests, HasRequestStatus(Pending))
  }

  /** `userActiveLoans`, taken from `userLoans`. */
  function UserActiveLoans(userLoans: seq<Loan>): (r: seq<Loan>)
    ensures forall l :: l in r <==> l in userLoans && l.status == Active
    ensures forall l: Loan :: l.status == Active ==> multiset(r)[l] == multiset(userLoans)[l]
    ensures Subseq(r, userLoans)
  {
    FilterIsSubseq(userLoans, HasLoanStatus(Active));
    FilterMultiplicities(userLoans, HasLoanStatus(Active));
    Filter(userLoans, HasLoanStatus(Active))
  }

  /** `userOpenLoans`: the `openLoans` filter applied to the account's loans. */
  function UserOpenLoans(userLoans: seq<Loan>): (r: seq<Loan>)
    ensures forall l :: l in r <==> l in userLoans && l.status == Open
    ensures forall l: Loan :: l.status == Open ==> multiset(r)[l] == multiset(userLoans)[l]
    ensures Subseq(r, userLoans)
  {
    OpenLoans(userLoans)
  }

  /** `userPendingRequests`: the `pendingRequests` filter applied to the account's requests. */
  function UserPendingRequests(userRequests: seq<LoanRequest>): (r: seq<LoanRequest>)
    ensures forall q :: q in r <==> q in userRequests && q.status == Pending
    ensures forall q: LoanRequest :: q.status == Pending ==> multiset(r)[q] == multiset(userRequests)[q]
    ensures Subseq(r, userRequests)
  {
    PendingRequests(userRequests)
  }

  /**
   * The account's active loans and open offers share no record, and the two
   * counts in the stats card never add up to more than the account's loans.
   */
  lemma UserActiveAndOpenDisjoint(loans: seq<Loan>, account: Option<string>)
    ensures var mine := UserLoans(loans, account);
      && (forall l :: !(l in UserActiveLoans(mine) && l in UserOpenLoans(mine)))
      && |UserActiveLoans(mine)| + |UserOpenLoans(mine)| <= |mine|
  {
    var mine := UserLoans(loans, account);
    FilterDisjointSizes(mine, HasLoanStatus(Active), HasLoanStatus(Open));
  }

  /** The account's open offers are, in order, among the market's open offers: the account's part of them. */
  lemma {:induction false} UserOpenLoansWithinOpenLoans(loans: seq<Loan>, account: Option<string>)
    ensures UserOpenLoans(UserLoans(loans, account)) == Filter(OpenLoans(loans), Involves(account))
    ensures Subseq(UserOpenLoans(UserLoans(loans, account)), OpenLoans(loans))
  {
    FilterCommutes(loans, Involves(account), HasLoanStatus(Open));
    FilterIsSubseq(OpenLoans(loans), Involves(account));
  }

  /** The account's pending requests are, in order, among all pending requests: the account's part of them. */
  lemma {:induction false} UserPendingWithinPending(requests: seq<LoanRequest>, account: Option<string>)
    ensures UserPendingRequests(UserLoanRequests(requests, account)) == Filter(PendingRequests(requests), BorrowedBy(account))
    ensures Subseq(UserPendingRequests(UserLoanRequests(requests, account)), PendingRequests(requests))
  {
    FilterCommutes(requests, BorrowedBy(account), HasRequestStatus(Pending));
    FilterIsSubseq(PendingRequests(requests), BorrowedBy(account));
  }

  // ---------------------------------------------------------------------
  // Average interest rate

  /** `reduce((acc, loan) => acc + loan.interestRate, 0)`. */
  function SumRates(loans: seq<Loan>): real {
    if loans == [] then 0.0 else loans[0].interestRate + SumRates(loans[1..])
  }

  /** The average rate, or None for the "N/A" shown when there is no open offer. */
  function AverageInterestRate(openLoans: seq<Loan>): (r: Option<real>)
    ensures r.None? <==> openLoans == []
  {
    if |openLoans| > 0 then Some(SumRates(openLoans) / (|openLoans| as real)) else None
  }

  lemma {:induction false} SumRatesBounds(loans: seq<Loan>, lo: real, hi: real)
    requires forall i :: 0 <= i < |loans| ==> lo <= loans[i].interestRate <= hi
    ensures (|loans| as real) * lo <= SumRates(loans) <= (|loans| as real) * hi
    decreases |loans|
  {
    if loans != [] {
      SumRatesBounds(loans[1..], lo, hi);
      assert (|loans| as real) == (|loans[1..]| as real) + 1.0;
    }
  }

  /** The average lies between any lower and upper bound of the rates averaged. */
  lemma AverageWithinRates(openLoans: seq<Loan>, lo: real, hi: real)
    requires openLoans != []
    requires forall i :: 0 <= i < |openLoans| ==> lo <= openLoans[i].interestRate <= hi
    ensures lo <= AverageInterestRate(openLoans).value <= hi
  {
    var n := |openLoans| as real;
    var sum := SumRates(openLoans);
    SumRatesBounds(openLoans, lo, hi);
    assert n * lo <= sum <= n * hi;
    assert AverageInterestRate(openLoans) == Some(sum / n);
    assert sum / n - lo == (sum - n * lo) / n;
    assert hi - sum / n == (n * hi - sum) / n;
  }
}
