/**
 * The two records of the loan marketplace, their statuses, the wallet a
 * caller presents, and the result codes of the ledger's operations.
 *
 * A loan offer moves Open -> Active -> Completed (or is removed while Open);
 * a request moves Pending -> Fulfilled or Pending -> Cancelled. `Defaulted`
 * is a declared status that no operation ever assigns.
 */
module LoanTypes {
  import opened SeqUtil

  datatype LoanStatus = Open | Active | Completed | Defaulted
  datatype RequestStatus = Pending | Fulfilled | Cancelled

  /**
   * A loan offer, or an active loan. `borrower` is JavaScript's `string | null`;
   * `amount` stays the decimal text the form produced; `interestRate` and
   * `duration` are JavaScript numbers; `timestamp` is milliseconds.
   */
  datatype Loan = Loan(
    id: string,
    lender: string,
    borrower: Option<string>,
    amount: string,
    interestRate: real,
    duration: real,
    status: LoanStatus,
    timestamp: int)

  datatype LoanRequest = LoanRequest(
    id: string,
    borrower: string,
    amount: string,
    purpose: string,
    status: RequestStatus,
    timestamp: int)

  /**
   * The wallet test every operation starts with, `!account || !signer`:
   * the account must be present and non-empty and a signer must exist.
   */
  predicate Connected(account: Option<string>, hasSigner: bool) {
    account.Some? && account.value != "" && hasSigner
  }

  /** How an operation ended: one code per early return, and Ok when the state was replaced. */
  datatype Outcome = NotConnected | NotFound | NotAvailable | NotOwner | Ok

  /** The status text a record carries when serialised or shown. */
  function LoanStatusName(s: LoanStatus): string {
    match s
    case Open => "Open"
    case Active => "Active"
    case Completed => "Completed"
    case Defaulted => "Defaulted"
  }

  function RequestStatusName(s: RequestStatus): string {
    match s
    case Pending => "Pending"
    case Fulfilled => "Fulfilled"
    case Cancelled => "Cancelled"
  }

  /**
   * The transition table for one loan record: it stays as it is, or an Open
   * offer without borrower becomes Active with one, or an Active loan becomes
   * Completed with the same borrower. Identity and terms never change.
   */
  predicate LoanStep(before: Loan, after: Loan) {
    && after.id == before.id
    && after.lender == before.lender
    && after.amount == before.amount
    && after.interestRate == before.interestRate
    && after.duration == before.duration
    && after.timestamp == before.timestamp
    && (|| after == before
        || (before.status == Open && before.borrower.None? && after.status == Active && after.borrower.Some?)
        || (before.status == Active && after.status == Completed && after.borrower == before.borrower))
  }

  /** The transition table for one request record: Pending may become Fulfilled or Cancelled. */
  predicate RequestStep(before: LoanRequest, after: LoanRequest) {
    || after == before
    || (before.status == Pending && (after.status == Fulfilled || after.status == Cancelled)
        && after == before.(status := after.status))
  }

  /** Completed and Defaulted loans are final, and nothing steps into Defaulted. */
  lemma LoanStepIsMonotone(before: Loan, after: Loan)
    requires LoanStep(before, after)
    ensures before.status in {Completed, Defaulted} ==> after == before
    ensures after.status == Defaulted ==> before.status == Defaulted
    ensures before.borrower.Some? ==> after.borrower == before.borrower
  {
  }

  /** Fulfilled and Cancelled requests are final. */
  lemma RequestStepIsMonotone(before: LoanRequest, after: LoanRequest)
    requires RequestStep(before, after)
    ensures before.status != Pending ==> after == before
    ensures after.borrower == before.borrower && after.id == before.id
  {
  }
}
