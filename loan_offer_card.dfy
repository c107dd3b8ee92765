/**
 * The card shown for one loan: which of its three buttons (accept, cancel,
 * repay) the current account sees, and the badge colour of its status. The
 * lemmas relate what the card offers to what the ledger accepts: every
 * button shown leads to a successful operation for a connected wallet, repay
 * and cancel are offered exactly when the ledger would allow them, and the
 * ledger lets a lender accept their own offer although the card hides it.
 */
module LoanOfferCard {
  import opened SeqUtil
  import opened LoanTypes
  import opened LoanRules
  import opened LedgerProperties

  /** `loan.lender === account` (never true without an account). */
  predicate IsLender(loan: Loan, account: Option<string>) {
    Some(loan.lender) == account
  }

  /** `loan.borrower === account` (true for a loan without borrower when no account is connected). */
  predicate IsBorrower(loan: Loan, account: Option<string>) {
    loan.borrower == account
  }

  predicate ShowAccept(loan: Loan, account: Option<string>) {
    loan.status == Open && !IsLender(loan, account)
  }

  predicate ShowCancel(loan: Loan, account: Option<string>) {
    loan.status == Open && IsLender(loan, account)
  }

  predicate ShowRepay(loan: Loan, account: Option<string>) {
    loan.status == Active && IsBorrower(loan, account)
  }

  /** The badge class for a status text; unknown texts get gray. */
  function BadgeColor(status: string): (r: string)
    ensures status !in {"Open", "Active", "Completed", "Defaulted"} ==> r == "bg-gray-100 text-gray-800"
  {
    match status
    case "Open" => "bg-blue-100 text-blue-800"
    case "Active" => "bg-green-100 text-green-800"
    case "Completed" => "bg-purple-100 text-purple-800"
    case "Defaulted" => "bg-red-100 text-red-800"
    case _ => "bg-gray-100 text-gray-800"
  }

  /** The four statuses get four different badges, none of them the gray fallback. */
  lemma BadgeColorsDistinct(s: LoanStatus, t: LoanStatus)
    ensures s != t ==> BadgeColor(LoanStatusName(s)) != BadgeColor(LoanStatusName(t))
    ensures BadgeColor(LoanStatusName(s)) != "bg-gray-100 text-gray-800"
  {
  }

  /**
   * A card shows at most one button: accept for an Open offer seen by anyone
   * but its lender, cancel for the lender, repay for the borrower of an
   * Active loan, and nothing for Completed or Defaulted loans.
   */
  lemma AtMostOneAction(loan: Loan, account: Option<string>)
    ensures !(ShowAccept(loan, account) && ShowCancel(loan, account))
    ensures !(ShowRepay(loan, account) && (ShowAccept(loan, account) || ShowCancel(loan, account)))
    ensures loan.status == Open ==> ShowAccept(loan, account) != ShowCancel(loan, account)
    ensures loan.status in {Completed, Defaulted} ==>
      !ShowAccept(loan, account) && !ShowCancel(loan, account) && !ShowRepay(loan, account)
  {
  }

  /** With the borrower rule of the ledger's invariant, a viewer without an account is never offered repay. */
  lemma NoRepayWithoutAccount(loan: Loan)
    requires BorrowerMatchesStatus(loan)
    ensures !ShowRepay(loan, None)
  {
  }

  /** A shown accept button succeeds for a connected wallet. */
  lemma ShownAcceptSucceeds(loans: seq<Loan>, k: nat, account: Option<string>, hasSigner: bool)
    requires Unique(LoanIds(loans)) && k < |loans|
    requires Connected(account, hasSigner) && ShowAccept(loans[k], account)
    ensures AcceptCheck(loans, loans[k].id, account, hasSigner) == Ok
  {
    FindLoanAt(loans, k);
  }

  /** The ledger lets the lender accept their own Open offer; only the card keeps the button away. */
  lemma LenderMayAcceptOwnOffer(loans: seq<Loan>, k: nat, hasSigner: bool)
    requires Unique(LoanIds(loans)) && k < |loans| && loans[k].status == Open
    requires Connected(Some(loans[k].lender), hasSigner)
    ensures AcceptCheck(loans, loans[k].id, Some(loans[k].lender), hasSigner) == Ok
    ensures !ShowAccept(loans[k], Some(loans[k].lender))
  {
    FindLoanAt(loans, k);
  }

  /** For a connected wallet, cancel succeeds exactly when the card shows it. */
  lemma CancelSucceedsIffShown(loans: seq<Loan>, k: nat, account: Option<string>, hasSigner: bool)
    requires Unique(LoanIds(loans)) && k < |loans| && Connected(account, hasSigner)
    ensures CancelOfferCheck(loans, loans[k].id, account, hasSigner) == Ok <==> ShowCancel(loans[k], account)
  {
    FindLoanAt(loans, k);
  }

  /** For a connected wallet, repay succeeds exactly when the card shows it. */
  lemma RepaySucceedsIffShown(loans: seq<Loan>, k: nat, account: Option<string>, hasSigner: bool)
    requires Unique(LoanIds(loans)) && k < |loans| && Connected(account, hasSigner)
    ensures RepayCheck(loans, loans[k].id, account, hasSigner) == Ok <==> ShowRepay(loans[k], account)
  {
    FindLoanAt(loans, k);
  }
}
