/**
 * The card shown for one loan request: its fund and cancel buttons and the
 * badge colour of its status. A Pending request shows exactly one of the two
 * buttons; the ledger lets a borrower fund their own request although the
 * card hides that button.
 */
module LoanRequestCard {
  import opened SeqUtil
  import opened LoanTypes
  import opened LoanRules

  /** `request.borrower === account` (never true without an account). */
  predicate IsBorrower(request: LoanRequest, account: Option<string>) {
    Some(request.borrower) == account
  }

  predicate ShowFund(request: LoanRequest, account: Option<string>) {
    request.status == Pending && !IsBorrower(request, account)
  }

  predicate ShowCancel(request: LoanRequest, account: Option<string>) {
    request.status == Pending && IsBorrower(request, account)
  }

  /** The badge class for a status text; Cancelled shares the gray fallback. */
  function BadgeColor(status: string): (r: string)
    ensures status !in {"Pending", "Fulfilled"} ==> r == "bg-gray-100 text-gray-800"
  {
    match status
    case "Pending" => "bg-yellow-100 text-yellow-800"
    case "Fulfilled" => "bg-green-100 text-green-800"
    case "Cancelled" => "bg-gray-100 text-gray-800"
    case _ => "bg-gray-100 text-gray-800"
  }

  /** Pending and Fulfilled get their own badges; Cancelled looks like an unknown status. */
  lemma BadgeColorsOfStatuses()
    ensures BadgeColor(RequestStatusName(Pending)) != BadgeColor(RequestStatusName(Fulfilled))
    ensures BadgeColor(RequestStatusName(Pending)) != BadgeColor(RequestStatusName(Cancelled))
    ensures BadgeColor(RequestStatusName(Fulfilled)) != BadgeColor(RequestStatusName(Cancelled))
    ensures BadgeColor(RequestStatusName(Cancelled)) == BadgeColor("")
  {
  }

  /** A Pending request shows exactly one button; a settled one shows none. */
  lemma ExactlyOneActionWhilePending(request: LoanRequest, account: Option<string>)
    ensures request.status == Pending ==> ShowFund(request, account) != ShowCancel(request, account)
    ensures request.status != Pending ==> !ShowFund(request, account) && !ShowCancel(request, account)
  {
  }

  /** A shown fund button succeeds for a connected wallet. */
  lemma ShownFundSucceeds(requests: seq<LoanRequest>, k: nat, account: Option<string>, hasSigner: bool)
    requires Unique(RequestIds(requests)) && k < |requests|
    requires Connected(account, hasSigner) && ShowFund(requests[k], account)
    ensures FulfillCheck(requests, requests[k].id, account, hasSigner) == Ok
  {
    FindRequestAt(requests, k);
  }

  /** The ledger lets a borrower fund their own Pending request; only the card keeps the button away. */
  lemma BorrowerMayFundOwnRequest(requests: seq<LoanRequest>, k: nat, hasSigner: bool)
    requires Unique(RequestIds(requests)) && k < |requests| && requests[k].status == Pending
    requires Connected(Some(requests[k].borrower), hasSigner)
    ensures FulfillCheck(requests, requests[k].id, Some(requests[k].borrower), hasSigner) == Ok
    ensures !ShowFund(requests[k], Some(requests[k].borrower))
  {
    FindRequestAt(requests, k);
  }

  /** For a connected wallet, cancel succeeds exactly when the card shows it. */
  lemma CancelSucceedsIffShown(requests: seq<LoanRequest>, k: nat, account: Option<string>, hasSigner: bool)
    requires Unique(RequestIds(requests)) && k < |requests| && Connected(account, hasSigner)
    ensures CancelRequestCheck(requests, requests[k].id, account, hasSigner) == Ok <==> ShowCancel(requests[k], account)
  {
    FindRequestAt(requests, k);
  }
}
