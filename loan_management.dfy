/** The Loan Management screen: the loan list with its search and status filter, the risk
    and status badges, and the approve/reject decision taken from the details dialog. */
module LoanManagement {

  import opened Wrappers
  import Seqs
  import Text

  /** A loan application as listed; `riskScore` is out of 10. */
  datatype Loan = Loan(
    id: string,
    applicantName: string,
    businessName: string,
    amount: int,
    tenure: int,
    interestRate: real,
    status: string,
    riskScore: real,
    applicationDate: string)

  /** The three seeded loans, statuses pending / approved / under_review. */
  function SeedLoans(): seq<Loan>
  {
    [ Loan("LN001", "Rajesh Kumar", "Kumar Electronics", 500000, 24, 12.5, "pending", 7.2, "2024-01-15"),
      Loan("LN002", "Priya Sharma", "Sharma Textiles", 750000, 36, 11.8, "approved", 8.5, "2024-01-12"),
      Loan("LN003", "Mohammed Ali", "Ali Trading Co.", 300000, 18, 13.2, "under_review", 6.8, "2024-01-18") ]
  }

  /** The badge styles of `getStatusBadge`. */
  datatype StatusStyle = PendingStyle | ApprovedStyle | RejectedStyle | UnderReviewStyle | DisbursedStyle

  /** `getStatusBadge`: the five known statuses have their own style; any other status is
      shown with the pending style. */
  function StatusBadge(status: string): (style: StatusStyle)
    ensures style == PendingStyle <==>
              status !in ["approved", "rejected", "under_review", "disbursed"]
    ensures style == ApprovedStyle <==> status == "approved"
    ensures style == RejectedStyle <==> status == "rejected"
  {
    match status
    case "approved" => ApprovedStyle
    case "rejected" => RejectedStyle
    case "under_review" => UnderReviewStyle
    case "disbursed" => DisbursedStyle
    case _ => PendingStyle
  }

  /** The colour of a risk badge. */
  datatype RiskTone = GreenTone | YellowTone | RedTone

  /** `getRiskBadge`: green from 8, yellow from 6.5, red below. */
  function RiskBadge(score: real): (tone: RiskTone)
    ensures tone == GreenTone <==> score >= 8.0
    ensures tone == YellowTone <==> 6.5 <= score < 8.0
    ensures tone == RedTone <==> score < 6.5
  {
    if score >= 8.0 then GreenTone
    else if score >= 6.5 then YellowTone
    else RedTone
  }

  /** A higher risk score never gets a worse tone. */
  lemma RiskBadgeMonotone(a: real, b: real)
    requires a <= b
    ensures RedTone == RiskBadge(b) ==> RiskBadge(a) == RedTone
    ensures RiskBadge(a) == GreenTone ==> RiskBadge(b) == GreenTone
  {
  }

  /** `canTakeAction`. */
  function CanTakeAction(userRole: string): (can: bool)
    ensures can <==> userRole == "admin" || userRole == "credit_officer" || userRole == "risk_manager"
  {
    userRole in ["admin", "credit_officer", "risk_manager"]
  }

  /** The dialog offers the comment box and the Approve/Reject buttons only to a deciding
      role looking at a pending loan; everyone else sees the read-only notice. */
  function DecisionButtonsShown(userRole: string, selected: Loan): (shown: bool)
    ensures shown <==> CanTakeAction(userRole) && selected.status == "pending"
  {
    CanTakeAction(userRole) && selected.status == "pending"
  }

  /** The status after a decision. */
  datatype Action = Approve | Reject

  function DecidedStatus(action: Action): (status: string)
    ensures status == "approved" <==> action == Approve
    ensures status == "rejected" <==> action == Reject
  {
    match action
    case Approve => "approved"
    case Reject => "rejected"
  }

  /** The list after `handleLoanAction(loanId, action)`: every loan with that id takes the
      decided status, every other loan is kept as it was, and the order and length stay. */
  function ApplyDecision(loans: seq<Loan>, loanId: string, action: Action): (r: seq<Loan>)
    ensures |r| == |loans|
    ensures forall i :: 0 <= i < |loans| ==>
              if loans[i].id == loanId then r[i] == loans[i].(status := DecidedStatus(action))
              else r[i] == loans[i]
  {
    seq(|loans|, i requires 0 <= i < |loans| =>
      if loans[i].id == loanId then loans[i].(status := DecidedStatus(action)) else loans[i])
  }

  /** A decided loan is no longer pending, so the buttons are gone for it whoever looks. */
  lemma DecidedLoanHasNoButtons(loans: seq<Loan>, loanId: string, action: Action, userRole: string)
    ensures forall l :: l in ApplyDecision(loans, loanId, action) && l.id == loanId ==>
              !DecisionButtonsShown(userRole, l)
  {
    var r := ApplyDecision(loans, loanId, action);
    forall l | l in r && l.id == loanId ensures l.status != "pending" {
      var i :| 0 <= i < |r| && r[i] == l;
    }
  }

  /** A second identical decision changes nothing; the later of two decisions wins. */
  lemma ApplyDecisionLastWins(loans: seq<Loan>, loanId: string, first: Action, second: Action)
    ensures ApplyDecision(ApplyDecision(loans, loanId, first), loanId, second)
            == ApplyDecision(loans, loanId, second)
  {
  }

  /** The search matches applicant name, business name or id, ignoring case. */
  predicate MatchesSearch(loan: Loan, term: string)
  {
    Text.MatchesIgnoringCase(loan.applicantName, term)
    || Text.MatchesIgnoringCase(loan.businessName, term)
    || Text.MatchesIgnoringCase(loan.id, term)
  }

  predicate LoanMatches(loan: Loan, term: string, statusFilter: string)
  {
    MatchesSearch(loan, term) && (statusFilter == "all" || loan.status == statusFilter)
  }

  /** `filteredLoans`: the passing loans, in list order, none missing. */
  function FilteredLoans(loans: seq<Loan>, term: string, statusFilter: string): (r: seq<Loan>)
    ensures Seqs.IsSubsequence(r, loans)
    ensures forall l :: l in r <==> l in loans && LoanMatches(l, term, statusFilter)
    ensures forall l :: multiset(r)[l] == if LoanMatches(l, term, statusFilter) then multiset(loans)[l] else 0
  {
    var p := (l: Loan) => LoanMatches(l, term, statusFilter);
    Seqs.FilterIsSubsequence(loans, p);
    forall l | l in loans && p(l) ensures l in Seqs.Filter(loans, p) {
      Seqs.FilterKeeps(loans, p, l);
    }
    Seqs.FilterMultiset(loans, p);
    Seqs.Filter(loans, p)
  }

  /** The initial filters (empty search, status 'all') list every loan. */
  lemma FilterDefaultsKeepAll(loans: seq<Loan>)
    ensures FilteredLoans(loans, "", "all") == loans
  {
    var p := (l: Loan) => LoanMatches(l, "", "all");
    forall l | l in loans ensures p(l) {
      Text.ContainsEmpty(Text.ToLower(l.applicantName));
    }
    Seqs.FilterAllPass(loans, p);
  }

  /** The status column: the first '_' becomes a space, then everything is upper-cased. */
  function StatusLabel(status: string): (shown: string)
    ensures |shown| == |status|
    ensures '_' in status ==> Text.Occurrences(shown, '_') == Text.Occurrences(status, '_') - 1
    ensures forall i :: 0 <= i < |shown| ==> !Text.IsLowerAscii(shown[i])
    ensures forall i :: 0 <= i < |status| ==>
              shown[i] == (if '_' in status && i == Text.IndexOf(status, '_') then ' ' else Text.UpperChar(status[i]))
  {
    Text.LabelUnderscores(status);
    Text.Label(status)
  }

  /** The component's state: the list, the selected loan of the open dialog and the comment. */
  class LoanDesk {
    var loans: seq<Loan>
    var selectedLoan: Option<Loan>
    var actionComment: string

    constructor ()
      ensures loans == SeedLoans() && selectedLoan == None && actionComment == ""
    {
      loans := SeedLoans();
      selectedLoan := None;
      actionComment := "";
    }

    /** Opening a loan's details dialog. */
    method Select(loan: Loan)
      modifies this
      ensures selectedLoan == Some(loan)
      ensures loans == old(loans) && actionComment == old(actionComment)
    {
      selectedLoan := Some(loan);
    }

    /** Typing in the comment box. */
    method EditComment(comment: string)
      modifies this
      ensures actionComment == comment
      ensures loans == old(loans) && selectedLoan == old(selectedLoan)
    {
      actionComment := comment;
    }

    /** `handleLoanAction(loanId, action)`: decides the loan, clears the comment and closes
        the selection. */
    method HandleLoanAction(loanId: string, action: Action)
      modifies this
      ensures loans == ApplyDecision(old(loans), loanId, action)
      ensures actionComment == "" && selectedLoan == None
    {
      loans := ApplyDecision(loans, loanId, action);
      actionComment := "";
      selectedLoan := None;
    }
  }
}
