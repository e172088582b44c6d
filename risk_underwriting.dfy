/** The Risk & Underwriting screen: the risk band and label of a score, the Review button of
    the risk roles, and the assessment queue, whose risk-level selector filters nothing. */
module RiskUnderwriting {

  import LoanManagement

  datatype RiskLoan = RiskLoan(
    id: string,
    applicant: string,
    business: string,
    amount: int,
    riskScore: real,
    creditScore: int,
    flags: seq<string>,
    status: string)

  /** The three seeded queue entries. */
  function SeedRiskLoans(): seq<RiskLoan>
  {
    [ RiskLoan("LN001", "Rajesh Kumar", "Kumar Electronics", 500000, 7.2, 750, ["High DTI Ratio"], "flagged"),
      RiskLoan("LN002", "Priya Sharma", "Sharma Textiles", 750000, 8.5, 780, [], "approved"),
      RiskLoan("LN004", "Suresh Patel", "Patel Manufacturing", 1200000, 5.8, 650,
               ["Industry Risk", "Geographic Risk"], "requires_review") ]
  }

  datatype RiskLevel = LowRisk | MediumRisk | HighRisk

  /** `getRiskBadge`: low risk from 8, medium from 6.5, high below; every score falls in
      exactly one band. */
  function RiskBand(score: real): (level: RiskLevel)
    ensures level == LowRisk <==> score >= 8.0
    ensures level == MediumRisk <==> 6.5 <= score < 8.0
    ensures level == HighRisk <==> score < 6.5
  {
    if score >= 8.0 then LowRisk
    else if score >= 6.5 then MediumRisk
    else HighRisk
  }

  /** The label printed under the score. */
  function RiskLabel(score: real): (shown: string)
    ensures shown == "Low Risk" <==> score >= 8.0
    ensures shown == "Medium Risk" <==> 6.5 <= score < 8.0
    ensures shown == "High Risk" <==> score < 6.5
  {
    match RiskBand(score)
    case LowRisk => "Low Risk"
    case MediumRisk => "Medium Risk"
    case HighRisk => "High Risk"
  }

  /** The bands use the same cut points as the Loan Management risk badge: low risk is
      green, medium yellow, high red. */
  lemma BandsAgreeWithLoanBadge(score: real)
    ensures RiskBand(score) == LowRisk <==> LoanManagement.RiskBadge(score) == LoanManagement.GreenTone
    ensures RiskBand(score) == MediumRisk <==> LoanManagement.RiskBadge(score) == LoanManagement.YellowTone
    ensures RiskBand(score) == HighRisk <==> LoanManagement.RiskBadge(score) == LoanManagement.RedTone
  {
  }

  /** `canTakeAction`: the Review button is rendered only for these roles. */
  function CanTakeAction(userRole: string): (can: bool)
    ensures can <==> userRole == "admin" || userRole == "risk_manager"
  {
    userRole == "admin" || userRole == "risk_manager"
  }

  /** The queue as rendered: the list is mapped as it is, whatever `riskFilter` holds. */
  function VisibleQueue(loans: seq<RiskLoan>, riskFilter: string): (shown: seq<RiskLoan>)
    ensures |shown| == |loans|
  {
    loans
  }

  /** The risk-level selector changes nothing: any two selections show the same queue. */
  lemma RiskFilterIgnored(loans: seq<RiskLoan>, f: string, g: string)
    ensures VisibleQueue(loans, f) == VisibleQueue(loans, g) == loans
  {
  }

  /** With 'Low Risk (8-10)' selected the seeded high-risk LN004 is still listed. */
  lemma SeedLowFilterShowsHighRisk()
    ensures var shown := VisibleQueue(SeedRiskLoans(), "low");
            shown[2].id == "LN004" && RiskBand(shown[2].riskScore) == HighRisk
  {
  }
}
