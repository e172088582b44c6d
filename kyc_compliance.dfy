/** The KYC & Compliance screen: the verification queue with its search and status filter,
    the status and alert-severity badges, and the decisions reserved to compliance roles. */
module KycCompliance {

  import Seqs
  import Text

  datatype KycApplication = KycApplication(
    id: string,
    applicant: string,
    business: string,
    status: string,
    documentsUploaded: nat,
    documentsRequired: nat,
    riskFlags: seq<string>,
    officer: string)

  /** The three seeded applications: pending, verified, flagged. */
  function SeedKycApplications(): seq<KycApplication>
  {
    [ KycApplication("KYC001", "Rajesh Kumar", "Kumar Electronics", "pending", 4, 4, [], "Amit Sharma"),
      KycApplication("KYC002", "Priya Sharma", "Sharma Textiles", "verified", 5, 5, [], "Sneha Patel"),
      KycApplication("KYC003", "Mohammed Ali", "Ali Trading Co.", "flagged", 3, 4, ["Address Mismatch"], "Rahul Verma") ]
  }

  /** `canTakeAction`. */
  function CanTakeAction(userRole: string): (can: bool)
    ensures can <==> userRole == "admin" || userRole == "compliance_officer"
  {
    userRole == "admin" || userRole == "compliance_officer"
  }

  /** Approve KYC / Reject / Flag appear in the review dialog only for a deciding role and a
      pending application. */
  function DecisionButtonsShown(userRole: string, selected: KycApplication): (shown: bool)
    ensures shown <==> (userRole == "admin" || userRole == "compliance_officer") && selected.status == "pending"
  {
    CanTakeAction(userRole) && selected.status == "pending"
  }

  /** Of the seeded queue only KYC001 can be decided, and only by the administrator or the
      compliance officer. */
  lemma SeedDecisions(userRole: string)
    ensures DecisionButtonsShown(userRole, SeedKycApplications()[0]) <==> CanTakeAction(userRole)
    ensures !DecisionButtonsShown(userRole, SeedKycApplications()[1])
    ensures !DecisionButtonsShown(userRole, SeedKycApplications()[2])
  {
  }

  datatype StatusStyle = PendingStyle | VerifiedStyle | FlaggedStyle | RejectedStyle

  /** `getStatusBadge`: an unknown status is shown as pending. */
  function StatusBadge(status: string): (style: StatusStyle)
    ensures style == PendingStyle <==> status !in ["verified", "flagged", "rejected"]
    ensures style == FlaggedStyle <==> status == "flagged"
    ensures style == VerifiedStyle <==> status == "verified"
    ensures style == RejectedStyle <==> status == "rejected"
  {
    match status
    case "verified" => VerifiedStyle
    case "flagged" => FlaggedStyle
    case "rejected" => RejectedStyle
    case _ => PendingStyle
  }

  datatype SeverityStyle = HighSeverity | MediumSeverity | LowSeverity

  /** `getSeverityBadge`: an unknown severity is shown as medium. */
  function SeverityBadge(severity: string): (style: SeverityStyle)
    ensures style == MediumSeverity <==> severity != "high" && severity != "low"
    ensures style == HighSeverity <==> severity == "high"
  {
    match severity
    case "high" => HighSeverity
    case "low" => LowSeverity
    case _ => MediumSeverity
  }

  predicate MatchesSearch(app: KycApplication, term: string)
  {
    Text.MatchesIgnoringCase(app.applicant, term)
    || Text.MatchesIgnoringCase(app.business, term)
    || Text.MatchesIgnoringCase(app.id, term)
  }

  predicate ApplicationMatches(app: KycApplication, term: string, statusFilter: string)
  {
    MatchesSearch(app, term) && (statusFilter == "all" || app.status == statusFilter)
  }

  /** `filteredApplications`: the passing applications, in queue order, none missing. */
  function FilteredApplications(apps: seq<KycApplication>, term: string, statusFilter: string): (r: seq<KycApplication>)
    ensures Seqs.IsSubsequence(r, apps)
    ensures forall a :: a in r <==> a in apps && ApplicationMatches(a, term, statusFilter)
    ensures forall a :: multiset(r)[a] == if ApplicationMatches(a, term, statusFilter) then multiset(apps)[a] else 0
  {
    var p := (a: KycApplication) => ApplicationMatches(a, term, statusFilter);
    Seqs.FilterIsSubsequence(apps, p);
    forall a | a in apps && p(a) ensures a in Seqs.Filter(apps, p) {
      Seqs.FilterKeeps(apps, p, a);
    }
    Seqs.FilterMultiset(apps, p);
    Seqs.Filter(apps, p)
  }

  /** The initial filters list the whole queue. */
  lemma FilterDefaultsKeepAll(apps: seq<KycApplication>)
    ensures FilteredApplications(apps, "", "all") == apps
  {
    var p := (a: KycApplication) => ApplicationMatches(a, "", "all");
    forall a | a in apps ensures p(a) {
      Text.ContainsEmpty(Text.ToLower(a.applicant));
    }
    Seqs.FilterAllPass(apps, p);
  }

  /** A status filter other than 'all' lists only applications in that status. */
  lemma StatusFilterIsExact(apps: seq<KycApplication>, term: string, statusFilter: string)
    requires statusFilter != "all"
    ensures forall a :: a in FilteredApplications(apps, term, statusFilter) ==> a.status == statusFilter
  {
  }
}
