/** The Loan Origination screen: the application queue with its four-way filter, the summary
    cards, and the approve / reject / request-documents action confirmed in a dialog. */
module LoanOrigination {

  import opened Wrappers
  import Seqs
  import Text

  /** An application as listed. `approvalAmount` and `rejectionReason` are present only on
      some records. */
  datatype Application = Application(
    id: string,
    applicantName: string,
    businessName: string,
    phone: string,
    pincode: string,
    amount: int,
    status: string,
    lastUpdated: string,
    riskScore: real,
    assignedTo: string,
    priority: string,
    approvalAmount: Option<int>,
    rejectionReason: Option<string>)

  /** The four seeded applications, one per status. */
  function SeedApplications(): seq<Application>
  {
    [ Application("APP001", "Rajesh Kumar", "Kumar Electronics", "+91 98765 43210", "201301", 25000,
                  "submitted", "2024-01-15T10:30:00Z", 7.2, "CRO001", "normal", None, None),
      Application("APP002", "Priya Sharma", "Sharma Textiles", "+91 87654 32109", "110001", 35000,
                  "in_review", "2024-01-16T09:15:00Z", 8.5, "CRO001", "high", None, None),
      Application("APP003", "Mohammed Ali", "Ali Trading Co.", "+91 76543 21098", "560001", 15000,
                  "approved", "2024-01-20T11:30:00Z", 6.8, "RSK001", "normal", Some(12000), None),
      Application("APP004", "Sunita Devi", "Sunita Saree Center", "+91 98765 12345", "400001", 40000,
                  "rejected", "2024-01-18T15:45:00Z", 4.2, "RSK001", "low", None,
                  Some("Low CIBIL score and insufficient business vintage")) ]
  }

  datatype StatusStyle = SubmittedStyle | InReviewStyle | ApprovedStyle | RejectedStyle

  /** `getStatusBadge`: an unknown status is shown as submitted. */
  function StatusBadge(status: string): (style: StatusStyle)
    ensures style == SubmittedStyle <==> status !in ["in_review", "approved", "rejected"]
    ensures style == InReviewStyle <==> status == "in_review"
    ensures style == ApprovedStyle <==> status == "approved"
    ensures style == RejectedStyle <==> status == "rejected"
  {
    match status
    case "in_review" => InReviewStyle
    case "approved" => ApprovedStyle
    case "rejected" => RejectedStyle
    case _ => SubmittedStyle
  }

  datatype PriorityStyle = HighStyle | NormalStyle | LowStyle

  /** `getPriorityBadge`: an unknown priority is shown as normal. */
  function PriorityBadge(priority: string): (style: PriorityStyle)
    ensures style == NormalStyle <==> priority != "high" && priority != "low"
    ensures style == HighStyle <==> priority == "high"
  {
    match priority
    case "high" => HighStyle
    case "low" => LowStyle
    case _ => NormalStyle
  }

  /** Approve and Reject are offered on a row only while the application is in review. */
  function ReviewButtonsShown(app: Application): (shown: bool)
    ensures shown <==> app.status == "in_review"
  {
    app.status == "in_review"
  }

  /** Name, business and id are searched ignoring case; phone and pincode are searched for
      the term exactly as typed. */
  predicate MatchesSearch(app: Application, term: string)
  {
    Text.MatchesIgnoringCase(app.applicantName, term)
    || Text.MatchesIgnoringCase(app.businessName, term)
    || Text.MatchesIgnoringCase(app.id, term)
    || Text.Contains(app.phone, term)
    || Text.Contains(app.pincode, term)
  }

  /** The four tests of `filteredApplications`; each filter at 'all' passes everything. */
  predicate ApplicationMatches(app: Application, term: string, statusFilter: string,
                               priorityFilter: string, assigneeFilter: string)
  {
    MatchesSearch(app, term)
    && (statusFilter == "all" || app.status == statusFilter)
    && (priorityFilter == "all" || app.priority == priorityFilter)
    && (assigneeFilter == "all" || app.assignedTo == assigneeFilter)
  }

  /** `filteredApplications`: the passing applications, in queue order, none missing. */
  function FilteredApplications(apps: seq<Application>, term: string, statusFilter: string,
                                priorityFilter: string, assigneeFilter: string): (r: seq<Application>)
    ensures Seqs.IsSubsequence(r, apps)
    ensures forall a :: a in r <==>
              a in apps && ApplicationMatches(a, term, statusFilter, priorityFilter, assigneeFilter)
    ensures forall a :: multiset(r)[a] ==
              if ApplicationMatches(a, term, statusFilter, priorityFilter, assigneeFilter) then multiset(apps)[a] else 0
  {
    var p := (a: Application) => ApplicationMatches(a, term, statusFilter, priorityFilter, assigneeFilter);
    Seqs.FilterIsSubsequence(apps, p);
    forall a | a in apps && p(a) ensures a in Seqs.Filter(apps, p) {
      Seqs.FilterKeeps(apps, p, a);
    }
    Seqs.FilterMultiset(apps, p);
    Seqs.Filter(apps, p)
  }

  /** With all four filters at their initial values every application is listed. */
  lemma FilterDefaultsKeepAll(apps: seq<Application>)
    ensures FilteredApplications(apps, "", "all", "all", "all") == apps
  {
    var p := (a: Application) => ApplicationMatches(a, "", "all", "all", "all");
    forall a | a in apps ensures p(a) {
      Text.ContainsEmpty(Text.ToLower(a.applicantName));
    }
    Seqs.FilterAllPass(apps, p);
  }

  /** An application's id finds it whatever letter case it is typed in, and its phone
      number typed as stored finds it too. */
  lemma SearchFindsOwnIdAndPhone(app: Application)
    ensures MatchesSearch(app, app.id) && MatchesSearch(app, Text.ToUpper(app.id))
    ensures MatchesSearch(app, app.phone)
  {
    Text.MatchesIgnoringCaseOfUpper(app.id, app.id);
    assert Text.Contains(app.phone, app.phone);
  }

  /** The test behind one summary card. */
  function StatusIs(status: string): Application -> bool
  {
    (a: Application) => a.status == status
  }

  /** The count on a summary card: the applications with that status. */
  function StatusCount(apps: seq<Application>, status: string): (n: nat)
    ensures n <= |apps|
  {
    Seqs.Count(apps, StatusIs(status))
  }

  /** What an approved application contributes to 'Total Approved':
      `approvalAmount || amount`, so a missing or zero approval amount falls back to the
      requested amount. */
  function ApprovedValue(app: Application): (v: int)
    ensures app.approvalAmount.Some? && app.approvalAmount.value != 0 ==> v == app.approvalAmount.value
    ensures app.approvalAmount.None? || app.approvalAmount.value == 0 ==> v == app.amount
  {
    if app.approvalAmount.Some? && app.approvalAmount.value != 0 then app.approvalAmount.value
    else app.amount
  }

  /** The 'Total Approved' card. */
  function TotalApproved(apps: seq<Application>): (total: int)
    ensures (forall a :: a in apps && a.status == "approved" ==> ApprovedValue(a) >= 0) ==> total >= 0
    ensures (forall a :: a in apps ==> a.status != "approved") ==> total == 0
  {
    Seqs.FilteredSumBounds(apps, StatusIs("approved"), ApprovedValue);
    Seqs.Sum(Seqs.Filter(apps, StatusIs("approved")), ApprovedValue)
  }

  /** The seeded queue shows one application per card and 12000 approved. */
  lemma SeedSummary()
    ensures StatusCount(SeedApplications(), "submitted") == 1
    ensures StatusCount(SeedApplications(), "in_review") == 1
    ensures StatusCount(SeedApplications(), "approved") == 1
    ensures StatusCount(SeedApplications(), "rejected") == 1
    ensures TotalApproved(SeedApplications()) == 12000
  {
    SeedCounts();
    SeedApproved();
  }

  lemma SeedCounts()
    ensures StatusCount(SeedApplications(), "submitted") == 1
    ensures StatusCount(SeedApplications(), "in_review") == 1
    ensures StatusCount(SeedApplications(), "approved") == 1
    ensures StatusCount(SeedApplications(), "rejected") == 1
  {
    OneOfEachStatus(SeedApplications());
  }

  /** Four applications with the four statuses in turn put one on each card. */
  lemma OneOfEachStatus(apps: seq<Application>)
    requires |apps| == 4
    requires apps[0].status == "submitted" && apps[1].status == "in_review"
    requires apps[2].status == "approved" && apps[3].status == "rejected"
    ensures StatusCount(apps, "submitted") == 1
    ensures StatusCount(apps, "in_review") == 1
    ensures StatusCount(apps, "approved") == 1
    ensures StatusCount(apps, "rejected") == 1
  {
    CountOfFour(apps, "submitted");
    CountOfFour(apps, "in_review");
    CountOfFour(apps, "approved");
    CountOfFour(apps, "rejected");
  }

  function Hit(app: Application, status: string): nat
  {
    if app.status == status then 1 else 0
  }

  /** A card's count over four applications, one application at a time. */
  lemma CountOfFour(apps: seq<Application>, status: string)
    requires |apps| == 4
    ensures StatusCount(apps, status) == Hit(apps[0], status) + Hit(apps[1], status)
                                         + Hit(apps[2], status) + Hit(apps[3], status)
  {
    var p := StatusIs(status);
    assert apps[3..][1..] == [];
    assert |Seqs.Filter(apps[3..], p)| == Hit(apps[3], status);
    assert apps[2..][1..] == apps[3..];
    assert |Seqs.Filter(apps[2..], p)| == Hit(apps[2], status) + Hit(apps[3], status);
    assert apps[1..][1..] == apps[2..];
    assert |Seqs.Filter(apps[1..], p)| == Hit(apps[1], status) + Hit(apps[2], status) + Hit(apps[3], status);
  }

  lemma SeedApproved()
    ensures TotalApproved(SeedApplications()) == 12000
  {
    var apps := SeedApplications();
    assert Seqs.Filter(apps[3..], StatusIs("approved")) == [];
    assert Seqs.Filter(apps, StatusIs("approved")) == [apps[2]];
  }

  /** The actions of the dialog. */
  datatype ActionType = ApproveAction | RejectAction | RequestDocs

  /** One application after a confirmed action at time `now`: approve sets 'approved',
      reject sets 'rejected' and records the remarks as the reason, requesting documents
      only stamps the time; nothing else changes. */
  function Updated(app: Application, action: ActionType, remarks: string, now: string): (u: Application)
    ensures u.lastUpdated == now
    ensures u.status == (match action
                         case ApproveAction => "approved"
                         case RejectAction => "rejected"
                         case RequestDocs => app.status)
    ensures u.rejectionReason == (if action == RejectAction then Some(remarks) else app.rejectionReason)
    ensures u == app.(lastUpdated := u.lastUpdated, status := u.status, rejectionReason := u.rejectionReason)
  {
    var stamped := app.(lastUpdated := now);
    match action
    case ApproveAction => stamped.(status := "approved")
    case RejectAction => stamped.(status := "rejected", rejectionReason := Some(remarks))
    case RequestDocs => stamped
  }

  /** The list `submitAction` stores: applications with the selected id are updated, the
      rest are returned as they were. */
  function ApplyAction(apps: seq<Application>, appId: string, action: ActionType,
                       remarks: string, now: string): (r: seq<Application>)
    ensures |r| == |apps|
    ensures forall i :: 0 <= i < |apps| && apps[i].id != appId ==> r[i] == apps[i]
    ensures forall i :: 0 <= i < |apps| && apps[i].id == appId ==>
              r[i] == Updated(apps[i], action, remarks, now)
  {
    seq(|apps|, i requires 0 <= i < |apps| =>
      if apps[i].id == appId then Updated(apps[i], action, remarks, now) else apps[i])
  }

  predicate UniqueIds(apps: seq<Application>)
  {
    forall i, j :: 0 <= i < j < |apps| ==> apps[i].id != apps[j].id
  }

  /** With distinct ids, an action rewrites exactly one position. */
  lemma ApplyActionAt(apps: seq<Application>, k: nat, action: ActionType, remarks: string, now: string)
    requires UniqueIds(apps) && k < |apps|
    ensures ApplyAction(apps, apps[k].id, action, remarks, now)
            == apps[k := Updated(apps[k], action, remarks, now)]
  {
  }

  /** Approving or rejecting an application in review moves it from the 'Under Review' card
      to the 'Approved' or 'Rejected' card; the other cards keep their counts. */
  lemma DecisionMovesOneCard(apps: seq<Application>, k: nat, action: ActionType, remarks: string, now: string, card: string)
    requires UniqueIds(apps) && k < |apps| && apps[k].status == "in_review"
    requires action != RequestDocs
    ensures var r := ApplyAction(apps, apps[k].id, action, remarks, now);
            var target := if action == ApproveAction then "approved" else "rejected";
            StatusCount(r, card) == StatusCount(apps, card)
                                    + (if card == target then 1 else 0)
                                    - (if card == "in_review" then 1 else 0)
  {
    var u := Updated(apps[k], action, remarks, now);
    ApplyActionAt(apps, k, action, remarks, now);
    Seqs.CountReplace(apps, k, u, StatusIs(card));
  }

  /** Requesting documents moves no application between cards. */
  lemma RequestDocsKeepsCounts(apps: seq<Application>, appId: string, remarks: string, now: string, card: string)
    ensures StatusCount(ApplyAction(apps, appId, RequestDocs, remarks, now), card) == StatusCount(apps, card)
  {
    var r := ApplyAction(apps, appId, RequestDocs, remarks, now);
    RequestDocsKeepsStatuses(apps, r, appId, remarks, now, card);
  }

  lemma {:induction false} RequestDocsKeepsStatuses(apps: seq<Application>, r: seq<Application>, appId: string,
                                                    remarks: string, now: string, card: string)
    requires |r| == |apps|
    requires forall i :: 0 <= i < |apps| ==> r[i].status == apps[i].status
    ensures Seqs.Count(r, StatusIs(card)) == Seqs.Count(apps, StatusIs(card))
  {
    if apps != [] {
      RequestDocsKeepsStatuses(apps[1..], r[1..], appId, remarks, now, card);
    }
  }

  /** Approving an application in review raises 'Total Approved' by its approval amount, or
      by its requested amount when no non-zero approval amount is recorded. */
  lemma ApproveAddsToTotal(apps: seq<Application>, k: nat, remarks: string, now: string)
    requires UniqueIds(apps) && k < |apps| && apps[k].status == "in_review"
    ensures TotalApproved(ApplyAction(apps, apps[k].id, ApproveAction, remarks, now))
            == TotalApproved(apps) + ApprovedValue(apps[k])
  {
    var u := Updated(apps[k], ApproveAction, remarks, now);
    ApplyActionAt(apps, k, ApproveAction, remarks, now);
    Seqs.FilteredSumReplace(apps, k, u, StatusIs("approved"), ApprovedValue);
  }

  /** A falsy `selectedApplication`: null or the empty string. */
  predicate NoSelection(selected: Option<string>)
  {
    selected.None? || selected.value == ""
  }

  /** The component's state behind the action dialog. */
  class OriginationDesk {
    var applications: seq<Application>
    var selectedApplication: Option<string>
    var actionType: Option<ActionType>
    var remarks: string

    constructor ()
      ensures applications == SeedApplications()
      ensures selectedApplication == None && actionType == None && remarks == ""
    {
      applications := SeedApplications();
      selectedApplication := None;
      actionType := None;
      remarks := "";
    }

    /** The dialog is open while both a selection and an action type are set. */
    function DialogOpen(): (open: bool)
      reads this
      ensures open <==> !NoSelection(selectedApplication) && actionType.Some?
    {
      !NoSelection(selectedApplication) && actionType.Some?
    }

    /** `handleAction(appId, action)`: a row button opens the dialog for that application. */
    method HandleAction(appId: string, action: ActionType)
      modifies this
      ensures selectedApplication == Some(appId) && actionType == Some(action)
      ensures applications == old(applications) && remarks == old(remarks)
      ensures appId != "" ==> DialogOpen()
    {
      selectedApplication := Some(appId);
      actionType := Some(action);
    }

    /** Typing in the remarks box. */
    method EditRemarks(text: string)
      modifies this
      ensures remarks == text
      ensures applications == old(applications)
      ensures selectedApplication == old(selectedApplication) && actionType == old(actionType)
    {
      remarks := text;
    }

    /** `submitAction`, with `new Date().toISOString()` passed in as `now`: without a
        selection or an action type nothing happens; otherwise the action is applied to the
        selected id and the selection, action type and remarks are cleared. */
    method SubmitAction(now: string)
      modifies this
      ensures NoSelection(old(selectedApplication)) || old(actionType).None? ==>
                applications == old(applications) && selectedApplication == old(selectedApplication)
                && actionType == old(actionType) && remarks == old(remarks)
      ensures !NoSelection(old(selectedApplication)) && old(actionType).Some? ==>
                applications == ApplyAction(old(applications), old(selectedApplication).value,
                                            old(actionType).value, old(remarks), now)
                && selectedApplication == None && actionType == None && remarks == ""
    {
      if NoSelection(selectedApplication) || actionType.None? {
        return;
      }
      applications := ApplyAction(applications, selectedApplication.value, actionType.value, remarks, now);
      selectedApplication := None;
      actionType := None;
      remarks := "";
    }
  }
}
