/** The sidebar's role-to-menu table and the dashboard's switch from the selected menu id to
    the screen it renders. */
module AppSidebar {

  import Roles

  datatype MenuItem = MenuItem(id: string, title: string)

  /** The ids of a menu, in order. */
  function Ids(items: seq<MenuItem>): (ids: seq<string>)
    ensures |ids| == |items|
    ensures forall i :: 0 <= i < |items| ==> ids[i] == items[i].id
  {
    if items == [] then [] else [items[0].id] + Ids(items[1..])
  }

  /** The seven module ids, as the administrator's menu lists them. */
  const AllModuleIds: seq<string> := ["dashboard", "loans", "risk", "collections", "kyc", "reporting", "users"]

  /** `menuItems[userRole] || []`. */
  function MenuFor(role: string): (items: seq<MenuItem>)
    ensures role !in Roles.KnownRoles ==> items == []
    ensures role == "admin" ==> Ids(items) == AllModuleIds
  {
    if role == "admin" then
      [ MenuItem("dashboard", "Dashboard"), MenuItem("loans", "Loan Management"),
        MenuItem("risk", "Risk & Underwriting"), MenuItem("collections", "Collections"),
        MenuItem("kyc", "KYC & Compliance"), MenuItem("reporting", "Financial Reports"),
        MenuItem("users", "User Management") ]
    else if role == "credit_officer" then
      [ MenuItem("dashboard", "Dashboard"), MenuItem("loans", "Loan Management"),
        MenuItem("risk", "Risk & Underwriting"), MenuItem("kyc", "KYC & Compliance") ]
    else if role == "risk_manager" then
      [ MenuItem("dashboard", "Dashboard"), MenuItem("risk", "Risk & Underwriting"),
        MenuItem("loans", "Loan Management"), MenuItem("reporting", "Risk Reports") ]
    else if role == "collections_officer" then
      [ MenuItem("dashboard", "Dashboard"), MenuItem("collections", "Collections"),
        MenuItem("loans", "Loan Management"), MenuItem("reporting", "Collections Reports") ]
    else if role == "compliance_officer" then
      [ MenuItem("dashboard", "Dashboard"), MenuItem("kyc", "KYC & Compliance"),
        MenuItem("reporting", "Compliance Reports") ]
    else []
  }

  predicate NoDuplicates(ids: seq<string>)
  {
    forall i, j :: 0 <= i < j < |ids| ==> ids[i] != ids[j]
  }

  /** Every known role's menu opens with the dashboard, repeats no id, and offers only module
      ids the administrator also has; only the administrator sees 'users'. */
  lemma KnownMenus(role: string)
    requires role in Roles.KnownRoles
    ensures |MenuFor(role)| >= 1 && MenuFor(role)[0].id == "dashboard"
    ensures NoDuplicates(Ids(MenuFor(role)))
    ensures forall id :: id in Ids(MenuFor(role)) ==> id in AllModuleIds
    ensures "users" in Ids(MenuFor(role)) <==> role == "admin"
  {
    var ids := Ids(MenuFor(role));
    if role == "admin" {
      assert ids == AllModuleIds;
    } else if role == "credit_officer" {
      assert ids == CreditOfficerIds;
    } else if role == "risk_manager" {
      assert ids == RiskManagerIds;
    } else if role == "collections_officer" {
      assert ids == CollectionsOfficerIds;
    } else {
      assert ids == ComplianceOfficerIds;
    }
    MenuIdFacts(ids);
  }

  const CreditOfficerIds: seq<string> := ["dashboard", "loans", "risk", "kyc"]
  const RiskManagerIds: seq<string> := ["dashboard", "risk", "loans", "reporting"]
  const CollectionsOfficerIds: seq<string> := ["dashboard", "collections", "loans", "reporting"]
  const ComplianceOfficerIds: seq<string> := ["dashboard", "kyc", "reporting"]

  /** The five id lists of the menu table: each opens with the dashboard, repeats no id and
      lists only module ids; only the administrator's lists 'users'. */
  lemma MenuIdFacts(ids: seq<string>)
    requires ids in [AllModuleIds, CreditOfficerIds, RiskManagerIds, CollectionsOfficerIds, ComplianceOfficerIds]
    ensures |ids| >= 1 && ids[0] == "dashboard"
    ensures NoDuplicates(ids)
    ensures forall id :: id in ids ==> id in AllModuleIds
    ensures "users" in ids <==> ids == AllModuleIds
  {
  }

  /** An unknown role gets no menu at all. */
  lemma UnknownRoleEmptyMenu(role: string)
    requires role !in Roles.KnownRoles
    ensures Ids(MenuFor(role)) == []
  {
  }

  /** The screens `renderActiveModule` can show. */
  datatype Screen = DashboardHome | LoanManagement | RiskUnderwriting | Collections
                  | KycCompliance | FinancialReporting | UserManagement

  /** `renderActiveModule`: each module id opens its own screen; anything else falls back to
      the dashboard home. */
  function RenderActiveModule(activeModule: string): (s: Screen)
    ensures activeModule !in AllModuleIds ==> s == DashboardHome
    ensures s == DashboardHome <==> activeModule == "dashboard" || activeModule !in AllModuleIds
  {
    match activeModule
    case "dashboard" => DashboardHome
    case "loans" => LoanManagement
    case "risk" => RiskUnderwriting
    case "collections" => Collections
    case "kyc" => KycCompliance
    case "reporting" => FinancialReporting
    case "users" => UserManagement
    case _ => DashboardHome
  }

  /** Different module ids open different screens. */
  lemma ModuleScreensDistinct()
    ensures forall i, j :: 0 <= i < j < |AllModuleIds| ==>
              RenderActiveModule(AllModuleIds[i]) != RenderActiveModule(AllModuleIds[j])
  {
  }
}
