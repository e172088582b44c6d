/** The staff roles, the role badge style shared by the header and the user-management
    table, and the upper-cased role label. */
module Roles {

  import Text

  /** The five roles the dashboard knows. */
  const KnownRoles: seq<string> :=
    ["admin", "credit_officer", "risk_manager", "collections_officer", "compliance_officer"]

  /** The badge colours of `getRoleBadge`, kept as opaque tags. */
  datatype RoleStyle = RedBadge | BlueBadge | OrangeBadge | GreenBadge | PurpleBadge

  /** `getRoleBadge(role)`: one style per known role; any other string gets the
      credit officer's. */
  function RoleBadge(role: string): (style: RoleStyle)
    ensures role !in KnownRoles ==> style == BlueBadge
    ensures style == BlueBadge <==> role !in KnownRoles || role == "credit_officer"
    ensures style == RedBadge <==> role == "admin"
  {
    if role == "admin" then RedBadge
    else if role == "risk_manager" then OrangeBadge
    else if role == "collections_officer" then GreenBadge
    else if role == "compliance_officer" then PurpleBadge
    else BlueBadge
  }

  /** The five known roles have five different badges. */
  lemma KnownRoleBadgesDistinct()
    ensures forall i, j :: 0 <= i < j < |KnownRoles| ==> RoleBadge(KnownRoles[i]) != RoleBadge(KnownRoles[j])
  {
  }

  /** `role.replace('_', ' ').toUpperCase()`. */
  function RoleLabel(role: string): (shown: string)
    ensures |shown| == |role|
    ensures forall i :: 0 <= i < |shown| ==> !Text.IsLowerAscii(shown[i])
    ensures forall i :: 0 <= i < |role| ==>
              shown[i] == (if '_' in role && i == Text.IndexOf(role, '_') then ' ' else Text.UpperChar(role[i]))
  {
    Text.Label(role)
  }

  /** Each known role has at most one underscore, so its label has none left. */
  lemma KnownRoleLabelsHaveNoUnderscore(role: string)
    requires role in KnownRoles
    ensures '_' !in RoleLabel(role)
  {
    if role == "admin" {
      Text.OccurrencesZero(role, '_');
    } else if role == "credit_officer" {
      assert role == "credit" + ['_'] + "officer";
      Text.OccursOnce("credit", "officer", '_');
    } else if role == "risk_manager" {
      assert role == "risk" + ['_'] + "manager";
      Text.OccursOnce("risk", "manager", '_');
    } else if role == "collections_officer" {
      assert role == "collections" + ['_'] + "officer";
      Text.OccursOnce("collections", "officer", '_');
    } else {
      assert role == "compliance" + ['_'] + "officer";
      Text.OccursOnce("compliance", "officer", '_');
    }
    Text.LabelUnderscores(role);
    Text.OccurrencesZero(RoleLabel(role), '_');
  }
}
