/** The workspace roles the connector models, and the role grants a user stands for. */
module Roles {
  import opened Text
  import opened Domain

  datatype NotionRole = NotionRole(id: string, displayName: string, order: nat)

  const DEFAULT_REVOKED_ROLE := RESTRICTED_MEMBER

  function SupportedRoles(): seq<NotionRole> {
    [NotionRole(OWNER, "Owner", 4),
     NotionRole(MEMBERSHIP_ADMIN, "Membership Admin", 3),
     NotionRole(MEMBER, "Member", 2),
     NotionRole(RESTRICTED_MEMBER, "Restricted Member", 1)]
  }

  /** The roles of a list by ID; a later entry replaces an earlier one with the same ID. */
  function ById(roles: seq<NotionRole>): map<string, NotionRole> {
    if roles == [] then map[]
    else ById(roles[..|roles| - 1])[roles[|roles| - 1].id := roles[|roles| - 1]]
  }

  method IndexRoles(roles: seq<NotionRole>) returns (index: map<string, NotionRole>)
    ensures index == ById(roles)
  {
    index := map[];
    for i := 0 to |roles|
      invariant index == ById(roles[..i])
    {
      assert roles[..i + 1][..i] == roles[..i];
      index := index[roles[i].id := roles[i]];
    }
    assert roles[..|roles|] == roles;
  }

  function RolesById(): map<string, NotionRole> { ById(SupportedRoles()) }

  predicate IsSupportedRole(roleId: string) { roleId in RolesById() }

  /** Privilege hint of a role in the exclusion group; 0 for a role value that is not supported. */
  function PrivilegeOrder(role: string): nat {
    if IsSupportedRole(role) then RolesById()[role].order else 0
  }

  lemma RolesByIdIs()
    ensures RolesById() == map[OWNER := SupportedRoles()[0], MEMBERSHIP_ADMIN := SupportedRoles()[1],
                               MEMBER := SupportedRoles()[2], RESTRICTED_MEMBER := SupportedRoles()[3]]
  {
    var all := SupportedRoles();
    assert all[..3][..2] == all[..2] && all[..2][..1] == all[..1] && all[..1][..0] == [];
    assert ById(all[..1]) == map[OWNER := all[0]];
    assert ById(all[..2]) == ById(all[..1])[MEMBERSHIP_ADMIN := all[1]];
    assert ById(all[..3]) == ById(all[..2])[MEMBER := all[2]];
  }

  /** The connector supports exactly the roles the server knows. */
  lemma SupportedIsKnown(role: string)
    ensures IsSupportedRole(role) <==> KnownRole(role)
  {
    RolesByIdIs();
  }

  lemma KnownRolesAre(role: string)
    ensures KnownRole(role) <==> role in {"owner", "membership_admin", "member", "restricted_member"}
    ensures DEFAULT_REVOKED_ROLE == "restricted_member"
  {
  }

  /** The index files every supported role under its own ID, and orders them owner, membership admin,
      member, restricted member. */
  lemma IndexHoldsSupported(role: string)
    ensures IsSupportedRole(role) ==> RolesById()[role].id == role
    ensures PrivilegeOrder(role)
            == if role == OWNER then 4 else if role == MEMBERSHIP_ADMIN then 3 else if role == MEMBER then 2
               else if role == RESTRICTED_MEMBER then 1 else 0
  {
    RolesByIdIs();
  }

  lemma IndexHoldsNames()
    ensures RolesById().Keys == {"owner", "membership_admin", "member", "restricted_member"}
    ensures RolesById()["owner"].displayName == "Owner"
    ensures RolesById()["membership_admin"].displayName == "Membership Admin"
    ensures RolesById()["member"].displayName == "Member"
    ensures RolesById()["restricted_member"].displayName == "Restricted Member"
  {
    RolesByIdIs();
  }

  /** The role a user falls back to on revoke is supported and strictly the least privileged, so
      exactly one entitlement of the exclusion group is its default. */
  lemma DefaultIsLeast(role: string)
    requires IsSupportedRole(role) && role != DEFAULT_REVOKED_ROLE
    ensures IsSupportedRole(DEFAULT_REVOKED_ROLE) && PrivilegeOrder(DEFAULT_REVOKED_ROLE) < PrivilegeOrder(role)
  {
    RolesByIdIs();
  }

  // ---------- Grants ----------

  datatype RoleGrant = RoleGrant(user: string, role: string)

  /** What a full scan says about one user: its role, if the connector supports it. */
  function GrantsOf(u: User): set<RoleGrant> {
    if KnownRole(u.Role()) then {RoleGrant(u.id, u.Role())} else {}
  }

  function FullScan(st: StoreState): set<RoleGrant> {
    set id, g | id in st.users && g in GrantsOf(st.users[id]) :: g
  }
}
