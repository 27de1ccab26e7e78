/** Roles, permissions and per-member overrides. */
module Permissions {

  datatype Role = OWNER | MEMBER | VIEWER

  /** `Other` is a string outside the enum that reaches the service from a request. */
  datatype Permission =
    | PROJECT_VIEW | PROJECT_DELETE
    | MEMBERS_READ | MEMBERS_INVITE | MEMBERS_REMOVE
    | SITE_READ | SITE_WRITE | SITE_DELETE
    | AUDIT_READ | AUDIT_RUN | ISSUE_UPDATE
    | EXPORT_READ | EXPORT_CREATE
    | ALERT_READ | ALERT_WRITE
    | SCHEDULE_READ | SCHEDULE_WRITE
    | WEBHOOK_READ | WEBHOOK_WRITE
    | OUTBOUND_READ | OUTBOUND_WRITE
    | ACTIVITY_READ
    | Other(name: string)

  const OWNER_EXCLUSIVE_PERMISSIONS: set<Permission> := {PROJECT_DELETE, MEMBERS_INVITE, MEMBERS_REMOVE}

  const ALL_PERMISSIONS: set<Permission> := {
    PROJECT_VIEW, PROJECT_DELETE, MEMBERS_READ, MEMBERS_INVITE, MEMBERS_REMOVE, SITE_READ, SITE_WRITE, SITE_DELETE,
    AUDIT_READ, AUDIT_RUN, ISSUE_UPDATE, EXPORT_READ, EXPORT_CREATE, ALERT_READ, ALERT_WRITE, SCHEDULE_READ,
    SCHEDULE_WRITE, WEBHOOK_READ, WEBHOOK_WRITE, OUTBOUND_READ, OUTBOUND_WRITE, ACTIVITY_READ
  }

  const MEMBER_DEFAULTS: set<Permission> := {
    PROJECT_VIEW, MEMBERS_READ, SITE_READ, SITE_WRITE, SITE_DELETE, AUDIT_READ, AUDIT_RUN, ISSUE_UPDATE, EXPORT_READ,
    EXPORT_CREATE, ALERT_READ, ALERT_WRITE, SCHEDULE_READ, SCHEDULE_WRITE, WEBHOOK_READ, OUTBOUND_READ
  }

  const VIEWER_DEFAULTS: set<Permission> := {
    PROJECT_VIEW, MEMBERS_READ, SITE_READ, AUDIT_READ, EXPORT_READ, ALERT_READ, SCHEDULE_READ
  }

  const GRANTABLE_PERMISSIONS: set<Permission> := ALL_PERMISSIONS - OWNER_EXCLUSIVE_PERMISSIONS

  function RolePermissions(role: Role): set<Permission> {
    match role
    case OWNER => ALL_PERMISSIONS
    case MEMBER => MEMBER_DEFAULTS
    case VIEWER => VIEWER_DEFAULTS
  }

  // ---------------------------------------------------------------- the catalogue, permission by permission

  predicate IsOwnerExclusive(p: Permission) {
    p.PROJECT_DELETE? || p.MEMBERS_INVITE? || p.MEMBERS_REMOVE?
  }

  predicate IsGrantable(p: Permission) {
    !p.Other? && !IsOwnerExclusive(p)
  }

  /** Members do everything but the owner's business, writing webhooks and reading the activity log;
      viewers only read. */
  predicate IsDefault(role: Role, p: Permission) {
    match role
    case OWNER => !p.Other?
    case MEMBER => IsGrantable(p) && !p.WEBHOOK_WRITE? && !p.OUTBOUND_WRITE? && !p.ACTIVITY_READ?
    case VIEWER =>
      p.PROJECT_VIEW? || p.MEMBERS_READ? || p.SITE_READ? || p.AUDIT_READ? || p.EXPORT_READ? || p.ALERT_READ?
        || p.SCHEDULE_READ?
  }

  /** The constants are the catalogue. */
  lemma CatalogueExact(role: Role, p: Permission)
    ensures p in RolePermissions(role) <==> IsDefault(role, p)
    ensures p in OWNER_EXCLUSIVE_PERMISSIONS <==> IsOwnerExclusive(p)
    ensures p in GRANTABLE_PERMISSIONS <==> IsGrantable(p)
    ensures p in ALL_PERMISSIONS <==> !p.Other?
  {
  }

  /** The documented set: role defaults, plus extras that are not owner-exclusive, minus revocations; owners
      hold everything, whatever overrides are stored. */
  predicate Holds(role: Role, extras: seq<Permission>, revoked: seq<Permission>, p: Permission) {
    if role == OWNER then !p.Other?
    else (IsDefault(role, p) || (p in extras && !IsOwnerExclusive(p))) && p !in revoked
  }

  function Elements(ps: seq<Permission>): set<Permission> {
    set p | p in ps
  }

  function EffectivePermissions(role: Role, extras: seq<Permission>, revoked: seq<Permission>): set<Permission> {
    if role == OWNER then ALL_PERMISSIONS
    else RolePermissions(role) + (Elements(extras) - OWNER_EXCLUSIVE_PERMISSIONS) - Elements(revoked)
  }

  lemma EffectiveExact(role: Role, extras: seq<Permission>, revoked: seq<Permission>, p: Permission)
    ensures p in EffectivePermissions(role, extras, revoked) <==> Holds(role, extras, revoked, p)
  {
    CatalogueExact(role, p);
  }

  method ComputeEffectivePermissions(role: Role, extraPermissions: seq<Permission>, revokedPermissions: seq<Permission>)
    returns (result: set<Permission>)
    ensures result == EffectivePermissions(role, extraPermissions, revokedPermissions)
  {
    if role == OWNER {
      return ALL_PERMISSIONS;
    }
    result := RolePermissions(role);
    var i := 0;
    while i < |extraPermissions|
      invariant 0 <= i <= |extraPermissions|
      invariant result == RolePermissions(role) + (Elements(extraPermissions[..i]) - OWNER_EXCLUSIVE_PERMISSIONS)
    {
      if extraPermissions[i] !in OWNER_EXCLUSIVE_PERMISSIONS {
        result := result + {extraPermissions[i]};
      }
      i := i + 1;
    }
    assert extraPermissions[..i] == extraPermissions;
    ghost var granted := result;
    var j := 0;
    while j < |revokedPermissions|
      invariant 0 <= j <= |revokedPermissions|
      invariant result == granted - Elements(revokedPermissions[..j])
    {
      result := result - {revokedPermissions[j]};
      j := j + 1;
    }
    assert revokedPermissions[..j] == revokedPermissions;
  }

  datatype Validation = Valid | OwnerOverridden | OwnerExclusive(p: Permission) | Unknown(p: Permission)
    | NotInDefaults(p: Permission)

  predicate ValidOverrides(role: Role, extras: seq<Permission>, revoked: seq<Permission>) {
    if role == OWNER then extras == [] && revoked == []
    else (forall p | p in extras :: IsGrantable(p)) && (forall p | p in revoked :: IsDefault(role, p))
  }

  /** The exception names the first offending permission: extras are checked before revocations. */
  method ValidateOverrides(role: Role, extras: seq<Permission>, revoked: seq<Permission>) returns (r: Validation)
    ensures r.Valid? <==> ValidOverrides(role, extras, revoked)
    ensures r.OwnerOverridden? ==> role == OWNER
    ensures r.OwnerExclusive? ==> role != OWNER && r.p in extras && IsOwnerExclusive(r.p)
    ensures r.Unknown? ==> role != OWNER && r.p in extras && r.p.Other?
    ensures r.NotInDefaults? ==> role != OWNER && (forall p | p in extras :: IsGrantable(p))
                                 && r.p in revoked && !IsDefault(role, r.p)
  {
    if role == OWNER {
      return if |extras| > 0 || |revoked| > 0 then OwnerOverridden else Valid;
    }
    var i := 0;
    while i < |extras|
      invariant 0 <= i <= |extras|
      invariant forall k | 0 <= k < i :: IsGrantable(extras[k])
    {
      CatalogueExact(role, extras[i]);
      if extras[i] in OWNER_EXCLUSIVE_PERMISSIONS {
        return OwnerExclusive(extras[i]);
      }
      if extras[i] !in GRANTABLE_PERMISSIONS {
        return Unknown(extras[i]);
      }
      i := i + 1;
    }
    var j := 0;
    while j < |revoked|
      invariant 0 <= j <= |revoked|
      invariant forall k | 0 <= k < j :: IsDefault(role, revoked[k])
    {
      CatalogueExact(role, revoked[j]);
      if revoked[j] !in RolePermissions(role) {
        return NotInDefaults(revoked[j]);
      }
      j := j + 1;
    }
    r := Valid;
  }

  /** Nobody but an owner ever holds an owner-exclusive permission, whatever overrides are stored. */
  lemma ExclusiveStaysWithOwners(role: Role, extras: seq<Permission>, revoked: seq<Permission>, p: Permission)
    requires IsOwnerExclusive(p)
    ensures Holds(role, extras, revoked, p) <==> role == OWNER
  {
  }

  /** Valid overrides take effect exactly as written: an extra is held unless it is also revoked, a
      revocation takes away something the role had, and everything else is the role's default. */
  lemma ValidOverridesTakeEffect(role: Role, extras: seq<Permission>, revoked: seq<Permission>, p: Permission)
    requires ValidOverrides(role, extras, revoked)
    ensures p in extras && p !in revoked ==> Holds(role, extras, revoked, p)
    ensures p in revoked ==> IsDefault(role, p) && !Holds(role, extras, revoked, p)
    ensures p !in extras && p !in revoked ==> (Holds(role, extras, revoked, p) <==> IsDefault(role, p))
  {
  }
}
