/** Role assignments: who holds which role at which scope since when. */
module Roles {
  import opened Options

  type Id = string
  type UserId = nat

  datatype Role = Superadmin | Admin | Operator

  datatype ScopeType = Instance | Organization | EventScope

  /** A row of the role assignment table. Its scope id may be null whatever its scope type. */
  datatype Grant = Grant(user: UserId, role: Role, scopeType: ScopeType, scopeId: Option<Id>, createdAt: nat)

  /** `hasScope`: an exact match, without any hierarchy between scopes. */
  predicate HasScope(grants: seq<Grant>, user: UserId, role: Role, scopeType: ScopeType, scopeId: Option<Id>) {
    exists g :: g in grants && g.user == user && g.role == role && g.scopeType == scopeType && g.scopeId == scopeId
  }
}
