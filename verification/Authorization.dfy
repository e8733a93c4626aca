/** Who may see, check in on and manage which events: the list queries against the pointwise checks. */
module Authorization {
  import opened Options
  import opened Roles

  datatype Event = Event(id: Id, organization: Id, archived: bool, date: nat)

  /** Role assignments, and the events in the order the list queries return them in (by date). */
  datatype Db = Db(grants: seq<Grant>, events: seq<Event>)

  /** Event ids are keys, and no id is the empty string. */
  predicate Keyed(db: Db) {
    && (forall i, j :: 0 <= i < j < |db.events| ==> db.events[i].id != db.events[j].id)
    && (forall e :: e in db.events ==> e.id != "" && e.organization != "")
  }

  // ---------------------------------------------------------------------------------------------- pointwise checks

  predicate IsSuperadmin(db: Db, user: UserId) {
    HasScope(db.grants, user, Superadmin, Instance, None)
  }

  /** `loadEventOrgId`. */
  function OrganizationOf(events: seq<Event>, event: Id): Option<Id> {
    if events == [] then None
    else if events[0].id == event then Some(events[0].organization)
    else OrganizationOf(events[1..], event)
  }

  lemma {:induction false} OrganizationOfEvent(db: Db, e: Event)
    requires Keyed(db) && e in db.events
    ensures OrganizationOf(db.events, e.id) == Some(e.organization)
  {
    OrganizationFrom(db, 0, e);
  }

  lemma {:induction false} OrganizationFrom(db: Db, i: nat, e: Event)
    requires Keyed(db) && i <= |db.events| && e in db.events[i..]
    ensures OrganizationOf(db.events[i..], e.id) == Some(e.organization)
    decreases |db.events| - i
  {
    var k :| i <= k < |db.events| && db.events[k] == e;
    if k != i {
      assert db.events[i..][1..] == db.events[i + 1..];
      OrganizationFrom(db, i + 1, e);
    }
  }

  /** `canAccessEvent`, and `canPerformCheckIn`, which is the same check. */
  predicate CanPerformCheckIn(db: Db, user: UserId, event: Id) {
    || IsSuperadmin(db, user)
    || match OrganizationOf(db.events, event)
       case None => false
       case Some(org) =>
         && org != ""
         && (HasScope(db.grants, user, Admin, Organization, Some(org))
             || HasScope(db.grants, user, Operator, EventScope, Some(event)))
  }

  /** `canManageEvent`. */
  predicate CanManageEvent(db: Db, user: UserId, event: Id) {
    || IsSuperadmin(db, user)
    || match OrganizationOf(db.events, event)
       case None => false
       case Some(org) => org != "" && HasScope(db.grants, user, Admin, Organization, Some(org))
  }

  /** `canAccessAdminPanel`. */
  predicate CanAccessAdminPanel(db: Db, user: UserId) {
    || IsSuperadmin(db, user)
    || exists g :: g in db.grants && g.user == user && g.role.Admin? && g.scopeType.Organization? && g.scopeId.Some?
  }

  // ---------------------------------------------------------------------------------------------- what the grants say

  /** A superadmin of the instance. */
  ghost predicate RunsInstance(grants: seq<Grant>, user: UserId) {
    exists since :: Grant(user, Superadmin, Instance, None, since) in grants
  }

  /** An admin of the organisation. */
  ghost predicate RunsOrganization(grants: seq<Grant>, user: UserId, org: Id) {
    exists since :: Grant(user, Admin, Organization, Some(org), since) in grants
  }

  /** An operator of the event. */
  ghost predicate Operates(grants: seq<Grant>, user: UserId, event: Id) {
    exists since :: Grant(user, Operator, EventScope, Some(event), since) in grants
  }

  lemma HasScopeIs(grants: seq<Grant>, user: UserId, role: Role, scopeType: ScopeType, scopeId: Option<Id>)
    ensures HasScope(grants, user, role, scopeType, scopeId)
            <==> exists since :: Grant(user, role, scopeType, scopeId, since) in grants
  {
    if HasScope(grants, user, role, scopeType, scopeId) {
      var g :| && g in grants && g.user == user && g.role == role && g.scopeType == scopeType
               && g.scopeId == scopeId;
      assert g == Grant(user, role, scopeType, scopeId, g.createdAt);
    }
  }

  lemma SuperadminIs(db: Db, user: UserId)
    ensures IsSuperadmin(db, user) <==> RunsInstance(db.grants, user)
  {
    HasScopeIs(db.grants, user, Superadmin, Instance, None);
    hide HasScope;
  }

  /** Who may check in on and who may manage an event that exists: superadmins and the admins of its organisation both,
      its own operators only the first. */
  lemma WhoMayDoWhat(db: Db, user: UserId, e: Event)
    requires Keyed(db) && e in db.events
    ensures CanPerformCheckIn(db, user, e.id)
            <==> || RunsInstance(db.grants, user) || RunsOrganization(db.grants, user, e.organization)
                 || Operates(db.grants, user, e.id)
    ensures CanManageEvent(db, user, e.id)
            <==> RunsInstance(db.grants, user) || RunsOrganization(db.grants, user, e.organization)
  {
    OrganizationOfEvent(db, e);
    SuperadminIs(db, user);
    HasScopeIs(db.grants, user, Admin, Organization, Some(e.organization));
    HasScopeIs(db.grants, user, Operator, EventScope, Some(e.id));
    hide HasScope, IsSuperadmin;
  }

  lemma {:induction false} NoOrganization(events: seq<Event>, event: Id)
    requires forall e :: e in events ==> e.id != event
    ensures OrganizationOf(events, event) == None
  {
    if events != [] { NoOrganization(events[1..], event); }
  }

  /** On an event that does not exist superadmins alone are allowed anything. */
  lemma WhoMayOnNothing(db: Db, user: UserId, event: Id)
    requires forall e :: e in db.events ==> e.id != event
    ensures CanPerformCheckIn(db, user, event) <==> RunsInstance(db.grants, user)
    ensures CanManageEvent(db, user, event) <==> RunsInstance(db.grants, user)
  {
    NoOrganization(db.events, event);
    SuperadminIs(db, user);
    hide IsSuperadmin;
  }

  /** Nor do grants help on an event without an organisation. */
  lemma WhoMayWithoutOrganization(db: Db, user: UserId, event: Id)
    requires OrganizationOf(db.events, event) == Some("")
    ensures CanPerformCheckIn(db, user, event) <==> RunsInstance(db.grants, user)
    ensures CanManageEvent(db, user, event) <==> RunsInstance(db.grants, user)
  {
    SuperadminIs(db, user);
    hide IsSuperadmin;
  }

  /** The admin panel is for superadmins and for the admins of any organisation. */
  lemma WhoMayEnterThePanel(db: Db, user: UserId)
    ensures CanAccessAdminPanel(db, user)
            <==> RunsInstance(db.grants, user) || exists org :: RunsOrganization(db.grants, user, org)
  {
    SuperadminIs(db, user);
    hide IsSuperadmin, RunsInstance;
    if g :| g in db.grants && g.user == user && g.role.Admin? && g.scopeType.Organization? && g.scopeId.Some? {
      assert g == Grant(user, Admin, Organization, Some(g.scopeId.value), g.createdAt);
      assert RunsOrganization(db.grants, user, g.scopeId.value);
    }
  }

  // ---------------------------------------------------------------------------------------------- queries

  /** The rows of `events` that are in one of the organisations or have one of the ids, in their order. */
  function Matching(events: seq<Event>, orgs: set<Id>, ids: set<Id>, archivedToo: bool): (rows: seq<Event>)
    ensures forall e :: e in rows <==>
              e in events && (archivedToo || !e.archived) && (e.organization in orgs || e.id in ids)
  {
    if events == [] then []
    else
      var e := events[0];
      var rest := Matching(events[1..], orgs, ids, archivedToo);
      if (archivedToo || !e.archived) && (e.organization in orgs || e.id in ids) then [e] + rest else rest
  }

  /** By date, no event twice. */
  predicate Listed(rows: seq<Event>) {
    forall i, j :: 0 <= i < j < |rows| ==> rows[i].date <= rows[j].date && rows[i].id != rows[j].id
  }

  lemma ConsListed(e: Event, rest: seq<Event>)
    requires Listed(rest) && forall r :: r in rest ==> e.date <= r.date && e.id != r.id
    ensures Listed([e] + rest)
  {
    var rows := [e] + rest;
    forall i, j | 0 <= i < j < |rows| ensures rows[i].date <= rows[j].date && rows[i].id != rows[j].id {
      assert rows[j] == rest[j - 1] && rest[j - 1] in rest;
      if i > 0 { assert rows[i] == rest[i - 1]; }
    }
  }

  /** A query returns its rows once each and by date, when the table is listed so. */
  lemma {:induction false} MatchingKeepsOrder(events: seq<Event>, orgs: set<Id>, ids: set<Id>, archivedToo: bool)
    requires Listed(events)
    ensures Listed(Matching(events, orgs, ids, archivedToo))
    decreases events
  {
    if events != [] {
      MatchingKeepsOrder(events[1..], orgs, ids, archivedToo);
      var rest := Matching(events[1..], orgs, ids, archivedToo);
      forall r | r in rest ensures events[0].date <= r.date && events[0].id != r.id {
        var m :| 0 <= m < |events[1..]| && events[1..][m] == r;
        assert events[m + 1] == r;
      }
      ConsListed(events[0], rest);
    }
  }

  lemma {:induction false} NothingMatches(events: seq<Event>, archivedToo: bool)
    ensures Matching(events, {}, {}, archivedToo) == []
  {
    if events != [] { NothingMatches(events[1..], archivedToo); }
  }

  function Organizations(events: seq<Event>): set<Id> {
    set e | e in events :: e.organization
  }

  // ---------------------------------------------------------------------------------------------- check-in

  /** What the loop over a user's assignments collects. */
  ghost predicate Collected(grants: seq<Grant>, user: UserId, orgs: set<Id>, ids: set<Id>) {
    && (forall org :: org in orgs <==> org != "" && HasScope(grants, user, Admin, Organization, Some(org)))
    && (forall id :: id in ids <==> id != "" && HasScope(grants, user, Operator, EventScope, Some(id)))
  }

  /** The loop of `canAccessCheckInPanel` and `listCheckInEvents`: the organisations a user administers and the events
      they operate. */
  method CollectScopes(db: Db, user: UserId) returns (orgs: set<Id>, ids: set<Id>)
    ensures Collected(db.grants, user, orgs, ids)
  {
    orgs, ids := {}, {};
    for i := 0 to |db.grants|
      invariant Collected(db.grants[..i], user, orgs, ids)
    {
      var g := db.grants[i];
      assert forall h :: h in db.grants[..i + 1] <==> h in db.grants[..i] || h == g;
      if g.user == user && g.scopeId.Some? && g.scopeId.value != "" {
        if g.role.Admin? && g.scopeType.Organization? { orgs := orgs + {g.scopeId.value}; }
        if g.scopeType.EventScope? && g.role.Operator? { ids := ids + {g.scopeId.value}; }
      }
    }
    assert db.grants[..|db.grants|] == db.grants;
  }

  /** What the queries' condition means for one event. */
  lemma CollectedMeansCheckIn(db: Db, user: UserId, orgs: set<Id>, ids: set<Id>, e: Event)
    requires Keyed(db) && e in db.events && Collected(db.grants, user, orgs, ids) && !IsSuperadmin(db, user)
    ensures e.organization in orgs || e.id in ids <==> CanPerformCheckIn(db, user, e.id)
  {
    OrganizationOfEvent(db, e);
  }

  /** `listCheckInEvents` returns exactly the events that are not archived and that the user may check in on. */
  method ListCheckInEvents(db: Db, user: UserId) returns (rows: seq<Event>)
    requires Keyed(db)
    ensures forall e :: e in rows <==> e in db.events && !e.archived && CanPerformCheckIn(db, user, e.id)
    ensures forall e :: e in rows <==>
              && e in db.events && !e.archived
              && (|| RunsInstance(db.grants, user) || RunsOrganization(db.grants, user, e.organization)
                  || Operates(db.grants, user, e.id))
    ensures exists orgs, ids :: rows == Matching(db.events, orgs, ids, false)
  {
    forall e | e in db.events { WhoMayDoWhat(db, user, e); }
    hide RunsInstance, RunsOrganization, Operates;
    if IsSuperadmin(db, user) {
      rows := Matching(db.events, Organizations(db.events), {}, false);
      return;
    }
    var orgs, ids := CollectScopes(db, user);
    forall e | e in db.events ensures e.organization in orgs || e.id in ids <==> CanPerformCheckIn(db, user, e.id) {
      CollectedMeansCheckIn(db, user, orgs, ids, e);
    }
    if orgs == {} && ids == {} {
      NothingMatches(db.events, false);
      return [];
    }
    rows := Matching(db.events, orgs, ids, false);
  }

  /** `canAccessCheckInPanel` holds exactly when there is an event the user may check in on, archived ones included. */
  method CanAccessCheckInPanel(db: Db, user: UserId) returns (allowed: bool)
    requires Keyed(db)
    ensures allowed <==> exists e :: e in db.events && CanPerformCheckIn(db, user, e.id)
    ensures allowed <==> exists e ::
              && e in db.events
              && (|| RunsInstance(db.grants, user) || RunsOrganization(db.grants, user, e.organization)
                  || Operates(db.grants, user, e.id))
  {
    forall e | e in db.events { WhoMayDoWhat(db, user, e); }
    hide RunsInstance, RunsOrganization, Operates;
    if IsSuperadmin(db, user) {
      assert db.events != [] ==> db.events[0] in db.events;
      return db.events != [];
    }
    var orgs, ids := CollectScopes(db, user);
    forall e | e in db.events ensures e.organization in orgs || e.id in ids <==> CanPerformCheckIn(db, user, e.id) {
      CollectedMeansCheckIn(db, user, orgs, ids, e);
    }
    if orgs == {} && ids == {} { return false; }
    allowed := exists e :: e in db.events && (e.organization in orgs || e.id in ids);
  }

  // ---------------------------------------------------------------------------------------------- management

  /** The organisations of a user's admin assignments, as `listAdminEvents` and `getAdminEvent` read them. */
  function AdminOrganizations(db: Db, user: UserId): set<Id> {
    set g | g in db.grants && g.user == user && g.role.Admin? && g.scopeType.Organization? && g.scopeId.Some?
            && g.scopeId.value != "" :: g.scopeId.value
  }

  /** `listAdminEvents`. */
  function ListAdminEvents(db: Db, user: UserId, includeArchived: bool): seq<Event> {
    if !CanAccessAdminPanel(db, user) then []
    else if IsSuperadmin(db, user) then Matching(db.events, Organizations(db.events), {}, includeArchived)
    else Matching(db.events, AdminOrganizations(db, user), {}, includeArchived)
  }

  /** `getAdminEvent`. */
  function GetAdminEvent(db: Db, user: UserId, event: Id): Option<Event> {
    if !CanAccessAdminPanel(db, user) then None
    else
      var orgs := if IsSuperadmin(db, user) then Organizations(db.events) else AdminOrganizations(db, user);
      First(db.events, event, orgs)
  }

  function First(events: seq<Event>, event: Id, orgs: set<Id>): Option<Event> {
    if events == [] then None
    else if events[0].id == event && events[0].organization in orgs then Some(events[0])
    else First(events[1..], event, orgs)
  }

  lemma AdminOrganizationsMeanManage(db: Db, user: UserId, e: Event)
    requires Keyed(db) && e in db.events && !IsSuperadmin(db, user)
    ensures e.organization in AdminOrganizations(db, user) <==> CanManageEvent(db, user, e.id)
    ensures CanManageEvent(db, user, e.id) ==> CanAccessAdminPanel(db, user)
  {
    OrganizationOfEvent(db, e);
    if HasScope(db.grants, user, Admin, Organization, Some(e.organization)) {
      var g :| g in db.grants && g.user == user && g.role == Admin && g.scopeType == Organization
          && g.scopeId == Some(e.organization);
    }
  }

  /** The admin list is exactly the events the user manages, archived ones included or not as asked. */
  lemma ListAdminEventsIsManage(db: Db, user: UserId, includeArchived: bool, e: Event)
    requires Keyed(db)
    ensures e in ListAdminEvents(db, user, includeArchived) <==>
              e in db.events && (includeArchived || !e.archived) && CanManageEvent(db, user, e.id)
    ensures e in ListAdminEvents(db, user, includeArchived) <==>
              && e in db.events && (includeArchived || !e.archived)
              && (RunsInstance(db.grants, user) || RunsOrganization(db.grants, user, e.organization))
  {
    if e in db.events { WhoMayDoWhat(db, user, e); }
    hide RunsInstance, RunsOrganization;
    if e in db.events && !IsSuperadmin(db, user) { AdminOrganizationsMeanManage(db, user, e); }
  }

  lemma {:induction false} FirstFinds(db: Db, i: nat, event: Id, orgs: set<Id>)
    requires Keyed(db) && i <= |db.events|
    ensures var found := First(db.events[i..], event, orgs);
            forall e :: found == Some(e) <==> e in db.events[i..] && e.id == event && e.organization in orgs
    decreases |db.events| - i
  {
    if i < |db.events| {
      assert db.events[i..][1..] == db.events[i + 1..];
      FirstFinds(db, i + 1, event, orgs);
      assert forall e :: e in db.events[i..] <==> e == db.events[i] || e in db.events[i + 1..];
    }
  }

  /** One event is handed to an admin exactly when it exists and the user manages it. */
  lemma GetAdminEventIsManage(db: Db, user: UserId, event: Id, e: Event)
    requires Keyed(db)
    ensures GetAdminEvent(db, user, event) == Some(e)
            <==> e in db.events && e.id == event && CanManageEvent(db, user, event)
    ensures GetAdminEvent(db, user, event) == Some(e)
            <==> && e in db.events && e.id == event
                 && (RunsInstance(db.grants, user) || RunsOrganization(db.grants, user, e.organization))
  {
    if e in db.events { WhoMayDoWhat(db, user, e); }
    hide RunsInstance, RunsOrganization;
    var orgs := if IsSuperadmin(db, user) then Organizations(db.events) else AdminOrganizations(db, user);
    FirstFinds(db, 0, event, orgs);
    assert db.events[0..] == db.events;
    if e in db.events && e.id == event && !IsSuperadmin(db, user) { AdminOrganizationsMeanManage(db, user, e); }
  }
}
