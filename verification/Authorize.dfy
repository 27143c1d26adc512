/** The access cache itself:  its fields, and one handler per event the listener delivers. */
module Authorization {
  import opened Graphs
  import opened AccessTables
  import opened AccessCache
  import opened AccessHandlers
  import opened AccessPaths
  import opened AccessHolders
  import opened Options

  class Authorize {
    var users: map<PK, User>
    var groups: map<PK, Group>
    var roles: map<PK, Role>
    var permissions: map<PK, Permission>
    var acl: seq<AclRow>
    var resources: map<PK, Resource>

    /** The rows, the cached rights left out. */
    function Rows(): Tables
      reads this
    {
      Tables(RowsOf(users), groups, roles, permissions, acl, resources)
    }

    /** Every user's cached rights are what a full recomputation from the rows gives. */
    ghost predicate Valid()
      reads this
    {
      WellFormed(Rows()) && InStep(Rows(), users)
    }

    /** Loads a snapshot in one swap, its users' rights not yet cached. */
    constructor (t: Tables)
      requires WellFormed(t)
      ensures Valid() && Rows() == t
    {
      var blank := map u | u in t.users :: User(t.users[u].name, t.users[u].deleted, map[], map[]);
      var filled := Recalc(t, blank);
      assert RowsOf(blank) == t.users;
      users, groups, roles, permissions, acl, resources := filled, t.groups, t.roles, t.permissions, t.acl, t.resources;
    }

    // ---- Users ----

    method CreateUser(user: PK, name: string)
      requires Valid() && Legal(Rows(), Event.CreateUser(user, name))
      modifies this
      ensures Valid() && Rows() == After(old(Rows()), Event.CreateUser(user, name))
    {
      AfterWellFormed(Rows(), Event.CreateUser(user, name));
      if user in users {
        UserEdited(Rows(), users, user, users[user].(name := name));
        users := users[user := users[user].(name := name)];
      } else {
        UserAdded(Rows(), users, user, name);
        users := users[user := User(name, false, map[], map[])];
      }
    }

    method RenameUser(user: PK, name: string)
      requires Valid()
      modifies this
      ensures Valid() && Rows() == After(old(Rows()), Event.RenameUser(user, name))
    {
      AfterWellFormed(Rows(), Event.RenameUser(user, name));
      if user in users {
        UserEdited(Rows(), users, user, users[user].(name := name));
        users := users[user := users[user].(name := name)];
      }
    }

    method DeleteUser(user: PK)
      requires Valid()
      modifies this
      ensures Valid() && Rows() == After(old(Rows()), Event.DeleteUser(user))
    {
      AfterWellFormed(Rows(), Event.DeleteUser(user));
      if user in users {
        UserEdited(Rows(), users, user, users[user].(deleted := true));
        users := users[user := users[user].(deleted := true)];
      }
    }

    method RestoreUser(user: PK)
      requires Valid()
      modifies this
      ensures Valid() && Rows() == After(old(Rows()), Event.RestoreUser(user))
    {
      AfterWellFormed(Rows(), Event.RestoreUser(user));
      if user in users {
        UserEdited(Rows(), users, user, users[user].(deleted := false));
        users := users[user := users[user].(deleted := false)];
      }
    }

    method PurgeUser(user: PK)
      requires Valid() && Legal(Rows(), Event.PurgeUser(user))
      modifies this
      ensures Valid() && Rows() == After(old(Rows()), Event.PurgeUser(user))
    {
      AfterWellFormed(Rows(), Event.PurgeUser(user));
      UserRemoved(Rows(), users, user);
      users := users - {user};
      PurgeIdentity(user);
    }

    /** Drops an identity that is out of users and groups:  its acl rows and memberships. */
    method PurgeIdentity(pk: PK)
      requires InStep(Rows(), users) && pk !in groups && pk !in users
      modifies this
      ensures Rows() == WithoutIdentity(old(Rows()), pk) && InStep(Rows(), users)
    {
      InStepWithoutIdentity(Rows(), users, pk);
      var t := WithoutIdentity(Rows(), pk);
      acl, groups := t.acl, t.groups;
    }

    // ---- Groups ----

    method CreateGroup(group: PK)
      requires Valid() && Legal(Rows(), Event.CreateGroup(group))
      modifies this
      ensures Valid() && Rows() == After(old(Rows()), Event.CreateGroup(group))
    {
      ghost var t, e := Rows(), Event.CreateGroup(group);
      AfterWellFormed(t, e);
      GroupKnown(groups, group, users);
      UntouchedCollected(t, groups[group := GroupOrNew(groups, group)], users, users, {});
      groups := groups[group := GroupOrNew(groups, group)];
    }

    method AddToGroup(group: PK, members: seq<PK>)
      requires Valid() && Legal(Rows(), Event.AddToGroup(group, members))
      modifies this
      ensures Valid() && Rows() == After(old(Rows()), Event.AddToGroup(group, members))
    {
      ghost var t, e := Rows(), Event.AddToGroup(group, members);
      AfterWellFormed(t, e);
      assert t.users.Keys == users.Keys;
      groups, users := JoinGroup(Rows(), users, group, members);
    }

    method RemoveFromGroup(group: PK, members: seq<PK>)
      requires Valid()
      modifies this
      ensures Valid() && Rows() == After(old(Rows()), Event.RemoveFromGroup(group, members))
    {
      ghost var t, e := Rows(), Event.RemoveFromGroup(group, members);
      AfterWellFormed(t, e);
      if group in groups {
        assert t.users.Keys == users.Keys;
        groups, users := LeaveGroup(Rows(), users, group, members);
      }
    }

    method DeleteGroup(group: PK)
      requires Valid()
      modifies this
      ensures Valid() && Rows() == After(old(Rows()), Event.DeleteGroup(group))
    {
      AfterWellFormed(Rows(), Event.DeleteGroup(group));
      if group in groups {
        groups, users := MarkGroup(Rows(), users, group, true);
      }
    }

    method RestoreGroup(group: PK)
      requires Valid()
      modifies this
      ensures Valid() && Rows() == After(old(Rows()), Event.RestoreGroup(group))
    {
      AfterWellFormed(Rows(), Event.RestoreGroup(group));
      if group in groups {
        groups, users := MarkGroup(Rows(), users, group, false);
      }
    }

    method PurgeGroup(group: PK)
      requires Valid()
      modifies this
      ensures Valid() && Rows() == After(old(Rows()), Event.PurgeGroup(group))
    {
      AfterWellFormed(Rows(), Event.PurgeGroup(group));
      if group in groups {
        users := RemoveGroup(Rows(), users, group);
        groups := groups - {group};
        assert RowsOf(users).Keys == users.Keys;
        PurgeIdentity(group);
      }
    }

    // ---- Acl ----

    /** The one event that can leave the cache out of step:  it does if and only if the permission was not cached and something had named it
        for a user the identity does not reach. */
    method AddAclPermission(identity: PK, pk: PK, permission: Permission)
      requires Valid()
      modifies this
      ensures WellFormed(Rows()) && Rows() == After(old(Rows()), Event.AddAclPermission(identity, pk, permission))
      ensures Valid() <==> Legal(old(Rows()), Event.AddAclPermission(identity, pk, permission))
    {
      ghost var t, e := Rows(), Event.AddAclPermission(identity, pk, permission);
      AfterWellFormed(t, e);
      assert t.users.Keys == users.Keys;
      var t', r := GrantPermission(Rows(), users, ToIdentity(users.Keys, identity), pk, permission);
      permissions, acl, users := t'.permissions, t'.acl, r;
    }

    method AddAclRole(identity: PK, role: PK)
      requires Valid()
      modifies this
      ensures Valid() && Rows() == After(old(Rows()), Event.AddAclRole(identity, role))
    {
      ghost var t, e := Rows(), Event.AddAclRole(identity, role);
      AfterWellFormed(t, e);
      assert t.users.Keys == users.Keys;
      acl, users := GrantRole(Rows(), users, ToIdentity(users.Keys, identity), role);
    }

    method RemoveAcl(identity: PK, grant: Grant)
      requires Valid()
      modifies this
      ensures Valid() && Rows() == After(old(Rows()), Event.RemoveAcl(identity, grant))
    {
      ghost var t, e := Rows(), Event.RemoveAcl(identity, grant);
      AfterWellFormed(t, e);
      assert t.users.Keys == users.Keys;
      acl, users := Revoke(Rows(), users, ToIdentity(users.Keys, identity), grant);
    }

    // ---- Roles ----

    method AddRolePermission(role: PK, pk: PK, allowed: Mask, denied: Mask, resource: Named)
      requires Valid()
      modifies this
      ensures Valid() && Rows() == After(old(Rows()), Event.AddRolePermission(role, pk, allowed, denied, resource))
    {
      AfterWellFormed(Rows(), Event.AddRolePermission(role, pk, allowed, denied, resource));
      resources := WithNamed(resources, resource);
      permissions := RolePermission(permissions, pk, allowed, denied, resource);
      var r := RoleOrNew(roles, role);
      roles := roles[role := r.(members := AddGrant(r.members, Perm(pk)))];
      users := Recalc(Rows(), users);
    }

    method AddRoleChildren(role: PK, children: seq<PK>)
      requires Valid()
      modifies this
      ensures Valid() && Rows() == After(old(Rows()), Event.AddRoleChildren(role, children))
    {
      AfterWellFormed(Rows(), Event.AddRoleChildren(role, children));
      var r := RoleOrNew(roles, role);
      roles := roles[role := r.(members := AddChildren(r.members, children))];
      users := Recalc(Rows(), users);
    }

    method RemoveRoleChildren(role: PK, removed: seq<Grant>)
      requires Valid()
      modifies this
      ensures Valid() && Rows() == After(old(Rows()), Event.RemoveRoleChildren(role, removed))
    {
      AfterWellFormed(Rows(), Event.RemoveRoleChildren(role, removed));
      if role in roles {
        roles := roles[role := roles[role].(members := Filter(roles[role].members, (m: Grant) => m !in removed))];
        users := Recalc(Rows(), users);
      }
    }

    method MarkRole(role: PK, deleted: bool)
      requires Valid()
      modifies this
      ensures Valid() && Rows() == After(old(Rows()), Event.MarkRole(role, deleted))
    {
      AfterWellFormed(Rows(), Event.MarkRole(role, deleted));
      if role in roles {
        roles := roles[role := roles[role].(deleted := deleted)];
      }
      users := Recalc(Rows(), users);
    }

    method PurgeRole(role: PK)
      requires Valid()
      modifies this
      ensures Valid() && Rows() == After(old(Rows()), Event.PurgeRole(role))
    {
      if role in roles {
        var t, r := DropRole(Rows(), users, role);
        acl, roles, users := t.acl, t.roles, r;
        assert Rows() == t;
      }
    }

    // ---- Permissions and resources ----

    /** False is the source's "permission not found". */
    method UpdatePermission(pk: PK, allowed: Option<Mask>, denied: Option<Mask>) returns (found: bool)
      requires Valid()
      modifies this
      ensures found == (pk in old(permissions))
      ensures Valid() && Rows() == After(old(Rows()), Event.UpdatePermission(pk, allowed, denied))
    {
      AfterWellFormed(Rows(), Event.UpdatePermission(pk, allowed, denied));
      found := pk in permissions;
      if found {
        permissions, users := Rerate(Rows(), users, pk, allowed, denied);
      }
    }

    method CreateResource(pk: PK, row: Resource)
      requires Valid()
      modifies this
      ensures Valid() && Rows() == After(old(Rows()), Event.CreateResource(pk, row))
    {
      ghost var t := Rows();
      AfterWellFormed(t, Event.CreateResource(pk, row));
      resources := resources[pk := row];
      InStepSame(t, Rows(), users);
    }

    method PurgeResource(pk: PK)
      requires Valid()
      modifies this
      ensures Valid() && Rows() == After(old(Rows()), Event.PurgeResource(pk))
    {
      var t, r := DropResourceRows(Rows(), users, pk);
      resources, permissions, acl, roles, users := t.resources, t.permissions, t.acl, t.roles, r;
      assert Rows() == t;
    }

    // ---- Who has what ----

    /** A live user's rights source by source or up to exactly the rights enforced for it;  a deleted or an unknown user has none. */
    method UserRights(user: PK) returns (y: map<PK, Rights>)
      requires Valid()
      ensures Tidy(y)
      ensures user !in users || users[user].deleted ==> y == map[]
      ensures user in users && !users[user].deleted ==>
                && (forall r :: Find(y, r) == RightsFor(Rows(), UserId(user), r))
                && y.Keys == users[user].rights.Keys
                && forall r :: r in y ==> y[r].rights == users[user].rights[r]
    {
      if user in users && !users[user].deleted {
        y := IdentityRights(Rows(), UserId(user));
        assert GrantedKeys(Rows(), UserId(user)) == EntitledKeys(Rows(), user);
        HoldsRights(users[user], permissions, EntitledKeys(Rows(), user));
      } else {
        y := map[];
      }
    }

    method GroupRights(group: PK) returns (y: map<PK, Rights>)
      requires Valid()
      ensures Tidy(y)
      ensures group !in groups || groups[group].deleted ==> y == map[]
      ensures group in groups && !groups[group].deleted ==>
                var held := RightsOf(Restrict(permissions, GrantedKeys(Rows(), GroupId(group))));
                && (forall r :: Find(y, r) == RightsFor(Rows(), GroupId(group), r))
                && y.Keys == held.Keys
                && forall r :: r in y ==> y[r].rights == held[r]
    {
      if group in groups && !groups[group].deleted {
        y := IdentityRights(Rows(), GroupId(group));
      } else {
        y := map[];
      }
    }

    /** On a cached resource, every live user and group has the rights its own query answers, every live user so the rights enforced. */
    method Holders(resource: PK) returns (y: Option<AccessHolders.Holders>)
      requires Valid()
      ensures y.None? <==> resource !in resources
      ensures y.Some? ==> AllTidy(y.value)
      ensures y.Some? ==> forall id :: At(y.value, id) == if Live(Rows(), id) then RightsFor(Rows(), id, resource) else NO_RIGHTS
      ensures y.Some? ==> forall u :: u in y.value.users ==>
                u in users && !users[u].deleted && y.value.users[u].rights == RightsIn(users[u].rights, resource)
      ensures y.Some? ==> forall u :: u in users && !users[u].deleted && u !in y.value.users ==> resource !in users[u].rights
    {
      y := ResourceHolders(Rows(), resource);
      if y.Some? {
        forall u | u in users && !users[u].deleted
          ensures At(y.value, UserId(u)).rights == RightsIn(users[u].rights, resource)
          ensures u !in y.value.users ==> resource !in users[u].rights
        {
          HolderEnforced(Rows(), u, users[u], resource);
        }
        forall u | u in y.value.users ensures u in users && !users[u].deleted {
          assert At(y.value, UserId(u)) == y.value.users[u];
        }
        assert forall u :: u in y.value.users ==> At(y.value, UserId(u)) == y.value.users[u];
      }
    }

    // ---- Runs ----

    method Handle(e: Event)
      requires Valid() && Legal(Rows(), e)
      modifies this
      ensures Valid() && Rows() == After(old(Rows()), e)
    {
      match e
      case CreateUser(user, name) => CreateUser(user, name);
      case RenameUser(user, name) => RenameUser(user, name);
      case DeleteUser(user) => DeleteUser(user);
      case RestoreUser(user) => RestoreUser(user);
      case PurgeUser(user) => PurgeUser(user);
      case CreateGroup(group) => CreateGroup(group);
      case AddToGroup(group, members) => AddToGroup(group, members);
      case RemoveFromGroup(group, members) => RemoveFromGroup(group, members);
      case DeleteGroup(group) => DeleteGroup(group);
      case RestoreGroup(group) => RestoreGroup(group);
      case PurgeGroup(group) => PurgeGroup(group);
      case AddAclPermission(identity, pk, permission) => AddAclPermission(identity, pk, permission);
      case AddAclRole(identity, role) => AddAclRole(identity, role);
      case RemoveAcl(identity, grant) => RemoveAcl(identity, grant);
      case AddRolePermission(role, pk, allowed, denied, resource) => AddRolePermission(role, pk, allowed, denied, resource);
      case AddRoleChildren(role, children) => AddRoleChildren(role, children);
      case RemoveRoleChildren(role, removed) => RemoveRoleChildren(role, removed);
      case MarkRole(role, deleted) => MarkRole(role, deleted);
      case PurgeRole(role) => PurgeRole(role);
      case UpdatePermission(pk, allowed, denied) => var _ := UpdatePermission(pk, allowed, denied);
      case CreateResource(pk, row) => CreateResource(pk, row);
      case PurgeResource(pk) => PurgeResource(pk);
    }

    /** Any run of events, from any loaded state:  the cache ends as a load of the rows the run leaves would fill it. */
    method Run(events: seq<Event>)
      requires Valid() && LegalRun(Rows(), events)
      modifies this
      ensures Rows() == AfterAll(old(Rows()), events)
      ensures Valid() && users == Loaded(Rows())
    {
      for i := 0 to |events|
        invariant Valid() && LegalRun(Rows(), events[i..])
        invariant AfterAll(Rows(), events[i..]) == AfterAll(old(Rows()), events)
      {
        assert events[i..][0] == events[i] && events[i..][1..] == events[i + 1..];
        Handle(events[i]);
      }
      InStepLoaded(Rows(), users);
    }
  }

  lemma HoldsRights(user: User, permissions: map<PK, Permission>, keys: set<PK>)
    requires Holds(user, user, permissions, keys)
    ensures user.rights == RightsOf(Restrict(permissions, keys))
  {
  }

  lemma HolderEnforced(t: Tables, u: PK, user: User, resource: PK)
    requires Holds(user, user, t.permissions, EntitledKeys(t, u))
    ensures RightsFor(t, UserId(u), resource).rights == RightsIn(user.rights, resource)
    ensures RightsFor(t, UserId(u), resource).sources == [] <==> resource !in user.rights
  {
    assert GrantedKeys(t, UserId(u)) == EntitledKeys(t, u);
    HoldsRights(user, t.permissions, EntitledKeys(t, u));
    SourcesOr(t, UserId(u), resource, RightsFor(t, UserId(u), resource));
    RightsOfOne(Restrict(t.permissions, EntitledKeys(t, u)), resource);
  }

  function AfterAll(t: Tables, events: seq<Event>): Tables
    decreases |events|
  {
    if events == [] then t else AfterAll(After(t, events[0]), events[1..])
  }

  ghost predicate LegalRun(t: Tables, events: seq<Event>)
    decreases |events|
  {
    events == [] || (Legal(t, events[0]) && LegalRun(After(t, events[0]), events[1..]))
  }

  /** The full recomputation:  every user with the permissions it is entitled to, and their or. */
  ghost function Loaded(t: Tables): map<PK, User> {
    map u | u in t.users :: Holding(User(t.users[u].name, t.users[u].deleted, map[], map[]), t.permissions, EntitledKeys(t, u))
  }

  lemma InStepLoaded(t: Tables, users: map<PK, User>)
    requires InStep(t, users) && t.users == RowsOf(users)
    ensures users == Loaded(t)
  {
    forall u | u in users ensures users[u] == Loaded(t)[u] {
      assert users[u] == Holding(users[u], t.permissions, users[u].permissions.Keys);
    }
    assert users.Keys == Loaded(t).Keys;
  }

  // ---- Rows of users alone ----

  lemma UserEdited(t: Tables, users: map<PK, User>, user: PK, now: User)
    requires InStep(t, users) && t.users == RowsOf(users) && user in users
    requires now.rights == users[user].rights && now.permissions == users[user].permissions
    ensures var r := users[user := now];
            RowsOf(r) == t.users[user := UserRow(now.name, now.deleted)] && InStep(t.(users := RowsOf(r)), r)
  {
    var r := users[user := now];
    var t' := t.(users := RowsOf(r));
    assert RowsOf(r) == t.users[user := UserRow(now.name, now.deleted)];
    forall u | u in r ensures Holds(r[u], r[u], t'.permissions, EntitledKeys(t', u)) {
      EntitledSame(t, t', u);
      HoldsEdited(users[u], r[u], t.permissions, EntitledKeys(t, u));
    }
  }

  lemma UserAdded(t: Tables, users: map<PK, User>, user: PK, name: string)
    requires InStep(t, users) && t.users == RowsOf(users) && user !in users && WellFormed(t) && !NamedAsGroup(t, user)
    ensures var r := users[user := User(name, false, map[], map[])];
            RowsOf(r) == t.users[user := UserRow(name, false)] && InStep(t.(users := RowsOf(r)), r)
  {
    var now := User(name, false, map[], map[]);
    var r := users[user := now];
    InStepSame(t, t.(users := RowsOf(r)), users);
    Unnamed(t, user);
    Unentitled(t.(users := RowsOf(r)), user);
    ClearedHolds(now, t.permissions);
  }

  lemma UserRemoved(t: Tables, users: map<PK, User>, user: PK)
    requires InStep(t, users) && t.users == RowsOf(users)
    ensures var r := users - {user};
            RowsOf(r) == t.users - {user} && InStep(t.(users := RowsOf(r)), r)
  {
    InStepSame(t, t.(users := RowsOf(users - {user})), users);
  }

  /** Nothing entitles an identity nothing names. */
  lemma Unentitled(t: Tables, user: PK)
    requires forall row :: row in t.acl ==> row.identity.pk != user
    requires forall g :: g in t.groups ==> !HasPk(t.groups[g].members, user)
    ensures EntitledKeys(t, user) == {}
  {
    forall x ensures !Edge(GroupGraph(t.groups), x, UserId(user)) {
    }
    forall row | row in t.acl ensures !Reaches(GroupGraph(t.groups), row.identity, UserId(user)) {
      OrphanReaches(GroupGraph(t.groups), row.identity, UserId(user));
    }
  }

  // ---- The grant that names no resource row ----

  lemma EntitledThroughRole(t: Tables, user: PK, role: PK, p: PK)
    requires AclRow(UserId(user), RoleOf(role)) in t.acl
    requires role in t.roles && !t.roles[role].deleted && Perm(p) in t.roles[role].members
    ensures Entitled(t, user, p)
  {
    ReachesSelf(GroupGraph(t.groups), UserId(user));
    assert Edge(RoleGraph(t.roles), RoleOf(role), Perm(p));
    ReachesSelf(RoleGraph(t.roles), Perm(p));
    ReachesCons(RoleGraph(t.roles), RoleOf(role), Perm(p), Perm(p));
  }

  /** A role grant on a resource the cache cannot resolve puts a permission that is not cached in the role, so a later
      grant of the permission to another user is one that leaves whoever has the role behind. */
  lemma UnresolvedNames(t: Tables, user: PK, other: PK, role: PK, pk: PK, allowed: Mask, denied: Mask, permission: Permission)
    requires user in t.users && other in t.users && user != other && pk !in t.permissions
    requires AclRow(UserId(user), RoleOf(role)) in t.acl && !RoleOrNew(t.roles, role).deleted
    ensures !Legal(After(t, Event.AddRolePermission(role, pk, allowed, denied, Unresolved)), Event.AddAclPermission(other, pk, permission))
  {
    var t1 := After(t, Event.AddRolePermission(role, pk, allowed, denied, Unresolved));
    assert Perm(pk) in t1.roles[role].members;
    EntitledThroughRole(t1, user, role, pk);
    UserReaches(t1.groups, other, user);
  }

  /** The two handlers one after the other, from any state in step. */
  method UnresolvedGrantGoesStale(cache: Authorize, user: PK, other: PK, role: PK, pk: PK, allowed: Mask, denied: Mask,
                                  permission: Permission)
    requires cache.Valid() && user in cache.users && other in cache.users && user != other && pk !in cache.permissions
    requires AclRow(UserId(user), RoleOf(role)) in cache.acl && !RoleOrNew(cache.roles, role).deleted
    modifies cache
    ensures WellFormed(cache.Rows()) && !InStep(cache.Rows(), cache.users)
  {
    UnresolvedNames(cache.Rows(), user, other, role, pk, allowed, denied, permission);
    cache.AddRolePermission(role, pk, allowed, denied, Unresolved);
    cache.AddAclPermission(other, pk, permission);
  }
}
