/** What the access cache is loaded from and what its events do to it, with no cached rights anywhere:  the rows, and the rights they
    entitle a user to.  A rights mask is the set of its bits. */
module AccessTables {
  import opened Graphs
  import opened Options

  type PK = nat
  type Mask = set<nat>

  /** A user or a group.  Sets and maps of identities order and match on the pk alone. */
  datatype Identity = UserId(pk: PK) | GroupId(pk: PK)

  /** What an acl row or a role member names:  a permission, or a role. */
  datatype Grant = Perm(pk: PK) | RoleOf(pk: PK)

  datatype Permission = Permission(resource: PK, allowed: Mask, denied: Mask)
  datatype Group = Group(deleted: bool, members: seq<Identity>)
  datatype Role = Role(deleted: bool, members: seq<Grant>)
  datatype AclRow = AclRow(identity: Identity, grant: Grant)
  datatype UserRow = UserRow(name: string, deleted: bool)
  datatype Resource = Resource(schema: string, slug: string, criteria: string, deleted: bool)

  /** What a role grant's payload comes to:  a resource that is cached, a row to cache under its pk, or neither. */
  datatype Named = Cached(pk: PK) | ToCache(pk: PK, row: Resource) | Unresolved

  datatype Tables = Tables(
    users: map<PK, UserRow>,
    groups: map<PK, Group>,
    roles: map<PK, Role>,
    permissions: map<PK, Permission>,
    acl: seq<AclRow>,
    resources: map<PK, Resource>)

  // ---- Entitlement ----

  /** Deleted groups have no entry:  nothing propagates through one. */
  function GroupGraph(groups: map<PK, Group>): Graph<Identity> {
    map g | g in groups && !groups[g].deleted :: GroupId(g) := groups[g].members
  }

  function RoleGraph(roles: map<PK, Role>): Graph<Grant> {
    map r | r in roles && !roles[r].deleted :: RoleOf(r) := roles[r].members
  }

  /** Some acl row's identity reaches the target through live groups, and its grant reaches the permission through live roles. */
  ghost predicate GrantedTo(t: Tables, target: Identity, permission: PK) {
    exists row :: row in t.acl
               && Reaches(GroupGraph(t.groups), row.identity, target)
               && Reaches(RoleGraph(t.roles), row.grant, Perm(permission))
  }

  ghost function GrantedKeys(t: Tables, target: Identity): set<PK> {
    set p | p in t.permissions && GrantedTo(t, target, p)
  }

  ghost predicate Entitled(t: Tables, user: PK, permission: PK) {
    GrantedTo(t, UserId(user), permission)
  }

  ghost function EntitledKeys(t: Tables, user: PK): set<PK> {
    set p | p in t.permissions && Entitled(t, user, p)
  }

  // ---- Ordered containers ----

  function Filter<T(!new)>(s: seq<T>, keep: T -> bool): (r: seq<T>)
    ensures forall x :: x in r <==> x in s && keep(x)
  {
    if s == [] then [] else
      assert forall x :: x in s <==> x == s[0] || x in s[1..];
      (if keep(s[0]) then [s[0]] else []) + Filter(s[1..], keep)
  }

  /** Before the first element `x` comes before, which for an ordered list is after every equal one. */
  function Insert<T(!new)>(s: seq<T>, x: T, before: (T, T) -> bool): (r: seq<T>)
    ensures forall y :: y in r <==> y in s || y == x
  {
    if s == [] || before(x, s[0]) then [x] + s else
      assert forall y :: y in s <==> y == s[0] || y in s[1..];
      [s[0]] + Insert(s[1..], x, before)
  }

  predicate HasPk(members: seq<Identity>, pk: PK) {
    exists m :: m in members && m.pk == pk
  }

  function AddMember(members: seq<Identity>, m: Identity): (r: seq<Identity>)
    ensures forall y :: y in r <==> y in members || (y == m && !HasPk(members, m.pk))
  {
    if HasPk(members, m.pk) then members else Insert(members, m, (a: Identity, b: Identity) => a.pk < b.pk)
  }

  function EraseMember(members: seq<Identity>, pk: PK): (r: seq<Identity>)
    ensures forall y :: y in r <==> y in members && y.pk != pk
  {
    Filter(members, (m: Identity) => m.pk != pk)
  }

  predicate GrantBefore(a: Grant, b: Grant) {
    (a.Perm? && b.RoleOf?) || (a.Perm? == b.Perm? && a.pk < b.pk)
  }

  function AddGrant(members: seq<Grant>, m: Grant): (r: seq<Grant>)
    ensures forall y :: y in r <==> y in members || y == m
  {
    if m in members then members else Insert(members, m, GrantBefore)
  }

  predicate HasRow(acl: seq<AclRow>, pk: PK, grant: Grant) {
    exists row :: row in acl && row.identity.pk == pk && row.grant == grant
  }

  /** A multimap entry, unless the identity's pk already has the grant. */
  function AddRow(acl: seq<AclRow>, row: AclRow): (r: seq<AclRow>)
    ensures forall y :: y in r <==> y in acl || (y == row && !HasRow(acl, row.identity.pk, row.grant))
  {
    if HasRow(acl, row.identity.pk, row.grant) then acl
    else Insert(acl, row, (a: AclRow, b: AclRow) => a.identity.pk < b.identity.pk)
  }

  /** The first match only, as the erase stops there. */
  function EraseRow(acl: seq<AclRow>, pk: PK, grant: Grant): (r: seq<AclRow>)
    ensures forall y :: y in r ==> y in acl
    ensures forall y :: y in acl && !(y.identity.pk == pk && y.grant == grant) ==> y in r
  {
    if acl == [] then []
    else if acl[0].identity.pk == pk && acl[0].grant == grant then acl[1..]
    else
      assert forall y :: y in acl <==> y == acl[0] || y in acl[1..];
      [acl[0]] + EraseRow(acl[1..], pk, grant)
  }

  // ---- Events ----

  datatype Event =
    | CreateUser(user: PK, name: string)
    | RenameUser(user: PK, name: string)
    | DeleteUser(user: PK)
    | RestoreUser(user: PK)
    | PurgeUser(user: PK)
    | CreateGroup(group: PK)
    | AddToGroup(group: PK, members: seq<PK>)
    | RemoveFromGroup(group: PK, members: seq<PK>)
    | DeleteGroup(group: PK)
    | RestoreGroup(group: PK)
    | PurgeGroup(group: PK)
    | AddAclPermission(identity: PK, permissionPK: PK, permission: Permission)
    | AddAclRole(identity: PK, role: PK)
    | RemoveAcl(identity: PK, grant: Grant)
    | AddRolePermission(role: PK, permissionPK: PK, allowed: Mask, denied: Mask, resource: Named)
    | AddRoleChildren(role: PK, children: seq<PK>)
    | RemoveRoleChildren(role: PK, removed: seq<Grant>)
    | MarkRole(role: PK, deleted: bool)
    | PurgeRole(role: PK)
    | UpdatePermission(permissionPK: PK, newAllowed: Option<Mask>, newDenied: Option<Mask>)
    | CreateResource(resourcePK: PK, row: Resource)
    | PurgeResource(resourcePK: PK)

  /** A pk that names a user is a user's wherever it appears. */
  function ToIdentity(users: set<PK>, pk: PK): Identity {
    if pk in users then UserId(pk) else GroupId(pk)
  }

  function AddMembers(users: set<PK>, members: seq<Identity>, pks: seq<PK>): seq<Identity>
    decreases |pks|
  {
    if pks == [] then members else AddMembers(users, AddMember(members, ToIdentity(users, pks[0])), pks[1..])
  }

  function EraseMembers(members: seq<Identity>, pks: seq<PK>): seq<Identity>
    decreases |pks|
  {
    if pks == [] then members else EraseMembers(EraseMember(members, pks[0]), pks[1..])
  }

  function GroupOrNew(groups: map<PK, Group>, group: PK): Group {
    if group in groups then groups[group] else Group(false, [])
  }

  function RoleOrNew(roles: map<PK, Role>, role: PK): Role {
    if role in roles then roles[role] else Role(false, [])
  }

  function AddChildren(members: seq<Grant>, children: seq<PK>): seq<Grant>
    decreases |children|
  {
    if children == [] then members else AddChildren(AddGrant(members, RoleOf(children[0])), children[1..])
  }

  function WithoutIdentity(t: Tables, pk: PK): Tables {
    t.(acl := Filter(t.acl, (row: AclRow) => row.identity.pk != pk),
       groups := map g | g in t.groups :: t.groups[g].(members := EraseMember(t.groups[g].members, pk)))
  }

  function WithoutGrants(t: Tables, gone: set<Grant>): Tables {
    t.(acl := Filter(t.acl, (row: AclRow) => row.grant !in gone),
       roles := map r | r in t.roles :: t.roles[r].(members := Filter(t.roles[r].members, (m: Grant) => m !in gone)))
  }

  /** The permissions on a resource, as the grants that name them. */
  function GrantsOn(permissions: map<PK, Permission>, resource: PK): (r: set<Grant>)
    ensures forall x :: x in r <==> x.Perm? && x.pk in permissions && permissions[x.pk].resource == resource
  {
    set p | p in permissions && permissions[p].resource == resource :: Perm(p)
  }

  function Updated(p: Permission, allowed: Option<Mask>, denied: Option<Mask>): Permission {
    p.(allowed := if allowed.Some? then allowed.value else p.allowed,
       denied := if denied.Some? then denied.value else p.denied)
  }

  /** The permission a role grant leaves:  the cached one re-granted, on the resource the payload resolved to when it did, or a new one. */
  function RolePermission(permissions: map<PK, Permission>, pk: PK, allowed: Mask, denied: Mask, resource: Named): map<PK, Permission> {
    if !resource.Unresolved? then permissions[pk := Permission(resource.pk, allowed, denied)]
    else if pk in permissions then permissions[pk := Permission(permissions[pk].resource, allowed, denied)]
    else permissions
  }

  function WithNamed(resources: map<PK, Resource>, resource: Named): map<PK, Resource> {
    if resource.ToCache? then resources[resource.pk := resource.row] else resources
  }

  /** The tables after an event. */
  function After(t: Tables, e: Event): Tables {
    match e
    case CreateUser(u, name) =>
      t.(users := t.users[u := if u in t.users then t.users[u].(name := name) else UserRow(name, false)])
    case RenameUser(u, name) => if u in t.users then t.(users := t.users[u := t.users[u].(name := name)]) else t
    case DeleteUser(u) => if u in t.users then t.(users := t.users[u := t.users[u].(deleted := true)]) else t
    case RestoreUser(u) => if u in t.users then t.(users := t.users[u := t.users[u].(deleted := false)]) else t
    case PurgeUser(u) => WithoutIdentity(t.(users := t.users - {u}), u)
    case CreateGroup(g) => t.(groups := t.groups[g := GroupOrNew(t.groups, g)])
    case AddToGroup(g, pks) =>
      var group := GroupOrNew(t.groups, g);
      t.(groups := t.groups[g := group.(members := AddMembers(t.users.Keys, group.members, pks))])
    case RemoveFromGroup(g, pks) =>
      if g in t.groups then t.(groups := t.groups[g := t.groups[g].(members := EraseMembers(t.groups[g].members, pks))]) else t
    case DeleteGroup(g) => if g in t.groups then t.(groups := t.groups[g := t.groups[g].(deleted := true)]) else t
    case RestoreGroup(g) => if g in t.groups then t.(groups := t.groups[g := t.groups[g].(deleted := false)]) else t
    case PurgeGroup(g) => if g in t.groups then WithoutIdentity(t.(groups := t.groups - {g}), g) else t
    case AddAclPermission(id, pk, permission) =>
      t.(permissions := t.permissions[pk := permission], acl := AddRow(t.acl, AclRow(ToIdentity(t.users.Keys, id), Perm(pk))))
    case AddAclRole(id, role) => t.(acl := AddRow(t.acl, AclRow(ToIdentity(t.users.Keys, id), RoleOf(role))))
    case RemoveAcl(id, grant) => t.(acl := EraseRow(t.acl, id, grant))
    case AddRolePermission(role, pk, allowed, denied, resource) =>
      var r := RoleOrNew(t.roles, role);
      t.(permissions := RolePermission(t.permissions, pk, allowed, denied, resource),
         roles := t.roles[role := r.(members := AddGrant(r.members, Perm(pk)))],
         resources := WithNamed(t.resources, resource))
    case AddRoleChildren(role, children) =>
      var r := RoleOrNew(t.roles, role);
      t.(roles := t.roles[role := r.(members := AddChildren(r.members, children))])
    case RemoveRoleChildren(role, removed) =>
      if role in t.roles then
        t.(roles := t.roles[role := t.roles[role].(members := Filter(t.roles[role].members, (m: Grant) => m !in removed))])
      else t
    case MarkRole(role, deleted) => if role in t.roles then t.(roles := t.roles[role := t.roles[role].(deleted := deleted)]) else t
    case PurgeRole(role) => if role in t.roles then WithoutGrants(t.(roles := t.roles - {role}), {RoleOf(role)}) else t
    case UpdatePermission(pk, allowed, denied) =>
      if pk in t.permissions then t.(permissions := t.permissions[pk := Updated(t.permissions[pk], allowed, denied)]) else t
    case CreateResource(pk, row) => t.(resources := t.resources[pk := row])
    case PurgeResource(pk) =>
      var gone := GrantsOn(t.permissions, pk);
      WithoutGrants(t.(resources := t.resources - {pk}, permissions := map p | p in t.permissions &&
          t.permissions[p].resource != pk :: t.permissions[p]), gone)
  }

  // ---- What every event keeps about the tables ----

  predicate Typed(users: set<PK>, id: Identity) {
    id.UserId? <==> id.pk in users
  }

  predicate AllTyped(users: set<PK>, members: seq<Identity>) {
    forall m :: m in members ==> Typed(users, m)
  }

  /** Users and groups share one pk space, and everything that names an identity says which it is. */
  ghost predicate IdentitiesOK(users: set<PK>, groups: map<PK, Group>, acl: seq<AclRow>) {
    && (forall row :: row in acl ==> Typed(users, row.identity))
    && (forall g :: g in groups ==> g !in users && AllTyped(users, groups[g].members))
  }

  ghost predicate WellFormed(t: Tables) {
    IdentitiesOK(t.users.Keys, t.groups, t.acl)
  }

  /** A group's pk, or one a row or a membership names as a group's. */
  ghost predicate NamedAsGroup(t: Tables, pk: PK) {
    || pk in t.groups
    || (exists row :: row in t.acl && row.identity == GroupId(pk))
    || (exists g :: g in t.groups && GroupId(pk) in t.groups[g].members)
  }

  /** Whatever else has no user's pk is not named at all. */
  lemma Unnamed(t: Tables, pk: PK)
    requires WellFormed(t) && pk !in t.users && !NamedAsGroup(t, pk)
    ensures forall row :: row in t.acl ==> row.identity.pk != pk
    ensures forall g :: g in t.groups ==> !HasPk(t.groups[g].members, pk)
  {
    forall g | g in t.groups ensures !HasPk(t.groups[g].members, pk) {
      assert AllTyped(t.users.Keys, t.groups[g].members);
    }
  }

  /** The pk space a new identity comes from is shared. */
  ghost predicate Apart(t: Tables, e: Event) {
    match e
    case CreateUser(u, _) => u in t.users || !NamedAsGroup(t, u)
    case PurgeUser(u) => u !in t.groups
    case CreateGroup(g) => g !in t.users
    case AddToGroup(g, _) => g !in t.users
    case _ => true
  }

  /** A permission not cached yet is named only for those an identity reaches. */
  ghost predicate NamedOnlyFor(t: Tables, users: set<PK>, id: Identity, pk: PK) {
    forall u :: u in users && Entitled(t, u, pk) ==> Reaches(GroupGraph(t.groups), id, UserId(u))
  }

  /** And a permission granted is cached already, or nothing has named it for anyone else. */
  ghost predicate Legal(t: Tables, e: Event) {
    && Apart(t, e)
    && (e.AddAclPermission? ==>
          e.permissionPK in t.permissions || NamedOnlyFor(t, t.users.Keys, ToIdentity(t.users.Keys, e.identity), e.permissionPK))
  }

  lemma {:induction false} AddMembersTyped(users: set<PK>, members: seq<Identity>, pks: seq<PK>)
    requires AllTyped(users, members)
    ensures AllTyped(users, AddMembers(users, members, pks))
    decreases |pks|
  {
    if pks != [] {
      AddMembersTyped(users, AddMember(members, ToIdentity(users, pks[0])), pks[1..]);
    }
  }

  lemma {:induction false} EraseMembersKept(members: seq<Identity>, pks: seq<PK>)
    ensures forall m :: m in EraseMembers(members, pks) ==> m in members
    decreases |pks|
  {
    if pks != [] {
      EraseMembersKept(EraseMember(members, pks[0]), pks[1..]);
    }
  }

  lemma {:induction false} AddChildrenHas(members: seq<Grant>, children: seq<PK>)
    ensures forall m :: m in AddChildren(members, children) <==> m in members || (m.RoleOf? && m.pk in children)
    decreases |children|
  {
    if children != [] {
      AddChildrenHas(AddGrant(members, RoleOf(children[0])), children[1..]);
      assert forall c :: c in children <==> c == children[0] || c in children[1..];
    }
  }

  lemma AfterUserIdentities(t: Tables, e: Event)
    requires WellFormed(t) && Apart(t, e)
    requires e.RenameUser? || e.DeleteUser? || e.RestoreUser? || e.PurgeUser?
    ensures IdentitiesOK(After(t, e).users.Keys, After(t, e).groups, After(t, e).acl)
  {
    if e.PurgeUser? {
      PurgedIdentities(t, e.user);
    } else {
      assert After(t, e).users.Keys == t.users.Keys && After(t, e).groups == t.groups && After(t, e).acl == t.acl;
    }
  }

  lemma PurgedIdentities(t: Tables, user: PK)
    requires WellFormed(t) && user !in t.groups
    ensures var t' := WithoutIdentity(t.(users := t.users - {user}), user); IdentitiesOK(t'.users.Keys, t'.groups, t'.acl)
  {
    var t' := WithoutIdentity(t.(users := t.users - {user}), user);
    forall g | g in t'.groups ensures g !in t'.users.Keys && AllTyped(t'.users.Keys, t'.groups[g].members) {
      assert AllTyped(t.users.Keys, t.groups[g].members);
    }
  }

  lemma NewUserIdentities(t: Tables, user: PK)
    requires WellFormed(t) && (user in t.users || !NamedAsGroup(t, user))
    ensures IdentitiesOK(t.users.Keys + {user}, t.groups, t.acl)
  {
    if user !in t.users {
      Unnamed(t, user);
    }
    forall g | g in t.groups ensures AllTyped(t.users.Keys + {user}, t.groups[g].members) {
      assert !HasPk(t.groups[g].members, user) || user in t.users;
    }
  }

  lemma AfterGroupIdentities(t: Tables, e: Event)
    requires WellFormed(t) && Apart(t, e)
    requires e.CreateGroup? || e.AddToGroup? || e.RemoveFromGroup? || e.DeleteGroup? || e.RestoreGroup? || e.PurgeGroup?
    ensures IdentitiesOK(After(t, e).users.Keys, After(t, e).groups, After(t, e).acl)
  {
    if e.AddToGroup? {
      AddMembersTyped(t.users.Keys, GroupOrNew(t.groups, e.group).members, e.members);
    } else if e.RemoveFromGroup? && e.group in t.groups {
      EraseMembersKept(t.groups[e.group].members, e.members);
    }
  }

  lemma AfterIdentities(t: Tables, e: Event)
    requires WellFormed(t) && Apart(t, e)
    ensures IdentitiesOK(After(t, e).users.Keys, After(t, e).groups, After(t, e).acl)
  {
    if e.CreateUser? {
      assert After(t, e).users.Keys == t.users.Keys + {e.user};
      NewUserIdentities(t, e.user);
    } else if e.RenameUser? || e.DeleteUser? || e.RestoreUser? || e.PurgeUser? {
      AfterUserIdentities(t, e);
    } else if e.CreateGroup? || e.AddToGroup? || e.RemoveFromGroup? || e.DeleteGroup? || e.RestoreGroup? || e.PurgeGroup? {
      AfterGroupIdentities(t, e);
    }
  }

  /** Every such event keeps the tables well formed. */
  lemma AfterWellFormed(t: Tables, e: Event)
    requires WellFormed(t) && Apart(t, e)
    ensures WellFormed(After(t, e))
  {
    AfterIdentities(t, e);
  }
}
