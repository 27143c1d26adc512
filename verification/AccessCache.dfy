/** The access cache:  every user's rights per resource, kept in step with the tables by one handler per event. */
module AccessCache {
  import opened Graphs
  import opened AccessTables

  datatype AllowedDenied = AllowedDenied(allowed: Mask, denied: Mask)

  /** A user's row, with the rights cached for it:  per resource, and per permission they came from. */
  datatype User = User(name: string, deleted: bool, rights: map<PK, AllowedDenied>, permissions: map<PK, Permission>)

  function Cleared(user: User): User {
    user.(rights := map[], permissions := map[])
  }

  /** One permission or'd in:  a resource's rights can only rise. */
  function OrInto(user: User, pk: PK, p: Permission): User {
    var was := RightsIn(user.rights, p.resource);
    user.(permissions := user.permissions[pk := p],
          rights := user.rights[p.resource := AllowedDenied(was.allowed + p.allowed, was.denied + p.denied)])
  }

  function AllowedOn(permissions: map<PK, Permission>, resource: PK): Mask {
    set p, b | p in permissions && permissions[p].resource == resource && b in permissions[p].allowed :: b
  }

  function DeniedOn(permissions: map<PK, Permission>, resource: PK): Mask {
    set p, b | p in permissions && permissions[p].resource == resource && b in permissions[p].denied :: b
  }

  /** The or of a set of permissions, resource by resource. */
  function RightsOf(permissions: map<PK, Permission>): map<PK, AllowedDenied> {
    map r | r in (set p | p in permissions :: permissions[p].resource) :: AllowedDenied(AllowedOn(permissions, r), DeniedOn(permissions, r))
  }

  function Restrict(permissions: map<PK, Permission>, keys: set<PK>): map<PK, Permission> {
    map p | p in keys && p in permissions :: permissions[p]
  }

  /** The user with exactly the permissions of `keys`, and their or. */
  function Holding(user: User, permissions: map<PK, Permission>, keys: set<PK>): User {
    user.(permissions := Restrict(permissions, keys), rights := RightsOf(Restrict(permissions, keys)))
  }

  /** What a user has cached is some of the permissions as they now stand, and the or of those. */
  predicate Sane(permissions: map<PK, Permission>, user: User) {
    user == Holding(user, permissions, user.permissions.Keys)
  }

  function RightsIn(rights: map<PK, AllowedDenied>, resource: PK): AllowedDenied {
    if resource in rights then rights[resource] else AllowedDenied({}, {})
  }

  lemma RightsOfOne(permissions: map<PK, Permission>, resource: PK)
    ensures RightsIn(RightsOf(permissions), resource) == AllowedDenied(AllowedOn(permissions, resource), DeniedOn(permissions, resource))
  {
    if resource !in RightsOf(permissions) {
      assert forall p :: p in permissions ==> permissions[p].resource in RightsOf(permissions);
      assert AllowedOn(permissions, resource) == {};
      assert DeniedOn(permissions, resource) == {};
    }
  }

  lemma MasksUpdate(permissions: map<PK, Permission>, pk: PK, p: Permission, r: PK)
    requires pk in permissions ==> permissions[pk] == p
    ensures AllowedOn(permissions[pk := p], r) == AllowedOn(permissions, r) + (if r == p.resource then p.allowed else {})
    ensures DeniedOn(permissions[pk := p], r) == DeniedOn(permissions, r) + (if r == p.resource then p.denied else {})
  {
    var q := permissions[pk := p];
    assert q[pk] == p && forall k :: k in permissions ==> q[k] == permissions[k];
  }

  lemma RightsOfUpdate(permissions: map<PK, Permission>, pk: PK, p: Permission)
    requires pk in permissions ==> permissions[pk] == p
    ensures var was := RightsIn(RightsOf(permissions), p.resource);
            RightsOf(permissions[pk := p]) == RightsOf(permissions)[p.resource := AllowedDenied(was.allowed + p.allowed,
                was.denied + p.denied)]
  {
    var q := permissions[pk := p];
    var was := RightsIn(RightsOf(permissions), p.resource);
    var expected := RightsOf(permissions)[p.resource := AllowedDenied(was.allowed + p.allowed, was.denied + p.denied)];
    RightsOfKeys(permissions, pk, p);
    RightsOfOne(permissions, p.resource);
    forall r | r in RightsOf(q) ensures RightsOf(q)[r] == expected[r] {
      MasksUpdate(permissions, pk, p, r);
    }
  }

  lemma RightsOfKeys(permissions: map<PK, Permission>, pk: PK, p: Permission)
    requires pk in permissions ==> permissions[pk] == p
    ensures RightsOf(permissions[pk := p]).Keys == RightsOf(permissions).Keys + {p.resource}
  {
    var q := permissions[pk := p];
    assert q[pk] == p && forall k :: k in permissions ==> q[k] == permissions[k];
  }

  /** `r` is the user with the permissions of `keys` cached, and nothing else about it changed. */
  predicate Holds(r: User, user: User, permissions: map<PK, Permission>, keys: set<PK>) {
    Sane(permissions, r) && r.permissions.Keys == keys && r.name == user.name && r.deleted == user.deleted
  }

  /** Only the permissions a user holds decide what it has cached. */
  lemma HoldsRebased(user: User, permissions: map<PK, Permission>, now: map<PK, Permission>, keys: set<PK>)
    requires Holds(user, user, permissions, keys)
    requires forall k :: k in keys && k in permissions ==> k in now && now[k] == permissions[k]
    ensures Holds(user, user, now, keys)
  {
    assert Restrict(now, keys) == Restrict(permissions, keys);
  }

  lemma OrIntoSane(user: User, permissions: map<PK, Permission>, pk: PK)
    requires pk in permissions && Sane(permissions, user)
    ensures Holds(OrInto(user, pk, permissions[pk]), user, permissions, user.permissions.Keys + {pk})
  {
    var r := OrInto(user, pk, permissions[pk]);
    RightsOfUpdate(user.permissions, pk, permissions[pk]);
    assert r.permissions.Keys == user.permissions.Keys + {pk};
    assert Restrict(permissions, r.permissions.Keys) == r.permissions;
  }

  // ---- What an edit leaves alone ----

  ghost predicate SameReach(g: map<PK, Group>, h: map<PK, Group>, user: PK) {
    forall a :: Reaches(GroupGraph(g), a, UserId(user)) <==> Reaches(GroupGraph(h), a, UserId(user))
  }

  lemma SameReachEntitled(t: Tables, groups: map<PK, Group>, user: PK)
    requires SameReach(t.groups, groups, user)
    ensures EntitledKeys(t, user) == EntitledKeys(t.(groups := groups), user)
  {
  }

  /** A membership gained by or lost from one group, the member not reaching the user either way. */
  lemma MemberChanged(g: map<PK, Group>, h: map<PK, Group>, group: PK, m: Identity, user: PK)
    requires group in g && group in h && h == g[group := h[group]] && g[group].deleted == h[group].deleted
    requires forall y :: y != m ==> (y in g[group].members <==> y in h[group].members)
    requires !Reaches(GroupGraph(g), m, UserId(user))
    ensures SameReach(g, h, user)
  {
    forall x, y | y !in {m} ensures Edge(GroupGraph(g), x, y) <==> Edge(GroupGraph(h), x, y) {
    }
    EdgesChanged(GroupGraph(g), GroupGraph(h), {m}, UserId(user));
  }

  lemma GroupHidden(g: map<PK, Group>, h: map<PK, Group>, group: PK, user: PK)
    requires GroupGraph(h) == GroupGraph(g) - {GroupId(group)}
    requires !Reaches(GroupGraph(g), GroupId(group), UserId(user))
    ensures SameReach(g, h, user)
  {
    NodeDropped(GroupGraph(g), GroupId(group), UserId(user));
  }

  lemma UserReaches(groups: map<PK, Group>, a: PK, user: PK)
    ensures Reaches(GroupGraph(groups), UserId(a), UserId(user)) <==> a == user
  {
    LeafReaches(GroupGraph(groups), UserId(a), UserId(user));
  }

  lemma IdentityUnlinked(t: Tables, pk: PK, user: PK)
    requires pk !in t.groups && user != pk
    ensures SameReach(t.groups, WithoutIdentity(t, pk).groups, user)
  {
    var g, h := GroupGraph(t.groups), GroupGraph(WithoutIdentity(t, pk).groups);
    var ms := {GroupId(pk), UserId(pk)};
    LeafReaches(g, GroupId(pk), UserId(user));
    LeafReaches(g, UserId(pk), UserId(user));
    forall x, y | y !in ms ensures Edge(g, x, y) <==> Edge(h, x, y) {
      assert y.pk != pk;
    }
    EdgesChanged(g, h, ms, UserId(user));
  }

  /** An identity no group row stands for takes its rows and memberships with it and leaves every other user's rights alone. */
  lemma IdentityDropped(t: Tables, pk: PK, user: PK)
    requires pk !in t.groups && user != pk
    ensures EntitledKeys(WithoutIdentity(t, pk), user) == EntitledKeys(t, user)
  {
    var t' := WithoutIdentity(t, pk);
    IdentityUnlinked(t, pk, user);
    forall row | row in t.acl && Reaches(GroupGraph(t.groups), row.identity, UserId(user)) ensures row in t'.acl {
      LeafReaches(GroupGraph(t.groups), GroupId(pk), UserId(user));
      LeafReaches(GroupGraph(t.groups), UserId(pk), UserId(user));
      assert row.identity.pk == pk ==> row.identity in {GroupId(pk), UserId(pk)};
    }
    forall p ensures Entitled(t', user, p) <==> Entitled(t, user, p) {
    }
  }

  /** Grants that lead nowhere but to themselves leave with no effect on what other permissions are reached. */
  lemma GrantsDropped(t: Tables, gone: set<Grant>, user: PK, p: PK)
    requires forall x :: x in gone ==> x !in RoleGraph(t.roles)
    requires Perm(p) !in gone
    ensures Entitled(WithoutGrants(t, gone), user, p) <==> Entitled(t, user, p)
  {
    var g, h := RoleGraph(t.roles), RoleGraph(WithoutGrants(t, gone).roles);
    forall x | x in gone ensures !Reaches(g, x, Perm(p)) {
      LeafReaches(g, x, Perm(p));
    }
    EdgesChanged(g, h, gone, Perm(p));
  }

  // ---- The cache ----

  ghost predicate Passes(filter: set<PK>, user: PK) {
    filter == {} || user in filter
  }

  function RowsOf(users: map<PK, User>): map<PK, UserRow> {
    map u | u in users :: UserRow(users[u].name, users[u].deleted)
  }

  ghost function TouchedPerms(roles: map<PK, Role>, permissions: map<PK, Permission>, grant: Grant, seen: set<Grant>): set<PK> {
    set p | p in permissions && Touched(RoleGraph(roles), grant, seen, Perm(p))
  }

  ghost function TouchedAllPerms(roles: map<PK, Role>, permissions: map<PK, Permission>, grants: seq<Grant>, seen: set<Grant>): set<PK> {
    set p | p in permissions && TouchedAll(RoleGraph(roles), grants, seen, Perm(p))
  }

  lemma TouchedPermsEnter(roles: map<PK, Role>, permissions: map<PK, Permission>, grant: Grant, seen: set<Grant>)
    requires grant in RoleGraph(roles) && grant !in seen
    ensures TouchedPerms(roles, permissions, grant, seen)
         == TouchedAllPerms(roles, permissions, RoleGraph(roles)[grant], seen + {grant})
  {
    forall p ensures Touched(RoleGraph(roles), grant, seen, Perm(p))
                <==> TouchedAll(RoleGraph(roles), RoleGraph(roles)[grant], seen + {grant}, Perm(p))
    {
      TouchedEnter(RoleGraph(roles), grant, seen, Perm(p));
    }
  }

  lemma TouchedAllPermsSnoc(roles: map<PK, Role>, permissions: map<PK, Permission>, grants: seq<Grant>, i: nat, seen: set<Grant>)
    requires i < |grants|
    ensures var g := RoleGraph(roles); var v := VisitAll(g, grants[..i], seen);
            && VisitAll(g, grants[..i + 1], seen) == Visit(g, grants[i], v)
            && TouchedAllPerms(roles, permissions, grants[..i + 1], seen)
               == TouchedAllPerms(roles, permissions, grants[..i], seen) + TouchedPerms(roles, permissions, grants[i], v)
  {
    var g := RoleGraph(roles);
    assert grants[..i + 1] == grants[..i] + [grants[i]];
    VisitAllSnoc(g, grants[..i], grants[i], seen);
    forall p ensures TouchedAll(g, grants[..i + 1], seen, Perm(p))
                <==> (TouchedAll(g, grants[..i], seen, Perm(p)) || Touched(g, grants[i], VisitAll(g, grants[..i], seen), Perm(p)))
    {
      TouchedAllSnoc(g, grants[..i], grants[i], seen, Perm(p));
    }
  }

  lemma TouchedPermsLeaf(roles: map<PK, Role>, permissions: map<PK, Permission>, grant: Grant, seen: set<Grant>)
    requires grant !in RoleGraph(roles) || grant in seen
    ensures Visit(RoleGraph(roles), grant, seen) == seen
    ensures TouchedPerms(roles, permissions, grant, seen) == if grant.Perm? && grant.pk in permissions then {grant.pk} else {}
  {
    assert Visit(RoleGraph(roles), grant, seen) - seen == {};
  }

  /** The permissions a grant reaches. */
  ghost function Granted(roles: map<PK, Role>, permissions: map<PK, Permission>, grant: Grant): set<PK> {
    set p | p in permissions && Reaches(RoleGraph(roles), grant, Perm(p))
  }

  lemma TouchedPermsGranted(roles: map<PK, Role>, permissions: map<PK, Permission>, grant: Grant)
    ensures TouchedPerms(roles, permissions, grant, {}) == Granted(roles, permissions, grant)
  {
    forall p ensures Touched(RoleGraph(roles), grant, {}, Perm(p)) <==> Reaches(RoleGraph(roles), grant, Perm(p)) {
      TouchedReaches(RoleGraph(roles), grant, Perm(p));
    }
  }

  /** Ors a grant's permissions into a user, entering each live role once. */
  method AddUserPermissions(roles: map<PK, Role>, permissions: map<PK, Permission>, user: User, grant: Grant, visited: set<Grant>)
    returns (r: User, seen: set<Grant>)
    requires Sane(permissions, user)
    ensures seen == Visit(RoleGraph(roles), grant, visited)
    ensures Holds(r, user, permissions, user.permissions.Keys + TouchedPerms(roles, permissions, grant, visited))
    decreases RoleGraph(roles).Keys - visited
  {
    ghost var g, start := RoleGraph(roles), visited + {grant};
    r, seen := user, visited;
    if grant.Perm? {
      TouchedPermsLeaf(roles, permissions, grant, visited);
      if grant.pk in permissions {
        OrIntoSane(user, permissions, grant.pk);
        r := OrInto(user, grant.pk, permissions[grant.pk]);
      }
    } else if grant.pk in roles && !roles[grant.pk].deleted && grant !in visited {
      seen := visited + {grant};
      var members := roles[grant.pk].members;
      assert grant in g.Keys - visited;
      for i := 0 to |members|
        invariant seen == VisitAll(g, members[..i], start)
        invariant Holds(r, user, permissions, user.permissions.Keys + TouchedAllPerms(roles, permissions, members[..i], start))
      {
        TouchedAllPermsSnoc(roles, permissions, members, i, start);
        r, seen := AddUserPermissions(roles, permissions, r, members[i], seen);
      }
      TouchedPermsEnter(roles, permissions, grant, visited);
      assert members[..|members|] == members;
    } else {
      TouchedPermsLeaf(roles, permissions, grant, visited);
    }
  }

  /** The users the walk from an identity comes across, `filter` permitting, get what the grant reaches;  the others keep what they have. */
  ghost predicate Spread(was: map<PK, User>, now: map<PK, User>, permissions: map<PK, Permission>, granted: set<PK>,
                         filter: set<PK>, touched: iset<PK>) {
    && now.Keys == was.Keys
    && forall u :: u in was ==>
         if Passes(filter, u) && u in touched then Holds(now[u], was[u], permissions, was[u].permissions.Keys + granted)
         else now[u] == was[u]
  }

  ghost function TouchedUsers(groups: map<PK, Group>, id: Identity, seen: set<Identity>): iset<PK> {
    iset u | Touched(GroupGraph(groups), id, seen, UserId(u))
  }

  ghost function TouchedAllUsers(groups: map<PK, Group>, ids: seq<Identity>, seen: set<Identity>): iset<PK> {
    iset u | TouchedAll(GroupGraph(groups), ids, seen, UserId(u))
  }

  lemma TouchedUsersEnter(groups: map<PK, Group>, id: Identity, seen: set<Identity>)
    requires id in GroupGraph(groups) && id !in seen
    ensures TouchedUsers(groups, id, seen) == TouchedAllUsers(groups, GroupGraph(groups)[id], seen + {id})
  {
    forall u ensures Touched(GroupGraph(groups), id, seen, UserId(u))
                <==> TouchedAll(GroupGraph(groups), GroupGraph(groups)[id], seen + {id}, UserId(u))
    {
      TouchedEnter(GroupGraph(groups), id, seen, UserId(u));
    }
  }

  lemma TouchedAllUsersNone(groups: map<PK, Group>, ids: seq<Identity>, seen: set<Identity>)
    ensures VisitAll(GroupGraph(groups), ids[..0], seen) == seen && TouchedAllUsers(groups, ids[..0], seen) == iset{}
  {
    assert ids[..0] == [];
    assert seen - seen == {};
  }

  lemma TouchedAllUsersSnoc(groups: map<PK, Group>, ids: seq<Identity>, i: nat, seen: set<Identity>)
    requires i < |ids|
    ensures var g := GroupGraph(groups); var v := VisitAll(g, ids[..i], seen);
            && VisitAll(g, ids[..i + 1], seen) == Visit(g, ids[i], v)
            && TouchedAllUsers(groups, ids[..i + 1], seen) == TouchedAllUsers(groups, ids[..i], seen) + TouchedUsers(groups, ids[i], v)
  {
    var g := GroupGraph(groups);
    assert ids[..i + 1] == ids[..i] + [ids[i]];
    VisitAllSnoc(g, ids[..i], ids[i], seen);
    forall u ensures TouchedAll(g, ids[..i + 1], seen, UserId(u))
                <==> (TouchedAll(g, ids[..i], seen, UserId(u)) || Touched(g, ids[i], VisitAll(g, ids[..i], seen), UserId(u)))
    {
      TouchedAllSnoc(g, ids[..i], ids[i], seen, UserId(u));
    }
  }

  lemma TouchedUsersLeaf(groups: map<PK, Group>, id: Identity, seen: set<Identity>)
    requires id !in GroupGraph(groups) || id in seen
    ensures Visit(GroupGraph(groups), id, seen) == seen
    ensures TouchedUsers(groups, id, seen) == if id.UserId? then iset{id.pk} else iset{}
  {
    assert Visit(GroupGraph(groups), id, seen) - seen == {};
  }

  lemma TouchedUsersReached(groups: map<PK, Group>, id: Identity, user: PK)
    ensures user in TouchedUsers(groups, id, {}) <==> Reaches(GroupGraph(groups), id, UserId(user))
  {
    TouchedReaches(GroupGraph(groups), id, UserId(user));
  }

  ghost predicate AllSane(permissions: map<PK, Permission>, users: map<PK, User>) {
    forall u :: u in users ==> Sane(permissions, users[u])
  }

  method GrantUser(roles: map<PK, Role>, permissions: map<PK, Permission>, users: map<PK, User>, user: PK, grant: Grant, filter: set<PK>)
    returns (r: map<PK, User>)
    requires AllSane(permissions, users) && user in users
    ensures Spread(users, r, permissions, Granted(roles, permissions, grant), filter, iset{user})
  {
    if filter != {} && user !in filter {
      return users;
    }
    TouchedPermsGranted(roles, permissions, grant);
    var granted, _ := AddUserPermissions(roles, permissions, users[user], grant, {});
    r := users[user := granted];
  }

  /** Spreads a grant from an identity over live groups, entering each once. */
  method AddPermission(groups: map<PK, Group>, roles: map<PK, Role>, permissions: map<PK, Permission>, users: map<PK, User>,
                       id: Identity, grant: Grant, filter: set<PK>, visited: set<Identity>)
    returns (r: map<PK, User>, seen: set<Identity>)
    requires AllSane(permissions, users)
    ensures seen == Visit(GroupGraph(groups), id, visited)
    ensures Spread(users, r, permissions, Granted(roles, permissions, grant), filter, TouchedUsers(groups, id, visited))
    decreases GroupGraph(groups).Keys - visited, 0
  {
    r, seen := users, visited;
    if id.UserId? && id.pk in users {
      TouchedUsersLeaf(groups, id, visited);
      r := GrantUser(roles, permissions, users, id.pk, grant, filter);
    } else if id.GroupId? && id.pk in groups && !groups[id.pk].deleted && id !in visited {
      assert id in GroupGraph(groups).Keys - visited;
      TouchedUsersEnter(groups, id, visited);
      r, seen := AddMembersPermission(groups, roles, permissions, users, groups[id.pk].members, grant, filter, visited + {id});
    } else {
      TouchedUsersLeaf(groups, id, visited);
    }
  }

  method AddMembersPermission(groups: map<PK, Group>, roles: map<PK, Role>, permissions: map<PK, Permission>, users: map<PK, User>,
                              members: seq<Identity>, grant: Grant, filter: set<PK>, visited: set<Identity>)
    returns (r: map<PK, User>, seen: set<Identity>)
    requires AllSane(permissions, users)
    ensures seen == VisitAll(GroupGraph(groups), members, visited)
    ensures Spread(users, r, permissions, Granted(roles, permissions, grant), filter, TouchedAllUsers(groups, members, visited))
    decreases GroupGraph(groups).Keys - visited, 1
  {
    ghost var granted := Granted(roles, permissions, grant);
    r, seen := users, visited;
    TouchedAllUsersNone(groups, members, visited);
    for i := 0 to |members|
      invariant visited <= seen == VisitAll(GroupGraph(groups), members[..i], visited)
      invariant Spread(users, r, permissions, granted, filter, TouchedAllUsers(groups, members[..i], visited))
    {
      assert GroupGraph(groups).Keys - seen <= GroupGraph(groups).Keys - visited;
      TouchedAllUsersSnoc(groups, members, i, visited);
      ghost var was, sofar, more := r, TouchedAllUsers(groups, members[..i], visited), TouchedUsers(groups, members[i], seen);
      SpreadSane(users, r, permissions, granted, filter, sofar);
      r, seen := AddPermission(groups, roles, permissions, r, members[i], grant, filter, seen);
      SpreadTwice(users, was, r, permissions, granted, filter, sofar, more);
    }
    assert members[..|members|] == members;
  }

  lemma SpreadSane(was: map<PK, User>, now: map<PK, User>, permissions: map<PK, Permission>, granted: set<PK>, filter: set<PK>,
                   touched: iset<PK>)
    requires AllSane(permissions, was) && Spread(was, now, permissions, granted, filter, touched)
    ensures AllSane(permissions, now)
  {
  }

  lemma SpreadTwice(a: map<PK, User>, b: map<PK, User>, c: map<PK, User>, permissions: map<PK, Permission>, granted: set<PK>,
                    filter: set<PK>,
                    first: iset<PK>, second: iset<PK>)
    requires Spread(a, b, permissions, granted, filter, first) && Spread(b, c, permissions, granted, filter, second)
    ensures Spread(a, c, permissions, granted, filter, first + second)
  {
    forall u | u in a && Passes(filter, u) && u in first && u in second
      ensures Holds(c[u], a[u], permissions, a[u].permissions.Keys + granted)
    {
      assert a[u].permissions.Keys + granted + granted == a[u].permissions.Keys + granted;
    }
  }

  // ---- Collecting and refilling ----

  /** `us` cleared, the rest as they were. */
  ghost predicate ClearedIn(was: map<PK, User>, now: map<PK, User>, us: iset<PK>) {
    && now.Keys == was.Keys
    && forall u :: u in was ==> now[u] == if u in us then Cleared(was[u]) else was[u]
  }

  /** The users under a group, each cleared.  A group already seen, missing or deleted has none. */
  method RecursiveUsers(groups: map<PK, Group>, users: map<PK, User>, group: PK, visited: set<Identity>)
    returns (us: set<PK>, r: map<PK, User>, seen: set<Identity>)
    ensures var live := GroupGraph(groups).Keys;
            && seen * live == Visit(GroupGraph(groups), GroupId(group), visited * live)
            && visited <= seen
            && Among(us) == TouchedUsers(groups, GroupId(group), visited * live)
    ensures ClearedIn(users, r, Among(us))
    decreases GroupGraph(groups).Keys - visited, 0
  {
    ghost var live := GroupGraph(groups).Keys;
    us, r, seen := {}, users, visited;
    if GroupId(group) in visited {
      TouchedUsersLeaf(groups, GroupId(group), visited * live);
      return;
    }
    seen := visited + {GroupId(group)};
    if group !in groups || groups[group].deleted {
      TouchedUsersLeaf(groups, GroupId(group), visited * live);
      assert seen * live == visited * live;
      return;
    }
    assert GroupId(group) in live - visited;
    assert seen * live == visited * live + {GroupId(group)};
    TouchedUsersEnter(groups, GroupId(group), visited * live);
    us, r, seen := AllMemberUsers(groups, users, groups[group].members, seen);
  }

  /** A member's users:  itself, or those under it. */
  method MemberUsers(groups: map<PK, Group>, users: map<PK, User>, m: Identity, visited: set<Identity>)
    returns (us: set<PK>, r: map<PK, User>, seen: set<Identity>)
    ensures var live := GroupGraph(groups).Keys;
            && seen * live == Visit(GroupGraph(groups), m, visited * live)
            && visited <= seen
            && Among(us) == TouchedUsers(groups, m, visited * live)
    ensures ClearedIn(users, r, Among(us))
    decreases GroupGraph(groups).Keys - visited, 1
  {
    match m
    case UserId(user) =>
      UserMember(groups, user, visited * GroupGraph(groups).Keys);
      us, r, seen := {user}, ClearUser(users, user), visited;
    case GroupId(group) =>
      us, r, seen := RecursiveUsers(groups, users, group, visited);
  }

  lemma UserMember(groups: map<PK, Group>, user: PK, seen: set<Identity>)
    ensures Visit(GroupGraph(groups), UserId(user), seen) == seen && TouchedUsers(groups, UserId(user), seen) == Among({user})
  {
    TouchedUsersLeaf(groups, UserId(user), seen);
    assert Among({user}) == iset{user};
  }

  function ClearUser(users: map<PK, User>, user: PK): (r: map<PK, User>)
    ensures ClearedIn(users, r, Among({user}))
  {
    if user in users then users[user := Cleared(users[user])] else users
  }

  method AllMemberUsers(groups: map<PK, Group>, users: map<PK, User>, members: seq<Identity>, visited: set<Identity>)
    returns (us: set<PK>, r: map<PK, User>, seen: set<Identity>)
    ensures var live := GroupGraph(groups).Keys;
            && seen * live == VisitAll(GroupGraph(groups), members, visited * live)
            && visited <= seen
            && Among(us) == TouchedAllUsers(groups, members, visited * live)
    ensures ClearedIn(users, r, Among(us))
    decreases GroupGraph(groups).Keys - visited, 2
  {
    ghost var live := GroupGraph(groups).Keys;
    us, r, seen := {}, users, visited;
    TouchedAllUsersNone(groups, members, visited * live);
    for i := 0 to |members|
      invariant visited <= seen && seen * live == VisitAll(GroupGraph(groups), members[..i], visited * live)
      invariant Among(us) == TouchedAllUsers(groups, members[..i], visited * live)
      invariant ClearedIn(users, r, Among(us))
    {
      TouchedAllUsersSnoc(groups, members, i, visited * live);
      assert live - seen <= live - visited;
      var more, r', seen' := MemberUsers(groups, r, members[i], seen);
      ClearedMore(users, r, r', us, more);
      us, r, seen := us + more, r', seen';
    }
    assert members[..|members|] == members;
  }

  ghost function Among(us: set<PK>): iset<PK> {
    iset u | u in us
  }

  lemma ClearedMore(a: map<PK, User>, b: map<PK, User>, c: map<PK, User>, us: set<PK>, more: set<PK>)
    requires ClearedIn(a, b, Among(us)) && ClearedIn(b, c, Among(more))
    ensures ClearedIn(a, c, Among(us + more))
    ensures Among(us + more) == Among(us) + Among(more)
  {
  }

  method UsersUnder(groups: map<PK, Group>, users: map<PK, User>, group: PK) returns (us: set<PK>, r: map<PK, User>)
    ensures forall u :: u in us <==> Reaches(GroupGraph(groups), GroupId(group), UserId(u))
    ensures ClearedIn(users, r, Among(us))
  {
    var us', r', _ := RecursiveUsers(groups, users, group, {});
    us, r := us', r';
    assert {} * GroupGraph(groups).Keys == {};
    forall u ensures u in us <==> Reaches(GroupGraph(groups), GroupId(group), UserId(u)) {
      TouchedUsersReached(groups, GroupId(group), u);
      assert u in us <==> u in Among(us);
    }
  }

  /** Who passes the filter has everything the rows entitle them to on top of what they had. */
  ghost predicate Filled(t: Tables, was: map<PK, User>, now: map<PK, User>, filter: set<PK>) {
    && now.Keys == was.Keys
    && forall u :: u in was ==>
         if Passes(filter, u) then Holds(now[u], was[u], t.permissions, was[u].permissions.Keys + EntitledKeys(t, u))
         else now[u] == was[u]
  }

  lemma FilledOne(t: Tables, i: nat, u: PK, a: User, b: User, c: User)
    requires i < |t.acl|
    requires Holds(b, a, t.permissions, a.permissions.Keys + EntitledKeys(t.(acl := t.acl[..i]), u))
    requires if Reaches(GroupGraph(t.groups), t.acl[i].identity, UserId(u))
             then Holds(c, b, t.permissions, b.permissions.Keys + Granted(t.roles, t.permissions, t.acl[i].grant)) else c == b
    ensures Holds(c, a, t.permissions, a.permissions.Keys + EntitledKeys(t.(acl := t.acl[..i + 1]), u))
  {
    EntitledSnoc(t, i, u);
  }

  lemma FilledSpread(t: Tables, i: nat, a: map<PK, User>, b: map<PK, User>, c: map<PK, User>, filter: set<PK>)
    requires i < |t.acl|
    requires Filled(t.(acl := t.acl[..i]), a, b, filter)
    requires Spread(b, c, t.permissions, Granted(t.roles, t.permissions, t.acl[i].grant), filter,
        TouchedUsers(t.groups, t.acl[i].identity, {}))
    ensures Filled(t.(acl := t.acl[..i + 1]), a, c, filter)
  {
    forall u | u in a && Passes(filter, u)
      ensures Holds(c[u], a[u], t.permissions, a[u].permissions.Keys + EntitledKeys(t.(acl := t.acl[..i + 1]), u))
    {
      TouchedUsersReached(t.groups, t.acl[i].identity, u);
      FilledOne(t, i, u, a[u], b[u], c[u]);
    }
  }

  lemma EntitledSnoc(t: Tables, i: nat, u: PK)
    requires i < |t.acl|
    ensures EntitledKeys(t.(acl := t.acl[..i + 1]), u) == EntitledKeys(t.(acl := t.acl[..i]), u)
          + if Reaches(GroupGraph(t.groups), t.acl[i].identity, UserId(u)) then Granted(t.roles, t.permissions, t.acl[i].grant) else {}
  {
    assert t.acl[..i + 1] == t.acl[..i] + [t.acl[i]];
    var longer, shorter := t.(acl := t.acl[..i + 1]), t.(acl := t.acl[..i]);
    forall p ensures Entitled(longer, u, p)
                <==> (Entitled(shorter, u, p)
                      || (Reaches(GroupGraph(t.groups), t.acl[i].identity, UserId(u)) &&
                          Reaches(RoleGraph(t.roles), t.acl[i].grant, Perm(p))))
    {
      assert t.acl[i] in longer.acl;
      assert forall row :: row in longer.acl <==> row in shorter.acl || row == t.acl[i];
    }
  }

  /** Ors every acl row into the users of `filter`;  an empty one is everybody. */
  method SetUserPermissions(t: Tables, users: map<PK, User>, filter: set<PK>) returns (r: map<PK, User>)
    requires AllSane(t.permissions, users)
    ensures Filled(t, users, r, filter)
  {
    r := users;
    for i := 0 to |t.acl|
      invariant AllSane(t.permissions, r)
      invariant Filled(t.(acl := t.acl[..i]), users, r, filter)
    {
      var row := t.acl[i];
      var r', _ := AddPermission(t.groups, t.roles, t.permissions, r, row.identity, row.grant, filter, {});
      SpreadSane(r, r', t.permissions, Granted(t.roles, t.permissions, row.grant), filter, TouchedUsers(t.groups, row.identity, {}));
      FilledSpread(t, i, users, r, r', filter);
      r := r';
    }
    assert t.(acl := t.acl[..|t.acl|]) == t;
  }

  // ---- In step ----

  /** Every user's cached rights are what a full recomputation from the rows gives:  the permissions it is entitled to, and their or. */
  ghost predicate InStep(t: Tables, users: map<PK, User>) {
    forall u :: u in users ==> Holds(users[u], users[u], t.permissions, EntitledKeys(t, u))
  }

  lemma ClearedHolds(user: User, permissions: map<PK, Permission>)
    ensures Holds(Cleared(user), user, permissions, {})
  {
    assert RightsOf(map[]) == map[];
    assert Restrict(permissions, {}) == map[];
  }

  ghost predicate Collected(t: Tables, users: map<PK, User>, touched: set<PK>) {
    forall u :: u in users ==>
      if u in touched then users[u] == Cleared(users[u]) else Holds(users[u], users[u], t.permissions, EntitledKeys(t, u))
  }

  lemma FilledInStep(t: Tables, was: map<PK, User>, now: map<PK, User>, filter: set<PK>)
    requires Filled(t, was, now, filter)
    requires forall u :: u in was ==>
               if Passes(filter, u) then was[u] == Cleared(was[u]) else Holds(was[u], was[u], t.permissions, EntitledKeys(t, u))
    ensures InStep(t, now) && RowsOf(now) == RowsOf(was)
  {
    forall u | u in was ensures Holds(now[u], was[u], t.permissions, EntitledKeys(t, u)) {
      if Passes(filter, u) {
        assert was[u].permissions.Keys + EntitledKeys(t, u) == EntitledKeys(t, u);
      }
    }
  }

  lemma ClearedSane(permissions: map<PK, Permission>, users: map<PK, User>)
    requires forall u :: u in users ==> users[u] == Cleared(users[u]) || Sane(permissions, users[u])
    ensures AllSane(permissions, users)
  {
    forall u | u in users ensures Sane(permissions, users[u]) {
      ClearedHolds(users[u], permissions);
    }
  }

  /** These users hold what the rows entitle them to, and every other is as it was. */
  ghost predicate Rebuilt(t: Tables, was: map<PK, User>, now: map<PK, User>, us: iset<PK>) {
    && now.Keys == was.Keys
    && forall u :: u in was ==>
         if u in us then Holds(now[u], was[u], t.permissions, EntitledKeys(t, u)) else now[u] == was[u]
  }

  /** So everyone is in step if and only if whoever was left alone is. */
  lemma RebuiltInStep(t: Tables, was: map<PK, User>, now: map<PK, User>, us: iset<PK>)
    requires Rebuilt(t, was, now, us)
    ensures InStep(t, now) <==> forall u :: u in was && u !in us ==> Holds(was[u], was[u], t.permissions, EntitledKeys(t, u))
    ensures RowsOf(now) == RowsOf(was)
  {
    forall u | u in was ensures Holds(now[u], now[u], t.permissions, EntitledKeys(t, u)) <==>
                                (u in us || Holds(was[u], was[u], t.permissions, EntitledKeys(t, u))) {
    }
  }

  lemma FilledRebuilt(t: Tables, was: map<PK, User>, now: map<PK, User>, touched: set<PK>)
    requires Filled(t, was, now, touched) && touched != {} && forall u :: u in was && u in touched ==> was[u] == Cleared(was[u])
    ensures Rebuilt(t, was, now, Among(touched))
  {
    forall u | u in was && u in touched ensures Holds(now[u], was[u], t.permissions, EntitledKeys(t, u)) {
      assert was[u].permissions.Keys + EntitledKeys(t, u) == EntitledKeys(t, u);
    }
  }

  /** Rebuilds the collected users.  With none collected nothing is walked:  an empty filter would be everybody. */
  method Refill(t: Tables, users: map<PK, User>, touched: set<PK>) returns (r: map<PK, User>)
    requires AllSane(t.permissions, users) && forall u :: u in users && u in touched ==> users[u] == Cleared(users[u])
    ensures Rebuilt(t, users, r, Among(touched))
  {
    r := users;
    if touched != {} {
      r := SetUserPermissions(t, users, touched);
      FilledRebuilt(t, users, r, touched);
    }
  }

  /** And with everyone else in step already. */
  method RefillCollected(t: Tables, users: map<PK, User>, touched: set<PK>) returns (r: map<PK, User>)
    requires Collected(t, users, touched)
    ensures InStep(t, r) && RowsOf(r) == RowsOf(users)
  {
    ClearedSane(t.permissions, users);
    r := Refill(t, users, touched);
    RebuiltInStep(t, users, r, Among(touched));
  }

  method Recalc(t: Tables, users: map<PK, User>) returns (r: map<PK, User>)
    ensures InStep(t, r) && RowsOf(r) == RowsOf(users)
  {
    var cleared := AllCleared(users);
    ClearedSane(t.permissions, cleared);
    r := SetUserPermissions(t, cleared, {});
    FilledInStep(t, cleared, r, {});
  }

  function AllCleared(users: map<PK, User>): (r: map<PK, User>)
    ensures r.Keys == users.Keys && RowsOf(r) == RowsOf(users)
    ensures forall u :: u in r ==> r[u] == Cleared(r[u])
  {
    map u | u in users :: Cleared(users[u])
  }

  // ---- Membership edits, collecting whom they can reach ----

  /** Whoever was not collected is reached by what reached it before, and keeps what it had. */
  ghost predicate Untouched(g: map<PK, Group>, h: map<PK, Group>, was: map<PK, User>, now: map<PK, User>, touched: set<PK>) {
    && now.Keys == was.Keys
    && forall u :: u in was ==>
         if u in touched then now[u] == Cleared(was[u]) else now[u] == was[u] && SameReach(g, h, u)
  }

  lemma UntouchedThen(f: map<PK, Group>, g: map<PK, Group>, h: map<PK, Group>, a: map<PK, User>, b: map<PK, User>, c: map<PK, User>,
                      first: set<PK>, second: set<PK>)
    requires Untouched(f, g, a, b, first) && Untouched(g, h, b, c, second)
    ensures Untouched(f, h, a, c, first + second)
  {
  }

  lemma UntouchedCollected(t: Tables, h: map<PK, Group>, was: map<PK, User>, now: map<PK, User>, touched: set<PK>)
    requires InStep(t, was) && Untouched(t.groups, h, was, now, touched)
    ensures Collected(t.(groups := h), now, touched)
    ensures RowsOf(now) == RowsOf(was)
  {
    forall u | u in was && u !in touched ensures EntitledKeys(t, u) == EntitledKeys(t.(groups := h), u) {
      SameReachEntitled(t, h, u);
    }
  }

  /** Adds one member, collecting the users it brings. */
  method JoinOne(groups: map<PK, Group>, users: map<PK, User>, group: PK, m: Identity)
    returns (g: map<PK, Group>, r: map<PK, User>, touched: set<PK>)
    requires group in groups && (m.UserId? <==> m.pk in users)
    ensures g == groups[group := groups[group].(members := AddMember(groups[group].members, m))]
    ensures Untouched(groups, g, users, r, touched)
  {
    g := groups[group := groups[group].(members := AddMember(groups[group].members, m))];
    if m.UserId? {
      r, touched := users[m.pk := Cleared(users[m.pk])], {m.pk};
      forall u | u in users && u != m.pk ensures SameReach(groups, g, u) {
        UserReaches(g, m.pk, u);
        MemberChanged(g, groups, group, m, u);
      }
    } else {
      touched, r := UsersUnder(g, users, m.pk);
      forall u | u in users && u !in touched ensures SameReach(groups, g, u) {
        MemberChanged(g, groups, group, m, u);
      }
    }
  }

  lemma AddMembersStep(users: set<PK>, members: seq<Identity>, pks: seq<PK>, i: nat)
    requires i < |pks|
    ensures AddMembers(users, members, pks[i..]) == AddMembers(users, AddMember(members, ToIdentity(users, pks[i])), pks[i + 1..])
  {
    assert pks[i..][0] == pks[i] && pks[i..][1..] == pks[i + 1..];
  }

  function WithMembers(groups: map<PK, Group>, group: PK, members: seq<Identity>): map<PK, Group>
    requires group in groups
  {
    groups[group := groups[group].(members := members)]
  }

  lemma WithMembersTwice(groups: map<PK, Group>, group: PK, a: seq<Identity>, b: seq<Identity>)
    requires group in groups
    ensures WithMembers(WithMembers(groups, group, a), group, b) == WithMembers(groups, group, b)
  {
  }

  method Join(groups: map<PK, Group>, users: map<PK, User>, group: PK, pks: seq<PK>)
    returns (g: map<PK, Group>, r: map<PK, User>, touched: set<PK>)
    requires group in groups
    ensures g == groups[group := groups[group].(members := AddMembers(users.Keys, groups[group].members, pks))]
    ensures Untouched(groups, g, users, r, touched)
  {
    g, r, touched := groups, users, {};
    ghost var ms := groups[group].members;
    assert pks[0..] == pks;
    for i := 0 to |pks|
      invariant g == WithMembers(groups, group, ms)
      invariant AddMembers(users.Keys, ms, pks[i..]) == AddMembers(users.Keys, groups[group].members, pks)
      invariant Untouched(groups, g, users, r, touched)
    {
      var m := ToIdentity(users.Keys, pks[i]);
      AddMembersStep(users.Keys, ms, pks, i);
      WithMembersTwice(groups, group, ms, AddMember(ms, m));
      var g', r', more := JoinOne(g, r, group, m);
      UntouchedThen(groups, g, g', users, r, r', touched, more);
      g, r, touched, ms := g', r', touched + more, AddMember(ms, m);
    }
  }

  /** Drops one member, collecting the users it took while it is still there. */
  method LeaveOne(groups: map<PK, Group>, users: map<PK, User>, group: PK, pk: PK)
    returns (g: map<PK, Group>, r: map<PK, User>, touched: set<PK>)
    requires group in groups && AllTyped(users.Keys, groups[group].members)
    ensures g == groups[group := groups[group].(members := EraseMember(groups[group].members, pk))]
    ensures Untouched(groups, g, users, r, touched)
  {
    var m := ToIdentity(users.Keys, pk);
    g := groups[group := groups[group].(members := EraseMember(groups[group].members, pk))];
    if !HasPk(groups[group].members, pk) {
      r, touched := users, {};
      forall u | u in users ensures SameReach(groups, g, u) {
        forall x, y ensures Edge(GroupGraph(groups), x, y) <==> Edge(GroupGraph(g), x, y) {
        }
        CoReachFrame(GroupGraph(groups), GroupGraph(g), UserId(u));
      }
    } else if pk in users {
      r, touched := users[pk := Cleared(users[pk])], {pk};
      forall u | u in users && u != pk ensures SameReach(groups, g, u) {
        UserReaches(groups, pk, u);
        MemberChanged(groups, g, group, m, u);
      }
    } else {
      touched, r := UsersUnder(groups, users, pk);
      forall u | u in users && u !in touched ensures SameReach(groups, g, u) {
        MemberChanged(groups, g, group, m, u);
      }
    }
  }

  method Leave(groups: map<PK, Group>, users: map<PK, User>, group: PK, pks: seq<PK>)
    returns (g: map<PK, Group>, r: map<PK, User>, touched: set<PK>)
    requires group in groups && AllTyped(users.Keys, groups[group].members)
    ensures g == groups[group := groups[group].(members := EraseMembers(groups[group].members, pks))]
    ensures Untouched(groups, g, users, r, touched)
  {
    g, r, touched := groups, users, {};
    ghost var ms := groups[group].members;
    assert pks[0..] == pks;
    for i := 0 to |pks|
      invariant g == WithMembers(groups, group, ms)
      invariant AllTyped(users.Keys, ms)
      invariant EraseMembers(ms, pks[i..]) == EraseMembers(groups[group].members, pks)
      invariant Untouched(groups, g, users, r, touched)
    {
      EraseMembersStep(ms, pks, i);
      WithMembersTwice(groups, group, ms, EraseMember(ms, pks[i]));
      var g', r', more := LeaveOne(g, r, group, pks[i]);
      UntouchedThen(groups, g, g', users, r, r', touched, more);
      g, r, touched, ms := g', r', touched + more, EraseMember(ms, pks[i]);
    }
  }

  lemma EraseMembersStep(members: seq<Identity>, pks: seq<PK>, i: nat)
    requires i < |pks|
    ensures EraseMembers(members, pks[i..]) == EraseMembers(EraseMember(members, pks[i]), pks[i + 1..])
  {
    assert pks[i..][0] == pks[i] && pks[i..][1..] == pks[i + 1..];
  }
}
