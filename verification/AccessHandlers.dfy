/** The access cache's event handlers.  Each changes the rows as its event says and leaves every user's cached rights equal to a full
    recomputation, whichever part of the graph it walked to get there. */
module AccessHandlers {
  import opened Graphs
  import opened AccessTables
  import opened AccessCache
  import opened Options

  lemma EntitledAlike(t: Tables, u: Tables, user: PK, p: PK)
    requires t.groups == u.groups && t.roles == u.roles && t.acl == u.acl
    ensures Entitled(t, user, p) <==> Entitled(u, user, p)
  {
  }

  /** Only the graph, the permissions and the acl decide. */
  lemma EntitledSame(t: Tables, u: Tables, user: PK)
    requires t.groups == u.groups && t.roles == u.roles && t.permissions.Keys == u.permissions.Keys && t.acl == u.acl
    ensures EntitledKeys(t, user) == EntitledKeys(u, user)
  {
    forall p ensures p in EntitledKeys(t, user) <==> p in EntitledKeys(u, user) {
      EntitledAlike(t, u, user, p);
      assert p in t.permissions.Keys <==> p in u.permissions.Keys;
    }
  }

  lemma RowsSame(was: map<PK, User>, now: map<PK, User>)
    requires now.Keys == was.Keys && forall u :: u in was ==> now[u].name == was[u].name && now[u].deleted == was[u].deleted
    ensures RowsOf(now) == RowsOf(was)
  {
  }

  /** A user held right under the name it had is held right under the one it has. */
  lemma HoldsEdited(user: User, now: User, permissions: map<PK, Permission>, keys: set<PK>)
    requires Holds(user, user, permissions, keys) && now.rights == user.rights && now.permissions == user.permissions
    ensures Holds(now, now, permissions, keys)
  {
  }

  lemma InStepSame(t: Tables, u: Tables, users: map<PK, User>)
    requires t.groups == u.groups && t.roles == u.roles && t.permissions == u.permissions && t.acl == u.acl
    ensures InStep(t, users) <==> InStep(u, users)
  {
    forall user ensures EntitledKeys(t, user) == EntitledKeys(u, user) {
      EntitledSame(t, u, user);
    }
  }

  // ---- What each handler that walks does, on the values it reads and replaces ----

  method JoinGroup(t: Tables, users: map<PK, User>, group: PK, members: seq<PK>) returns (g: map<PK, Group>, r: map<PK, User>)
    requires InStep(t, users)
    ensures var was := GroupOrNew(t.groups, group);
            g == t.groups[group := was.(members := AddMembers(users.Keys, was.members, members))]
    ensures InStep(t.(groups := g), r) && RowsOf(r) == RowsOf(users)
  {
    var known := t.groups[group := GroupOrNew(t.groups, group)];
    GroupKnown(t.groups, group, users);
    var touched;
    g, r, touched := Join(known, users, group, members);
    UntouchedThen(t.groups, known, g, users, users, r, {}, touched);
    assert {} + touched == touched;
    UntouchedCollected(t, g, users, r, touched);
    r := RefillCollected(t.(groups := g), r, touched);
  }

  lemma GroupKnown(groups: map<PK, Group>, group: PK, users: map<PK, User>)
    ensures Untouched(groups, groups[group := GroupOrNew(groups, group)], users, users, {})
  {
    var known := groups[group := GroupOrNew(groups, group)];
    forall u ensures SameReach(groups, known, u) {
      forall x, y ensures Edge(GroupGraph(groups), x, y) <==> Edge(GroupGraph(known), x, y) {
      }
      CoReachFrame(GroupGraph(groups), GroupGraph(known), UserId(u));
    }
  }

  method LeaveGroup(t: Tables, users: map<PK, User>, group: PK, members: seq<PK>) returns (g: map<PK, Group>, r: map<PK, User>)
    requires InStep(t, users) && group in t.groups && AllTyped(users.Keys, t.groups[group].members)
    ensures g == t.groups[group := t.groups[group].(members := EraseMembers(t.groups[group].members, members))]
    ensures InStep(t.(groups := g), r) && RowsOf(r) == RowsOf(users)
  {
    var touched;
    g, r, touched := Leave(t.groups, users, group, members);
    UntouchedCollected(t, g, users, r, touched);
    r := RefillCollected(t.(groups := g), r, touched);
  }

  ghost function Under(groups: map<PK, Group>, id: Identity): iset<PK> {
    iset u | Reaches(GroupGraph(groups), id, UserId(u))
  }

  lemma ClearedRebuilt(t: Tables, was: map<PK, User>, cleared: map<PK, User>, now: map<PK, User>, us: iset<PK>)
    requires ClearedIn(was, cleared, us) && Rebuilt(t, cleared, now, us)
    ensures Rebuilt(t, was, now, us)
  {
  }

  /** Rebuilds the users under a group, as the group stands in `walked`. */
  method RecalcGroup(t: Tables, users: map<PK, User>, walked: map<PK, Group>, group: PK) returns (r: map<PK, User>)
    requires AllSane(t.permissions, users)
    ensures Rebuilt(t, users, r, Under(walked, GroupId(group)))
  {
    var us, cleared := UsersUnder(walked, users, group);
    ClearedSane(t.permissions, cleared);
    r := Refill(t, cleared, us);
    assert Among(us) == Under(walked, GroupId(group));
    ClearedRebuilt(t, users, cleared, r, Among(us));
  }

  method RecalcUser(t: Tables, users: map<PK, User>, user: PK) returns (r: map<PK, User>)
    requires AllSane(t.permissions, users)
    ensures Rebuilt(t, users, r, iset{user})
  {
    var cleared := if user in users then users[user := Cleared(users[user])] else users;
    ClearedSane(t.permissions, cleared);
    r := Refill(t, cleared, {user});
    assert Among({user}) == iset{user};
    ClearedRebuilt(t, users, cleared, r, iset{user});
  }

  lemma UnderUser(groups: map<PK, Group>, user: PK)
    ensures Under(groups, UserId(user)) == iset{user}
  {
    forall u ensures u in Under(groups, UserId(user)) <==> u == user {
      UserReaches(groups, user, u);
    }
  }

  /** Rebuilds whom one acl identity reaches. */
  method RecalcIdentity(t: Tables, users: map<PK, User>, id: Identity) returns (r: map<PK, User>)
    requires AllSane(t.permissions, users)
    ensures Rebuilt(t, users, r, Under(t.groups, id))
  {
    if id.UserId? {
      UnderUser(t.groups, id.pk);
      r := RecalcUser(t, users, id.pk);
    } else {
      r := RecalcGroup(t, users, t.groups, id.pk);
    }
  }

  /** Rows that differ only in those of identities that do not reach a user entitle it to the same. */
  lemma RowsOfOthers(t: Tables, acl: seq<AclRow>, user: PK)
    requires forall row: AclRow :: Reaches(GroupGraph(t.groups), row.identity, UserId(user)) ==> (row in t.acl <==> row in acl)
    ensures EntitledKeys(t.(acl := acl), user) == EntitledKeys(t, user)
  {
    forall p ensures Entitled(t.(acl := acl), user, p) <==> Entitled(t, user, p) {
    }
  }

  lemma HoldsWith(cached: User, permissions: map<PK, Permission>, pk: PK, permission: Permission, keys: set<PK>)
    requires Holds(cached, cached, permissions, keys) && (pk in permissions ==> permissions[pk] == permission)
    ensures Holds(cached, cached, permissions[pk := permission], keys)
  {
    HoldsRebased(cached, permissions, permissions[pk := permission], keys);
  }

  lemma LateKeys(t: Tables, pk: PK, permission: Permission, user: PK)
    ensures EntitledKeys(t.(permissions := t.permissions[pk := permission]), user)
         == EntitledKeys(t, user) + if Entitled(t, user, pk) then {pk} else {}
  {
    var t' := t.(permissions := t.permissions[pk := permission]);
    forall p ensures p in EntitledKeys(t', user) <==> p in EntitledKeys(t, user) || (p == pk && Entitled(t, user, pk)) {
      EntitledAlike(t', t, user, p);
    }
  }

  function WithGrant(t: Tables, id: Identity, pk: PK, permission: Permission): Tables {
    t.(permissions := t.permissions[pk := permission], acl := AddRow(t.acl, AclRow(id, Perm(pk))))
  }

  lemma LateKeysElsewhere(t: Tables, id: Identity, pk: PK, permission: Permission, user: PK)
    requires !Reaches(GroupGraph(t.groups), id, UserId(user))
    ensures EntitledKeys(WithGrant(t, id, pk, permission), user) == EntitledKeys(t, user) + if Entitled(t, user, pk) then {pk} else {}
  {
    RowsOfOthers(t.(permissions := t.permissions[pk := permission]), AddRow(t.acl, AclRow(id, Perm(pk))), user);
    LateKeys(t, pk, permission, user);
  }

  lemma HoldsOneMore(user: User, permissions: map<PK, Permission>, pk: PK, permission: Permission, keys: set<PK>, more: bool)
    requires Holds(user, user, permissions, keys) && pk !in permissions && pk !in keys
    ensures Holds(user, user, permissions[pk := permission], keys + if more then {pk} else {}) <==> !more
  {
    if !more {
      HoldsRebased(user, permissions, permissions[pk := permission], keys);
      assert keys + {} == keys;
    } else {
      assert pk in keys + {pk};
    }
  }

  /** A permission granted to an identity that does not reach the user:  what the user has cached is right afterwards if and only if the
      permission was cached already, as it stands, or nothing had named it for the user. */
  lemma LateEntitlement(t: Tables, id: Identity, pk: PK, permission: Permission, user: PK, cached: User)
    requires Holds(cached, cached, t.permissions, EntitledKeys(t, user)) && (pk in t.permissions ==> t.permissions[pk] == permission)
    requires !Reaches(GroupGraph(t.groups), id, UserId(user))
    ensures var t' := WithGrant(t, id, pk, permission);
            Holds(cached, cached, t'.permissions, EntitledKeys(t', user)) <==> pk in t.permissions || !Entitled(t, user, pk)
  {
    LateKeysElsewhere(t, id, pk, permission, user);
    if pk in t.permissions {
      KnownKeys(t, user, pk);
      HoldsWith(cached, t.permissions, pk, permission, EntitledKeys(t, user));
    } else {
      HoldsOneMore(cached, t.permissions, pk, permission, EntitledKeys(t, user), Entitled(t, user, pk));
    }
  }

  lemma KnownKeys(t: Tables, user: PK, pk: PK)
    requires pk in t.permissions
    ensures EntitledKeys(t, user) + (if Entitled(t, user, pk) then {pk} else {}) == EntitledKeys(t, user)
  {
    Absorbed(EntitledKeys(t, user), pk, Entitled(t, user, pk));
  }

  lemma Absorbed(keys: set<PK>, pk: PK, more: bool)
    requires more ==> pk in keys
    ensures keys + (if more then {pk} else {}) == keys
  {
  }

  lemma StillSane(t: Tables, users: map<PK, User>, pk: PK, permission: Permission)
    requires InStep(t, users) && (pk in t.permissions ==> t.permissions[pk] == permission)
    ensures AllSane(t.permissions[pk := permission], users)
  {
    forall u | u in users ensures Sane(t.permissions[pk := permission], users[u]) {
      HoldsWith(users[u], t.permissions, pk, permission, EntitledKeys(t, u));
    }
  }

  /** Whoever the identity reaches rebuilt, everyone is in step if and only if nothing had named a permission new to the
      cache for anyone else. */
  lemma GrantedInStep(t: Tables, users: map<PK, User>, id: Identity, pk: PK, permission: Permission, r: map<PK, User>)
    requires InStep(t, users) && (pk in t.permissions ==> t.permissions[pk] == permission)
    requires Rebuilt(WithGrant(t, id, pk, permission), users, r, Under(t.groups, id))
    ensures InStep(WithGrant(t, id, pk, permission), r) <==> pk in t.permissions || NamedOnlyFor(t, users.Keys, id, pk)
    ensures RowsOf(r) == RowsOf(users)
  {
    var t' := WithGrant(t, id, pk, permission);
    RebuiltInStep(t', users, r, Under(t.groups, id));
    forall u | u in users && u !in Under(t.groups, id)
      ensures Holds(users[u], users[u], t'.permissions, EntitledKeys(t', u)) <==> pk in t.permissions || !Entitled(t, u, pk)
    {
      LateEntitlement(t, id, pk, permission, u, users[u]);
    }
  }

  method GrantPermission(t: Tables, users: map<PK, User>, id: Identity, pk: PK, permission: Permission) returns (t': Tables,
                         r: map<PK, User>)
    requires InStep(t, users)
    ensures t' == WithGrant(t, id, pk, permission) && RowsOf(r) == RowsOf(users)
    ensures InStep(t', r) <==> pk in t.permissions || NamedOnlyFor(t, users.Keys, id, pk)
  {
    var changed := pk in t.permissions && t.permissions[pk] != permission;
    t' := WithGrant(t, id, pk, permission);
    if changed {
      r := Recalc(t', users);
    } else {
      StillSane(t, users, pk, permission);
      r := RecalcIdentity(t', users, id);
      GrantedInStep(t, users, id, pk, permission, r);
    }
  }

  lemma RowAddedKeys(t: Tables, acl: seq<AclRow>, row: AclRow, user: PK)
    requires forall y :: y in acl <==> y in t.acl || y == row
    requires Reaches(GroupGraph(t.groups), row.identity, UserId(user))
    ensures EntitledKeys(t.(acl := acl), user) == EntitledKeys(t, user) + Granted(t.roles, t.permissions, row.grant)
  {
    forall p ensures Entitled(t.(acl := acl), user, p) <==> (Entitled(t, user, p) || Reaches(RoleGraph(t.roles), row.grant, Perm(p))) {
      assert row in acl;
    }
  }

  lemma AddRowHas(t: Tables, users: set<PK>, id: Identity, grant: Grant)
    requires IdentitiesOK(users, t.groups, t.acl) && Typed(users, id)
    ensures forall y :: y in AddRow(t.acl, AclRow(id, grant)) <==> y in t.acl || y == AclRow(id, grant)
  {
    if row :| row in t.acl && row.identity.pk == id.pk && row.grant == grant {
      assert Typed(users, row.identity);
      assert row == AclRow(id, grant);
    }
  }

  lemma RoleSpread(t: Tables, users: map<PK, User>, now: map<PK, User>, user: PK, role: PK, acl: seq<AclRow>)
    requires InStep(t, users) && user in users
    requires forall y :: y in acl <==> y in t.acl || y == AclRow(UserId(user), RoleOf(role))
    requires Spread(users, now, t.permissions, Granted(t.roles, t.permissions, RoleOf(role)), {user},
        TouchedUsers(t.groups, UserId(user), {}))
    ensures InStep(t.(acl := acl), now) && RowsOf(now) == RowsOf(users)
  {
    forall u | u in users ensures Holds(now[u], now[u], t.permissions, EntitledKeys(t.(acl := acl), u)) {
      UserReaches(t.groups, user, u);
      TouchedUsersReached(t.groups, UserId(user), u);
      if u == user {
        RowAddedKeys(t, acl, AclRow(UserId(user), RoleOf(role)), u);
      } else {
        RowsOfOthers(t, acl, u);
      }
    }
  }

  /** To a user the role's permissions are or'd on top;  a group's users are rebuilt. */
  method GrantRole(t: Tables, users: map<PK, User>, id: Identity, role: PK) returns (acl: seq<AclRow>, r: map<PK, User>)
    requires InStep(t, users) && IdentitiesOK(users.Keys, t.groups, t.acl) && Typed(users.Keys, id)
    ensures acl == AddRow(t.acl, AclRow(id, RoleOf(role)))
    ensures InStep(t.(acl := acl), r) && RowsOf(r) == RowsOf(users)
  {
    acl := AddRow(t.acl, AclRow(id, RoleOf(role)));
    AddRowHas(t, users.Keys, id, RoleOf(role));
    if id.UserId? {
      var r', _ := AddPermission(t.groups, t.roles, t.permissions, users, id, RoleOf(role), {id.pk}, {});
      r := r';
      RoleSpread(t, users, r, id.pk, role, acl);
    } else {
      forall u | u in users && !Reaches(GroupGraph(t.groups), id, UserId(u))
        ensures EntitledKeys(t.(acl := acl), u) == EntitledKeys(t, u)
      {
        RowsOfOthers(t, acl, u);
      }
      r := RecalcGroup(t.(acl := acl), users, t.groups, id.pk);
      RebuiltInStep(t.(acl := acl), users, r, Under(t.groups, id));
    }
  }

  method Revoke(t: Tables, users: map<PK, User>, id: Identity, grant: Grant) returns (acl: seq<AclRow>, r: map<PK, User>)
    requires InStep(t, users) && IdentitiesOK(users.Keys, t.groups, t.acl) && Typed(users.Keys, id)
    ensures acl == EraseRow(t.acl, id.pk, grant)
    ensures InStep(t.(acl := acl), r) && RowsOf(r) == RowsOf(users)
  {
    acl := EraseRow(t.acl, id.pk, grant);
    forall u | u in users && !Reaches(GroupGraph(t.groups), id, UserId(u))
      ensures EntitledKeys(t.(acl := acl), u) == EntitledKeys(t, u)
    {
      forall row: AclRow | Reaches(GroupGraph(t.groups), row.identity, UserId(u)) ensures row in t.acl <==> row in acl {
        assert row in t.acl && row.identity.pk == id.pk ==> Typed(users.Keys, row.identity) && row.identity == id;
      }
      RowsOfOthers(t, acl, u);
    }
    r := RecalcIdentity(t.(acl := acl), users, id);
    RebuiltInStep(t.(acl := acl), users, r, Under(t.groups, id));
  }

  /** Deletes, restores or takes out one group:  only whom it reaches while it is live can change. */
  method MarkGroup(t: Tables, users: map<PK, User>, group: PK, deleted: bool) returns (g: map<PK, Group>, r: map<PK, User>)
    requires InStep(t, users) && group in t.groups
    ensures g == t.groups[group := t.groups[group].(deleted := deleted)]
    ensures InStep(t.(groups := g), r) && RowsOf(r) == RowsOf(users)
  {
    g := t.groups[group := t.groups[group].(deleted := deleted)];
    if t.groups[group].deleted && deleted {
      assert g == t.groups;
      r := users;
      return;
    }
    var walked := if deleted then t.groups else g;
    forall u | u in users && !Reaches(GroupGraph(walked), GroupId(group), UserId(u))
      ensures EntitledKeys(t.(groups := g), u) == EntitledKeys(t, u)
    {
      if deleted {
        GroupHidden(t.groups, g, group, u);
      } else if t.groups[group].deleted {
        GroupHidden(g, t.groups, group, u);
      } else {
        assert g == t.groups;
      }
      SameReachEntitled(t, g, u);
    }
    r := RecalcGroup(t.(groups := g), users, walked, group);
    RebuiltInStep(t.(groups := g), users, r, Under(walked, GroupId(group)));
  }

  lemma GroupRemovedKeys(t: Tables, group: PK, user: PK)
    requires group in t.groups
    requires t.groups[group].deleted || !Reaches(GroupGraph(t.groups), GroupId(group), UserId(user))
    ensures EntitledKeys(t.(groups := t.groups - {group}), user) == EntitledKeys(t, user)
  {
    var g := t.groups - {group};
    GroupTakenOut(t.groups, group);
    if !t.groups[group].deleted {
      GroupHidden(t.groups, g, group, user);
    }
    SameReachEntitled(t, g, user);
  }

  lemma GroupTakenOut(groups: map<PK, Group>, group: PK)
    requires group in groups
    ensures GroupGraph(groups - {group}) == if groups[group].deleted then GroupGraph(groups) else GroupGraph(groups) - {GroupId(group)}
  {
  }

  method RemoveGroup(t: Tables, users: map<PK, User>, group: PK) returns (r: map<PK, User>)
    requires InStep(t, users) && group in t.groups
    ensures InStep(t.(groups := t.groups - {group}), r) && RowsOf(r) == RowsOf(users)
  {
    forall u | u in users && (t.groups[group].deleted || !Reaches(GroupGraph(t.groups), GroupId(group), UserId(u)))
      ensures EntitledKeys(t.(groups := t.groups - {group}), u) == EntitledKeys(t, u)
    {
      GroupRemovedKeys(t, group, u);
    }
    if t.groups[group].deleted {
      r := users;
    } else {
      r := RecalcGroup(t.(groups := t.groups - {group}), users, t.groups, group);
      RebuiltInStep(t.(groups := t.groups - {group}), users, r, Under(t.groups, GroupId(group)));
    }
  }

  lemma InStepWithoutIdentity(t: Tables, users: map<PK, User>, pk: PK)
    requires InStep(t, users) && pk !in t.groups && pk !in users
    ensures InStep(WithoutIdentity(t, pk), users)
  {
    forall u | u in users ensures EntitledKeys(WithoutIdentity(t, pk), u) == EntitledKeys(t, u) {
      IdentityDropped(t, pk, u);
    }
  }

  /** A role already deleted leads nowhere, so purging it needs no rebuild. */
  lemma DeletedRoleKeys(t: Tables, role: PK, user: PK)
    requires role in t.roles && t.roles[role].deleted
    ensures EntitledKeys(WithoutGrants(t.(roles := t.roles - {role}), {RoleOf(role)}), user) == EntitledKeys(t, user)
  {
    var t1 := t.(roles := t.roles - {role});
    assert RoleGraph(t1.roles) == RoleGraph(t.roles);
    forall p ensures Entitled(WithoutGrants(t1, {RoleOf(role)}), user, p) <==> Entitled(t, user, p) {
      GrantsDropped(t1, {RoleOf(role)}, user, p);
    }
  }

  lemma DeletedRolePurged(t: Tables, users: map<PK, User>, role: PK)
    requires InStep(t, users) && role in t.roles && t.roles[role].deleted
    ensures InStep(WithoutGrants(t.(roles := t.roles - {role}), {RoleOf(role)}), users)
  {
    forall u | u in users ensures EntitledKeys(WithoutGrants(t.(roles := t.roles - {role}), {RoleOf(role)}), u) == EntitledKeys(t, u) {
      DeletedRoleKeys(t, role, u);
    }
  }

  /** Takes a role out, and what names it;  with the role deleted already no one is rebuilt. */
  method DropRole(t: Tables, users: map<PK, User>, role: PK) returns (t': Tables, r: map<PK, User>)
    requires WellFormed(t) && InStep(t, users) && role in t.roles
    ensures t' == After(t, Event.PurgeRole(role)) && WellFormed(t')
    ensures t' == t.(acl := t'.acl, roles := t'.roles)
    ensures InStep(t', r) && RowsOf(r) == RowsOf(users)
  {
    AfterWellFormed(t, Event.PurgeRole(role));
    t' := WithoutGrants(t.(roles := t.roles - {role}), {RoleOf(role)});
    if t.roles[role].deleted {
      r := users;
      DeletedRolePurged(t, users, role);
    } else {
      r := Recalc(t', users);
    }
  }

  // ---- One resource, one permission ----

  function PermissionsOff(permissions: map<PK, Permission>, resource: PK): map<PK, Permission> {
    map p | p in permissions && permissions[p].resource != resource :: permissions[p]
  }

  /** A user with one resource's entries taken out, which is all a purge touches. */
  function DropResource(user: User, resource: PK): (r: User)
    ensures r.name == user.name && r.deleted == user.deleted
  {
    if resource in user.rights then
      user.(rights := user.rights - {resource}, permissions := PermissionsOff(user.permissions, resource))
    else user
  }

  /** The same permissions on a resource give the same masks. */
  lemma MasksSame(a: map<PK, Permission>, b: map<PK, Permission>, r: PK)
    requires forall p :: p in a && a[p].resource == r ==> p in b && b[p] == a[p]
    requires forall p :: p in b && b[p].resource == r ==> p in a && b[p] == a[p]
    ensures AllowedOn(a, r) == AllowedOn(b, r) && DeniedOn(a, r) == DeniedOn(b, r)
  {
    forall m ensures m in AllowedOn(a, r) <==> m in AllowedOn(b, r) {
      if m in AllowedOn(a, r) {
        var p :| p in a && a[p].resource == r && m in a[p].allowed;
        assert p in b && b[p] == a[p];
      }
      if m in AllowedOn(b, r) {
        var p :| p in b && b[p].resource == r && m in b[p].allowed;
        assert p in a && b[p] == a[p];
      }
    }
    forall m ensures m in DeniedOn(a, r) <==> m in DeniedOn(b, r) {
      if m in DeniedOn(a, r) {
        var p :| p in a && a[p].resource == r && m in a[p].denied;
        assert p in b && b[p] == a[p];
      }
      if m in DeniedOn(b, r) {
        var p :| p in b && b[p].resource == r && m in b[p].denied;
        assert p in a && b[p] == a[p];
      }
    }
  }

  lemma RightsOff(permissions: map<PK, Permission>, resource: PK)
    ensures RightsOf(PermissionsOff(permissions, resource)) == RightsOf(permissions) - {resource}
  {
    var off := PermissionsOff(permissions, resource);
    forall r | r != resource ensures AllowedOn(off, r) == AllowedOn(permissions, r) && DeniedOn(off, r) == DeniedOn(permissions, r) {
      MasksSame(off, permissions, r);
    }
    forall r ensures r in RightsOf(off) <==> r in RightsOf(permissions) && r != resource {
      if r in RightsOf(permissions) && r != resource {
        var p :| p in permissions && permissions[p].resource == r;
        assert p in off && off[p].resource == r;
      }
    }
  }

  lemma NothingOff(permissions: map<PK, Permission>, resource: PK)
    requires resource !in RightsOf(permissions)
    ensures PermissionsOff(permissions, resource) == permissions
  {
    assert forall p :: p in permissions ==> permissions[p].resource in RightsOf(permissions);
  }

  lemma DropResourceHolds(user: User, permissions: map<PK, Permission>, keys: set<PK>, resource: PK)
    requires Holds(user, user, permissions, keys)
    ensures Holds(DropResource(user, resource), user, PermissionsOff(permissions, resource),
                  set p | p in keys && p in permissions && permissions[p].resource != resource)
  {
    RightsOff(user.permissions, resource);
    if resource !in user.rights {
      NothingOff(user.permissions, resource);
    }
    var r := DropResource(user, resource);
    assert r.permissions == PermissionsOff(user.permissions, resource);
    assert Restrict(PermissionsOff(permissions, resource), r.permissions.Keys) == r.permissions;
  }

  lemma PurgedKeys(t: Tables, resource: PK, user: PK)
    ensures EntitledKeys(After(t, Event.PurgeResource(resource)), user)
         == set p | p in EntitledKeys(t, user) && p in t.permissions && t.permissions[p].resource != resource
  {
    var gone := GrantsOn(t.permissions, resource);
    var t1 := t.(resources := t.resources - {resource}, permissions := PermissionsOff(t.permissions, resource));
    assert After(t, Event.PurgeResource(resource)) == WithoutGrants(t1, gone);
    forall p | p in t1.permissions ensures Entitled(WithoutGrants(t1, gone), user, p) <==> Entitled(t, user, p) {
      GrantsDropped(t1, gone, user, p);
      EntitledAlike(t1, t, user, p);
    }
  }

  lemma ResourcePurgedOne(t: Tables, user: PK, cached: User, resource: PK)
    requires Holds(cached, cached, t.permissions, EntitledKeys(t, user))
    ensures var t' := After(t, Event.PurgeResource(resource));
            Holds(DropResource(cached, resource), cached, t'.permissions, EntitledKeys(t', user))
  {
    PurgedKeys(t, resource, user);
    DropResourceHolds(cached, t.permissions, EntitledKeys(t, user), resource);
    assert After(t, Event.PurgeResource(resource)).permissions == PermissionsOff(t.permissions, resource);
  }

  /** The purge's answer without rebuilding anyone:  the permissions were all on the resource, so only its rights change. */
  lemma ResourcePurged(t: Tables, users: map<PK, User>, resource: PK)
    requires InStep(t, users)
    ensures var r := map u | u in users :: DropResource(users[u], resource);
            InStep(After(t, Event.PurgeResource(resource)), r) && RowsOf(r) == RowsOf(users)
  {
    forall u | u in users {
      ResourcePurgedOne(t, u, users[u], resource);
    }
  }

  /** A user's own copy of a permission re-rated, and its resource's rights or'd afresh from every copy on it. */
  function Rerated(user: User, pk: PK, allowed: Option<Mask>, denied: Option<Mask>): (r: User)
    ensures r.name == user.name && r.deleted == user.deleted
  {
    if pk !in user.permissions then user else
      var p := Updated(user.permissions[pk], allowed, denied);
      var held := user.permissions[pk := p];
      user.(permissions := held, rights := user.rights[p.resource := AllowedDenied(AllowedOn(held, p.resource),
          DeniedOn(held, p.resource))])
  }

  lemma ReratedRights(held: map<PK, Permission>, pk: PK, p: Permission)
    requires pk in held && held[pk].resource == p.resource
    ensures RightsOf(held[pk := p])
         == RightsOf(held)[p.resource := AllowedDenied(AllowedOn(held[pk := p], p.resource), DeniedOn(held[pk := p], p.resource))]
  {
    var now := held[pk := p];
    assert forall k :: k in now ==> now[k].resource == held[k].resource;
    forall r | r != p.resource ensures AllowedOn(now, r) == AllowedOn(held, r) && DeniedOn(now, r) == DeniedOn(held, r) {
      MasksSame(now, held, r);
    }
    assert (set k | k in now :: now[k].resource) == (set k | k in held :: held[k].resource);
  }

  lemma ReratedHolds(user: User, permissions: map<PK, Permission>, keys: set<PK>, pk: PK, allowed: Option<Mask>, denied: Option<Mask>)
    requires Holds(user, user, permissions, keys) && pk in permissions
    ensures Holds(Rerated(user, pk, allowed, denied), user, permissions[pk := Updated(permissions[pk], allowed, denied)], keys)
  {
    var now := permissions[pk := Updated(permissions[pk], allowed, denied)];
    if pk in user.permissions {
      ReratedRights(user.permissions, pk, now[pk]);
      var r := Rerated(user, pk, allowed, denied);
      assert r.permissions.Keys == keys;
      assert Restrict(now, keys) == r.permissions;
    } else {
      HoldsRebased(user, permissions, now, keys);
    }
  }

  lemma PermissionReratedOne(t: Tables, user: PK, cached: User, pk: PK, allowed: Option<Mask>, denied: Option<Mask>)
    requires Holds(cached, cached, t.permissions, EntitledKeys(t, user)) && pk in t.permissions
    ensures var t' := t.(permissions := t.permissions[pk := Updated(t.permissions[pk], allowed, denied)]);
            Holds(Rerated(cached, pk, allowed, denied), cached, t'.permissions, EntitledKeys(t', user))
  {
    var t' := t.(permissions := t.permissions[pk := Updated(t.permissions[pk], allowed, denied)]);
    EntitledSame(t', t, user);
    ReratedHolds(cached, t.permissions, EntitledKeys(t, user), pk, allowed, denied);
  }

  lemma PermissionRerated(t: Tables, users: map<PK, User>, now: map<PK, User>, pk: PK, allowed: Option<Mask>, denied: Option<Mask>)
    requires InStep(t, users) && pk in t.permissions
    requires now.Keys == users.Keys && forall u :: u in users ==> now[u] == Rerated(users[u], pk, allowed, denied)
    ensures InStep(t.(permissions := t.permissions[pk := Updated(t.permissions[pk], allowed, denied)]), now)
  {
    forall u | u in users {
      PermissionReratedOne(t, u, users[u], pk, allowed, denied);
    }
  }

  method RerateUsers(users: map<PK, User>, pk: PK, allowed: Option<Mask>, denied: Option<Mask>) returns (r: map<PK, User>)
    ensures r.Keys == users.Keys && forall u :: u in users ==> r[u] == Rerated(users[u], pk, allowed, denied)
  {
    r := users;
    var todo := users.Keys;
    while todo != {}
      invariant todo <= users.Keys && r.Keys == users.Keys
      invariant forall u :: u in users ==> r[u] == if u in todo then users[u] else Rerated(users[u], pk, allowed, denied)
      decreases todo
    {
      var u :| u in todo;
      r := r[u := Rerated(r[u], pk, allowed, denied)];
      todo := todo - {u};
    }
  }

  method Rerate(t: Tables, users: map<PK, User>, pk: PK, allowed: Option<Mask>, denied: Option<Mask>)
    returns (permissions: map<PK, Permission>, r: map<PK, User>)
    requires InStep(t, users) && pk in t.permissions
    ensures permissions == t.permissions[pk := Updated(t.permissions[pk], allowed, denied)]
    ensures InStep(t.(permissions := permissions), r) && RowsOf(r) == RowsOf(users)
  {
    permissions := t.permissions[pk := Updated(t.permissions[pk], allowed, denied)];
    r := RerateUsers(users, pk, allowed, denied);
    RowsSame(users, r);
    PermissionRerated(t, users, r, pk, allowed, denied);
  }

  /** Takes a resource out:  its row, the permissions on it, what names them, and its entries in what users have cached. */
  method DropResourceRows(t: Tables, users: map<PK, User>, resource: PK) returns (t': Tables, r: map<PK, User>)
    requires WellFormed(t) && InStep(t, users)
    ensures t' == After(t, Event.PurgeResource(resource)) && WellFormed(t') && t'.users == t.users && t'.groups == t.groups
    ensures InStep(t', r) && RowsOf(r) == RowsOf(users)
  {
    AfterWellFormed(t, Event.PurgeResource(resource));
    var gone := GrantsOn(t.permissions, resource);
    t' := WithoutGrants(t.(resources := t.resources - {resource}, permissions := PermissionsOff(t.permissions, resource)), gone);
    r := map u | u in users :: DropResource(users[u], resource);
    ResourcePurged(t, users, resource);
  }
}
