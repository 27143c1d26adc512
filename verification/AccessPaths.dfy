/** Who has what, and how:  the source-by-source walk of one identity's rights, and its transpose, everyone one resource's grants reach.
    Both guard cycles by the path they are on, where the cache's own walk marks what it has entered. */
module AccessPaths {
  import opened Graphs
  import opened AccessTables
  import opened AccessCache

  /** One way a permission comes about:  the groups from the granted one to the one holding the identity, the roles from the assigned one to
      the one holding the permission. */
  datatype Source = Source(permission: PK, allowed: Mask, denied: Mask, groups: seq<PK>, roles: seq<PK>)

  /** A resource's rights, or a holder's:  the or over the sources, and the sources in the order they were found. */
  datatype Rights = Rights(rights: AllowedDenied, sources: seq<Source>)

  const NO_RIGHTS := Rights(AllowedDenied({}, {}), [])

  function Find(m: map<PK, Rights>, k: PK): Rights {
    if k in m then m[k] else NO_RIGHTS
  }

  function AddSource(r: Rights, s: Source): Rights {
    Rights(AllowedDenied(r.rights.allowed + s.allowed, r.rights.denied + s.denied), r.sources + [s])
  }

  /** The sources, and exactly their or. */
  function Tally(ss: seq<Source>): Rights {
    Rights(AllowedDenied(set s, b | s in ss && b in s.allowed :: b, set s, b | s in ss && b in s.denied :: b), ss)
  }

  predicate Tallied(r: Rights) {
    r == Tally(r.sources)
  }

  lemma AddSourceTallied(r: Rights, s: Source)
    requires Tallied(r)
    ensures Tallied(AddSource(r, s))
  {
    assert forall x :: x in r.sources + [s] <==> x in r.sources || x == s;
  }

  /** An entry for whatever has a source, and no other. */
  ghost predicate Tidy(m: map<PK, Rights>) {
    forall k :: k in m ==> Tallied(m[k]) && m[k].sources != []
  }

  datatype Found = Found(resource: PK, source: Source)

  function Groups(path: seq<PK>): set<Identity> {
    set g | g in path :: GroupId(g)
  }

  function Roles(path: seq<PK>): set<Grant> {
    set r | r in path :: RoleOf(r)
  }

  // ---- One identity's rights ----

  /** The permissions under a grant, one entry for each way through roles that meets none twice. */
  function Expand(t: Tables, grant: Grant, groups: seq<PK>, path: seq<PK>): seq<Found>
    decreases RoleGraph(t.roles).Keys - Roles(path), 0
  {
    match grant
    case Perm(p) =>
      if p in t.permissions then
        [Found(t.permissions[p].resource, Source(p, t.permissions[p].allowed, t.permissions[p].denied, groups, path))]
      else []
    case RoleOf(r) =>
      if r !in t.roles || t.roles[r].deleted || r in path then [] else
        RolesPush(t.roles, path, r);
        ExpandAll(t, t.roles[r].members, groups, path + [r])
  }

  function ExpandAll(t: Tables, members: seq<Grant>, groups: seq<PK>, path: seq<PK>): seq<Found>
    decreases RoleGraph(t.roles).Keys - Roles(path), |members|
  {
    if members == [] then [] else Expand(t, members[0], groups, path) + ExpandAll(t, members[1..], groups, path)
  }

  lemma RolesPush(roles: map<PK, Role>, path: seq<PK>, r: PK)
    ensures Roles(path + [r]) == Roles(path) + {RoleOf(r)}
    ensures RoleOf(r) in RoleGraph(roles) && r !in path ==>
              RoleGraph(roles).Keys - Roles(path + [r]) < RoleGraph(roles).Keys - Roles(path)
  {
    assert forall x :: x in path + [r] <==> x in path || x == r;
    if RoleOf(r) in RoleGraph(roles) && r !in path {
      assert RoleOf(r) in RoleGraph(roles).Keys - Roles(path);
    }
  }

  lemma GroupsPush(groups: map<PK, Group>, path: seq<PK>, g: PK)
    ensures Groups(path + [g]) == Groups(path) + {GroupId(g)}
    ensures GroupId(g) in GroupGraph(groups) && g !in path ==>
              GroupGraph(groups).Keys - Groups(path + [g]) < GroupGraph(groups).Keys - Groups(path)
  {
    assert forall x :: x in path + [g] <==> x in path || x == g;
    if GroupId(g) in GroupGraph(groups) && g !in path {
      assert GroupId(g) in GroupGraph(groups).Keys - Groups(path);
    }
  }

  /** Each way an acl identity reaches the target, itself or through live groups, with the grant expanded along it. */
  function Reach(t: Tables, target: Identity, id: Identity, grant: Grant, path: seq<PK>): seq<Found>
    decreases GroupGraph(t.groups).Keys - Groups(path), 0
  {
    if id == target then Expand(t, grant, path, [])
    else if id.UserId? || id.pk !in t.groups || t.groups[id.pk].deleted || id.pk in path then []
    else
      GroupsPush(t.groups, path, id.pk);
      ReachAll(t, target, t.groups[id.pk].members, grant, path + [id.pk])
  }

  function ReachAll(t: Tables, target: Identity, members: seq<Identity>, grant: Grant, path: seq<PK>): seq<Found>
    decreases GroupGraph(t.groups).Keys - Groups(path), |members|
  {
    if members == [] then [] else Reach(t, target, members[0], grant, path) + ReachAll(t, target, members[1..], grant, path)
  }

  function AllFound(t: Tables, target: Identity, rows: seq<AclRow>): seq<Found>
    decreases |rows|
  {
    if rows == [] then [] else Reach(t, target, rows[0].identity, rows[0].grant, []) + AllFound(t, target, rows[1..])
  }

  // ---- The on-path walk finds exactly what is entitled ----

  ghost predicate Accurate(t: Tables, f: Found) {
    && f.source.permission in t.permissions
    && t.permissions[f.source.permission] == Permission(f.resource, f.source.allowed, f.source.denied)
  }

  lemma {:induction false} ExpandSound(t: Tables, grant: Grant, groups: seq<PK>, path: seq<PK>, f: Found)
    requires f in Expand(t, grant, groups, path)
    ensures Accurate(t, f) && f.source.groups == groups && Reaches(RoleGraph(t.roles), grant, Perm(f.source.permission))
    decreases RoleGraph(t.roles).Keys - Roles(path), 0
  {
    if grant.Perm? {
      ReachesSelf(RoleGraph(t.roles), grant);
    } else {
      RolesPush(t.roles, path, grant.pk);
      var m := ExpandAllSound(t, t.roles[grant.pk].members, groups, path + [grant.pk], f);
      assert Edge(RoleGraph(t.roles), grant, m);
      ReachesCons(RoleGraph(t.roles), grant, m, Perm(f.source.permission));
    }
  }

  lemma {:induction false} ExpandAllSound(t: Tables, members: seq<Grant>, groups: seq<PK>, path: seq<PK>, f: Found) returns (m: Grant)
    requires f in ExpandAll(t, members, groups, path)
    ensures Accurate(t, f) && f.source.groups == groups
    ensures m in members && Reaches(RoleGraph(t.roles), m, Perm(f.source.permission))
    decreases RoleGraph(t.roles).Keys - Roles(path), |members|
  {
    if f in Expand(t, members[0], groups, path) {
      ExpandSound(t, members[0], groups, path, f);
      m := members[0];
    } else {
      m := ExpandAllSound(t, members[1..], groups, path, f);
    }
  }

  lemma {:induction false} ExpandComplete(t: Tables, grant: Grant, groups: seq<PK>, path: seq<PK>, p: PK) returns (f: Found)
    requires p in t.permissions && Avoids(RoleGraph(t.roles), grant, Perm(p), Roles(path))
    ensures f in Expand(t, grant, groups, path) && f.source.permission == p
    decreases RoleGraph(t.roles).Keys - Roles(path), 0
  {
    if grant == Perm(p) {
      f := Expand(t, grant, groups, path)[0];
    } else {
      var n: nat :| AvoidIn(RoleGraph(t.roles), grant, Perm(p), Roles(path), n);
      var m := LeaveForGood(RoleGraph(t.roles), grant, Perm(p), Roles(path), n);
      RolesPush(t.roles, path, grant.pk);
      assert grant.RoleOf? && grant.pk !in path by {
        assert grant !in Roles(path);
      }
      f := ExpandAllComplete(t, t.roles[grant.pk].members, groups, path + [grant.pk], m, p);
    }
  }

  lemma {:induction false} ExpandAllComplete(t: Tables, members: seq<Grant>, groups: seq<PK>, path: seq<PK>, m: Grant,
                                             p: PK) returns (f: Found)
    requires m in members && p in t.permissions && Avoids(RoleGraph(t.roles), m, Perm(p), Roles(path))
    ensures f in ExpandAll(t, members, groups, path) && f.source.permission == p
    decreases RoleGraph(t.roles).Keys - Roles(path), |members|
  {
    if members[0] == m {
      f := ExpandComplete(t, m, groups, path, p);
    } else {
      f := ExpandAllComplete(t, members[1..], groups, path, m, p);
    }
  }

  lemma GrantComplete(t: Tables, grant: Grant, groups: seq<PK>, p: PK) returns (f: Found)
    requires p in t.permissions && Reaches(RoleGraph(t.roles), grant, Perm(p))
    ensures f in Expand(t, grant, groups, []) && f.source.permission == p
  {
    ReachesAvoids(RoleGraph(t.roles), grant, Perm(p));
    assert Roles([]) == {};
    f := ExpandComplete(t, grant, groups, [], p);
  }

  /** The last time the walk leaves a group it is not on the path of, for a member from which the target is reached without it. */
  lemma LastLeave(t: Tables, target: Identity, id: Identity, path: seq<PK>) returns (m: Identity)
    requires id != target && Avoids(GroupGraph(t.groups), id, target, Groups(path))
    ensures id.GroupId? && id.pk in t.groups && !t.groups[id.pk].deleted && id.pk !in path && m in t.groups[id.pk].members
    ensures Avoids(GroupGraph(t.groups), m, target, Groups(path + [id.pk]))
  {
    var n: nat :| AvoidIn(GroupGraph(t.groups), id, target, Groups(path), n);
    m := LeaveForGood(GroupGraph(t.groups), id, target, Groups(path), n);
    assert id !in Groups(path);
    GroupsPush(t.groups, path, id.pk);
  }

  lemma {:induction false} ReachSound(t: Tables, target: Identity, id: Identity, grant: Grant, path: seq<PK>, f: Found)
    requires f in Reach(t, target, id, grant, path)
    ensures Accurate(t, f) && Reaches(GroupGraph(t.groups), id, target) && Reaches(RoleGraph(t.roles), grant, Perm(f.source.permission))
    decreases GroupGraph(t.groups).Keys - Groups(path), 0
  {
    if id == target {
      ReachesSelf(GroupGraph(t.groups), id);
      ExpandSound(t, grant, path, [], f);
    } else {
      GroupsPush(t.groups, path, id.pk);
      var m := ReachAllSound(t, target, t.groups[id.pk].members, grant, path + [id.pk], f);
      assert Edge(GroupGraph(t.groups), id, m);
      ReachesCons(GroupGraph(t.groups), id, m, target);
    }
  }

  lemma {:induction false} ReachAllSound(t: Tables, target: Identity, members: seq<Identity>, grant: Grant, path: seq<PK>, f: Found)
    returns (m: Identity)
    requires f in ReachAll(t, target, members, grant, path)
    ensures m in members && Reaches(GroupGraph(t.groups), m, target)
    ensures Accurate(t, f) && Reaches(RoleGraph(t.roles), grant, Perm(f.source.permission))
    decreases GroupGraph(t.groups).Keys - Groups(path), |members|
  {
    if f in Reach(t, target, members[0], grant, path) {
      ReachSound(t, target, members[0], grant, path, f);
      m := members[0];
    } else {
      m := ReachAllSound(t, target, members[1..], grant, path, f);
    }
  }

  lemma {:induction false} ReachComplete(t: Tables, target: Identity, id: Identity, grant: Grant, path: seq<PK>, p: PK) returns (f: Found)
    requires p in t.permissions && Avoids(GroupGraph(t.groups), id, target, Groups(path)) && Reaches(RoleGraph(t.roles), grant, Perm(p))
    ensures f in Reach(t, target, id, grant, path) && f.source.permission == p
    decreases GroupGraph(t.groups).Keys - Groups(path), 0
  {
    if id == target {
      f := GrantComplete(t, grant, path, p);
    } else {
      var m := LastLeave(t, target, id, path);
      GroupsPush(t.groups, path, id.pk);
      f := ReachAllComplete(t, target, t.groups[id.pk].members, grant, path + [id.pk], m, p);
    }
  }

  lemma {:induction false} ReachAllComplete(t: Tables, target: Identity, members: seq<Identity>, grant: Grant, path: seq<PK>,
                                            m: Identity, p: PK)
    returns (f: Found)
    requires p in t.permissions && m in members
    requires Avoids(GroupGraph(t.groups), m, target, Groups(path)) && Reaches(RoleGraph(t.roles), grant, Perm(p))
    ensures f in ReachAll(t, target, members, grant, path) && f.source.permission == p
    decreases GroupGraph(t.groups).Keys - Groups(path), |members|
  {
    if members[0] == m {
      f := ReachComplete(t, target, m, grant, path, p);
    } else {
      f := ReachAllComplete(t, target, members[1..], grant, path, m, p);
    }
  }

  function Here(f: Found, resource: PK): seq<Source> {
    if f.resource == resource then [f.source] else []
  }

  /** The sources found on one resource, in order. */
  function On(fs: seq<Found>, resource: PK): seq<Source> {
    if fs == [] then [] else Here(fs[0], resource) + On(fs[1..], resource)
  }

  lemma {:induction false} OnConcat(a: seq<Found>, b: seq<Found>, resource: PK)
    ensures On(a + b, resource) == On(a, resource) + On(b, resource)
  {
    if a == [] {
      assert a + b == b;
    } else {
      calc {
        On(a + b, resource);
        { assert (a + b)[0] == a[0] && (a + b)[1..] == a[1..] + b; }
        Here(a[0], resource) + On(a[1..] + b, resource);
        { OnConcat(a[1..], b, resource); }
        Here(a[0], resource) + (On(a[1..], resource) + On(b, resource));
        On(a, resource) + On(b, resource);
      }
    }
  }

  lemma OnSnoc(a: seq<Found>, f: Found, resource: PK)
    ensures On(a + [f], resource) == On(a, resource) + Here(f, resource)
  {
    OnConcat(a, [f], resource);
  }

  lemma {:induction false} OnHas(fs: seq<Found>, resource: PK, s: Source)
    ensures s in On(fs, resource) <==> Found(resource, s) in fs
  {
    if fs != [] {
      OnHas(fs[1..], resource, s);
      assert fs == [fs[0]] + fs[1..];
    }
  }

  function AddFound(m: map<PK, Rights>, f: Found): map<PK, Rights> {
    m[f.resource := AddSource(Find(m, f.resource), f.source)]
  }

  lemma AddFoundTidy(m: map<PK, Rights>, f: Found)
    requires Tidy(m)
    ensures Tidy(AddFound(m, f)) && forall r :: Find(AddFound(m, f), r).sources == Find(m, r).sources + Here(f, r)
  {
    AddSourceTallied(Find(m, f.resource), f.source);
  }

  /** The resources and rights found, by resource. */
  method Collect(found: seq<Found>) returns (y: map<PK, Rights>)
    ensures Tidy(y)
    ensures forall r :: Find(y, r).sources == On(found, r)
  {
    y := map[];
    for i := 0 to |found|
      invariant Tidy(y)
      invariant forall r :: Find(y, r).sources == On(found[..i], r)
    {
      AddFoundTidy(y, found[i]);
      assert found[..i + 1] == found[..i] + [found[i]];
      forall r ensures Find(AddFound(y, found[i]), r).sources == On(found[..i + 1], r) {
        OnSnoc(found[..i], found[i], r);
      }
      y := AddFound(y, found[i]);
    }
    assert found[..|found|] == found;
  }

  lemma {:induction false} AllFoundSound(t: Tables, target: Identity, rows: seq<AclRow>, f: Found) returns (row: AclRow)
    requires f in AllFound(t, target, rows)
    ensures row in rows && Accurate(t, f)
    ensures Reaches(GroupGraph(t.groups), row.identity, target) && Reaches(RoleGraph(t.roles), row.grant, Perm(f.source.permission))
    decreases |rows|
  {
    if f in Reach(t, target, rows[0].identity, rows[0].grant, []) {
      row := rows[0];
      ReachSound(t, target, row.identity, row.grant, [], f);
    } else {
      row := AllFoundSound(t, target, rows[1..], f);
    }
  }

  lemma {:induction false} AllFoundComplete(t: Tables, target: Identity, rows: seq<AclRow>, row: AclRow, p: PK) returns (f: Found)
    requires row in rows && p in t.permissions
    requires Reaches(GroupGraph(t.groups), row.identity, target) && Reaches(RoleGraph(t.roles), row.grant, Perm(p))
    ensures f in AllFound(t, target, rows) && f.source.permission == p
    decreases |rows|
  {
    if rows[0] == row {
      ReachesAvoids(GroupGraph(t.groups), row.identity, target);
      assert Groups([]) == {};
      f := ReachComplete(t, target, row.identity, row.grant, [], p);
    } else {
      f := AllFoundComplete(t, target, rows[1..], row, p);
    }
  }

  /** A source on a resource is a granted permission's, as that permission now stands. */
  lemma SourceGranted(t: Tables, target: Identity, resource: PK, s: Source)
    requires s in On(AllFound(t, target, t.acl), resource)
    ensures s.permission in GrantedKeys(t, target) && t.permissions[s.permission] == Permission(resource, s.allowed, s.denied)
  {
    OnHas(AllFound(t, target, t.acl), resource, s);
    var row := AllFoundSound(t, target, t.acl, Found(resource, s));
  }

  lemma GrantedSource(t: Tables, target: Identity, p: PK) returns (s: Source)
    requires p in GrantedKeys(t, target)
    ensures s in On(AllFound(t, target, t.acl), t.permissions[p].resource)
    ensures s.permission == p && s.allowed == t.permissions[p].allowed && s.denied == t.permissions[p].denied
  {
    var row :| row in t.acl && Reaches(GroupGraph(t.groups), row.identity, target) && Reaches(RoleGraph(t.roles), row.grant, Perm(p));
    var f := AllFoundComplete(t, target, t.acl, row, p);
    var row' := AllFoundSound(t, target, t.acl, f);
    s := f.source;
    OnHas(AllFound(t, target, t.acl), f.resource, s);
  }

  predicate Names(s: Source, p: PK, permission: Permission) {
    s.permission == p && s.allowed == permission.allowed && s.denied == permission.denied
  }

  /** Sources that are the permissions held on a resource, each at least once, have their or. */
  lemma SourcesOf(held: map<PK, Permission>, resource: PK, r: Rights)
    requires Tallied(r)
    requires forall s :: s in r.sources ==> s.permission in held && held[s.permission] == Permission(resource, s.allowed, s.denied)
    requires forall p :: p in held && held[p].resource == resource ==> exists s :: s in r.sources && Names(s, p, held[p])
    ensures r.rights.allowed == AllowedOn(held, resource) && r.rights.denied == DeniedOn(held, resource)
    ensures r.sources != [] <==> resource in RightsOf(held)
  {
    assert r.sources != [] ==> r.sources[0] in r.sources;
  }

  /** The rights a resource's sources or up to are those of the permissions granted on it. */
  lemma SourcesOr(t: Tables, target: Identity, resource: PK, r: Rights)
    requires Tallied(r) && r.sources == On(AllFound(t, target, t.acl), resource)
    ensures var held := Restrict(t.permissions, GrantedKeys(t, target));
            && (r.sources != [] <==> resource in RightsOf(held))
            && r.rights == AllowedDenied(AllowedOn(held, resource), DeniedOn(held, resource))
  {
    var held := Restrict(t.permissions, GrantedKeys(t, target));
    forall s | s in r.sources
      ensures s.permission in held && held[s.permission] == Permission(resource, s.allowed, s.denied)
    {
      SourceGranted(t, target, resource, s);
    }
    forall p | p in held && held[p].resource == resource
      ensures exists s :: s in r.sources && Names(s, p, held[p])
    {
      var s := GrantedSource(t, target, p);
      assert Names(s, p, held[p]);
    }
    SourcesOf(held, resource, r);
  }

  /** An identity's rights on one resource. */
  ghost function RightsFor(t: Tables, target: Identity, resource: PK): Rights {
    Tally(On(AllFound(t, target, t.acl), resource))
  }

  /** One identity's rights, resource by resource:  each the sources found on it, or'd up to exactly what the rows grant
      the identity there. */
  method IdentityRights(t: Tables, target: Identity) returns (y: map<PK, Rights>)
    ensures Tidy(y) && forall r :: Find(y, r) == RightsFor(t, target, r)
    ensures var held := RightsOf(Restrict(t.permissions, GrantedKeys(t, target)));
            y.Keys == held.Keys && forall r :: r in y ==> y[r].rights == held[r]
  {
    var found := [];
    for i := 0 to |t.acl|
      invariant found + AllFound(t, target, t.acl[i..]) == AllFound(t, target, t.acl)
    {
      assert t.acl[i..][1..] == t.acl[i + 1..];
      found := found + Reach(t, target, t.acl[i].identity, t.acl[i].grant, []);
    }
    assert found == AllFound(t, target, t.acl);
    y := Collect(found);
    forall r ensures (r in y <==> r in RightsOf(Restrict(t.permissions, GrantedKeys(t, target))))
                  && (r in y ==> y[r].rights == RightsOf(Restrict(t.permissions, GrantedKeys(t, target)))[r])
    {
      SourcesOr(t, target, r, Find(y, r));
    }
  }

  // ---- Everyone a resource's grants reach ----

  function Relabel(ss: seq<Source>, groups: seq<PK>): seq<Source> {
    if ss == [] then [] else [ss[0].(groups := groups)] + Relabel(ss[1..], groups)
  }

  /** Every source along every way. */
  function Along(ss: seq<Source>, ways: seq<seq<PK>>): seq<Source> {
    if ways == [] then [] else Relabel(ss, ways[0]) + Along(ss, ways[1..])
  }

  /** The group paths from an acl identity to the target, in the order the walk meets them. */
  function Ways(t: Tables, target: Identity, id: Identity, path: seq<PK>): seq<seq<PK>>
    decreases GroupGraph(t.groups).Keys - Groups(path), 0
  {
    if id == target then [path]
    else if id.UserId? || id.pk !in t.groups || t.groups[id.pk].deleted || id.pk in path then []
    else
      GroupsPush(t.groups, path, id.pk);
      WaysAll(t, target, t.groups[id.pk].members, path + [id.pk])
  }

  function WaysAll(t: Tables, target: Identity, members: seq<Identity>, path: seq<PK>): seq<seq<PK>>
    decreases GroupGraph(t.groups).Keys - Groups(path), |members|
  {
    if members == [] then [] else Ways(t, target, members[0], path) + WaysAll(t, target, members[1..], path)
  }

  lemma {:induction false} RelabelConcat(a: seq<Source>, b: seq<Source>, w: seq<PK>)
    ensures Relabel(a + b, w) == Relabel(a, w) + Relabel(b, w)
  {
    if a == [] {
      assert a + b == b;
    } else {
      RelabelConcat(a[1..], b, w);
      assert (a + b)[1..] == a[1..] + b;
    }
  }

  lemma {:induction false} AlongConcat(ss: seq<Source>, a: seq<seq<PK>>, b: seq<seq<PK>>)
    ensures Along(ss, a + b) == Along(ss, a) + Along(ss, b)
  {
    if a == [] {
      assert a + b == b;
    } else {
      AlongConcat(ss, a[1..], b);
      assert (a + b)[1..] == a[1..] + b;
    }
  }

  lemma {:induction false} ExpandLabels(t: Tables, grant: Grant, w: seq<PK>, path: seq<PK>, r: PK)
    ensures On(Expand(t, grant, w, path), r) == Relabel(On(Expand(t, grant, [], path), r), w)
    decreases RoleGraph(t.roles).Keys - Roles(path), 0
  {
    if grant.RoleOf? && grant.pk in t.roles && !t.roles[grant.pk].deleted && grant.pk !in path {
      RolesPush(t.roles, path, grant.pk);
      ExpandAllLabels(t, t.roles[grant.pk].members, w, path + [grant.pk], r);
    }
  }

  lemma {:induction false} ExpandAllLabels(t: Tables, members: seq<Grant>, w: seq<PK>, path: seq<PK>, r: PK)
    ensures On(ExpandAll(t, members, w, path), r) == Relabel(On(ExpandAll(t, members, [], path), r), w)
    decreases RoleGraph(t.roles).Keys - Roles(path), |members|
  {
    if members != [] {
      ExpandLabels(t, members[0], w, path, r);
      ExpandAllLabels(t, members[1..], w, path, r);
      OnConcat(Expand(t, members[0], w, path), ExpandAll(t, members[1..], w, path), r);
      OnConcat(Expand(t, members[0], [], path), ExpandAll(t, members[1..], [], path), r);
      RelabelConcat(On(Expand(t, members[0], [], path), r), On(ExpandAll(t, members[1..], [], path), r), w);
    }
  }

  /** What one grant comes to on one resource. */
  function GrantOn(t: Tables, grant: Grant, resource: PK): seq<Source> {
    On(Expand(t, grant, [], []), resource)
  }

  /** Walking to the target and expanding the grant there is expanding it once and carrying it along every way. */
  lemma {:induction false} ReachAlong(t: Tables, target: Identity, id: Identity, grant: Grant, path: seq<PK>, r: PK)
    ensures On(Reach(t, target, id, grant, path), r) == Along(GrantOn(t, grant, r), Ways(t, target, id, path))
    decreases GroupGraph(t.groups).Keys - Groups(path), 0
  {
    if id == target {
      ExpandLabels(t, grant, path, [], r);
    } else if id.GroupId? && id.pk in t.groups && !t.groups[id.pk].deleted && id.pk !in path {
      GroupsPush(t.groups, path, id.pk);
      ReachAllAlong(t, target, t.groups[id.pk].members, grant, path + [id.pk], r);
    }
  }

  lemma {:induction false} ReachAllAlong(t: Tables, target: Identity, members: seq<Identity>, grant: Grant, path: seq<PK>, r: PK)
    ensures On(ReachAll(t, target, members, grant, path), r) == Along(GrantOn(t, grant, r), WaysAll(t, target, members, path))
    decreases GroupGraph(t.groups).Keys - Groups(path), |members|
  {
    if members != [] {
      ReachAlong(t, target, members[0], grant, path, r);
      ReachAllAlong(t, target, members[1..], grant, path, r);
      OnConcat(Reach(t, target, members[0], grant, path), ReachAll(t, target, members[1..], grant, path), r);
      AlongConcat(GrantOn(t, grant, r), Ways(t, target, members[0], path), WaysAll(t, target, members[1..], path));
    }
  }
}
