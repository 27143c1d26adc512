/** Everyone one resource's grants reach:  the transpose of each identity's own rights, computed grant by grant. */
module AccessHolders {
  import opened AccessTables
  import opened AccessPaths
  import opened Options

  datatype Holders = Holders(roles: map<PK, Rights>, groups: map<PK, Rights>, users: map<PK, Rights>)

  function At(y: Holders, target: Identity): Rights {
    if target.UserId? then Find(y.users, target.pk) else Find(y.groups, target.pk)
  }

  ghost predicate AllTidy(y: Holders) {
    Tidy(y.roles) && Tidy(y.groups) && Tidy(y.users)
  }

  predicate Live(t: Tables, target: Identity) {
    if target.UserId? then target.pk in t.users && !t.users[target.pk].deleted else target.pk in t.groups && !t.groups[target.pk].deleted
  }

  predicate LiveRole(t: Tables, role: PK) {
    role in t.roles && !t.roles[role].deleted
  }

  // ---- Roles:  sources relative to the role being expanded ----

  function Shorten(ss: seq<Source>): seq<Source> {
    if ss == [] then [] else [ss[0].(roles := if ss[0].roles == [] then [] else ss[0].roles[1..])] + Shorten(ss[1..])
  }

  function Prefixed(ss: seq<Source>, role: PK): seq<Source> {
    if ss == [] then [] else [ss[0].(roles := [role] + ss[0].roles)] + Prefixed(ss[1..], role)
  }

  lemma {:induction false} ShortenConcat(a: seq<Source>, b: seq<Source>)
    ensures Shorten(a + b) == Shorten(a) + Shorten(b)
  {
    if a == [] {
      assert a + b == b;
    } else {
      calc {
        Shorten(a + b);
        { assert (a + b)[0] == a[0] && (a + b)[1..] == a[1..] + b; }
        Shorten(a)[..1] + Shorten(a[1..] + b);
        { ShortenConcat(a[1..], b); }
        Shorten(a)[..1] + (Shorten(a[1..]) + Shorten(b));
        Shorten(a) + Shorten(b);
      }
    }
  }

  ghost predicate Under(ss: seq<Source>, role: PK) {
    forall s :: s in ss ==> s.roles != [] && s.roles[0] == role
  }

  lemma {:induction false} PrefixShorten(ss: seq<Source>, role: PK)
    requires Under(ss, role)
    ensures Prefixed(Shorten(ss), role) == ss
  {
    if ss != [] {
      assert ss[0] in ss && forall s :: s in ss[1..] ==> s in ss;
      PrefixShorten(ss[1..], role);
      assert [role] + ss[0].roles[1..] == ss[0].roles;
    }
  }

  lemma {:induction false} ExpandUnder(t: Tables, grant: Grant, path: seq<PK>, f: Found)
    requires path != [] && f in Expand(t, grant, [], path)
    ensures f.source.roles != [] && f.source.roles[0] == path[0]
    decreases RoleGraph(t.roles).Keys - Roles(path), 0
  {
    if grant.RoleOf? {
      RolesPush(t.roles, path, grant.pk);
      ExpandAllUnder(t, t.roles[grant.pk].members, path + [grant.pk], f);
    }
  }

  lemma {:induction false} ExpandAllUnder(t: Tables, members: seq<Grant>, path: seq<PK>, f: Found)
    requires path != [] && f in ExpandAll(t, members, [], path)
    ensures f.source.roles != [] && f.source.roles[0] == path[0]
    decreases RoleGraph(t.roles).Keys - Roles(path), |members|
  {
    if f in Expand(t, members[0], [], path) {
      ExpandUnder(t, members[0], path, f);
    } else {
      ExpandAllUnder(t, members[1..], path, f);
    }
  }

  lemma RoleUnder(t: Tables, role: PK, resource: PK)
    ensures Under(GrantOn(t, RoleOf(role), resource), role)
  {
    forall s | s in GrantOn(t, RoleOf(role), resource) ensures s.roles != [] && s.roles[0] == role {
      OnHas(Expand(t, RoleOf(role), [], []), resource, s);
      ExpandAllUnder(t, t.roles[role].members, [] + [role], Found(resource, s));
    }
  }

  lemma {:induction false} ExpandAllSnoc(t: Tables, members: seq<Grant>, m: Grant, path: seq<PK>)
    ensures ExpandAll(t, members + [m], [], path) == ExpandAll(t, members, [], path) + Expand(t, m, [], path)
    decreases |members|
  {
    if members == [] {
      assert members + [m] == [m] && [m][1..] == [];
    } else {
      calc {
        ExpandAll(t, members + [m], [], path);
        { assert (members + [m])[0] == members[0] && (members + [m])[1..] == members[1..] + [m]; }
        Expand(t, members[0], [], path) + ExpandAll(t, members[1..] + [m], [], path);
        { ExpandAllSnoc(t, members[1..], m, path); }
        Expand(t, members[0], [], path) + (ExpandAll(t, members[1..], [], path) + Expand(t, m, [], path));
        ExpandAll(t, members, [], path) + Expand(t, m, [], path);
      }
    }
  }

  ghost function RoleOn(t: Tables, members: seq<Grant>, path: seq<PK>, resource: PK): seq<Source> {
    Shorten(On(ExpandAll(t, members, [], path), resource))
  }

  lemma RoleOnSnoc(t: Tables, members: seq<Grant>, m: Grant, path: seq<PK>, resource: PK)
    ensures RoleOn(t, members + [m], path, resource) == RoleOn(t, members, path, resource) + MemberOn(t, m, path, resource)
  {
    ExpandAllSnoc(t, members, m, path);
    OnConcat(ExpandAll(t, members, [], path), Expand(t, m, [], path), resource);
    ShortenConcat(On(ExpandAll(t, members, [], path), resource), On(Expand(t, m, [], path), resource));
  }

  ghost function MemberOn(t: Tables, m: Grant, path: seq<PK>, resource: PK): seq<Source> {
    Shorten(On(Expand(t, m, [], path), resource))
  }

  lemma PermOn(t: Tables, pk: PK, path: seq<PK>, resource: PK)
    requires path != []
    ensures MemberOn(t, Perm(pk), path, resource)
         == if pk in t.permissions && t.permissions[pk].resource == resource
            then [Source(pk, t.permissions[pk].allowed, t.permissions[pk].denied, [], path[1..])] else []
  {
    if pk in t.permissions {
      var s := Source(pk, t.permissions[pk].allowed, t.permissions[pk].denied, [], path);
      var f := Found(t.permissions[pk].resource, s);
      assert Expand(t, Perm(pk), [], path) == [f];
      OneOn(f, resource);
      OneShortened(s);
    }
  }

  lemma OneShortened(s: Source)
    requires s.roles != []
    ensures Shorten([s]) == [s.(roles := s.roles[1..])]
  {
    assert [s][1..] == [];
  }

  lemma OneOn(f: Found, resource: PK)
    ensures On([f], resource) == Here(f, resource)
  {
    assert [f][1..] == [];
  }

  lemma RoleMemberOn(t: Tables, pk: PK, path: seq<PK>, resource: PK)
    requires path != []
    ensures MemberOn(t, RoleOf(pk), path, resource)
         == if LiveRole(t, pk) && pk !in path then RoleOn(t, t.roles[pk].members, path + [pk], resource) else []
  {
  }

  /** What a role's members come to on the resource, the role at the head of the path left off. */
  method ExpandRole(t: Tables, resource: PK, members: seq<Grant>, path: seq<PK>) returns (sources: seq<Source>)
    requires path != []
    ensures sources == RoleOn(t, members, path, resource)
    decreases RoleGraph(t.roles).Keys - Roles(path), 1
  {
    sources := [];
    for i := 0 to |members|
      invariant sources == RoleOn(t, members[..i], path, resource)
    {
      RoleOnSnoc(t, members[..i], members[i], path, resource);
      assert members[..i + 1] == members[..i] + [members[i]];
      var more := ExpandMember(t, resource, members[i], path);
      sources := sources + more;
    }
    assert members[..|members|] == members;
  }

  method ExpandMember(t: Tables, resource: PK, m: Grant, path: seq<PK>) returns (sources: seq<Source>)
    requires path != []
    ensures sources == MemberOn(t, m, path, resource)
    decreases RoleGraph(t.roles).Keys - Roles(path), 0
  {
    sources := [];
    if m.Perm? {
      PermOn(t, m.pk, path, resource);
      if m.pk in t.permissions && t.permissions[m.pk].resource == resource {
        sources := [Source(m.pk, t.permissions[m.pk].allowed, t.permissions[m.pk].denied, [], path[1..])];
      }
    } else {
      RoleMemberOn(t, m.pk, path, resource);
      if LiveRole(t, m.pk) && m.pk !in path {
        RolesPush(t.roles, path, m.pk);
        sources := ExpandRole(t, resource, t.roles[m.pk].members, path + [m.pk]);
      }
    }
  }

  /** Every live role holding a permission on the resource, and the sources of each. */
  method RoleHolders(t: Tables, resource: PK) returns (y: map<PK, Rights>)
    ensures Tidy(y)
    ensures forall r :: Find(y, r).sources == if LiveRole(t, r) then Shorten(GrantOn(t, RoleOf(r), resource)) else []
  {
    y := map[];
    var todo := t.roles.Keys;
    while todo != {}
      invariant todo <= t.roles.Keys && Tidy(y)
      invariant forall r :: Find(y, r).sources == if LiveRole(t, r) && r !in todo then Shorten(GrantOn(t, RoleOf(r), resource)) else []
      decreases todo
    {
      var role :| role in todo;
      todo := todo - {role};
      if !t.roles[role].deleted {
        assert [] + [role] == [role];
        var sources := ExpandRole(t, resource, t.roles[role].members, [role]);
        assert Find(y, role).sources == [];
        if sources != [] {
          var holder := AddEach(NO_RIGHTS, sources);
          y := y[role := holder];
        }
      }
    }
  }

  method AddEach(holder: Rights, sources: seq<Source>) returns (r: Rights)
    requires Tallied(holder)
    ensures Tallied(r) && r.sources == holder.sources + sources
  {
    r := holder;
    for i := 0 to |sources|
      invariant Tallied(r) && r.sources == holder.sources + sources[..i]
    {
      AddSourceTallied(r, sources[i]);
      r := AddSource(r, sources[i]);
    }
  }

  lemma {:induction false} RelabelAt(ss: seq<Source>, w: seq<PK>, i: nat)
    requires i <= |ss|
    ensures |Relabel(ss, w)| == |ss| && (i < |ss| ==> Relabel(ss, w)[i] == ss[i].(groups := w))
  {
    if ss != [] {
      RelabelAt(ss[1..], w, if i == 0 then 0 else i - 1);
    }
  }

  /** The sources under the path they were carried along. */
  method AddAll(m: map<PK, Rights>, k: PK, sources: seq<Source>, groups: seq<PK>) returns (r: map<PK, Rights>)
    requires Tidy(m) && sources != []
    ensures Tidy(r)
    ensures forall j :: Find(r, j).sources == Find(m, j).sources + if j == k then Relabel(sources, groups) else []
  {
    var carried := seq(|sources|, i requires 0 <= i < |sources| => sources[i].(groups := groups));
    forall i | 0 <= i < |sources| ensures |Relabel(sources, groups)| == |sources| && carried[i] == Relabel(sources, groups)[i] {
      RelabelAt(sources, groups, i);
    }
    RelabelAt(sources, groups, 0);
    assert carried == Relabel(sources, groups);
    var holder := AddEach(Find(m, k), carried);
    r := m[k := holder];
  }

  // ---- Users and groups ----

  /** A group is not met again under itself. */
  predicate Open(t: Tables, target: Identity, path: seq<PK>) {
    Live(t, target) && (target.GroupId? ==> target.pk !in path)
  }

  /** What the walk under an identity adds to one holder. */
  ghost function Gain(t: Tables, target: Identity, id: Identity, path: seq<PK>, sources: seq<Source>): seq<Source> {
    if Open(t, target, path) then Along(sources, Ways(t, target, id, path)) else []
  }

  ghost function GainAll(t: Tables, target: Identity, members: seq<Identity>, path: seq<PK>, sources: seq<Source>): seq<Source> {
    if Open(t, target, path) then Along(sources, WaysAll(t, target, members, path)) else []
  }

  lemma {:induction false} WaysAllSnoc(t: Tables, target: Identity, members: seq<Identity>, m: Identity, path: seq<PK>)
    ensures WaysAll(t, target, members + [m], path) == WaysAll(t, target, members, path) + Ways(t, target, m, path)
    decreases |members|
  {
    if members == [] {
      assert members + [m] == [m] && [m][1..] == [];
    } else {
      calc {
        WaysAll(t, target, members + [m], path);
        { assert (members + [m])[0] == members[0] && (members + [m])[1..] == members[1..] + [m]; }
        Ways(t, target, members[0], path) + WaysAll(t, target, members[1..] + [m], path);
        { WaysAllSnoc(t, target, members[1..], m, path); }
        Ways(t, target, members[0], path) + (WaysAll(t, target, members[1..], path) + Ways(t, target, m, path));
        WaysAll(t, target, members, path) + Ways(t, target, m, path);
      }
    }
  }

  lemma GainAllSnoc(t: Tables, target: Identity, members: seq<Identity>, m: Identity, path: seq<PK>, sources: seq<Source>)
    ensures GainAll(t, target, members + [m], path, sources) == GainAll(t, target, members, path, sources) + Gain(t,
        target, m, path, sources)
  {
    WaysAllSnoc(t, target, members, m, path);
    AlongConcat(sources, WaysAll(t, target, members, path), Ways(t, target, m, path));
  }

  lemma AlongOne(sources: seq<Source>, w: seq<PK>)
    ensures Along(sources, [w]) == Relabel(sources, w)
  {
    assert [w][1..] == [];
  }

  /** What entering an identity adds before anything under it. */
  function Entry(target: Identity, id: Identity, path: seq<PK>, sources: seq<Source>): seq<Source> {
    if target == id then Relabel(sources, path) else []
  }

  /** A user is reached where the walk stands, a group there and nowhere under itself, and what is under a group is under its members. */
  lemma GainHere(t: Tables, target: Identity, id: Identity, path: seq<PK>, sources: seq<Source>)
    ensures id.UserId? ==> Gain(t, target, id, path, sources) == if Live(t, id) then Entry(target, id, path, sources) else []
    ensures id.GroupId? && !Open(t, id, path) ==> Gain(t, target, id, path, sources) == []
    ensures id.GroupId? && Open(t, id, path) ==>
              Gain(t, target, id, path, sources) == Entry(target, id, path, sources)
                                                  + GainAll(t, target, t.groups[id.pk].members, path + [id.pk], sources)
  {
    AlongOne(sources, path);
  }

  /** Every holder has what it had, and what the walk under the identity adds. */
  ghost predicate Gained(t: Tables, y: Holders, r: Holders, id: Identity, path: seq<PK>, sources: seq<Source>) {
    forall target :: At(r, target).sources == At(y, target).sources + Gain(t, target, id, path, sources)
  }

  ghost predicate GainedAll(t: Tables, y: Holders, r: Holders, members: seq<Identity>, path: seq<PK>, sources: seq<Source>) {
    forall target :: At(r, target).sources == At(y, target).sources + GainAll(t, target, members, path, sources)
  }

  lemma GainedSnoc(t: Tables, y: Holders, q: Holders, r: Holders, members: seq<Identity>, m: Identity, path: seq<PK>, sources: seq<Source>)
    requires GainedAll(t, y, q, members, path, sources) && Gained(t, q, r, m, path, sources)
    ensures GainedAll(t, y, r, members + [m], path, sources)
  {
    forall target ensures At(r, target).sources == At(y, target).sources + GainAll(t, target, members + [m], path, sources) {
      GainAllSnoc(t, target, members, m, path, sources);
      assert At(q, target).sources == At(y, target).sources + GainAll(t, target, members, path, sources);
    }
  }

  lemma GainedEnter(t: Tables, y: Holders, q: Holders, r: Holders, g: PK, path: seq<PK>, sources: seq<Source>)
    requires Open(t, GroupId(g), path)
    requires forall target :: At(q, target).sources == At(y, target).sources + Entry(target, GroupId(g), path, sources)
    requires GainedAll(t, q, r, t.groups[g].members, path + [g], sources)
    ensures Gained(t, y, r, GroupId(g), path, sources)
  {
    forall target ensures At(r, target).sources == At(y, target).sources + Gain(t, target, GroupId(g), path, sources) {
      calc {
        At(r, target).sources;
        At(q, target).sources + GainAll(t, target, t.groups[g].members, path + [g], sources);
        At(y, target).sources + Entry(target, GroupId(g), path, sources) + GainAll(t, target, t.groups[g].members, path + [g], sources);
        At(y, target).sources + (Entry(target, GroupId(g), path, sources) + GainAll(t, target, t.groups[g].members, path + [g], sources));
        { GainHere(t, target, GroupId(g), path, sources); }
        At(y, target).sources + Gain(t, target, GroupId(g), path, sources);
      }
    }
  }

  method ReachHolders(t: Tables, id: Identity, sources: seq<Source>, path: seq<PK>, y: Holders) returns (r: Holders)
    requires AllTidy(y) && sources != []
    ensures AllTidy(r) && r.roles == y.roles && Gained(t, y, r, id, path, sources)
    decreases GroupGraph(t.groups).Keys - Groups(path), 0
  {
    if id.GroupId? && Open(t, id, path) {
      var groups := AddAll(y.groups, id.pk, sources, path);
      r := y.(groups := groups);
      ghost var entered := r;
      GroupsPush(t.groups, path, id.pk);
      r := ReachMembers(t, t.groups[id.pk].members, sources, path + [id.pk], r);
      GainedEnter(t, y, entered, r, id.pk, path, sources);
    } else {
      r := y;
      if id.UserId? && Live(t, id) {
        var users := AddAll(y.users, id.pk, sources, path);
        r := y.(users := users);
      }
      forall target ensures At(r, target).sources == At(y, target).sources + Gain(t, target, id, path, sources) {
        GainHere(t, target, id, path, sources);
      }
    }
  }

  method ReachMembers(t: Tables, members: seq<Identity>, sources: seq<Source>, path: seq<PK>, y: Holders) returns (r: Holders)
    requires AllTidy(y) && sources != []
    ensures AllTidy(r) && r.roles == y.roles && GainedAll(t, y, r, members, path, sources)
    decreases GroupGraph(t.groups).Keys - Groups(path), 1
  {
    r := y;
    for i := 0 to |members|
      invariant AllTidy(r) && r.roles == y.roles && GainedAll(t, y, r, members[..i], path, sources)
    {
      ghost var was := r;
      r := ReachHolders(t, members[i], sources, path, r);
      assert members[..i + 1] == members[..i] + [members[i]];
      GainedSnoc(t, y, was, r, members[..i], members[i], path, sources);
    }
    assert members[..|members|] == members;
  }

  // ---- The acl ----

  /** Expanded before the walk:  the permission itself, or a live role's sources with the role put back at their head. */
  function SourcesFor(t: Tables, roles: map<PK, Rights>, grant: Grant, resource: PK): seq<Source> {
    match grant
    case Perm(p) =>
      if p in t.permissions && t.permissions[p].resource == resource then
        [Source(p, t.permissions[p].allowed, t.permissions[p].denied, [], [])]
      else []
    case RoleOf(r) => if r in roles then Prefixed(roles[r].sources, r) else []
  }

  lemma SourcesForGrant(t: Tables, roles: map<PK, Rights>, grant: Grant, resource: PK)
    requires Tidy(roles)
    requires forall r :: Find(roles, r).sources == if LiveRole(t, r) then Shorten(GrantOn(t, RoleOf(r), resource)) else []
    ensures SourcesFor(t, roles, grant, resource) == GrantOn(t, grant, resource)
  {
    if grant.RoleOf? {
      RoleUnder(t, grant.pk, resource);
      PrefixShorten(GrantOn(t, grant, resource), grant.pk);
      assert grant.pk !in roles ==> Find(roles, grant.pk).sources == [];
    } else {
      assert On(Expand(t, grant, [], []), resource) == if grant.pk in t.permissions
          then Here(Expand(t, grant, [], [])[0], resource) else [];
    }
  }

  /** What one acl row's walk adds is what the row's own walk to the target finds on the resource. */
  lemma RowGain(t: Tables, target: Identity, row: AclRow, resource: PK)
    ensures Gain(t, target, row.identity, [], GrantOn(t, row.grant, resource))
         == if Live(t, target) then On(Reach(t, target, row.identity, row.grant, []), resource) else []
  {
    ReachAlong(t, target, row.identity, row.grant, [], resource);
  }

  lemma {:induction false} AlongNothing(ways: seq<seq<PK>>)
    ensures Along([], ways) == []
  {
    if ways != [] {
      AlongNothing(ways[1..]);
    }
  }

  lemma {:induction false} AllFoundSnoc(t: Tables, target: Identity, rows: seq<AclRow>, row: AclRow)
    ensures AllFound(t, target, rows + [row]) == AllFound(t, target, rows) + Reach(t, target, row.identity, row.grant, [])
    decreases |rows|
  {
    if rows == [] {
      assert rows + [row] == [row] && [row][1..] == [];
    } else {
      calc {
        AllFound(t, target, rows + [row]);
        { assert (rows + [row])[0] == rows[0] && (rows + [row])[1..] == rows[1..] + [row]; }
        Reach(t, target, rows[0].identity, rows[0].grant, []) + AllFound(t, target, rows[1..] + [row]);
        { AllFoundSnoc(t, target, rows[1..], row); }
        Reach(t, target, rows[0].identity, rows[0].grant, []) + (AllFound(t, target, rows[1..]) + Reach(t, target,
            row.identity, row.grant, []));
        AllFound(t, target, rows) + Reach(t, target, row.identity, row.grant, []);
      }
    }
  }

  ghost function FoundFor(t: Tables, target: Identity, rows: seq<AclRow>, resource: PK): seq<Source> {
    if Live(t, target) then On(AllFound(t, target, rows), resource) else []
  }

  lemma FoundSnoc(t: Tables, y: Holders, r: Holders, rows: seq<AclRow>, row: AclRow, resource: PK)
    requires FoundAll(t, y, rows, resource) && Gained(t, y, r, row.identity, [], GrantOn(t, row.grant, resource))
    ensures FoundAll(t, r, rows + [row], resource)
  {
    forall target ensures At(r, target).sources == FoundFor(t, target, rows + [row], resource) {
      RowGain(t, target, row, resource);
      AllFoundSnoc(t, target, rows, row);
      OnConcat(AllFound(t, target, rows), Reach(t, target, row.identity, row.grant, []), resource);
    }
  }

  ghost predicate FoundAll(t: Tables, y: Holders, rows: seq<AclRow>, resource: PK) {
    forall target :: At(y, target).sources == FoundFor(t, target, rows, resource)
  }

  /** One acl row's walk, over the sources its grant comes to. */
  method AddRowHolders(t: Tables, resource: PK, row: AclRow, y: Holders) returns (r: Holders)
    requires AllTidy(y)
    requires forall k :: Find(y.roles, k).sources == if LiveRole(t, k) then Shorten(GrantOn(t, RoleOf(k), resource)) else []
    ensures AllTidy(r) && r.roles == y.roles && Gained(t, y, r, row.identity, [], GrantOn(t, row.grant, resource))
  {
    var sources := SourcesFor(t, y.roles, row.grant, resource);
    SourcesForGrant(t, y.roles, row.grant, resource);
    r := y;
    if sources != [] {
      r := ReachHolders(t, row.identity, sources, [], y);
    } else {
      forall target ensures Gain(t, target, row.identity, [], sources) == [] {
        AlongNothing(Ways(t, target, row.identity, []));
      }
    }
  }

  lemma HoldersAre(t: Tables, y: Holders, resource: PK)
    requires AllTidy(y) && FoundAll(t, y, t.acl, resource)
    ensures forall target :: At(y, target) == if Live(t, target) then RightsFor(t, target, resource) else NO_RIGHTS
  {
  }

  /** Nothing for a resource the cache never saw;  otherwise every live user and group with exactly the rights its own walk finds on
      the resource, sources, paths and order alike, and every live role with its own. */
  method ResourceHolders(t: Tables, resource: PK) returns (y: Option<Holders>)
    ensures y.None? <==> resource !in t.resources
    ensures y.Some? ==> AllTidy(y.value)
    ensures y.Some? ==> forall target :: At(y.value, target) == if Live(t, target) then RightsFor(t, target, resource) else NO_RIGHTS
    ensures y.Some? ==> forall r :: Find(y.value.roles, r) == if LiveRole(t, r)
        then Tally(Shorten(GrantOn(t, RoleOf(r), resource))) else NO_RIGHTS
  {
    if resource !in t.resources {
      return None;
    }
    var roles := RoleHolders(t, resource);
    var r := Holders(roles, map[], map[]);
    for i := 0 to |t.acl|
      invariant AllTidy(r) && r.roles == roles && FoundAll(t, r, t.acl[..i], resource)
    {
      var next := AddRowHolders(t, resource, t.acl[i], r);
      FoundSnoc(t, r, next, t.acl[..i], t.acl[i], resource);
      assert t.acl[..i + 1] == t.acl[..i] + [t.acl[i]];
      r := next;
    }
    assert t.acl[..|t.acl|] == t.acl;
    HoldersAre(t, r, resource);
    y := Some(r);
  }
}
