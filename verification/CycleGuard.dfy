/** The cycle checks made before a role or a group gets members. */
module CycleGuard {
  import opened Graphs
  import opened AccessTables

  /** Every role, deleted ones too, and the roles that are members of it. */
  function RoleChildren(roles: map<PK, Role>): Graph<PK> {
    map r | r in roles :: ChildRoles(roles[r].members)
  }

  function ChildRoles(members: seq<Grant>): (r: seq<PK>)
    ensures forall c :: c in r <==> RoleOf(c) in members
  {
    if members == [] then [] else
      assert forall x :: x in members <==> x == members[0] || x in members[1..];
      (if members[0].RoleOf? then [members[0].pk] else []) + ChildRoles(members[1..])
  }

  function GroupChildren(groups: map<PK, Group>): Graph<PK> {
    map g | g in groups :: ChildGroups(groups[g].members)
  }

  function ChildGroups(members: seq<Identity>): (r: seq<PK>)
    ensures forall c :: c in r <==> GroupId(c) in members
  {
    if members == [] then [] else
      assert forall x :: x in members <==> x == members[0] || x in members[1..];
      (if members[0].GroupId? then [members[0].pk] else []) + ChildGroups(members[1..])
  }

  ghost predicate Under(g: Graph<PK>, a: PK, b: PK) {
    exists c :: Edge(g, a, c) && Reaches(g, c, b)
  }

  ghost predicate Acyclic(g: Graph<PK>) {
    forall a :: !Under(g, a, a)
  }

  // ---- The search ----

  /** Every node of `done` has all its edges into `seen`, and none to the target. */
  ghost predicate Searched(g: Graph<PK>, done: set<PK>, seen: set<PK>, target: PK) {
    forall x, y :: x in done && Edge(g, x, y) ==> y in seen && y != target
  }

  lemma SearchedMore(g: Graph<PK>, done: set<PK>, seen: set<PK>, more: set<PK>, target: PK)
    requires Searched(g, done, seen, target) && Searched(g, more - seen, more, target) && seen <= more
    ensures Searched(g, done + (more - seen), more, target)
  {
  }

  lemma FoundUnder(g: Graph<PK>, parent: PK, m: PK, child: PK)
    requires Edge(g, parent, m) && (m == child || Under(g, m, child))
    ensures Under(g, parent, child)
  {
    if m == child {
      ReachesSelf(g, child);
    } else {
      var c :| Edge(g, m, c) && Reaches(g, c, child);
      ReachesCons(g, m, c, child);
    }
  }

  /** Whether the child is under the parent, each node entered once however the data loops. */
  method IsChild(g: Graph<PK>, parent: PK, child: PK, visited: set<PK>) returns (found: bool, seen: set<PK>)
    ensures visited + {parent} <= seen
    ensures found ==> Under(g, parent, child)
    ensures !found ==> Searched(g, seen - visited, seen, child)
    decreases g.Keys - visited
  {
    found, seen := false, visited + {parent};
    if parent in visited || parent !in g {
      return;
    }
    var members := g[parent];
    ghost var done: set<PK> := {};
    var i := 0;
    while i < |members| && !found
      invariant 0 <= i <= |members|
      invariant visited + {parent} <= seen && done == seen - visited - {parent}
      invariant found ==> Under(g, parent, child)
      invariant !found ==> Searched(g, done, seen, child)
      invariant !found ==> forall j :: 0 <= j < i ==> members[j] in seen && members[j] != child
    {
      var m := members[i];
      assert Edge(g, parent, m);
      if m == child {
        found := true;
        FoundUnder(g, parent, m, child);
      } else {
        ghost var was := seen;
        assert g.Keys - seen < g.Keys - visited by {
          assert parent in g.Keys - visited && parent !in g.Keys - seen;
        }
        found, seen := IsChild(g, m, child, seen);
        if found {
          FoundUnder(g, parent, m, child);
        } else {
          SearchedMore(g, done, was, seen, child);
        }
        done := done + (seen - was);
      }
      i := i + 1;
    }
  }

  lemma {:induction false} NeverReached(g: Graph<PK>, seen: set<PK>, target: PK, a: PK, n: nat)
    requires a in seen && a != target && Searched(g, seen, seen, target)
    ensures !ReachIn(g, a, target, n)
    decreases n
  {
    if n > 0 && ReachIn(g, a, target, n) {
      var c :| Edge(g, a, c) && ReachIn(g, c, target, n - 1);
      NeverReached(g, seen, target, c, n - 1);
    }
  }

  /** Adding the child is refused exactly when the parent is the child or is under it. */
  method TestAddRoleMember(roles: map<PK, Role>, parent: PK, child: PK) returns (ok: bool)
    ensures ok <==> !Reaches(RoleChildren(roles), child, parent)
  {
    ok := MayAdd(RoleChildren(roles), parent, child);
  }

  method MayAdd(g: Graph<PK>, parent: PK, child: PK) returns (ok: bool)
    ensures ok <==> !Reaches(g, child, parent)
  {
    if parent == child {
      ReachesSelf(g, child);
      return false;
    }
    var found, seen := IsChild(g, child, parent, {});
    ok := !found;
    if found {
      ghost var c :| Edge(g, child, c) && Reaches(g, c, parent);
      ReachesCons(g, child, c, parent);
    } else {
      assert seen - {} == seen;
      forall n: nat ensures !ReachIn(g, child, parent, n) {
        NeverReached(g, seen, parent, child, n);
      }
    }
  }

  /** A user has no members;  a member that is a user closes no cycle;  every member that is a group is searched. */
  method TestAddGroupMember(users: set<PK>, groups: map<PK, Group>, parent: PK, pks: seq<PK>) returns (ok: bool)
    ensures ok <==> parent !in users && forall pk :: pk in pks && pk !in users ==> !Reaches(GroupChildren(groups), pk, parent)
  {
    if parent in users {
      return false;
    }
    for i := 0 to |pks|
      invariant forall pk :: pk in pks[..i] && pk !in users ==> !Reaches(GroupChildren(groups), pk, parent)
    {
      if pks[i] !in users {
        ok := MayAdd(GroupChildren(groups), parent, pks[i]);
        if !ok {
          return;
        }
      }
    }
    assert pks[..|pks|] == pks;
    ok := true;
  }

  // ---- Checked additions keep the data acyclic, and only they do ----

  ghost predicate Extends(g: Graph<PK>, h: Graph<PK>, parent: PK, children: set<PK>) {
    forall x, y :: Edge(h, x, y) <==> Edge(g, x, y) || (x == parent && y in children)
  }

  /** Through the new edges or not, and then from the last of them on not. */
  lemma {:induction false} PathSplit(g: Graph<PK>, h: Graph<PK>, parent: PK, children: set<PK>, a: PK, b: PK, n: nat)
    requires Extends(g, h, parent, children) && ReachIn(h, a, b, n)
    ensures Reaches(g, a, b) || (Reaches(g, a, parent) && exists c :: c in children && Reaches(g, c, b))
    decreases n
  {
    if n == 0 {
      ReachesSelf(g, a);
    } else {
      var z :| Edge(h, a, z) && ReachIn(h, z, b, n - 1);
      PathSplit(g, h, parent, children, z, b, n - 1);
      if Edge(g, a, z) {
        if Reaches(g, z, b) {
          ReachesCons(g, a, z, b);
        } else {
          ReachesCons(g, a, z, parent);
        }
      } else {
        ReachesSelf(g, parent);
      }
    }
  }

  lemma {:induction false} Kept(g: Graph<PK>, h: Graph<PK>, parent: PK, children: set<PK>, a: PK, b: PK, n: nat)
    requires Extends(g, h, parent, children) && ReachIn(g, a, b, n)
    ensures Reaches(h, a, b)
    decreases n
  {
    if n == 0 {
      ReachesSelf(h, a);
    } else {
      var z :| Edge(g, a, z) && ReachIn(g, z, b, n - 1);
      Kept(g, h, parent, children, z, b, n - 1);
      ReachesCons(h, a, z, b);
    }
  }

  lemma NoCycle(g: Graph<PK>, h: Graph<PK>, parent: PK, children: set<PK>, a: PK, b: PK)
    requires Acyclic(g) && Extends(g, h, parent, children)
    requires forall c :: c in children ==> !Reaches(g, c, parent)
    requires Edge(h, a, b)
    ensures !Reaches(h, b, a)
  {
    if Reaches(h, b, a) {
      var n: nat :| ReachIn(h, b, a, n);
      PathSplit(g, h, parent, children, b, a, n);
      if Edge(g, a, b) {
        assert !Under(g, a, a);
        if !Reaches(g, b, a) {
          var c :| c in children && Reaches(g, c, a);
          ReachesCons(g, a, b, parent);
          ReachesTrans(g, c, a, parent);
        }
      }
    }
  }

  lemma GuardExact(g: Graph<PK>, h: Graph<PK>, parent: PK, children: set<PK>)
    requires Acyclic(g) && Extends(g, h, parent, children)
    ensures Acyclic(h) <==> forall c :: c in children ==> !Reaches(g, c, parent)
  {
    if forall c :: c in children ==> !Reaches(g, c, parent) {
      forall a, b | Edge(h, a, b) ensures !Reaches(h, b, a) {
        NoCycle(g, h, parent, children, a, b);
      }
    } else {
      var c :| c in children && Reaches(g, c, parent);
      var n: nat :| ReachIn(g, c, parent, n);
      Kept(g, h, parent, children, c, parent, n);
      assert Edge(h, parent, c);
      assert Under(h, parent, parent);
    }
  }

  lemma RoleExtended(roles: map<PK, Role>, parent: PK, now: Role, added: set<PK>)
    requires forall c :: RoleOf(c) in now.members <==> RoleOf(c) in RoleOrNew(roles, parent).members || c in added
    ensures Extends(RoleChildren(roles), RoleChildren(roles[parent := now]), parent, added)
  {
    var g, h := RoleChildren(roles), RoleChildren(roles[parent := now]);
    forall x, y ensures Edge(h, x, y) <==> Edge(g, x, y) || (x == parent && y in added) {
      if x == parent {
        assert Edge(h, x, y) <==> RoleOf(y) in now.members;
      }
    }
  }

  lemma GroupExtended(groups: map<PK, Group>, parent: PK, now: Group, added: set<PK>)
    requires forall c :: GroupId(c) in now.members <==> GroupId(c) in GroupOrNew(groups, parent).members || c in added
    ensures Extends(GroupChildren(groups), GroupChildren(groups[parent := now]), parent, added)
  {
    var g, h := GroupChildren(groups), GroupChildren(groups[parent := now]);
    forall x, y ensures Edge(h, x, y) <==> Edge(g, x, y) || (x == parent && y in added) {
      if x == parent {
        assert Edge(h, x, y) <==> GroupId(y) in now.members;
      }
    }
  }

  /** Where no role is under itself, giving a role children leaves none so if and only if every child passes the check. */
  lemma RoleGuardExact(t: Tables, parent: PK, children: seq<PK>)
    requires Acyclic(RoleChildren(t.roles))
    ensures Acyclic(RoleChildren(After(t, AddRoleChildren(parent, children)).roles))
       <==> forall c :: c in children ==> !Reaches(RoleChildren(t.roles), c, parent)
  {
    var added := set c | c in children;
    var now := After(t, AddRoleChildren(parent, children)).roles[parent];
    AddChildrenHas(RoleOrNew(t.roles, parent).members, children);
    RoleExtended(t.roles, parent, now, added);
    GuardExact(RoleChildren(t.roles), RoleChildren(After(t, AddRoleChildren(parent, children)).roles), parent, added);
  }

  lemma {:induction false} AddMembersHas(users: set<PK>, members: seq<Identity>, pks: seq<PK>, c: PK)
    requires AllTyped(users, members)
    ensures GroupId(c) in AddMembers(users, members, pks) <==> GroupId(c) in members || (c in pks && c !in users)
    decreases |pks|
  {
    if pks != [] {
      AddMembersHas(users, AddMember(members, ToIdentity(users, pks[0])), pks[1..], c);
      assert c in pks <==> c == pks[0] || c in pks[1..];
    }
  }

  lemma GroupGuardExact(t: Tables, parent: PK, pks: seq<PK>)
    requires WellFormed(t) && Acyclic(GroupChildren(t.groups))
    ensures Acyclic(GroupChildren(After(t, AddToGroup(parent, pks)).groups))
       <==> forall pk :: pk in pks && pk !in t.users ==> !Reaches(GroupChildren(t.groups), pk, parent)
  {
    var added := set pk | pk in pks && pk !in t.users;
    var now := After(t, AddToGroup(parent, pks)).groups[parent];
    forall c ensures GroupId(c) in now.members
                <==> GroupId(c) in GroupOrNew(t.groups, parent).members || c in added
    {
      AddMembersHas(t.users.Keys, GroupOrNew(t.groups, parent).members, pks, c);
    }
    GroupExtended(t.groups, parent, now, added);
    GuardExact(GroupChildren(t.groups), GroupChildren(After(t, AddToGroup(parent, pks)).groups), parent, added);
  }
}
