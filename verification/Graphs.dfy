/** Finite directed graphs with ordered successor lists, and the walks the gateway runs over them:  groups within groups,
    roles within roles, and nodes under nodes.  A node with no entry has no successors.  Cycles are allowed everywhere. */
module Graphs {

  type Graph<T(==)> = map<T, seq<T>>

  predicate Edge<T>(g: Graph<T>, a: T, b: T) {
    a in g && b in g[a]
  }

  /** `b` is `n` edges away from `a` along some path. */
  ghost predicate ReachIn<T(!new)>(g: Graph<T>, a: T, b: T, n: nat) {
    if n == 0 then a == b else exists c :: Edge(g, a, c) && ReachIn(g, c, b, n - 1)
  }

  ghost predicate Reaches<T(!new)>(g: Graph<T>, a: T, b: T) {
    exists n: nat :: ReachIn(g, a, b, n)
  }

  lemma ReachesSelf<T(!new)>(g: Graph<T>, a: T)
    ensures Reaches(g, a, a)
  {
    assert ReachIn(g, a, a, 0);
  }

  lemma ReachesCons<T(!new)>(g: Graph<T>, a: T, c: T, b: T)
    requires Edge(g, a, c) && Reaches(g, c, b)
    ensures Reaches(g, a, b)
  {
    var n: nat :| ReachIn(g, c, b, n);
    assert ReachIn(g, a, b, n + 1);
  }

  /** What a path's first step looks like. */
  lemma ReachesFirst<T(!new)>(g: Graph<T>, a: T, b: T) returns (c: T)
    requires Reaches(g, a, b) && a != b
    ensures Edge(g, a, c) && Reaches(g, c, b)
  {
    var n: nat :| ReachIn(g, a, b, n);
    c :| Edge(g, a, c) && ReachIn(g, c, b, n - 1);
  }

  lemma {:induction false} ReachesTransIn<T(!new)>(g: Graph<T>, a: T, b: T, c: T, n: nat)
    requires ReachIn(g, a, b, n) && Reaches(g, b, c)
    ensures Reaches(g, a, c)
    decreases n
  {
    if n > 0 {
      var d :| Edge(g, a, d) && ReachIn(g, d, b, n - 1);
      ReachesTransIn(g, d, b, c, n - 1);
      ReachesCons(g, a, d, c);
    }
  }

  lemma ReachesTrans<T(!new)>(g: Graph<T>, a: T, b: T, c: T)
    requires Reaches(g, a, b) && Reaches(g, b, c)
    ensures Reaches(g, a, c)
  {
    var n: nat :| ReachIn(g, a, b, n);
    ReachesTransIn(g, a, b, c, n);
  }

  lemma ReachesSnoc<T(!new)>(g: Graph<T>, a: T, b: T, c: T)
    requires Reaches(g, a, b) && Edge(g, b, c)
    ensures Reaches(g, a, c)
  {
    ReachesSelf(g, c);
    ReachesCons(g, b, c, c);
    ReachesTrans(g, a, b, c);
  }

  ghost predicate Closed<T(!new)>(g: Graph<T>, s: set<T>) {
    forall x, y :: x in s && Edge(g, x, y) && y in g ==> y in s
  }

  /** The last edge of a path leaves a node of any closed set the path starts in. */
  lemma {:induction false} ClosedReach<T(!new)>(g: Graph<T>, s: set<T>, a: T, b: T, n: nat)
    requires Closed(g, s) && (a in g ==> a in s) && ReachIn(g, a, b, n)
    ensures a == b || exists x :: x in s && Edge(g, x, b)
    decreases n
  {
    if n > 0 {
      var c :| Edge(g, a, c) && ReachIn(g, c, b, n - 1);
      ClosedReach(g, s, c, b, n - 1);
    }
  }

  /** Two graphs with the same edges into what reaches `b` agree on what reaches `b`:  the frame every group and role edit rests on. */
  lemma {:induction false} CoReachKept<T(!new)>(g: Graph<T>, h: Graph<T>, b: T, a: T, n: nat)
    requires forall x, y :: Reaches(g, y, b) && Edge(g, x, y) ==> Edge(h, x, y)
    requires ReachIn(g, a, b, n)
    ensures Reaches(h, a, b)
    decreases n
  {
    if n == 0 {
      ReachesSelf(h, b);
    } else {
      var c :| Edge(g, a, c) && ReachIn(g, c, b, n - 1);
      CoReachKept(g, h, b, c, n - 1);
      assert Reaches(g, c, b);
      ReachesCons(h, a, c, b);
    }
  }

  lemma {:induction false} CoReachAdded<T(!new)>(g: Graph<T>, h: Graph<T>, b: T, a: T, n: nat)
    requires forall x, y :: Reaches(g, y, b) && Edge(h, x, y) ==> Edge(g, x, y)
    requires ReachIn(h, a, b, n)
    ensures Reaches(g, a, b)
    decreases n
  {
    if n == 0 {
      ReachesSelf(g, b);
    } else {
      var c :| Edge(h, a, c) && ReachIn(h, c, b, n - 1);
      CoReachAdded(g, h, b, c, n - 1);
      ReachesCons(g, a, c, b);
    }
  }

  lemma CoReachFrame<T(!new)>(g: Graph<T>, h: Graph<T>, b: T)
    requires forall x, y :: Reaches(g, y, b) ==> (Edge(g, x, y) <==> Edge(h, x, y))
    ensures forall a :: Reaches(g, a, b) <==> Reaches(h, a, b)
  {
    forall a ensures Reaches(g, a, b) <==> Reaches(h, a, b) {
      if Reaches(g, a, b) {
        var n: nat :| ReachIn(g, a, b, n);
        CoReachKept(g, h, b, a, n);
      }
      if Reaches(h, a, b) {
        var n: nat :| ReachIn(h, a, b, n);
        CoReachAdded(g, h, b, a, n);
      }
    }
  }

  /** Changing who has the members `ms`, none of which reaches `b`, changes nothing for `b`. */
  lemma EdgesChanged<T(!new)>(g: Graph<T>, h: Graph<T>, ms: set<T>, b: T)
    requires forall x, y :: y !in ms ==> (Edge(g, x, y) <==> Edge(h, x, y))
    requires forall m :: m in ms ==> !Reaches(g, m, b)
    ensures forall a :: Reaches(g, a, b) <==> Reaches(h, a, b)
  {
    forall x, y | Reaches(g, y, b) ensures Edge(g, x, y) <==> Edge(h, x, y) {
      assert y !in ms;
    }
    CoReachFrame(g, h, b);
  }

  /** Taking away the successors of a node that does not reach `b` changes nothing for `b`. */
  lemma NodeDropped<T(!new)>(g: Graph<T>, k: T, b: T)
    requires !Reaches(g, k, b)
    ensures forall a :: Reaches(g, a, b) <==> Reaches(g - {k}, a, b)
  {
    forall x, y | Reaches(g, y, b) ensures Edge(g, x, y) <==> Edge(g - {k}, x, y) {
      if x == k && Edge(g, x, y) {
        ReachesCons(g, k, y, b);
      }
    }
    CoReachFrame(g, g - {k}, b);
  }

  lemma LeafReaches<T(!new)>(g: Graph<T>, a: T, b: T)
    requires a !in g
    ensures Reaches(g, a, b) <==> a == b
  {
    ReachesSelf(g, a);
    if Reaches(g, a, b) && a != b {
      var c := ReachesFirst(g, a, b);
    }
  }

  /** A node nobody has as a successor is reached from itself alone. */
  lemma {:induction false} OrphanIn<T(!new)>(g: Graph<T>, a: T, b: T, n: nat)
    requires forall x :: !Edge(g, x, b)
    requires ReachIn(g, a, b, n)
    ensures a == b
    decreases n
  {
    if n > 0 {
      var c :| Edge(g, a, c) && ReachIn(g, c, b, n - 1);
      OrphanIn(g, c, b, n - 1);
    }
  }

  lemma OrphanReaches<T(!new)>(g: Graph<T>, a: T, b: T)
    requires forall x :: !Edge(g, x, b)
    ensures Reaches(g, a, b) <==> a == b
  {
    ReachesSelf(g, a);
    if Reaches(g, a, b) {
      var n: nat :| ReachIn(g, a, b, n);
      OrphanIn(g, a, b, n);
    }
  }

  // ---- The visited-set walk ----

  /** The nodes entered by a depth-first walk from `a` that enters no node twice, after one that entered `seen`. */
  function Visit<T>(g: Graph<T>, a: T, seen: set<T>): (r: set<T>)
    ensures seen <= r
    decreases g.Keys - seen, 0
  {
    if a !in g || a in seen then seen else
      assert a in g.Keys - seen;
      VisitAll(g, g[a], seen + {a})
  }

  function VisitAll<T>(g: Graph<T>, xs: seq<T>, seen: set<T>): (r: set<T>)
    ensures seen <= r
    decreases g.Keys - seen, |xs|
  {
    if xs == [] then seen else
      var s := Visit(g, xs[0], seen);
      assert g.Keys - s <= g.Keys - seen;
      VisitAll(g, xs[1..], s)
  }

  lemma {:induction false} VisitAllSnoc<T>(g: Graph<T>, xs: seq<T>, x: T, seen: set<T>)
    ensures VisitAll(g, xs + [x], seen) == Visit(g, x, VisitAll(g, xs, seen))
    decreases |xs|
  {
    if xs == [] {
      assert ([x])[1..] == [];
    } else {
      assert (xs + [x])[1..] == xs[1..] + [x];
      VisitAllSnoc(g, xs[1..], x, Visit(g, xs[0], seen));
    }
  }

  /** What a walk adds to `seen`:  only what `a` reaches, and nothing left half explored. */
  lemma {:induction false} VisitAdds<T(!new)>(g: Graph<T>, a: T, seen: set<T>)
    ensures var r := Visit(g, a, seen);
            && (a in g ==> a in r)
            && (forall x :: x in r - seen ==> x in g && Reaches(g, a, x))
            && (forall x, y :: x in r - seen && Edge(g, x, y) && y in g ==> y in r)
    decreases g.Keys - seen, 0
  {
    if a in g && a !in seen {
      assert a in g.Keys - seen;
      VisitAllAdds(g, g[a], seen + {a});
      var r := Visit(g, a, seen);
      ReachesSelf(g, a);
      forall x | x in r - seen ensures x in g && Reaches(g, a, x) {
        if x != a {
          assert x in r - (seen + {a});
          assert ReachedFrom(g, g[a], x);
          var z :| z in g[a] && Reaches(g, z, x);
          ReachesCons(g, a, z, x);
        }
      }
    }
  }

  ghost predicate ReachedFrom<T(!new)>(g: Graph<T>, xs: seq<T>, x: T) {
    exists z :: z in xs && Reaches(g, z, x)
  }

  lemma {:induction false} VisitAllAdds<T(!new)>(g: Graph<T>, xs: seq<T>, seen: set<T>)
    ensures var r := VisitAll(g, xs, seen);
            && (forall z :: z in xs && z in g ==> z in r)
            && (forall x :: x in r - seen ==> x in g && ReachedFrom(g, xs, x))
            && (forall x, y :: x in r - seen && Edge(g, x, y) && y in g ==> y in r)
    decreases g.Keys - seen, |xs|
  {
    if xs != [] {
      var s := Visit(g, xs[0], seen);
      assert g.Keys - s <= g.Keys - seen;
      VisitAdds(g, xs[0], seen);
      VisitAllAdds(g, xs[1..], s);
      var r := VisitAll(g, xs, seen);
      assert r == VisitAll(g, xs[1..], s);
      forall x | x in r - seen ensures x in g && ReachedFrom(g, xs, x) {
        if x in s {
          assert x in s - seen;
          assert xs[0] in xs && Reaches(g, xs[0], x);
        } else {
          assert x in r - s;
          assert ReachedFrom(g, xs[1..], x);
          var z :| z in xs[1..] && Reaches(g, z, x);
          assert z in xs;
        }
      }
    }
  }

  /** The walk from nothing enters exactly the expandable nodes reached, and its successor lists name everything else reached. */
  lemma VisitReaches<T(!new)>(g: Graph<T>, a: T, b: T)
    ensures b in Visit(g, a, {}) <==> b in g && Reaches(g, a, b)
    ensures Reaches(g, a, b) <==> a == b || exists x :: x in Visit(g, a, {}) && Edge(g, x, b)
  {
    VisitAdds(g, a, {});
    var r := Visit(g, a, {});
    assert r - {} == r;
    assert Closed(g, r);
    if Reaches(g, a, b) {
      var n: nat :| ReachIn(g, a, b, n);
      ClosedReach(g, r, a, b, n);
    }
    if x :| x in r && Edge(g, x, b) {
      ReachesSnoc(g, a, x, b);
    }
    ReachesSelf(g, a);
  }

  /** What the walk from `a` comes across:  `a` itself, and every successor of a node it enters. */
  ghost predicate Touched<T(!new)>(g: Graph<T>, a: T, seen: set<T>, y: T) {
    y == a || exists x :: x in Visit(g, a, seen) - seen && Edge(g, x, y)
  }

  ghost predicate TouchedAll<T(!new)>(g: Graph<T>, xs: seq<T>, seen: set<T>, y: T) {
    y in xs || exists x :: x in VisitAll(g, xs, seen) - seen && Edge(g, x, y)
  }

  lemma TouchedReaches<T(!new)>(g: Graph<T>, a: T, y: T)
    ensures Touched(g, a, {}, y) <==> Reaches(g, a, y)
  {
    VisitReaches(g, a, y);
    assert Visit(g, a, {}) - {} == Visit(g, a, {});
  }

  lemma TouchedEnter<T(!new)>(g: Graph<T>, a: T, seen: set<T>, y: T)
    requires a in g && a !in seen
    ensures Touched(g, a, seen, y) <==> y == a || TouchedAll(g, g[a], seen + {a}, y)
  {
    var r := Visit(g, a, seen);
    assert r - seen == (r - (seen + {a})) + {a};
    if y in g[a] {
      assert a in r - seen && Edge(g, a, y);
    }
  }

  lemma TouchedAllSnoc<T(!new)>(g: Graph<T>, xs: seq<T>, z: T, seen: set<T>, y: T)
    ensures TouchedAll(g, xs + [z], seen, y)
       <==> TouchedAll(g, xs, seen, y) || Touched(g, z, VisitAll(g, xs, seen), y)
  {
    VisitAllSnoc(g, xs, z, seen);
    var v := VisitAll(g, xs, seen);
    var r := Visit(g, z, v);
    assert r - seen == (v - seen) + (r - v);
  }

  // ---- Paths that avoid what they have already been through ----

  /** `b` is `n` edges from `a` along a path no node of which is in `on`. */
  ghost predicate AvoidIn<T(!new)>(g: Graph<T>, a: T, b: T, on: set<T>, n: nat) {
    a !in on && if n == 0 then a == b else exists c :: Edge(g, a, c) && AvoidIn(g, c, b, on, n - 1)
  }

  ghost predicate Avoids<T(!new)>(g: Graph<T>, a: T, b: T, on: set<T>) {
    exists n: nat :: AvoidIn(g, a, b, on, n)
  }

  /** A path either misses `a`, or has a tail that starts at `a`. */
  lemma {:induction false} AvoidOrReturn<T(!new)>(g: Graph<T>, a: T, c: T, b: T, on: set<T>, n: nat) returns (m: nat)
    requires AvoidIn(g, c, b, on, n)
    ensures m <= n
    ensures AvoidIn(g, c, b, on + {a}, m) || AvoidIn(g, a, b, on, m)
    decreases n
  {
    if c == a || n == 0 {
      m := n;
    } else {
      var d :| Edge(g, c, d) && AvoidIn(g, d, b, on, n - 1);
      m := AvoidOrReturn(g, a, d, b, on, n - 1);
      if AvoidIn(g, d, b, on + {a}, m) {
        m := m + 1;
        assert AvoidIn(g, c, b, on + {a}, m);
      }
    }
  }

  /** A path from `a` can be taken without coming back to `a`. */
  lemma {:induction false} LeaveForGood<T(!new)>(g: Graph<T>, a: T, b: T, on: set<T>, n: nat) returns (c: T)
    requires AvoidIn(g, a, b, on, n) && a != b
    ensures Edge(g, a, c) && Avoids(g, c, b, on + {a})
    decreases n
  {
    c :| Edge(g, a, c) && AvoidIn(g, c, b, on, n - 1);
    var m := AvoidOrReturn(g, a, c, b, on, n - 1);
    if !AvoidIn(g, c, b, on + {a}, m) {
      c := LeaveForGood(g, a, b, on, m);
    }
  }

  lemma {:induction false} ReachAvoidsNothing<T(!new)>(g: Graph<T>, a: T, b: T, n: nat)
    ensures ReachIn(g, a, b, n) <==> AvoidIn(g, a, b, {}, n)
    decreases n
  {
    if n > 0 {
      forall c | Edge(g, a, c) ensures ReachIn(g, c, b, n - 1) <==> AvoidIn(g, c, b, {}, n - 1) {
        ReachAvoidsNothing(g, c, b, n - 1);
      }
    }
  }

  lemma ReachesAvoids<T(!new)>(g: Graph<T>, a: T, b: T)
    ensures Reaches(g, a, b) <==> Avoids(g, a, b, {})
  {
    if Reaches(g, a, b) {
      var n: nat :| ReachIn(g, a, b, n);
      ReachAvoidsNothing(g, a, b, n);
    }
    if Avoids(g, a, b, {}) {
      var n: nat :| AvoidIn(g, a, b, {}, n);
      ReachAvoidsNothing(g, a, b, n);
    }
  }
}
