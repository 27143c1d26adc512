/** The gateway's shared maps, and the critical sections on them:  what each leaves is what the protocol's steps say. */
module SubscriptionStore {
  import opened Subscriptions

  /** The maps alone, as a state of the protocol. */
  function Stored(pending: map<Key, Entry>, rebuilds: map<nat, Rebuild>, shuttingDown: bool): State {
    INITIAL.(pending := pending, rebuilds := rebuilds, shuttingDown := shuttingDown)
  }

  method ForgetRebuilds(rebuilds: map<nat, Rebuild>, l: nat) returns (y: map<nat, Rebuild>)
    ensures y == map r | r in rebuilds :: rebuilds[r].(nodes := Forget(rebuilds[r].nodes, l))
  {
    y := rebuilds;
    var todo := rebuilds.Keys;
    while todo != {}
      invariant todo <= y.Keys == rebuilds.Keys
      invariant forall r :: r in y ==> y[r] == if r in todo then rebuilds[r] else rebuilds[r].(nodes := Forget(rebuilds[r].nodes, l))
      decreases todo
    {
      var r :| r in todo;
      y := y[r := y[r].(nodes := Forget(y[r].nodes, l))];
      todo := todo - {r};
    }
  }

  method ForgetEntries(pending: map<Key, Entry>, l: nat) returns (y: map<Key, Entry>)
    ensures y == map k | k in pending :: pending[k].(nodes := Forget(pending[k].nodes, l))
  {
    y := pending;
    var todo := pending.Keys;
    while todo != {}
      invariant todo <= y.Keys == pending.Keys
      invariant forall k :: k in y ==> y[k] == if k in todo then pending[k] else pending[k].(nodes := Forget(pending[k].nodes, l))
      decreases todo
    {
      var k :| k in todo;
      y := y[k := y[k].(nodes := Forget(y[k].nodes, l))];
      todo := todo - {k};
    }
  }

  /** Node by node out of one listener's, the answer those that were there. */
  method DropNodes(ps: set<Pair>, l: nat, nodes: set<nat>) returns (left: set<Pair>, dropped: set<nat>)
    ensures left == Without(ps, l, nodes)
    ensures forall n :: n in dropped <==> n in nodes && Pair(l, n) in ps
  {
    left, dropped := ps, {};
    var todo := nodes;
    while todo != {}
      invariant todo <= nodes && left == Without(ps, l, nodes - todo)
      invariant forall n :: n in dropped <==> n in nodes - todo && Pair(l, n) in ps
      decreases todo
    {
      var n :| n in todo;
      if Pair(l, n) in left {
        left, dropped := left - {Pair(l, n)}, dropped + {n};
      }
      todo := todo - {n};
    }
    assert nodes - todo == nodes;
  }

  method DropEntries(pending: map<Key, Entry>, slug: string, l: nat, nodes: set<nat>) returns (y: map<Key, Entry>, dropped: set<nat>)
    ensures y == map k | k in pending :: if k.slug == slug then pending[k].(nodes := Without(pending[k].nodes, l, nodes)) else pending[k]
    ensures forall n :: n in dropped <==> n in nodes && HeldIn(pending, pending.Keys, slug, Pair(l, n))
  {
    y, dropped := pending, {};
    var todo := pending.Keys;
    while todo != {}
      invariant todo <= y.Keys == pending.Keys
      invariant forall k :: k in y ==>
                  y[k] == if k !in todo && k.slug == slug then pending[k].(nodes := Without(pending[k].nodes, l, nodes)) else pending[k]
      invariant forall n :: n in dropped <==> n in nodes && HeldIn(pending, pending.Keys - todo, slug, Pair(l, n))
      decreases todo
    {
      var k :| k in todo;
      ghost var done := pending.Keys - todo;
      todo := todo - {k};
      assert pending.Keys - todo == done + {k};
      if k.slug == slug {
        var left, here := DropNodes(y[k].nodes, l, nodes);
        y, dropped := y[k := y[k].(nodes := left)], dropped + here;
      }
    }
    assert pending.Keys - todo == pending.Keys;
  }

  method DropRebuilds(rebuilds: map<nat, Rebuild>, slug: string, l: nat, nodes: set<nat>) returns (y: map<nat, Rebuild>, dropped: set<nat>)
    ensures y == map r | r in rebuilds :: if rebuilds[r].slug == slug
        then rebuilds[r].(nodes := Without(rebuilds[r].nodes, l, nodes)) else rebuilds[r]
    ensures forall n :: n in dropped <==> n in nodes && RebuiltIn(rebuilds, rebuilds.Keys, slug, Pair(l, n))
  {
    y, dropped := rebuilds, {};
    var todo := rebuilds.Keys;
    while todo != {}
      invariant todo <= y.Keys == rebuilds.Keys
      invariant forall r :: r in y ==>
                  y[r] == if r !in todo && rebuilds[r].slug == slug
                      then rebuilds[r].(nodes := Without(rebuilds[r].nodes, l, nodes)) else rebuilds[r]
      invariant forall n :: n in dropped <==> n in nodes && RebuiltIn(rebuilds, rebuilds.Keys - todo, slug, Pair(l, n))
      decreases todo
    {
      var r :| r in todo;
      ghost var done := rebuilds.Keys - todo;
      todo := todo - {r};
      assert rebuilds.Keys - todo == done + {r};
      if rebuilds[r].slug == slug {
        var left, here := DropNodes(y[r].nodes, l, nodes);
        y, dropped := y[r := y[r].(nodes := left)], dropped + here;
      }
    }
    assert rebuilds.Keys - todo == rebuilds.Keys;
  }

  /** Whether the slug has a pair parked under one of the keys, or in one of the rebuilds. */
  predicate HeldIn(pending: map<Key, Entry>, keys: set<Key>, slug: string, p: Pair) {
    exists k :: k in keys && k in pending && k.slug == slug && p in pending[k].nodes
  }

  predicate RebuiltIn(rebuilds: map<nat, Rebuild>, ids: set<nat>, slug: string, p: Pair) {
    exists r :: r in ids && r in rebuilds && rebuilds[r].slug == slug && p in rebuilds[r].nodes
  }

  class Store {
    var pending: map<Key, Entry>
    var rebuilds: map<nat, Rebuild>
    var rebuildId: nat
    var shuttingDown: bool

    function View(): State
      reads this
    {
      Stored(pending, rebuilds, shuttingDown)
    }

    predicate Valid()
      reads this
    {
      forall r :: r in rebuilds ==> r <= rebuildId
    }

    constructor ()
      ensures Valid() && View() == INITIAL
    {
      pending, rebuilds, rebuildId, shuttingDown := map[], map[], 0, false;
    }

    /** True when the caller is to start the chain:  exactly when a chain is owed, no entry having been there. */
    method ParkLocked(key: Key, ps: set<Pair>) returns (start: bool)
      modifies this
      ensures pending == Park(old(View()), key, ps).pending && rebuilds == old(rebuilds)
      ensures start <==> Park(old(View()), key, ps).chains != map[]
      ensures shuttingDown == old(shuttingDown) && rebuildId == old(rebuildId)
    {
      if ps == {} || shuttingDown {
        return false;
      }
      start := key !in pending;
      var entry := if key in pending then pending[key] else Entry({}, 0);
      pending := pending[key := entry.(nodes := entry.nodes + ps)];
      assert {} + ps == ps;
      ghost var chains := Park(old(View()), key, ps).chains;
      assert start ==> 0 in chains;
    }

    method RebuildStart(slug: string, ps: set<Pair>) returns (id: nat)
      requires Valid()
      modifies this
      ensures Valid() && id !in old(rebuilds) && rebuilds == old(rebuilds)[id := Rebuild(slug, ps)]
      ensures pending == old(pending) && shuttingDown == old(shuttingDown)
    {
      rebuildId := rebuildId + 1;
      id := rebuildId;
      rebuilds := rebuilds[id := Rebuild(slug, ps)];
    }

    /** A listener out of every entry and rebuild, each left in place. */
    method PurgePending(l: nat)
      modifies this
      ensures pending == Purge(old(View()), l).pending && rebuilds == Purge(old(View()), l).rebuilds
      ensures shuttingDown == old(shuttingDown) && rebuildId == old(rebuildId)
    {
      rebuilds := ForgetRebuilds(rebuilds, l);
      pending := ForgetEntries(pending, l);
    }

    /** A listener's nodes out of what the slug has parked or is rebuilding;  the answer is those it was out of. */
    method UnsubscribePending(slug: string, l: nat, nodes: set<nat>) returns (dropped: set<nat>)
      modifies this
      ensures pending == OffPending(old(View()), slug, l, nodes).pending && rebuilds == OffPending(old(View()), slug, l, nodes).rebuilds
      ensures forall n :: n in dropped <==> n in nodes && Held(old(View()), slug, Pair(l, n))
      ensures shuttingDown == old(shuttingDown) && rebuildId == old(rebuildId)
    {
      var parked, rebuilding;
      pending, parked := DropEntries(pending, slug, l, nodes);
      rebuilds, rebuilding := DropRebuilds(rebuilds, slug, l, nodes);
      dropped := parked + rebuilding;
    }

    method StopReconnects()
      modifies this
      ensures pending == map[] && rebuilds == old(rebuilds) && shuttingDown == old(shuttingDown) && rebuildId == old(rebuildId)
    {
      pending := map[];
    }
  }

  predicate Held(s: State, slug: string, p: Pair) {
    HeldIn(s.pending, s.pending.Keys, slug, p) || RebuiltIn(s.rebuilds, s.rebuilds.Keys, slug, p)
  }
}
