/** Breadth first:  where no node is put back, nodes are reached in the order of their distance from Objects, so an
    entry's depth is its node's distance, and a cap on depth cuts off exactly what is farther. */
module CrawlDepth {
  import opened Crawl

  // ---- The queue in layers ----

  predicate Nondecreasing(ps: seq<Pending>) {
    forall i, j :: 0 <= i < j < |ps| ==> ps[i].depth <= ps[j].depth
  }

  predicate NoDeeper(w: Work, ps: seq<Pending>, d: nat) {
    (forall e :: e in w.entries ==> e.depth <= d) && forall p :: p in ps ==> p.depth <= d
  }

  /** The queue is in the order of depth, and nothing is known more than one layer below its head. */
  predicate Layered(w: Work, level: seq<Pending>) {
    var queue := level + w.pending;
    Nondecreasing(queue) && (queue != [] ==> NoDeeper(w, queue, queue[0].depth + 1))
  }

  predicate Shallow(es: seq<Entry>, x: NodeId, d: nat) {
    x == OBJECTS || exists e :: e in es && e.id == x && e.depth <= d
  }

  /** Everything a node at a depth leads to is at most one layer below it. */
  ghost predicate Near(cfg: Config, space: Space, es: seq<Entry>, x: NodeId, d: nat) {
    forall ref :: ref in space(x) && Admissible(cfg, ref) ==> Shallow(es, ref.id, d + 1)
  }

  ghost predicate Done(cfg: Config, space: Space, w: Work, level: seq<Pending>, x: NodeId, d: nat) {
    Near(cfg, space, w.entries, x, d) || InQueue(w.pending, x) || InQueue(level, x)
  }

  ghost predicate AllDone(cfg: Config, space: Space, w: Work, level: seq<Pending>) {
    && Done(cfg, space, w, level, OBJECTS, 0)
    && forall e :: e in w.entries && Queues(cfg, e) ==> Done(cfg, space, w, level, e.id, e.depth)
  }

  ghost predicate Layers(cfg: Config, space: Space, w: Work, level: seq<Pending>) {
    !w.truncated ==> Layered(w, level) && AllDone(cfg, space, w, level)
  }

  // ---- One node's references ----

  lemma ShallowMore(es: seq<Entry>, e: Entry, x: NodeId, d: nat)
    requires Shallow(es, x, d)
    ensures Shallow(es + [e], x, d)
  {
    if x != OBJECTS {
      var y :| y in es && y.id == x && y.depth <= d;
      assert y in es + [e];
    }
  }

  lemma DoneMore(cfg: Config, space: Space, w: Work, v: Work, level: seq<Pending>, e: Entry, x: NodeId, d: nat)
    requires Done(cfg, space, w, level, x, d) && v.entries == w.entries + [e] && w.pending <= v.pending
    ensures Done(cfg, space, v, level, x, d)
  {
    if Near(cfg, space, w.entries, x, d) {
      forall ref | ref in space(x) && Admissible(cfg, ref) ensures Shallow(v.entries, ref.id, d + 1) {
        ShallowMore(w.entries, e, ref.id, d + 1);
      }
    } else if InQueue(w.pending, x) {
      var p :| p in w.pending && p.id == x;
      assert p in v.pending;
    }
  }

  lemma LayeredMore(w: Work, v: Work, level: seq<Pending>, e: Entry, p: Pending)
    requires level != [] && Layered(w, level) && v.entries == w.entries + [e] && e.depth == p.depth == level[0].depth + 1
    requires v.pending == w.pending || v.pending == w.pending + [p]
    ensures Layered(v, level)
  {
    var was, now := level + w.pending, level + v.pending;
    assert was[0] == level[0] && now[0] == level[0];
    assert now == was || now == was + [p];
    forall i, j | 0 <= i < j < |now| ensures now[i].depth <= now[j].depth {
      assert now[i] in was;
    }
  }

  /** The head's reference, new or not, is within a layer of the head. */
  lemma VisitLayers(cfg: Config, space: Space, w: Work, level: seq<Pending>, refs: seq<Ref>, ref: Ref)
    requires Tidy(cfg, w) && level != [] && Layers(cfg, space, w, level)
    ensures var v := Visit(cfg, w, level[0], refs, ref);
            && Layers(cfg, space, v, level) && w.entries <= v.entries
            && (!v.truncated && Admissible(cfg, ref) ==> Shallow(v.entries, ref.id, level[0].depth + 1))
  {
    var v := Visit(cfg, w, level[0], refs, ref);
    if !v.truncated {
      assert (level + w.pending)[0] == level[0];
      if v == w {
        if Admissible(cfg, ref) && ref.id != OBJECTS {
          var e :| e in w.entries && e.id == ref.id;
        }
      } else {
        var e := EntryOf(cfg, level[0], refs, ref);
        var p := Pending(e.id, e.path, e.depth, false);
        LayeredMore(w, v, level, e, p);
        assert e in v.entries;
        AddedDone(cfg, space, w, v, level, e, p);
      }
    }
  }

  lemma AddedDone(cfg: Config, space: Space, w: Work, v: Work, level: seq<Pending>, e: Entry, p: Pending)
    requires AllDone(cfg, space, w, level) && v.entries == w.entries + [e] && p.id == e.id
    requires v.pending == if Queues(cfg, e) then w.pending + [p] else w.pending
    ensures AllDone(cfg, space, v, level)
  {
    DoneMore(cfg, space, w, v, level, e, OBJECTS, 0);
    forall x | x in v.entries && Queues(cfg, x) ensures Done(cfg, space, v, level, x.id, x.depth) {
      if x in w.entries {
        DoneMore(cfg, space, w, v, level, e, x.id, x.depth);
      } else {
        assert x == e && p in v.pending;
      }
    }
  }

  lemma ShallowLonger(es: seq<Entry>, fs: seq<Entry>, x: NodeId, d: nat)
    requires Shallow(es, x, d) && es <= fs
    ensures Shallow(fs, x, d)
  {
    if x != OBJECTS {
      var y :| y in es && y.id == x && y.depth <= d;
      assert y in fs;
    }
  }

  lemma {:induction false} VisitAllLayers(cfg: Config, space: Space, w: Work, level: seq<Pending>, refs: seq<Ref>, rest: seq<Ref>)
    requires Tidy(cfg, w) && level != [] && Layers(cfg, space, w, level)
    ensures var v := VisitAll(cfg, w, level[0], refs, rest);
            && Layers(cfg, space, v, level) && w.entries <= v.entries
            && (!v.truncated ==> forall ref :: ref in rest && Admissible(cfg, ref) ==> Shallow(v.entries, ref.id, level[0].depth + 1))
    decreases |rest|
  {
    if rest != [] && !w.stop {
      var u := Visit(cfg, w, level[0], refs, rest[0]);
      VisitLayers(cfg, space, w, level, refs, rest[0]);
      VisitTidy(cfg, w, level[0], refs, rest[0]);
      VisitAllLayers(cfg, space, u, level, refs, rest[1..]);
      VisitAllSees(cfg, u, level[0], refs, rest[1..]);
      var v := VisitAll(cfg, u, level[0], refs, rest[1..]);
      if !v.truncated {
        forall ref | ref in rest && Admissible(cfg, ref) ensures Shallow(v.entries, ref.id, level[0].depth + 1) {
          if ref == rest[0] {
            ShallowLonger(u.entries, v.entries, ref.id, level[0].depth + 1);
          } else {
            assert ref in rest[1..];
          }
        }
      }
    }
  }

  // ---- A level ----

  /** A queued node is at the depth its entry has. */
  lemma SameDepth(cfg: Config, w: Work, p: Pending, x: NodeId, d: nat)
    requires Tidy(cfg, w) && Origin(cfg, w.entries, p) && p.id == x
    requires (x == OBJECTS && d == 0) || exists e :: e in w.entries && e.id == x && e.depth == d
    ensures p.depth == d
  {
    if x == OBJECTS {
      assert forall e :: e in w.entries ==> e.id != OBJECTS;
    } else {
      var e :| e in w.entries && e.id == x && e.depth == d;
      var f :| f in w.entries && f.id == p.id && f.depth == p.depth;
      var i, j :| 0 <= i < |w.entries| && 0 <= j < |w.entries| && w.entries[i] == e && w.entries[j] == f;
      assert i == j;
    }
  }

  lemma HeadPassed(cfg: Config, space: Space, w: Work, level: seq<Pending>, x: NodeId, d: nat)
    requires level != [] && Tidy(cfg, w) && Origin(cfg, w.entries, level[0]) && Near(cfg, space, w.entries, level[0].id, level[0].depth)
    requires (x == OBJECTS && d == 0) || exists e :: e in w.entries && e.id == x && e.depth == d
    requires Done(cfg, space, w, level, x, d)
    ensures Done(cfg, space, w, level[1..], x, d)
  {
    if level[0].id == x {
      SameDepth(cfg, w, level[0], x, d);
    } else if InQueue(level, x) {
      var p :| p in level && p.id == x;
      assert p in level[1..];
    }
  }

  lemma LayeredTail(w: Work, level: seq<Pending>)
    requires level != [] && Layered(w, level)
    ensures Layered(w, level[1..])
  {
    var was, now := level + w.pending, level[1..] + w.pending;
    assert now == was[1..] && forall p :: p in now ==> p in was;
    if now != [] {
      assert was[0].depth <= was[1].depth && now[0] == was[1];
    }
  }

  /** The head's references all seen, the next is the head. */
  lemma HeadLayers(cfg: Config, space: Space, w: Work, level: seq<Pending>)
    requires level != [] && Tidy(cfg, w) && Layers(cfg, space, w, level)
    requires !w.truncated ==> Origin(cfg, w.entries, level[0]) && Near(cfg, space, w.entries, level[0].id, level[0].depth)
    ensures Layers(cfg, space, w, level[1..])
  {
    if !w.truncated {
      LayeredTail(w, level);
      HeadPassed(cfg, space, w, level, OBJECTS, 0);
      forall e | e in w.entries && Queues(cfg, e) ensures Done(cfg, space, w, level[1..], e.id, e.depth) {
        HeadPassed(cfg, space, w, level, e.id, e.depth);
      }
    }
  }

  lemma {:induction false} OriginLonger(cfg: Config, es: seq<Entry>, fs: seq<Entry>, p: Pending)
    requires Origin(cfg, es, p) && es <= fs
    ensures Origin(cfg, fs, p)
  {
    if !(p.id == OBJECTS && p.path == ROOT.path && p.depth == 0) {
      var x :| x in es && Queues(cfg, x) && x.id == p.id && x.path == p.path && x.depth == p.depth;
      assert x in fs;
    }
  }

  lemma OneResultLayers(cfg: Config, space: Space, w: Work, level: seq<Pending>, result: Result)
    requires Tidy(cfg, w) && level != [] && Right(cfg, space, w, level) && Layers(cfg, space, w, level)
    requires Faithful(space, level[0], result) && !result.status.Transient?
    ensures OneResult(cfg, w, level[0], result).lost || Layers(cfg, space, OneResult(cfg, w, level[0], result), level[1..])
  {
    if result.status.Good? {
      var u := w.(truncated := w.truncated || result.more);
      var v := VisitAll(cfg, u, level[0], result.refs, result.refs);
      VisitAllSees(cfg, u, level[0], result.refs, result.refs);
      VisitAllTidy(cfg, u, level[0], result.refs, result.refs);
      if !v.truncated {
        assert u == w;
        VisitAllLayers(cfg, space, w, level, result.refs, result.refs);
        assert Origin(cfg, w.entries, level[0]);
        OriginLonger(cfg, w.entries, v.entries, level[0]);
        HeadLayers(cfg, space, v, level);
      }
    }
  }

  predicate NoneTransient(level: seq<Pending>, results: seq<Result>) {
    forall i :: 0 <= i < |level| && i < |results| ==> !results[i].status.Transient?
  }

  lemma {:induction false} AllResultsLayers(cfg: Config, space: Space, w: Work, level: seq<Pending>, results: seq<Result>)
    requires Tidy(cfg, w) && Right(cfg, space, w, level) && Layers(cfg, space, w, level)
    requires AllFaithful(space, level, results) && NoneTransient(level, results) && |results| >= |level|
    ensures AllResults(cfg, w, level, results).lost || Layers(cfg, space, AllResults(cfg, w, level, results), [])
    decreases |level|
  {
    if level != [] && !w.stop && !w.lost {
      var v := OneResult(cfg, w, level[0], results[0]);
      assert Faithful(space, level[0], results[0]);
      OneResultTidy(cfg, w, level[0], results[0]);
      OneResultRight(cfg, space, w, level, results[0]);
      OneResultLayers(cfg, space, w, level, results[0]);
      if !v.lost {
        assert AllFaithful(space, level[1..], results[1..]) && NoneTransient(level[1..], results[1..]);
        AllResultsLayers(cfg, space, v, level[1..], results[1..]);
      }
    }
  }

  lemma TakeLayers(cfg: Config, space: Space, w: Work, count: nat)
    requires count <= |w.pending| && Layers(cfg, space, w, [])
    ensures Layers(cfg, space, w.(pending := w.pending[count..]), w.pending[..count])
  {
    var v, level := w.(pending := w.pending[count..]), w.pending[..count];
    if !w.truncated {
      assert level + v.pending == w.pending && [] + w.pending == w.pending;
      forall x, d | Done(cfg, space, w, [], x, d) ensures Done(cfg, space, v, level, x, d) {
        if InQueue(w.pending, x) {
          var p :| p in w.pending && p.id == x;
          assert p in level || p in v.pending;
        }
      }
    }
  }

  lemma SameLayers(cfg: Config, space: Space, w: Work, v: Work)
    requires Layers(cfg, space, w, []) && v.truncated == w.truncated && v.entries == w.entries && v.pending == w.pending
    ensures Layers(cfg, space, v, [])
  {
    forall x, d ensures Done(cfg, space, w, [], x, d) <==> Done(cfg, space, v, [], x, d) {
    }
  }

  // ---- Distance ----

  /** In so many references, and in no fewer. */
  ghost predicate IsDistance(cfg: Config, space: Space, cls: NodeId -> NodeClass, x: NodeId, d: nat) {
    ReachIn(cfg, space, cls, x, d) && forall n: nat :: ReachIn(cfg, space, cls, x, n) ==> d <= n
  }

  /** Objects is browsed whatever the cap. */
  function Deepest(cfg: Config): nat {
    if cfg.maxDepth > 1 then cfg.maxDepth else 1
  }

  ghost predicate ReachWithin(cfg: Config, space: Space, cls: NodeId -> NodeClass, x: NodeId, d: nat) {
    exists n: nat :: n <= d && ReachIn(cfg, space, cls, x, n)
  }

  lemma ReachNext(cfg: Config, space: Space, cls: NodeId -> NodeClass, y: NodeId, n: nat, ref: Ref)
    requires ReachIn(cfg, space, cls, y, n) && (y == OBJECTS || Expandable(cls(y))) && ref in space(y) && Admissible(cfg, ref)
    ensures ReachIn(cfg, space, cls, ref.id, n + 1)
  {
    assert Leads(cfg, space, cls, y, ref.id);
  }

  lemma ChainParent(cfg: Config, space: Space, es: seq<Entry>, e: Entry) returns (parent: Pending, ref: Ref)
    requires Chain(cfg, space, es, e)
    ensures Origin(cfg, es, parent) && ref in space(parent.id) && Admissible(cfg, ref)
    ensures ref.id == e.id && ref.cls == e.cls && e.depth == parent.depth + 1
  {
    parent, ref :|
      Origin(cfg, es, parent) && ref in space(parent.id) && Admissible(cfg, ref) && e == EntryOf(cfg, parent, space(parent.id), ref);
  }

  /** An entry is reached in as many references as its depth, and is no deeper than the cap. */
  lemma {:induction false} EntryDepth(cfg: Config, space: Space, cls: NodeId -> NodeClass, es: seq<Entry>, k: nat)
    requires Typed(space, cls) && k < |es| && AllChains(cfg, space, es)
    ensures ReachIn(cfg, space, cls, es[k].id, es[k].depth) && 1 <= es[k].depth <= Deepest(cfg) && es[k].cls == cls(es[k].id)
    decreases k
  {
    assert Chain(cfg, space, es[..k], es[k]);
    var parent, ref := ChainParent(cfg, space, es[..k], es[k]);
    assert ref.cls == cls(ref.id);
    if parent.id == OBJECTS && parent.depth == 0 {
      FirstDepth(cfg, space, cls, ref);
    } else {
      var j := QueuedAt(cfg, es, k, parent);
      EntryDepth(cfg, space, cls, es, j);
      ReachNext(cfg, space, cls, parent.id, parent.depth, ref);
    }
  }

  lemma FirstDepth(cfg: Config, space: Space, cls: NodeId -> NodeClass, ref: Ref)
    requires ref in space(OBJECTS) && Admissible(cfg, ref)
    ensures ReachIn(cfg, space, cls, ref.id, 1)
  {
    assert ReachIn(cfg, space, cls, OBJECTS, 0);
    ReachNext(cfg, space, cls, OBJECTS, 0, ref);
  }

  lemma QueuedAt(cfg: Config, es: seq<Entry>, k: nat, p: Pending) returns (j: nat)
    requires k <= |es| && Origin(cfg, es[..k], p) && !(p.id == OBJECTS && p.depth == 0)
    ensures j < k && Queues(cfg, es[j]) && es[j].id == p.id && es[j].depth == p.depth
  {
    var x :| x in es[..k] && Queues(cfg, x) && x.id == p.id && x.depth == p.depth;
    j :| 0 <= j < k && es[j] == x;
  }

  /** Everything that is browsed has all it leads to within a layer. */
  ghost predicate Closed(cfg: Config, space: Space, es: seq<Entry>) {
    && Near(cfg, space, es, OBJECTS, 0)
    && forall e :: e in es && Queues(cfg, e) ==> Near(cfg, space, es, e.id, e.depth)
  }

  ghost predicate Placed(cfg: Config, space: Space, cls: NodeId -> NodeClass, e: Entry) {
    e.cls == cls(e.id) && ReachIn(cfg, space, cls, e.id, e.depth) && e.depth <= Deepest(cfg)
  }

  ghost predicate AllPlaced(cfg: Config, space: Space, cls: NodeId -> NodeClass, es: seq<Entry>) {
    forall e :: e in es ==> Placed(cfg, space, cls, e)
  }

  lemma ChainsPlaced(cfg: Config, space: Space, cls: NodeId -> NodeClass, es: seq<Entry>)
    requires Typed(space, cls) && AllChains(cfg, space, es)
    ensures AllPlaced(cfg, space, cls, es)
  {
    forall e | e in es ensures Placed(cfg, space, cls, e) {
      var k :| 0 <= k < |es| && es[k] == e;
      EntryDepth(cfg, space, cls, es, k);
    }
  }

  lemma NearDeeper(cfg: Config, space: Space, es: seq<Entry>, x: NodeId, d: nat, deeper: nat)
    requires Near(cfg, space, es, x, d) && d <= deeper
    ensures Near(cfg, space, es, x, deeper)
  {
    forall ref | ref in space(x) && Admissible(cfg, ref) ensures Shallow(es, ref.id, deeper + 1) {
      assert Shallow(es, ref.id, d + 1);
    }
  }

  lemma ShallowNear(cfg: Config, space: Space, cls: NodeId -> NodeClass, es: seq<Entry>, y: NodeId, d: nat)
    requires Closed(cfg, space, es) && AllPlaced(cfg, space, cls, es)
    requires Shallow(es, y, d) && (y == OBJECTS || (Expandable(cls(y)) && d < cfg.maxDepth))
    ensures Near(cfg, space, es, y, d)
  {
    if y == OBJECTS {
      NearDeeper(cfg, space, es, y, 0, d);
    } else {
      var e :| e in es && e.id == y && e.depth <= d;
      assert Placed(cfg, space, cls, e) && Queues(cfg, e);
      NearDeeper(cfg, space, es, y, e.depth, d);
    }
  }

  lemma LeadsShallow(cfg: Config, space: Space, cls: NodeId -> NodeClass, es: seq<Entry>, y: NodeId, x: NodeId, d: nat)
    requires Near(cfg, space, es, y, d) && Leads(cfg, space, cls, y, x)
    ensures Shallow(es, x, d + 1)
  {
    var ref :| ref in space(y) && Admissible(cfg, ref) && ref.id == x;
  }

  /** Whatever is reached within the cap has an entry no deeper. */
  lemma {:induction false} ReachShallow(cfg: Config, space: Space, cls: NodeId -> NodeClass, es: seq<Entry>, x: NodeId, n: nat)
    requires Closed(cfg, space, es) && AllPlaced(cfg, space, cls, es) && ReachIn(cfg, space, cls, x, n) && n <= Deepest(cfg)
    ensures Shallow(es, x, n)
    decreases n
  {
    if n > 0 {
      var y :| ReachIn(cfg, space, cls, y, n - 1) && Leads(cfg, space, cls, y, x);
      ReachShallow(cfg, space, cls, es, y, n - 1);
      if y != OBJECTS {
        FurtherOn(cfg, space, cls, y, n - 1);
      }
      ShallowNear(cfg, space, cls, es, y, n - 1);
      LeadsShallow(cfg, space, cls, es, y, x, n - 1);
    }
  }

  lemma FurtherOn(cfg: Config, space: Space, cls: NodeId -> NodeClass, y: NodeId, n: nat)
    requires ReachIn(cfg, space, cls, y, n) && y != OBJECTS
    ensures n > 0
  {
  }

  lemma EntryDistance(cfg: Config, space: Space, cls: NodeId -> NodeClass, es: seq<Entry>, e: Entry)
    requires Closed(cfg, space, es) && AllPlaced(cfg, space, cls, es) && Distinct(es) && !HasEntry(es, OBJECTS) && e in es
    ensures IsDistance(cfg, space, cls, e.id, e.depth)
  {
    assert Placed(cfg, space, cls, e);
    forall n: nat | ReachIn(cfg, space, cls, e.id, n) ensures e.depth <= n {
      if n <= Deepest(cfg) {
        ReachShallow(cfg, space, cls, es, e.id, n);
        OnlyDepth(es, e, n);
      }
    }
  }

  lemma OnlyDepth(es: seq<Entry>, e: Entry, n: nat)
    requires Distinct(es) && !HasEntry(es, OBJECTS) && e in es && Shallow(es, e.id, n)
    ensures e.depth <= n
  {
    assert e.id != OBJECTS;
    var f :| f in es && f.id == e.id && f.depth <= n;
    var j, k :| 0 <= j < |es| && 0 <= k < |es| && es[j] == f && es[k] == e;
    assert j == k;
  }

  /** The nodes indexed are exactly those within the cap. */
  lemma WithinCap(cfg: Config, space: Space, cls: NodeId -> NodeClass, es: seq<Entry>, x: NodeId)
    requires Closed(cfg, space, es) && AllPlaced(cfg, space, cls, es) && !HasEntry(es, OBJECTS)
    ensures HasEntry(es, x) <==> x != OBJECTS && ReachWithin(cfg, space, cls, x, Deepest(cfg))
  {
    if HasEntry(es, x) {
      var e :| e in es && e.id == x;
      assert Placed(cfg, space, cls, e);
    }
    if x != OBJECTS && ReachWithin(cfg, space, cls, x, Deepest(cfg)) {
      var n: nat :| n <= Deepest(cfg) && ReachIn(cfg, space, cls, x, n);
      ReachShallow(cfg, space, cls, es, x, n);
    }
  }

  lemma LayersClosed(cfg: Config, space: Space, w: Work)
    requires Layers(cfg, space, w, []) && !w.truncated && w.pending == []
    ensures Closed(cfg, space, w.entries)
  {
    assert Done(cfg, space, w, [], OBJECTS, 0);
    forall e | e in w.entries && Queues(cfg, e) ensures Near(cfg, space, w.entries, e.id, e.depth) {
      assert Done(cfg, space, w, [], e.id, e.depth);
    }
  }

  /** Every entry's depth is its node's distance, and the index is cut off by the cap alone. */
  lemma Distances(cfg: Config, space: Space, cls: NodeId -> NodeClass, w: Work)
    requires Tidy(cfg, w) && Right(cfg, space, w, []) && Layers(cfg, space, w, []) && !w.truncated && w.pending == [] && Typed(space, cls)
    ensures forall e :: e in w.entries ==> IsDistance(cfg, space, cls, e.id, e.depth)
    ensures forall x :: HasEntry(w.entries, x) <==> x != OBJECTS && ReachWithin(cfg, space, cls, x, Deepest(cfg))
  {
    LayersClosed(cfg, space, w);
    ChainsPlaced(cfg, space, cls, w.entries);
    forall e | e in w.entries ensures IsDistance(cfg, space, cls, e.id, e.depth) {
      EntryDistance(cfg, space, cls, w.entries, e);
    }
    forall x ensures HasEntry(w.entries, x) <==> x != OBJECTS && ReachWithin(cfg, space, cls, x, Deepest(cfg)) {
      WithinCap(cfg, space, cls, w.entries, x);
    }
  }
}
