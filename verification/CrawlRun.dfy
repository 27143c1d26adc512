/** The crawl itself:  its loops, its budget, and what an index holds at its end. */
module CrawlRun {
  import opened Crawl
  import opened CrawlDepth

  // ---- The loops ----

  method VisitRefs(cfg: Config, w: Work, parent: Pending, refs: seq<Ref>) returns (v: Work)
    ensures v == VisitAll(cfg, w, parent, refs, refs)
  {
    v := w;
    var i := 0;
    while i < |refs| && !v.stop
      invariant 0 <= i <= |refs|
      invariant VisitAll(cfg, v, parent, refs, refs[i..]) == VisitAll(cfg, w, parent, refs, refs)
    {
      assert refs[i..][1..] == refs[i + 1..];
      v := Visit(cfg, v, parent, refs, refs[i]);
      i := i + 1;
    }
  }

  /** The answer to a level:  what it left out, then each result. */
  method OnAnswer(cfg: Config, w: Work, level: seq<Pending>, results: seq<Result>) returns (v: Work)
    ensures v == Level(cfg, w, level, results)
  {
    v := w;
    if |results| < |level| {
      v := v.(batch := Half(v.batch));
      ghost var u := v;
      for i := |results| to |level|
        invariant Unanswered(v, level[i..]) == Unanswered(u, level[|results|..])
      {
        assert level[i..][1..] == level[i + 1..];
        if !level[i].retried {
          v := v.(pending := v.pending + [Again(level[i])]);
        } else {
          v := v.(truncated := true, refused := v.refused + 1);
        }
      }
    }
    ghost var u := v;
    var r := 0;
    while r < |level| && r < |results| && !v.stop && !v.lost
      invariant 0 <= r <= |level| && r <= |results|
      invariant AllResults(cfg, v, level[r..], results[r..]) == AllResults(cfg, u, level, results)
    {
      assert level[r..][1..] == level[r + 1..] && results[r..][1..] == results[r + 1..];
      var parent, result := level[r], results[r];
      match result.status {
        case Lost => v := v.(lost := true);
        case Good =>
          v := v.(truncated := v.truncated || result.more);
          v := VisitRefs(cfg, v, parent, result.refs);
        case _ =>
          if result.status.Transient? && !parent.retried {
            v := v.(batch := Half(v.batch), pending := v.pending + [Again(parent)]);
          } else {
            v := v.(truncated := true, refused := v.refused + 1);
          }
      }
      r := r + 1;
    }
  }

  function Ids(ps: seq<Pending>): seq<NodeId> {
    if ps == [] then [] else [ps[0].id] + Ids(ps[1..])
  }

  lemma {:induction false} IdsAt(ps: seq<Pending>, i: nat)
    requires i <= |ps|
    ensures |Ids(ps)| == |ps| && (i < |ps| ==> Ids(ps)[i] == ps[i].id)
  {
    if ps != [] {
      IdsAt(ps[1..], if i == 0 then 0 else i - 1);
    }
  }

  lemma {:induction false} OwedSplit(pick: Pick, ps: seq<Pending>)
    ensures Owed(pick, ps) == Count(pick, Ids(ps)) + Firsts(pick, ps)
  {
    if ps != [] {
      OwedSplit(pick, ps[1..]);
      assert Ids(ps)[1..] == Ids(ps[1..]);
    }
  }

  /** How often the nodes picked are in requests the server answered. */
  function Browsed(pick: Pick, answered: seq<seq<NodeId>>): nat {
    if answered == [] then 0 else Browsed(pick, answered[..|answered| - 1]) + Count(pick, answered[|answered| - 1])
  }

  lemma BrowsedSnoc(pick: Pick, answered: seq<seq<NodeId>>, ids: seq<NodeId>)
    ensures Browsed(pick, answered + [ids]) == Browsed(pick, answered) + Count(pick, ids)
  {
    assert (answered + [ids])[..|answered|] == answered;
  }

  lemma {:induction false} CountAll(ids: seq<NodeId>)
    ensures Count(All, ids) == |ids|
  {
    if ids != [] {
      CountAll(ids[1..]);
    }
  }

  lemma {:induction false} KnownAll(es: seq<Entry>)
    ensures Known(All, es) == |es| + 1
  {
    if es != [] {
      KnownAll(es[..|es| - 1]);
    }
  }

  lemma {:induction false} KnownOnly(es: seq<Entry>, x: NodeId)
    requires Distinct(es) && !HasEntry(es, OBJECTS)
    ensures Known(Only(x), es) <= 1 && (x != OBJECTS && !HasEntry(es, x) ==> Known(Only(x), es) == 0)
  {
    if es != [] {
      var init, last := es[..|es| - 1], es[|es| - 1];
      assert last in es && forall e :: e in init ==> e in es;
      KnownOnly(init, x);
      assert forall i :: 0 <= i < |init| ==> init[i].id != last.id;
    }
  }

  /** The queue's head browsed:  what it was owed is what the request takes and what it may yet be owed. */
  lemma TakeWithin(pick: Pick, answered: seq<seq<NodeId>>, w: Work, count: nat)
    requires count <= |w.pending| && Within(pick, Browsed(pick, answered), w, [])
    ensures Within(pick, Browsed(pick, answered + [Ids(w.pending[..count])]), w.(pending := w.pending[count..]), w.pending[..count])
  {
    var level, rest := w.pending[..count], w.pending[count..];
    assert w.pending == level + rest;
    OwedConcat(pick, level, rest);
    OwedSplit(pick, level);
    BrowsedSnoc(pick, answered, Ids(level));
  }

  lemma TakeRight(cfg: Config, space: Space, w: Work, count: nat)
    requires count <= |w.pending| && Right(cfg, space, w, [])
    ensures Right(cfg, space, w.(pending := w.pending[count..]), w.pending[..count])
  {
    var v, level := w.(pending := w.pending[count..]), w.pending[..count];
    forall x | Handled(cfg, space, w, [], x) ensures Handled(cfg, space, v, level, x) {
      if InQueue(w.pending, x) {
        var p :| p in w.pending && p.id == x;
        assert p in level || p in v.pending;
      }
    }
  }

  /** Whatever the server answers a node with in full is the node's references. */
  ghost predicate FaithfulServer(server: Server, space: Space) {
    forall i, ids :: server(i, ids).Results? ==> FaithfulAnswer(space, ids, server(i, ids).results)
  }

  predicate FaithfulAnswer(space: Space, ids: seq<NodeId>, results: seq<Result>) {
    forall r :: 0 <= r < |ids| && r < |results| && results[r].status.Good? && !results[r].more ==> results[r].refs == space(ids[r])
  }

  lemma FaithfulLevel(space: Space, level: seq<Pending>, results: seq<Result>)
    requires FaithfulAnswer(space, Ids(level), results)
    ensures AllFaithful(space, level, results)
  {
    forall i | 0 <= i < |level| && i < |results| ensures Faithful(space, level[i], results[i]) {
      IdsAt(level, i);
    }
  }

  /** Whatever it answers a node with at all is among them. */
  ghost predicate TruthfulServer(server: Server, space: Space) {
    forall i, ids :: server(i, ids).Results? ==> TruthfulAnswer(space, ids, server(i, ids).results)
  }

  predicate TruthfulAnswer(space: Space, ids: seq<NodeId>, results: seq<Result>) {
    forall r :: 0 <= r < |ids| && r < |results| && results[r].status.Good? ==> Subset(results[r].refs, space(ids[r]))
  }

  lemma TruthfulLevel(space: Space, level: seq<Pending>, results: seq<Result>)
    requires TruthfulAnswer(space, Ids(level), results)
    ensures AllTruthful(space, level, results)
  {
    forall i | 0 <= i < |level| && i < |results| ensures Truthful(space, level[i], results[i]) {
      IdsAt(level, i);
    }
  }

  /** Every answer is whole, and nothing in it is to be asked again. */
  ghost predicate Steady(server: Server) {
    forall i, ids :: server(i, ids).Results? ==> SteadyAnswer(ids, server(i, ids).results)
  }

  predicate SteadyAnswer(ids: seq<NodeId>, results: seq<Result>) {
    |results| >= |ids| && forall r :: 0 <= r < |ids| ==> !results[r].status.Transient?
  }

  datatype Outcome = Indexed(entries: seq<Entry>, truncated: bool) | Failed(reason: Reason)
  datatype Reason = RequestFailed | SessionLost | ObjectsRefused

  /** Crawls from Objects.  Whatever the server answers, it ends:  at most Cap entries, no node in more than two
      answered requests, at most one request refused as too many and gone on from, at most two answered requests for
      each node known.  Against a fixed address space, however the crawl is cut short, every entry is reachable, under a
      path that is a chain of references;  an index neither failed, truncated nor capped in depth holds exactly what is
      reachable, each node once.  Where nothing is asked twice the crawl is breadth first:  each entry's depth is its
      node's distance from Objects, and a cap in depth cuts off exactly what is farther. */
  method Run(cfg: Config, server: Server, ghost node: NodeId, ghost space: Space, ghost cls: NodeId -> NodeClass)
    returns (r: Outcome, w: Work, answered: seq<seq<NodeId>>, refusals: nat)
    requires cfg.browseBatch >= 1
    ensures Distinct(w.entries) && |w.entries| <= Cap(cfg)
    ensures |answered| <= 2 * (|w.entries| + 1) && refusals <= 1 && Browsed(Only(node), answered) <= 2
    ensures r.Indexed? ==> r.entries == w.entries && r.truncated == w.truncated
    ensures r == Failed(ObjectsRefused) <==> w.entries == [] && w.refused > 0 && !w.lost && r != Failed(RequestFailed)
    ensures r == Failed(SessionLost) <==> w.lost
    ensures TruthfulServer(server, space) ==> AllParts(cfg, space, w.entries)
    ensures TruthfulServer(server, space) && Typed(space, cls) ==> forall x :: HasEntry(w.entries, x) ==> Reachable(cfg, space, cls, x)
    ensures FaithfulServer(server, space) && r.Indexed? && !r.truncated ==> AllChains(cfg, space, r.entries)
    ensures FaithfulServer(server, space) && Typed(space, cls) && r.Indexed? && !r.truncated && NoneCapped(cfg, r.entries) ==>
              forall x :: HasEntry(r.entries, x) <==> x != OBJECTS && Reachable(cfg, space, cls, x)
    ensures FaithfulServer(server, space) && Steady(server) && Typed(space, cls) && r.Indexed? && !r.truncated ==>
              && (forall e :: e in r.entries ==> IsDistance(cfg, space, cls, e.id, e.depth))
              && (forall x :: HasEntry(r.entries, x) <==> x != OBJECTS && ReachWithin(cfg, space, cls, x, Deepest(cfg)))
  {
    var failed;
    failed, w, answered, refusals := Browse(cfg, server, node, space);
    Bounds(cfg, node, answered, w);
    SoundReachable(cfg, server, space, cls, w);
    if failed {
      r := Failed(RequestFailed);
    } else if w.lost {
      r := Failed(SessionLost);
    } else if w.entries == [] && w.refused > 0 {
      r := Failed(ObjectsRefused);
    } else {
      r := Indexed(w.entries, w.truncated);
      Indexes(cfg, server, space, cls, w);
    }
  }

  /** Level by level until nothing is queued, the index is full, a request fails or the session is lost. */
  method Browse(cfg: Config, server: Server, ghost node: NodeId, ghost space: Space)
    returns (failed: bool, w: Work, answered: seq<seq<NodeId>>, refusals: nat)
    requires cfg.browseBatch >= 1
    ensures Books(cfg, node, answered, w) && Against(cfg, server, space, w) && refusals <= 1
    ensures (failed ==> !w.lost) && (!failed && !w.lost ==> w.pending == [] || w.stop)
  {
    w := Work([ROOT], {OBJECTS}, [], cfg.browseBatch, false, false, 0, false);
    failed, answered, refusals := false, [], 0;
    StartBooks(cfg, node, w);
    StartAgainst(cfg, server, space, w);
    while w.pending != [] && !w.stop && !w.lost
      invariant Books(cfg, node, answered, w) && Against(cfg, server, space, w)
      invariant refusals <= 1 && (refusals == 1 ==> w.batch == 1)
      decreases 2 * (Cap(cfg) + 1) - Browsed(All, answered), w.batch
    {
      var count := if w.batch < |w.pending| then w.batch else |w.pending|;
      var level := w.pending[..count];
      var ids := Ids(level);
      var answer := server(|answered| + refusals, ids);
      if answer.TooMany? && w.batch > 1 {
        BatchAgainst(cfg, server, space, w);
        BatchBooks(cfg, node, answered, w);
        w := w.(batch := 1);
        refusals := refusals + 1;
        continue;
      }
      if !answer.Results? {
        failed := true;
        return;
      }
      w := Answered(cfg, server, node, space, answered, w, count, |answered| + refusals);
      answered := answered + [ids];
    }
  }

  /** One request that is answered. */
  method Answered(cfg: Config, server: Server, ghost node: NodeId, ghost space: Space, ghost answered: seq<seq<NodeId>>,
                  w: Work, count: nat, i: nat)
    returns (v: Work)
    requires Books(cfg, node, answered, w) && Against(cfg, server, space, w) && !w.lost && 1 <= count <= |w.pending|
    requires server(i, Ids(w.pending[..count])).Results?
    ensures var now := answered + [Ids(w.pending[..count])];
            && Books(cfg, node, now, v) && Against(cfg, server, space, v) && 1 <= v.batch <= w.batch
            && Browsed(All, answered) < Browsed(All, now) <= 2 * (Cap(cfg) + 1)
  {
    var results := server(i, Ids(w.pending[..count])).results;
    StepKeeps(cfg, node, answered, w, count, results);
    StepAgainst(cfg, server, space, w, count, i);
    v := OnAnswer(cfg, w.(pending := w.pending[count..]), w.pending[..count], results);
  }

  /** What holds between requests, whatever the server. */
  ghost predicate Books(cfg: Config, node: NodeId, answered: seq<seq<NodeId>>, w: Work) {
    && Tidy(cfg, w) && |answered| <= Browsed(All, answered)
    && Within(All, Browsed(All, answered), w, []) && Within(Only(node), Browsed(Only(node), answered), w, [])
  }

  /** And of a server that answers from one address space. */
  ghost predicate Against(cfg: Config, server: Server, space: Space, w: Work) {
    && (TruthfulServer(server, space) ==> Sound(cfg, space, w, []))
    && (FaithfulServer(server, space) && !w.lost ==> Right(cfg, space, w, []))
    && (FaithfulServer(server, space) && Steady(server) && !w.lost ==> Layers(cfg, space, w, []))
  }

  lemma StartAgainst(cfg: Config, server: Server, space: Space, w: Work)
    requires w.pending == [ROOT] && w.entries == []
    ensures Against(cfg, server, space, w)
  {
    StartRight(cfg, space, w);
    StartLayers(cfg, space, w);
  }

  lemma BatchAgainst(cfg: Config, server: Server, space: Space, w: Work)
    requires Against(cfg, server, space, w)
    ensures Against(cfg, server, space, w.(batch := 1))
  {
    if FaithfulServer(server, space) && !w.lost {
      SameRight(cfg, space, w, w.(batch := 1), []);
      if Steady(server) {
        SameLayers(cfg, space, w, w.(batch := 1));
      }
    }
  }

  lemma StepAgainst(cfg: Config, server: Server, space: Space, w: Work, count: nat, i: nat)
    requires Tidy(cfg, w) && !w.lost && count <= |w.pending| && Against(cfg, server, space, w)
    requires server(i, Ids(w.pending[..count])).Results?
    ensures var results := server(i, Ids(w.pending[..count])).results;
            Against(cfg, server, space, Level(cfg, w.(pending := w.pending[count..]), w.pending[..count], results))
  {
    var results := server(i, Ids(w.pending[..count])).results;
    if TruthfulServer(server, space) {
      StepSound(cfg, space, w, count, results);
    }
    if FaithfulServer(server, space) {
      StepRight(cfg, space, w, count, results);
      if Steady(server) {
        StepLayers(cfg, space, w, count, results);
      }
    }
  }

  /** What an index holds. */
  lemma Indexes(cfg: Config, server: Server, space: Space, cls: NodeId -> NodeClass, w: Work)
    requires Tidy(cfg, w) && !w.lost && Against(cfg, server, space, w) && (w.pending == [] || w.stop)
    ensures FaithfulServer(server, space) && !w.truncated ==> AllChains(cfg, space, w.entries)
    ensures FaithfulServer(server, space) && Typed(space, cls) && !w.truncated && NoneCapped(cfg, w.entries) ==>
              forall x :: HasEntry(w.entries, x) <==> x != OBJECTS && Reachable(cfg, space, cls, x)
    ensures FaithfulServer(server, space) && Steady(server) && Typed(space, cls) && !w.truncated ==>
              && (forall e :: e in w.entries ==> IsDistance(cfg, space, cls, e.id, e.depth))
              && (forall x :: HasEntry(w.entries, x) <==> x != OBJECTS && ReachWithin(cfg, space, cls, x, Deepest(cfg)))
  {
    if FaithfulServer(server, space) && Typed(space, cls) && !w.truncated {
      if NoneCapped(cfg, w.entries) {
        Exact(cfg, space, cls, w);
      }
      if Steady(server) {
        Distances(cfg, space, cls, w);
      }
    }
  }

  lemma StartWithin(pick: Pick, w: Work)
    requires w.pending == [ROOT] && w.entries == []
    ensures Within(pick, 0, w, [])
  {
    assert w.pending[1..] == [];
  }

  lemma StartBooks(cfg: Config, node: NodeId, w: Work)
    requires w.pending == [ROOT] && w.entries == [] && w.seen == {OBJECTS} && w.batch >= 1 && !w.stop
    ensures Books(cfg, node, [], w)
  {
    StartWithin(All, w);
    StartWithin(Only(node), w);
  }

  lemma StartRight(cfg: Config, space: Space, w: Work)
    requires w.pending == [ROOT] && w.entries == []
    ensures Right(cfg, space, w, [])
  {
    assert ROOT in w.pending;
    assert InQueue(w.pending, OBJECTS);
  }

  lemma BatchBooks(cfg: Config, node: NodeId, answered: seq<seq<NodeId>>, w: Work)
    requires Books(cfg, node, answered, w)
    ensures Books(cfg, node, answered, w.(batch := 1))
  {
  }

  lemma Bounds(cfg: Config, node: NodeId, answered: seq<seq<NodeId>>, w: Work)
    requires Books(cfg, node, answered, w)
    ensures Distinct(w.entries) && |w.entries| <= Cap(cfg) && |answered| <= 2 * (|w.entries| + 1)
    ensures Browsed(Only(node), answered) <= 2 && Browsed(All, answered) <= 2 * (Cap(cfg) + 1)
  {
    KnownAll(w.entries);
    KnownOnly(w.entries, node);
  }

  /** An answered request keeps the books, and takes at least one node off them. */
  lemma StepKeeps(cfg: Config, node: NodeId, answered: seq<seq<NodeId>>, w: Work, count: nat, results: seq<Result>)
    requires Books(cfg, node, answered, w) && 1 <= count <= |w.pending|
    ensures var v := Level(cfg, w.(pending := w.pending[count..]), w.pending[..count], results);
            var now := answered + [Ids(w.pending[..count])];
            Books(cfg, node, now, v) && 1 <= v.batch <= w.batch && Browsed(All, answered) < Browsed(All, now) <= 2 * (Cap(cfg) + 1)
  {
    var u, level := w.(pending := w.pending[count..]), w.pending[..count];
    var v := Level(cfg, u, level, results);
    var now := answered + [Ids(level)];
    TakeWithin(All, answered, w, count);
    TakeWithin(Only(node), answered, w, count);
    LevelTidy(cfg, u, level, results);
    LevelBatch(cfg, u, level, results);
    LevelWithin(cfg, All, Browsed(All, now), u, level, results);
    LevelWithin(cfg, Only(node), Browsed(Only(node), now), u, level, results);
    BrowsedSnoc(All, answered, Ids(level));
    CountAll(Ids(level));
    IdsAt(level, 0);
    KnownAll(v.entries);
  }

  lemma StepRight(cfg: Config, space: Space, w: Work, count: nat, results: seq<Result>)
    requires Tidy(cfg, w) && count <= |w.pending| && Right(cfg, space, w, []) && FaithfulAnswer(space, Ids(w.pending[..count]), results)
    ensures var v := Level(cfg, w.(pending := w.pending[count..]), w.pending[..count], results); v.lost || Right(cfg, space, v, [])
  {
    TakeRight(cfg, space, w, count);
    FaithfulLevel(space, w.pending[..count], results);
    LevelRight(cfg, space, w.(pending := w.pending[count..]), w.pending[..count], results);
  }

  lemma StepSound(cfg: Config, space: Space, w: Work, count: nat, results: seq<Result>)
    requires count <= |w.pending| && Sound(cfg, space, w, []) && TruthfulAnswer(space, Ids(w.pending[..count]), results)
    ensures Sound(cfg, space, Level(cfg, w.(pending := w.pending[count..]), w.pending[..count], results), [])
  {
    TruthfulLevel(space, w.pending[..count], results);
    LevelSound(cfg, space, w.(pending := w.pending[count..]), w.pending[..count], results);
  }

  lemma SoundReachable(cfg: Config, server: Server, space: Space, cls: NodeId -> NodeClass, w: Work)
    requires TruthfulServer(server, space) ==> Sound(cfg, space, w, [])
    ensures TruthfulServer(server, space) && Typed(space, cls) ==> forall x :: HasEntry(w.entries, x) ==> Reachable(cfg, space, cls, x)
  {
    if TruthfulServer(server, space) && Typed(space, cls) {
      AllReachable(cfg, space, cls, w.entries);
    }
  }

  lemma StartLayers(cfg: Config, space: Space, w: Work)
    requires w.pending == [ROOT] && w.entries == []
    ensures Layers(cfg, space, w, [])
  {
    assert [] + w.pending == [ROOT];
    assert ROOT in w.pending;
  }

  lemma StepLayers(cfg: Config, space: Space, w: Work, count: nat, results: seq<Result>)
    requires Tidy(cfg, w) && count <= |w.pending| && Right(cfg, space, w, []) && Layers(cfg, space, w, [])
    requires FaithfulAnswer(space, Ids(w.pending[..count]), results) && SteadyAnswer(Ids(w.pending[..count]), results)
    ensures var v := Level(cfg, w.(pending := w.pending[count..]), w.pending[..count], results); v.lost || Layers(cfg, space, v, [])
  {
    var level := w.pending[..count];
    TakeRight(cfg, space, w, count);
    TakeLayers(cfg, space, w, count);
    FaithfulLevel(space, level, results);
    IdsAt(level, 0);
    AllResultsLayers(cfg, space, w.(pending := w.pending[count..]), level, results);
  }
}
