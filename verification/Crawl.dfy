/** The breadth-first browse that builds a connection's search index:  a queue, what has been seen, one retry a node, batches that shrink,
    and caps on depth and size. */
module Crawl {
  datatype NodeId = Numeric(ns: nat, number: nat) | Named(ns: nat, name: string)
  datatype NodeClass = Object | Variable | Method | Other

  const OBJECTS := Numeric(0, 85)
  const SERVER_OBJECT := Numeric(0, 2253)

  /** A reference a browse answers:  its target, its browse name and namespace, and the target's class. */
  datatype Ref = Ref(id: NodeId, ns: nat, browse: string, display: string, cls: NodeClass)

  /** A browse result's status:  good or uncertain, a lost session, one worth a retry, or any other refusal. */
  datatype Status = Good | Lost | Transient | Refusal

  datatype Result = Result(status: Status, refs: seq<Ref>, more: bool)

  /** A Browse request's outcome. */
  datatype Answer = TooMany | Failure | Results(results: seq<Result>)

  /** The server:  what it answers the i-th request with. */
  type Server = (nat, seq<NodeId>) -> Answer

  datatype Config = Config(maxDepth: nat, maxNodes: nat, includeServer: bool, browseBatch: nat, skipNames: seq<string>, defaultNs: nat)

  /** A path segment:  the browse name alone, or with its namespace. */
  datatype Segment = Plain(name: string) | InNs(ns: nat, name: string)

  datatype Pending = Pending(id: NodeId, path: seq<Segment>, depth: nat, retried: bool)
  datatype Entry = Entry(id: NodeId, path: seq<Segment>, display: string, browse: string, ns: nat, cls: NodeClass, depth: nat)

  datatype Work = Work(
    pending: seq<Pending>,
    seen: set<NodeId>,
    entries: seq<Entry>,
    batch: nat,
    truncated: bool,
    stop: bool,
    refused: nat,
    lost: bool)

  const ROOT := Pending(OBJECTS, [Plain("Objects")], 0, false)

  predicate Expandable(cls: NodeClass) {
    cls.Object? || cls.Variable?
  }

  /** What is neither the server's own subtree, a skipped name nor one no url can spell. */
  predicate Admissible(cfg: Config, ref: Ref) {
    && (cfg.includeServer || ref.id != SERVER_OBJECT)
    && ref.browse !in cfg.skipNames
    && '/' !in ref.browse
  }

  /** A name in the default namespace stands alone, and one in namespace 0 where no sibling in the default namespace has it. */
  predicate StandsAlone(cfg: Config, refs: seq<Ref>, ref: Ref) {
    ref.ns == cfg.defaultNs || (ref.ns == 0 && forall s :: s in refs && s.ns == cfg.defaultNs ==> s.browse != ref.browse)
  }

  function SegmentOf(cfg: Config, refs: seq<Ref>, ref: Ref): Segment {
    if StandsAlone(cfg, refs, ref) then Plain(ref.browse) else InNs(ref.ns, ref.browse)
  }

  function EntryOf(cfg: Config, parent: Pending, refs: seq<Ref>, ref: Ref): Entry {
    Entry(ref.id, parent.path + [SegmentOf(cfg, refs, ref)], ref.display, ref.browse, ref.ns, ref.cls, parent.depth + 1)
  }

  predicate Queues(cfg: Config, e: Entry) {
    Expandable(e.cls) && e.depth < cfg.maxDepth
  }

  // ---- The steps ----

  /** One reference of a folder. */
  function Visit(cfg: Config, w: Work, parent: Pending, refs: seq<Ref>, ref: Ref): Work {
    if ref.id in w.seen || !Admissible(cfg, ref) then w else
      var e := EntryOf(cfg, parent, refs, ref);
      var full := |w.entries| + 1 >= cfg.maxNodes;
      w.(pending := if Queues(cfg, e) then w.pending + [Pending(e.id, e.path, e.depth, false)] else w.pending,
         seen := w.seen + {ref.id},
         entries := w.entries + [e],
         truncated := w.truncated || full,
         stop := w.stop || full)
  }

  function VisitAll(cfg: Config, w: Work, parent: Pending, refs: seq<Ref>, rest: seq<Ref>): Work
    decreases |rest|
  {
    if rest == [] || w.stop then w else VisitAll(cfg, Visit(cfg, w, parent, refs, rest[0]), parent, refs, rest[1..])
  }

  function Half(batch: nat): nat {
    if batch / 2 < 1 then 1 else batch / 2
  }

  /** Once more, at the back. */
  function Again(p: Pending): Pending {
    p.(retried := true)
  }

  /** One node's result. */
  function OneResult(cfg: Config, w: Work, parent: Pending, result: Result): Work {
    match result.status
    case Lost => w.(lost := true)
    case Good => VisitAll(cfg, w.(truncated := w.truncated || result.more), parent, result.refs, result.refs)
    case _ =>
      if result.status.Transient? && !parent.retried then w.(batch := Half(w.batch), pending := w.pending + [Again(parent)])
      else w.(truncated := true, refused := w.refused + 1)
  }

  /** The results of a level, in order, until the index is full or the session is lost. */
  function AllResults(cfg: Config, w: Work, level: seq<Pending>, results: seq<Result>): Work
    decreases |level|
  {
    if level == [] || results == [] || w.stop || w.lost then w
    else AllResults(cfg, OneResult(cfg, w, level[0], results[0]), level[1..], results[1..])
  }

  /** The nodes a short answer left out. */
  function Unanswered(w: Work, left: seq<Pending>): Work
    decreases |left|
  {
    if left == [] then w
    else if !left[0].retried then Unanswered(w.(pending := w.pending + [Again(left[0])]), left[1..])
    else Unanswered(w.(truncated := true, refused := w.refused + 1), left[1..])
  }

  /** A level answered, whole or short. */
  function Level(cfg: Config, w: Work, level: seq<Pending>, results: seq<Result>): Work {
    AllResults(cfg, if |results| < |level| then Unanswered(w.(batch := Half(w.batch)), level[|results|..]) else w, level, results)
  }

  // ---- What every step keeps:  the queue, the seen and the entries agree, and the caps hold ----

  function Cap(cfg: Config): nat {
    if cfg.maxNodes > 1 then cfg.maxNodes else 1
  }

  predicate HasEntry(es: seq<Entry>, id: NodeId) {
    exists e :: e in es && e.id == id
  }

  ghost predicate Distinct(es: seq<Entry>) {
    forall i, j :: 0 <= i < j < |es| ==> es[i].id != es[j].id
  }

  ghost predicate Tidy(cfg: Config, w: Work) {
    && Distinct(w.entries)
    && (forall x :: x in w.seen <==> x == OBJECTS || HasEntry(w.entries, x))
    && !HasEntry(w.entries, OBJECTS)
    && |w.entries| <= Cap(cfg) && (!w.stop ==> |w.entries| < Cap(cfg))
    && (w.stop ==> w.truncated)
    && w.batch >= 1
  }

  lemma EntryAdded(es: seq<Entry>, e: Entry)
    requires Distinct(es) && !HasEntry(es, e.id)
    ensures Distinct(es + [e])
    ensures forall x :: HasEntry(es + [e], x) <==> HasEntry(es, x) || x == e.id
  {
    forall x ensures HasEntry(es + [e], x) <==> HasEntry(es, x) || x == e.id {
      assert e in es + [e];
    }
    forall i, j | 0 <= i < j < |es + [e]| ensures (es + [e])[i].id != (es + [e])[j].id {
      if j == |es| {
        assert es[i] in es;
      }
    }
  }

  lemma VisitTidy(cfg: Config, w: Work, parent: Pending, refs: seq<Ref>, ref: Ref)
    requires Tidy(cfg, w) && !w.stop
    ensures Tidy(cfg, Visit(cfg, w, parent, refs, ref))
  {
    if ref.id !in w.seen && Admissible(cfg, ref) {
      EntryAdded(w.entries, EntryOf(cfg, parent, refs, ref));
    }
  }

  lemma {:induction false} VisitAllTidy(cfg: Config, w: Work, parent: Pending, refs: seq<Ref>, rest: seq<Ref>)
    requires Tidy(cfg, w)
    ensures Tidy(cfg, VisitAll(cfg, w, parent, refs, rest))
    decreases |rest|
  {
    if rest != [] && !w.stop {
      VisitTidy(cfg, w, parent, refs, rest[0]);
      VisitAllTidy(cfg, Visit(cfg, w, parent, refs, rest[0]), parent, refs, rest[1..]);
    }
  }

  lemma OneResultTidy(cfg: Config, w: Work, parent: Pending, result: Result)
    requires Tidy(cfg, w)
    ensures Tidy(cfg, OneResult(cfg, w, parent, result))
  {
    if result.status.Good? {
      VisitAllTidy(cfg, w.(truncated := w.truncated || result.more), parent, result.refs, result.refs);
    }
  }

  lemma {:induction false} AllResultsTidy(cfg: Config, w: Work, level: seq<Pending>, results: seq<Result>)
    requires Tidy(cfg, w)
    ensures Tidy(cfg, AllResults(cfg, w, level, results))
    decreases |level|
  {
    if level != [] && results != [] && !w.stop && !w.lost {
      OneResultTidy(cfg, w, level[0], results[0]);
      AllResultsTidy(cfg, OneResult(cfg, w, level[0], results[0]), level[1..], results[1..]);
    }
  }

  lemma {:induction false} UnansweredTidy(cfg: Config, w: Work, left: seq<Pending>)
    requires Tidy(cfg, w)
    ensures Tidy(cfg, Unanswered(w, left))
    decreases |left|
  {
    if left != [] {
      UnansweredTidy(cfg, if !left[0].retried then w.(pending := w.pending + [Again(left[0])])
          else w.(truncated := true, refused := w.refused + 1), left[1..]);
    }
  }

  lemma LevelTidy(cfg: Config, w: Work, level: seq<Pending>, results: seq<Result>)
    requires Tidy(cfg, w)
    ensures Tidy(cfg, Level(cfg, w, level, results))
  {
    if |results| < |level| {
      UnansweredTidy(cfg, w.(batch := Half(w.batch)), level[|results|..]);
      AllResultsTidy(cfg, Unanswered(w.(batch := Half(w.batch)), level[|results|..]), level, results);
    } else {
      AllResultsTidy(cfg, w, level, results);
    }
  }

  // ---- A budget of browses:  two for each node seen ----

  datatype Pick = All | Only(id: NodeId)

  predicate Picks(pick: Pick, id: NodeId) {
    pick.Only? ==> id == pick.id
  }

  function One(b: bool): nat {
    if b then 1 else 0
  }

  function Count(pick: Pick, ids: seq<NodeId>): nat {
    if ids == [] then 0 else One(Picks(pick, ids[0])) + Count(pick, ids[1..])
  }

  /** The browses a queued node may still take:  two, or one of a retried node. */
  function Owed(pick: Pick, ps: seq<Pending>): nat {
    if ps == [] then 0 else (if Picks(pick, ps[0].id) then 1 + One(!ps[0].retried) else 0) + Owed(pick, ps[1..])
  }

  /** The nodes of a level out for the first time. */
  function Firsts(pick: Pick, ps: seq<Pending>): nat {
    if ps == [] then 0 else One(Picks(pick, ps[0].id) && !ps[0].retried) + Firsts(pick, ps[1..])
  }

  function Known(pick: Pick, es: seq<Entry>): nat {
    if es == [] then One(Picks(pick, OBJECTS)) else Known(pick, es[..|es| - 1]) + One(Picks(pick, es[|es| - 1].id))
  }

  lemma KnownSnoc(pick: Pick, es: seq<Entry>, e: Entry)
    ensures Known(pick, es + [e]) == Known(pick, es) + One(Picks(pick, e.id))
  {
    assert (es + [e])[..|es|] == es;
  }

  lemma {:induction false} OwedConcat(pick: Pick, a: seq<Pending>, b: seq<Pending>)
    ensures Owed(pick, a + b) == Owed(pick, a) + Owed(pick, b)
  {
    if a == [] {
      assert a + b == b;
    } else {
      assert (a + b)[1..] == a[1..] + b;
      OwedConcat(pick, a[1..], b);
    }
  }

  lemma {:induction false} FirstsConcat(pick: Pick, a: seq<Pending>, b: seq<Pending>)
    ensures Firsts(pick, a + b) == Firsts(pick, a) + Firsts(pick, b)
  {
    if a == [] {
      assert a + b == b;
    } else {
      assert (a + b)[1..] == a[1..] + b;
      FirstsConcat(pick, a[1..], b);
    }
  }

  /** What has been browsed, what is queued, and what of the level in hand may yet be queued again, within two for each node known. */
  predicate Within(pick: Pick, browsed: nat, w: Work, level: seq<Pending>) {
    browsed + Owed(pick, w.pending) + Firsts(pick, level) <= 2 * Known(pick, w.entries)
  }

  lemma VisitWithin(cfg: Config, pick: Pick, browsed: nat, w: Work, level: seq<Pending>, parent: Pending, refs: seq<Ref>, ref: Ref)
    requires Within(pick, browsed, w, level)
    ensures Within(pick, browsed, Visit(cfg, w, parent, refs, ref), level)
  {
    var e := EntryOf(cfg, parent, refs, ref);
    KnownSnoc(pick, w.entries, e);
    OwedConcat(pick, w.pending, [Pending(e.id, e.path, e.depth, false)]);
  }

  lemma {:induction false} VisitAllWithin(cfg: Config, pick: Pick, browsed: nat, w: Work, level: seq<Pending>, parent: Pending,
                                          refs: seq<Ref>, rest: seq<Ref>)
    requires Within(pick, browsed, w, level)
    ensures Within(pick, browsed, VisitAll(cfg, w, parent, refs, rest), level)
    decreases |rest|
  {
    if rest != [] && !w.stop {
      VisitWithin(cfg, pick, browsed, w, level, parent, refs, rest[0]);
      VisitAllWithin(cfg, pick, browsed, Visit(cfg, w, parent, refs, rest[0]), level, parent, refs, rest[1..]);
    }
  }

  lemma AgainWithin(pick: Pick, browsed: nat, w: Work, level: seq<Pending>)
    requires level != [] && !level[0].retried && Within(pick, browsed, w, level)
    ensures Within(pick, browsed, w.(pending := w.pending + [Again(level[0])]), level[1..])
  {
    OwedConcat(pick, w.pending, [Again(level[0])]);
  }

  lemma OneResultWithin(cfg: Config, pick: Pick, browsed: nat, w: Work, level: seq<Pending>, result: Result)
    requires level != [] && Within(pick, browsed, w, level)
    ensures Within(pick, browsed, OneResult(cfg, w, level[0], result), level[1..])
  {
    if result.status.Good? {
      VisitAllWithin(cfg, pick, browsed, w.(truncated := w.truncated || result.more), level, level[0], result.refs, result.refs);
    } else if result.status.Transient? && !level[0].retried {
      AgainWithin(pick, browsed, w.(batch := Half(w.batch)), level);
    }
  }

  lemma {:induction false} AllResultsWithin(cfg: Config, pick: Pick, browsed: nat, w: Work, level: seq<Pending>, results: seq<Result>)
    requires Within(pick, browsed, w, level)
    ensures Within(pick, browsed, AllResults(cfg, w, level, results), [])
    decreases |level|
  {
    if level != [] && results != [] && !w.stop && !w.lost {
      OneResultWithin(cfg, pick, browsed, w, level, results[0]);
      AllResultsWithin(cfg, pick, browsed, OneResult(cfg, w, level[0], results[0]), level[1..], results[1..]);
    }
  }

  lemma {:induction false} UnansweredWithin(pick: Pick, browsed: nat, w: Work, left: seq<Pending>, level: seq<Pending>)
    requires browsed + Owed(pick, w.pending) + Firsts(pick, left) + Firsts(pick, level) <= 2 * Known(pick, w.entries)
    ensures Within(pick, browsed, Unanswered(w, left), level)
    decreases |left|
  {
    if left != [] {
      OwedConcat(pick, w.pending, [Again(left[0])]);
      UnansweredWithin(pick, browsed, if !left[0].retried then w.(pending := w.pending + [Again(left[0])])
          else w.(truncated := true, refused := w.refused + 1), left[1..], level);
    }
  }

  lemma {:induction false} AllResultsPrefix(cfg: Config, w: Work, level: seq<Pending>, results: seq<Result>)
    requires |results| <= |level|
    ensures AllResults(cfg, w, level, results) == AllResults(cfg, w, level[..|results|], results)
    decreases |level|
  {
    if level != [] && results != [] && !w.stop && !w.lost {
      AllResultsPrefix(cfg, OneResult(cfg, w, level[0], results[0]), level[1..], results[1..]);
      assert level[..|results|][1..] == level[1..][..|results| - 1];
    }
  }

  lemma LevelWithin(cfg: Config, pick: Pick, browsed: nat, w: Work, level: seq<Pending>, results: seq<Result>)
    requires Within(pick, browsed, w, level)
    ensures Within(pick, browsed, Level(cfg, w, level, results), [])
  {
    if |results| < |level| {
      var v := w.(batch := Half(w.batch));
      var head, left := level[..|results|], level[|results|..];
      assert level == head + left;
      FirstsConcat(pick, head, left);
      UnansweredWithin(pick, browsed, v, left, head);
      AllResultsPrefix(cfg, Unanswered(v, left), level, results);
      AllResultsWithin(cfg, pick, browsed, Unanswered(v, left), head, results);
    } else {
      AllResultsWithin(cfg, pick, browsed, w, level, results);
    }
  }

  // ---- Against a fixed address space ----

  /** Each node's hierarchical references. */
  type Space = NodeId -> seq<Ref>

  /** A queued node is the root, or an entry that queues. */
  ghost predicate Origin(cfg: Config, es: seq<Entry>, p: Pending) {
    || (p.id == OBJECTS && p.path == ROOT.path && p.depth == 0)
    || exists e :: e in es && Queues(cfg, e) && e.id == p.id && e.path == p.path && e.depth == p.depth
  }

  /** An entry is an admissible reference of the root or of an earlier entry, one level below it and its path one segment longer. */
  ghost predicate Chain(cfg: Config, space: Space, es: seq<Entry>, e: Entry) {
    exists parent: Pending, ref: Ref ::
      Origin(cfg, es, parent) && ref in space(parent.id) && Admissible(cfg, ref) && e == EntryOf(cfg, parent, space(parent.id), ref)
  }

  ghost predicate AllOrigins(cfg: Config, es: seq<Entry>, ps: seq<Pending>) {
    forall p :: p in ps ==> Origin(cfg, es, p)
  }

  ghost predicate AllChains(cfg: Config, space: Space, es: seq<Entry>) {
    forall k :: 0 <= k < |es| ==> Chain(cfg, space, es[..k], es[k])
  }

  /** Every admissible reference of the node leads to something seen. */
  ghost predicate Expanded(cfg: Config, space: Space, seen: set<NodeId>, x: NodeId) {
    forall ref :: ref in space(x) && Admissible(cfg, ref) ==> ref.id in seen
  }

  predicate InQueue(ps: seq<Pending>, x: NodeId) {
    exists p :: p in ps && p.id == x
  }

  ghost predicate Handled(cfg: Config, space: Space, w: Work, level: seq<Pending>, x: NodeId) {
    Expanded(cfg, space, w.seen, x) || InQueue(w.pending, x) || InQueue(level, x)
  }

  ghost predicate Covered(cfg: Config, space: Space, w: Work, level: seq<Pending>) {
    && Handled(cfg, space, w, level, OBJECTS)
    && forall e :: e in w.entries && Queues(cfg, e) ==> Handled(cfg, space, w, level, e.id)
  }

  /** While nothing has been cut short, every entry is there rightly and no node that expands has been passed over. */
  ghost predicate Right(cfg: Config, space: Space, w: Work, level: seq<Pending>) {
    !w.truncated ==>
      && AllChains(cfg, space, w.entries) && AllOrigins(cfg, w.entries, w.pending) && AllOrigins(cfg, w.entries, level)
      && Covered(cfg, space, w, level)
  }

  lemma OriginMore(cfg: Config, es: seq<Entry>, e: Entry, p: Pending)
    requires Origin(cfg, es, p)
    ensures Origin(cfg, es + [e], p)
  {
    if !(p.id == OBJECTS && p.path == ROOT.path && p.depth == 0) {
      var x :| x in es && Queues(cfg, x) && x.id == p.id && x.path == p.path && x.depth == p.depth;
      assert x in es + [e];
    }
  }

  lemma OriginsMore(cfg: Config, es: seq<Entry>, e: Entry, ps: seq<Pending>)
    requires AllOrigins(cfg, es, ps)
    ensures AllOrigins(cfg, es + [e], ps)
  {
    forall p | p in ps ensures Origin(cfg, es + [e], p) {
      OriginMore(cfg, es, e, p);
    }
  }

  lemma ChainsMore(cfg: Config, space: Space, es: seq<Entry>, e: Entry)
    requires AllChains(cfg, space, es) && Chain(cfg, space, es, e)
    ensures AllChains(cfg, space, es + [e])
  {
    forall k | 0 <= k < |es + [e]| ensures Chain(cfg, space, (es + [e])[..k], (es + [e])[k]) {
      assert (es + [e])[..k] == es[..k];
      assert es[..|es|] == es;
    }
  }

  lemma HandledMore(cfg: Config, space: Space, w: Work, v: Work, level: seq<Pending>, x: NodeId)
    requires Handled(cfg, space, w, level, x) && w.seen <= v.seen && w.pending <= v.pending
    ensures Handled(cfg, space, v, level, x)
  {
    if InQueue(w.pending, x) {
      var p :| p in w.pending && p.id == x;
      assert p in v.pending;
    }
  }

  lemma CoveredMore(cfg: Config, space: Space, w: Work, v: Work, level: seq<Pending>, e: Entry)
    requires Covered(cfg, space, w, level) && w.seen <= v.seen && w.pending <= v.pending && v.entries == w.entries + [e]
    requires Queues(cfg, e) ==> InQueue(v.pending, e.id)
    ensures Covered(cfg, space, v, level)
  {
    HandledMore(cfg, space, w, v, level, OBJECTS);
    forall x | x in v.entries && Queues(cfg, x) ensures Handled(cfg, space, v, level, x.id) {
      if x in w.entries {
        HandledMore(cfg, space, w, v, level, x.id);
      }
    }
  }

  lemma VisitRight(cfg: Config, space: Space, w: Work, level: seq<Pending>, parent: Pending, ref: Ref)
    requires Right(cfg, space, w, level) && parent in level && ref in space(parent.id)
    ensures Right(cfg, space, Visit(cfg, w, parent, space(parent.id), ref), level)
  {
    var v := Visit(cfg, w, parent, space(parent.id), ref);
    if !v.truncated && v != w {
      var e := EntryOf(cfg, parent, space(parent.id), ref);
      assert Origin(cfg, w.entries, parent);
      assert Chain(cfg, space, w.entries, e);
      ChainsMore(cfg, space, w.entries, e);
      OriginsMore(cfg, w.entries, e, w.pending);
      OriginsMore(cfg, w.entries, e, level);
      QueuedRight(cfg, w, v, e);
      CoveredMore(cfg, space, w, v, level, e);
    }
  }

  lemma QueuedRight(cfg: Config, w: Work, v: Work, e: Entry)
    requires v.pending == if Queues(cfg, e) then w.pending + [Pending(e.id, e.path, e.depth, false)] else w.pending
    requires v.entries == w.entries + [e] && AllOrigins(cfg, v.entries, w.pending)
    ensures AllOrigins(cfg, v.entries, v.pending) && w.pending <= v.pending && (Queues(cfg, e) ==> InQueue(v.pending, e.id))
  {
    assert e in v.entries;
    if Queues(cfg, e) {
      assert Pending(e.id, e.path, e.depth, false) in v.pending;
    }
  }

  lemma {:induction false} VisitAllRight(cfg: Config, space: Space, w: Work, level: seq<Pending>, parent: Pending, rest: seq<Ref>)
    requires Right(cfg, space, w, level) && parent in level && forall ref :: ref in rest ==> ref in space(parent.id)
    ensures Right(cfg, space, VisitAll(cfg, w, parent, space(parent.id), rest), level)
    decreases |rest|
  {
    if rest != [] && !w.stop {
      VisitRight(cfg, space, w, level, parent, rest[0]);
      VisitAllRight(cfg, space, Visit(cfg, w, parent, space(parent.id), rest[0]), level, parent, rest[1..]);
    }
  }

  lemma {:induction false} VisitAllSees(cfg: Config, w: Work, parent: Pending, refs: seq<Ref>, rest: seq<Ref>)
    ensures var v := VisitAll(cfg, w, parent, refs, rest);
            w.seen <= v.seen && (w.truncated ==> v.truncated)
            && (!v.stop ==> forall ref :: ref in rest && Admissible(cfg, ref) ==> ref.id in v.seen)
    decreases |rest|
  {
    if rest != [] && !w.stop {
      VisitAllSees(cfg, Visit(cfg, w, parent, refs, rest[0]), parent, refs, rest[1..]);
      assert forall ref :: ref in rest <==> ref == rest[0] || ref in rest[1..];
    }
  }

  /** A level's head is done with once it is expanded, or queued again. */
  lemma HeadDone(cfg: Config, space: Space, w: Work, level: seq<Pending>)
    requires level != [] && Right(cfg, space, w, level)
    requires w.truncated || Expanded(cfg, space, w.seen, level[0].id) || InQueue(w.pending, level[0].id)
    ensures Right(cfg, space, w, level[1..])
  {
    forall x | Handled(cfg, space, w, level, x) && !w.truncated ensures Handled(cfg, space, w, level[1..], x) {
      assert forall p :: p in level <==> p == level[0] || p in level[1..];
    }
  }

  lemma AgainRight(cfg: Config, space: Space, w: Work, level: seq<Pending>, batch: nat)
    requires level != [] && Right(cfg, space, w, level)
    ensures Right(cfg, space, w.(batch := batch, pending := w.pending + [Again(level[0])]), level[1..])
  {
    var v := w.(batch := batch, pending := w.pending + [Again(level[0])]);
    assert Again(level[0]) in v.pending;
    forall x | Handled(cfg, space, w, level, x) ensures Handled(cfg, space, v, level, x) {
      HandledMore(cfg, space, w, v, level, x);
    }
    if !w.truncated {
      assert Origin(cfg, w.entries, level[0]);
      assert Origin(cfg, w.entries, Again(level[0]));
    }
    HeadDone(cfg, space, v, level);
  }

  /** What the server says of a node in full is the node's references. */
  predicate Faithful(space: Space, p: Pending, result: Result) {
    result.status.Good? && !result.more ==> result.refs == space(p.id)
  }

  lemma OneResultRight(cfg: Config, space: Space, w: Work, level: seq<Pending>, result: Result)
    requires Tidy(cfg, w) && level != [] && Right(cfg, space, w, level) && Faithful(space, level[0], result)
    ensures OneResult(cfg, w, level[0], result).lost || Right(cfg, space, OneResult(cfg, w, level[0], result), level[1..])
  {
    if result.status.Good? {
      GoodRight(cfg, space, w, level, result);
    } else if result.status.Transient? && !level[0].retried {
      AgainRight(cfg, space, w, level, Half(w.batch));
    }
  }

  lemma GoodRight(cfg: Config, space: Space, w: Work, level: seq<Pending>, result: Result)
    requires Tidy(cfg, w) && level != [] && Right(cfg, space, w, level) && Faithful(space, level[0], result) && result.status.Good?
    ensures Right(cfg, space, OneResult(cfg, w, level[0], result), level[1..])
  {
    var u := w.(truncated := w.truncated || result.more);
    var v := VisitAll(cfg, u, level[0], result.refs, result.refs);
    VisitAllSees(cfg, u, level[0], result.refs, result.refs);
    VisitAllTidy(cfg, u, level[0], result.refs, result.refs);
    if !v.truncated {
      VisitAllRight(cfg, space, w, level, level[0], result.refs);
      HeadDone(cfg, space, v, level);
    }
  }

  ghost predicate AllFaithful(space: Space, level: seq<Pending>, results: seq<Result>) {
    forall i :: 0 <= i < |level| && i < |results| ==> Faithful(space, level[i], results[i])
  }

  lemma {:induction false} AllResultsRight(cfg: Config, space: Space, w: Work, level: seq<Pending>, results: seq<Result>)
    requires Tidy(cfg, w) && Right(cfg, space, w, level) && AllFaithful(space, level, results) && |results| >= |level|
    ensures AllResults(cfg, w, level, results).lost || Right(cfg, space, AllResults(cfg, w, level, results), [])
    decreases |level|
  {
    if w.stop || w.lost || level == [] {
    } else {
      var v := OneResult(cfg, w, level[0], results[0]);
      assert Faithful(space, level[0], results[0]);
      OneResultTidy(cfg, w, level[0], results[0]);
      OneResultRight(cfg, space, w, level, results[0]);
      if !v.lost {
        assert AllFaithful(space, level[1..], results[1..]);
        AllResultsRight(cfg, space, v, level[1..], results[1..]);
      }
    }
  }

  lemma RightReordered(cfg: Config, space: Space, w: Work, level: seq<Pending>, other: seq<Pending>)
    requires Right(cfg, space, w, level) && forall p :: p in level <==> p in other
    ensures Right(cfg, space, w, other)
  {
    forall x ensures InQueue(level, x) <==> InQueue(other, x) {
    }
  }

  lemma {:induction false} UnansweredRight(cfg: Config, space: Space, w: Work, left: seq<Pending>, level: seq<Pending>)
    requires Right(cfg, space, w, left + level)
    ensures Right(cfg, space, Unanswered(w, left), level)
    decreases |left|
  {
    if left == [] {
      assert left + level == level;
    } else {
      assert (left + level)[1..] == left[1..] + level;
      if !left[0].retried {
        AgainRight(cfg, space, w, left + level, w.batch);
        UnansweredRight(cfg, space, w.(pending := w.pending + [Again(left[0])]), left[1..], level);
      } else {
        UnansweredRight(cfg, space, w.(truncated := true, refused := w.refused + 1), left[1..], level);
      }
    }
  }

  lemma LevelRight(cfg: Config, space: Space, w: Work, level: seq<Pending>, results: seq<Result>)
    requires Tidy(cfg, w) && Right(cfg, space, w, level) && AllFaithful(space, level, results)
    ensures Level(cfg, w, level, results).lost || Right(cfg, space, Level(cfg, w, level, results), [])
  {
    if |results| < |level| {
      var v := w.(batch := Half(w.batch));
      var head, left := level[..|results|], level[|results|..];
      assert level == head + left;
      RightReordered(cfg, space, w, level, left + head);
      SameRight(cfg, space, w, v, left + head);
      UnansweredRight(cfg, space, v, left, head);
      UnansweredTidy(cfg, v, left);
      AllResultsPrefix(cfg, Unanswered(v, left), level, results);
      AllResultsRight(cfg, space, Unanswered(v, left), head, results);
    } else {
      AllResultsRight(cfg, space, w, level, results);
    }
  }

  lemma SameRight(cfg: Config, space: Space, w: Work, v: Work, level: seq<Pending>)
    requires Right(cfg, space, w, level)
    requires v.truncated == w.truncated && v.entries == w.entries && v.pending == w.pending && v.seen == w.seen
    ensures Right(cfg, space, v, level)
  {
    forall x ensures Handled(cfg, space, w, level, x) <==> Handled(cfg, space, v, level, x) {
    }
  }

  // ---- However a crawl is cut short ----

  /** An entry is an admissible reference of the root or of an earlier entry, its segment spelled beside the siblings that came with it. */
  ghost predicate Part(cfg: Config, space: Space, es: seq<Entry>, e: Entry) {
    exists parent: Pending, refs: seq<Ref>, ref: Ref ::
      Origin(cfg, es, parent) && Subset(refs, space(parent.id)) && ref in refs && Admissible(cfg, ref) &&
          e == EntryOf(cfg, parent, refs, ref)
  }

  predicate Subset(refs: seq<Ref>, all: seq<Ref>) {
    forall ref :: ref in refs ==> ref in all
  }

  ghost predicate AllParts(cfg: Config, space: Space, es: seq<Entry>) {
    forall k :: 0 <= k < |es| ==> Part(cfg, space, es[..k], es[k])
  }

  lemma ChainsParts(cfg: Config, space: Space, es: seq<Entry>)
    requires AllChains(cfg, space, es)
    ensures AllParts(cfg, space, es)
  {
    forall k | 0 <= k < |es| ensures Part(cfg, space, es[..k], es[k]) {
      assert Chain(cfg, space, es[..k], es[k]);
      var parent: Pending, ref: Ref :|
        Origin(cfg, es[..k], parent) && ref in space(parent.id) && Admissible(cfg, ref) &&
            es[k] == EntryOf(cfg, parent, space(parent.id), ref);
      assert Subset(space(parent.id), space(parent.id));
    }
  }

  ghost predicate Sound(cfg: Config, space: Space, w: Work, level: seq<Pending>) {
    AllParts(cfg, space, w.entries) && AllOrigins(cfg, w.entries, w.pending) && AllOrigins(cfg, w.entries, level)
  }

  lemma PartsMore(cfg: Config, space: Space, es: seq<Entry>, e: Entry)
    requires AllParts(cfg, space, es) && Part(cfg, space, es, e)
    ensures AllParts(cfg, space, es + [e])
  {
    forall k | 0 <= k < |es + [e]| ensures Part(cfg, space, (es + [e])[..k], (es + [e])[k]) {
      assert (es + [e])[..k] == es[..k];
      assert es[..|es|] == es;
    }
  }

  lemma VisitSound(cfg: Config, space: Space, w: Work, level: seq<Pending>, parent: Pending, refs: seq<Ref>, ref: Ref)
    requires Sound(cfg, space, w, level) && parent in level && ref in refs && Subset(refs, space(parent.id))
    ensures Sound(cfg, space, Visit(cfg, w, parent, refs, ref), level)
  {
    var v := Visit(cfg, w, parent, refs, ref);
    if v != w {
      var e := EntryOf(cfg, parent, refs, ref);
      assert Origin(cfg, w.entries, parent);
      assert Part(cfg, space, w.entries, e);
      PartsMore(cfg, space, w.entries, e);
      OriginsMore(cfg, w.entries, e, w.pending);
      OriginsMore(cfg, w.entries, e, level);
      QueuedRight(cfg, w, v, e);
    }
  }

  lemma {:induction false} VisitAllSound(cfg: Config, space: Space, w: Work, level: seq<Pending>, parent: Pending,
                                         refs: seq<Ref>, rest: seq<Ref>)
    requires Sound(cfg, space, w, level) && parent in level && Subset(rest, refs) && Subset(refs, space(parent.id))
    ensures Sound(cfg, space, VisitAll(cfg, w, parent, refs, rest), level)
    decreases |rest|
  {
    if rest != [] && !w.stop {
      assert rest[0] in refs;
      VisitSound(cfg, space, w, level, parent, refs, rest[0]);
      VisitAllSound(cfg, space, Visit(cfg, w, parent, refs, rest[0]), level, parent, refs, rest[1..]);
    }
  }

  /** Whatever the server says of a node, in full or not, is among the node's references. */
  predicate Truthful(space: Space, p: Pending, result: Result) {
    result.status.Good? ==> Subset(result.refs, space(p.id))
  }

  ghost predicate AllTruthful(space: Space, level: seq<Pending>, results: seq<Result>) {
    forall i :: 0 <= i < |level| && i < |results| ==> Truthful(space, level[i], results[i])
  }

  lemma AgainSound(cfg: Config, space: Space, w: Work, level: seq<Pending>, batch: nat)
    requires level != [] && Sound(cfg, space, w, level)
    ensures Sound(cfg, space, w.(batch := batch, pending := w.pending + [Again(level[0])]), level[1..])
  {
    assert Origin(cfg, w.entries, level[0]);
    assert Origin(cfg, w.entries, Again(level[0]));
  }

  lemma OneResultSound(cfg: Config, space: Space, w: Work, level: seq<Pending>, result: Result)
    requires level != [] && Sound(cfg, space, w, level) && Truthful(space, level[0], result)
    ensures Sound(cfg, space, OneResult(cfg, w, level[0], result), level[1..])
  {
    if result.status.Good? {
      VisitAllSound(cfg, space, w.(truncated := w.truncated || result.more), level, level[0], result.refs, result.refs);
    } else if result.status.Transient? && !level[0].retried {
      AgainSound(cfg, space, w, level, Half(w.batch));
    }
  }

  lemma {:induction false} AllResultsSound(cfg: Config, space: Space, w: Work, level: seq<Pending>, results: seq<Result>)
    requires Sound(cfg, space, w, level) && AllTruthful(space, level, results)
    ensures Sound(cfg, space, AllResults(cfg, w, level, results), [])
    decreases |level|
  {
    if level != [] && results != [] && !w.stop && !w.lost {
      assert Truthful(space, level[0], results[0]);
      OneResultSound(cfg, space, w, level, results[0]);
      assert AllTruthful(space, level[1..], results[1..]);
      AllResultsSound(cfg, space, OneResult(cfg, w, level[0], results[0]), level[1..], results[1..]);
    }
  }

  lemma {:induction false} UnansweredSound(cfg: Config, space: Space, w: Work, left: seq<Pending>, level: seq<Pending>)
    requires Sound(cfg, space, w, level) && AllOrigins(cfg, w.entries, left)
    ensures Sound(cfg, space, Unanswered(w, left), level)
    decreases |left|
  {
    if left != [] {
      assert Origin(cfg, w.entries, left[0]);
      assert Origin(cfg, w.entries, Again(left[0]));
      UnansweredSound(cfg, space, if !left[0].retried then w.(pending := w.pending + [Again(left[0])])
          else w.(truncated := true, refused := w.refused + 1),
                      left[1..], level);
    }
  }

  lemma LevelSound(cfg: Config, space: Space, w: Work, level: seq<Pending>, results: seq<Result>)
    requires Sound(cfg, space, w, level) && AllTruthful(space, level, results)
    ensures Sound(cfg, space, Level(cfg, w, level, results), [])
  {
    if |results| < |level| {
      UnansweredSound(cfg, space, w.(batch := Half(w.batch)), level[|results|..], level);
      AllResultsSound(cfg, space, Unanswered(w.(batch := Half(w.batch)), level[|results|..]), level, results);
    } else {
      AllResultsSound(cfg, space, w, level, results);
    }
  }

  // ---- The batch only shrinks ----

  lemma {:induction false} VisitAllBatch(cfg: Config, w: Work, parent: Pending, refs: seq<Ref>, rest: seq<Ref>)
    ensures VisitAll(cfg, w, parent, refs, rest).batch == w.batch && VisitAll(cfg, w, parent, refs, rest).lost == w.lost
    decreases |rest|
  {
    if rest != [] && !w.stop {
      VisitAllBatch(cfg, Visit(cfg, w, parent, refs, rest[0]), parent, refs, rest[1..]);
    }
  }

  lemma {:induction false} AllResultsBatch(cfg: Config, w: Work, level: seq<Pending>, results: seq<Result>)
    requires w.batch >= 1
    ensures 1 <= AllResults(cfg, w, level, results).batch <= w.batch
    decreases |level|
  {
    if level != [] && results != [] && !w.stop && !w.lost {
      if results[0].status.Good? {
        VisitAllBatch(cfg, w.(truncated := w.truncated || results[0].more), level[0], results[0].refs, results[0].refs);
      }
      AllResultsBatch(cfg, OneResult(cfg, w, level[0], results[0]), level[1..], results[1..]);
    }
  }

  lemma {:induction false} UnansweredBatch(w: Work, left: seq<Pending>)
    ensures Unanswered(w, left).batch == w.batch
    decreases |left|
  {
    if left != [] {
      UnansweredBatch(if !left[0].retried then w.(pending := w.pending + [Again(left[0])])
          else w.(truncated := true, refused := w.refused + 1), left[1..]);
    }
  }

  lemma LevelBatch(cfg: Config, w: Work, level: seq<Pending>, results: seq<Result>)
    requires w.batch >= 1
    ensures 1 <= Level(cfg, w, level, results).batch <= w.batch
  {
    if |results| < |level| {
      UnansweredBatch(w.(batch := Half(w.batch)), level[|results|..]);
      AllResultsBatch(cfg, Unanswered(w.(batch := Half(w.batch)), level[|results|..]), level, results);
    } else {
      AllResultsBatch(cfg, w, level, results);
    }
  }

  // ---- Exactness ----

  /** A node's class is its own, whichever reference leads to it. */
  ghost predicate Typed(space: Space, cls: NodeId -> NodeClass) {
    forall y, ref :: ref in space(y) ==> ref.cls == cls(ref.id)
  }

  /** One admissible reference from the Objects folder, an object or a variable. */
  ghost predicate Leads(cfg: Config, space: Space, cls: NodeId -> NodeClass, y: NodeId, x: NodeId) {
    (y == OBJECTS || Expandable(cls(y))) && exists ref :: ref in space(y) && Admissible(cfg, ref) && ref.id == x
  }

  ghost predicate ReachIn(cfg: Config, space: Space, cls: NodeId -> NodeClass, x: NodeId, n: nat)
    decreases n
  {
    if n == 0 then x == OBJECTS else exists y :: ReachIn(cfg, space, cls, y, n - 1) && Leads(cfg, space, cls, y, x)
  }

  ghost predicate Reachable(cfg: Config, space: Space, cls: NodeId -> NodeClass, x: NodeId) {
    exists n :: ReachIn(cfg, space, cls, x, n)
  }

  lemma ReachOn(cfg: Config, space: Space, cls: NodeId -> NodeClass, y: NodeId, x: NodeId)
    requires Reachable(cfg, space, cls, y) && Leads(cfg, space, cls, y, x)
    ensures Reachable(cfg, space, cls, x)
  {
    var n: nat :| ReachIn(cfg, space, cls, y, n);
    assert ReachIn(cfg, space, cls, x, n + 1);
  }

  lemma {:induction false} EntryReachable(cfg: Config, space: Space, cls: NodeId -> NodeClass, es: seq<Entry>, k: nat)
    requires Typed(space, cls) && k < |es| && AllParts(cfg, space, es)
    ensures Reachable(cfg, space, cls, es[k].id) && es[k].cls == cls(es[k].id)
    decreases k
  {
    var e := es[k];
    assert Part(cfg, space, es[..k], e);
    var parent: Pending, refs: seq<Ref>, ref: Ref :|
      Origin(cfg, es[..k], parent) && Subset(refs, space(parent.id)) && ref in refs && Admissible(cfg, ref) &&
          e == EntryOf(cfg, parent, refs, ref);
    if parent.id == OBJECTS {
      assert ReachIn(cfg, space, cls, OBJECTS, 0);
    } else {
      var x :| x in es[..k] && Queues(cfg, x) && x.id == parent.id;
      var j :| 0 <= j < k && es[j] == x;
      EntryReachable(cfg, space, cls, es, j);
    }
    assert ref in space(parent.id) && ref.id == e.id;
    ReachOn(cfg, space, cls, parent.id, e.id);
  }

  lemma AllReachable(cfg: Config, space: Space, cls: NodeId -> NodeClass, es: seq<Entry>)
    requires Typed(space, cls) && AllParts(cfg, space, es)
    ensures forall x :: HasEntry(es, x) ==> Reachable(cfg, space, cls, x)
  {
    forall x | HasEntry(es, x) ensures Reachable(cfg, space, cls, x) {
      var e :| e in es && e.id == x;
      var k :| 0 <= k < |es| && es[k] == e;
      EntryReachable(cfg, space, cls, es, k);
    }
  }

  /** No node was left unbrowsed for its depth alone. */
  ghost predicate NoneCapped(cfg: Config, es: seq<Entry>) {
    forall e :: e in es && Expandable(e.cls) ==> e.depth < cfg.maxDepth
  }

  lemma SeenExpanded(cfg: Config, space: Space, cls: NodeId -> NodeClass, w: Work, y: NodeId)
    requires Tidy(cfg, w) && Right(cfg, space, w, []) && !w.truncated && w.pending == [] && Typed(space, cls) && NoneCapped(cfg, w.entries)
    requires y in w.seen && (y == OBJECTS || Expandable(cls(y)))
    ensures Expanded(cfg, space, w.seen, y)
  {
    if y == OBJECTS {
      assert Handled(cfg, space, w, [], OBJECTS);
    } else {
      var e := EntryFor(cfg, space, cls, w, y);
      assert e in w.entries && Queues(cfg, e);
      assert Handled(cfg, space, w, [], e.id);
    }
  }

  lemma EntryFor(cfg: Config, space: Space, cls: NodeId -> NodeClass, w: Work, y: NodeId) returns (e: Entry)
    requires Tidy(cfg, w) && AllChains(cfg, space, w.entries) && Typed(space, cls) && y in w.seen && y != OBJECTS
    ensures e in w.entries && e.id == y && e.cls == cls(y)
  {
    e :| e in w.entries && e.id == y;
    var k :| 0 <= k < |w.entries| && w.entries[k] == e;
    ChainsParts(cfg, space, w.entries);
    EntryReachable(cfg, space, cls, w.entries, k);
  }

  lemma {:induction false} ReachableSeen(cfg: Config, space: Space, cls: NodeId -> NodeClass, seen: set<NodeId>, x: NodeId, n: nat)
    requires OBJECTS in seen && forall y :: y in seen && (y == OBJECTS || Expandable(cls(y))) ==> Expanded(cfg, space, seen, y)
    requires ReachIn(cfg, space, cls, x, n)
    ensures x in seen
    decreases n
  {
    if n > 0 {
      var y :| ReachIn(cfg, space, cls, y, n - 1) && Leads(cfg, space, cls, y, x);
      ReachableSeen(cfg, space, cls, seen, y, n - 1);
    }
  }

  /** The index holds exactly the nodes reachable from Objects, each once. */
  lemma Exact(cfg: Config, space: Space, cls: NodeId -> NodeClass, w: Work)
    requires Tidy(cfg, w) && Right(cfg, space, w, []) && !w.truncated && w.pending == [] && Typed(space, cls) && NoneCapped(cfg, w.entries)
    ensures forall x :: HasEntry(w.entries, x) <==> x != OBJECTS && Reachable(cfg, space, cls, x)
  {
    forall y | y in w.seen && (y == OBJECTS || Expandable(cls(y))) ensures Expanded(cfg, space, w.seen, y) {
      SeenExpanded(cfg, space, cls, w, y);
    }
    ChainsParts(cfg, space, w.entries);
    AllReachable(cfg, space, cls, w.entries);
    forall x ensures HasEntry(w.entries, x) <==> x != OBJECTS && Reachable(cfg, space, cls, x) {
      if Reachable(cfg, space, cls, x) {
        var n: nat :| ReachIn(cfg, space, cls, x, n);
        ReachableSeen(cfg, space, cls, w.seen, x, n);
      }
    }
  }
}
