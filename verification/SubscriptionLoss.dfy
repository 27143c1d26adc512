/** No subscription is lost:  what a step takes from where it was is somewhere else after it, unless the step is one of the ways a
    subscription ends. */
module SubscriptionLoss {
  import opened Subscriptions

  ghost predicate InPending(s: State, p: Pair) {
    exists k :: k in s.pending && p in s.pending[k].nodes
  }

  ghost predicate InRebuild(s: State, p: Pair) {
    exists r :: r in s.rebuilds && p in s.rebuilds[r].nodes
  }

  ghost predicate OnClient(s: State, p: Pair) {
    exists h :: Up(s, h) && p in s.clients[h].items
  }

  ghost predicate Covered(s: State, p: Pair) {
    InPending(s, p) || InRebuild(s, p) || OnClient(s, p)
  }

  /** What the client monitors once a create's answer has attached what it attaches. */
  function AttachedItems(s: State, e: Step): set<Pair>
    requires e.Answer? && Enabled(s, e)
  {
    Attach(s, e.rebuild, e.ok, e.whole).clients[s.frames[e.rebuild].client].items
  }

  function RestoredNodes(s: State, e: Step): set<nat>
    requires e.Answer? && Enabled(s, e)
  {
    RestoredBy(s, e.rebuild, e.ok, e.whole)
  }

  /** The ways a create's answer ends a subscription:  not restored, the client up until then;  called restored on a
      client whose items had been taken already;  on a client that was removed;  restored after the listener had
      unsubscribed it;  in a process that is stopping. */
  predicate EndedByAnswer(s: State, e: Step, p: Pair)
    requires e.Answer? && Enabled(s, e)
  {
    var h, l := s.frames[e.rebuild].client, s.frames[e.rebuild].phase.listener;
    var mine := p in s.rebuilds[e.rebuild].nodes;
    || (mine && p.listener == l && Up(s, h) && p !in AttachedItems(s, e) && (p.node in RestoredNodes(s, e) || !e.loss || Removed(s, h)))
    || (mine && p.listener == l && !Up(s, h) && !Removed(s, h) && p.node in RestoredNodes(s, e))
    || (mine && p.listener == l && !Up(s, h) && Removed(s, h))
    || (!mine && p.listener == l && p.node in RestoredNodes(s, e))
    || (s.shuttingDown && (mine || p in AttachedItems(s, e)))
  }

  /** The ways a step ends a subscription. */
  predicate Ends(s: State, e: Step, p: Pair)
    requires Enabled(s, e)
  {
    match e
    case Drop(slug, l, nodes) => p.listener == l && p.node in nodes
    case Leave(h, l, nodes) => p.listener == l && p.node in nodes
    case CloseBegin(_, l) => p.listener == l
    case CloseWalk(id, _) => p.listener == s.closing[id].listener
    case CloseEnd(id) => p.listener == s.closing[id].listener
    case Remove(h) => p in s.clients[h].items
    case Lost(h) => s.shuttingDown && p in s.clients[h].items
    case Subscribed(r, good, loss) => s.shuttingDown && loss && p in Items(s, s.frames[r].client)
    case Answer(_, _, _, _) => EndedByAnswer(s, e, p)
    case End(r) => p in s.rebuilds[r].nodes && (Up(s, s.frames[r].client) || Removed(s, s.frames[r].client) || s.shuttingDown)
    case Failed(i, rejected) =>
      s.chains[i].key in s.pending && p in s.pending[s.chains[i].key].nodes && rejected &&
          s.pending[s.chains[i].key].rejections + 1 >= MAX_REJECTIONS
    case Reconnected(i, h, _) => s.shuttingDown && p in s.clients[h].items
    case StopReconnects => exists k :: k in s.pending && p in s.pending[k].nodes
    case _ => false
  }

  // ---- Where a pair goes ----

  lemma ParkCovers(s: State, key: Key, ps: set<Pair>, p: Pair)
    ensures InPending(s, p) ==> InPending(Park(s, key, ps), p)
    ensures p in ps && !s.shuttingDown ==> InPending(Park(s, key, ps), p)
  {
    var t := Park(s, key, ps);
    if InPending(s, p) {
      var k :| k in s.pending && p in s.pending[k].nodes;
      assert k in t.pending && p in t.pending[k].nodes;
    }
    if p in ps && !s.shuttingDown {
      assert key in t.pending && p in t.pending[key].nodes;
    }
  }

  lemma RebuildKept(s: State, t: State, p: Pair)
    requires InRebuild(s, p) && forall r :: r in s.rebuilds && p in s.rebuilds[r].nodes ==> r in t.rebuilds && p in t.rebuilds[r].nodes
    ensures InRebuild(t, p)
  {
  }

  lemma ClientKept(s: State, t: State, p: Pair)
    requires OnClient(s, p) && forall h :: Up(s, h) && p in s.clients[h].items ==> Up(t, h) && p in t.clients[h].items
    ensures OnClient(t, p)
  {
  }

  lemma LoseCovers(s: State, h: Handle, p: Pair)
    requires h in s.clients
    ensures InPending(s, p) ==> InPending(Lose(s, h), p)
    ensures InRebuild(s, p) ==> InRebuild(Lose(s, h), p)
    ensures p in s.clients[h].items && !s.shuttingDown ==> InPending(Lose(s, h), p)
    ensures OnClient(s, p) && p !in s.clients[h].items ==> OnClient(Lose(s, h), p)
  {
    var t := Lose(s, h);
    if !s.shuttingDown {
      ParkCovers(Take(s, h), s.clients[h].key, s.clients[h].items, p);
      assert t.pending == Park(Take(s, h), s.clients[h].key, s.clients[h].items).pending;
      assert InPending(s, p) ==> InPending(Take(s, h), p);
    }
    if OnClient(s, p) && p !in s.clients[h].items {
      var g :| Up(s, g) && p in s.clients[g].items;
      assert Up(t, g) && p in t.clients[g].items;
    }
  }

  lemma HeardCovers(s: State, h: Handle, loss: bool, p: Pair)
    requires h in s.clients && Covered(s, p)
    ensures Covered(Heard(s, h, loss), p) || (s.shuttingDown && loss && p in s.clients[h].items)
  {
    LoseCovers(s, h, p);
  }

  lemma PurgeCovers(s: State, l: nat, p: Pair)
    requires Covered(s, p) && p.listener != l
    ensures Covered(Purge(s, l), p)
  {
    var t := Purge(s, l);
    if InPending(s, p) {
      var k :| k in s.pending && p in s.pending[k].nodes;
      assert k in t.pending && p in t.pending[k].nodes;
    } else if InRebuild(s, p) {
      RebuildKept(s, t, p);
    } else {
      ClientKept(s, t, p);
    }
  }

  lemma OffPendingCovers(s: State, slug: string, l: nat, nodes: set<nat>, p: Pair)
    requires Covered(s, p) && !(p.listener == l && p.node in nodes)
    ensures Covered(OffPending(s, slug, l, nodes), p)
  {
    var t := OffPending(s, slug, l, nodes);
    if InPending(s, p) {
      var k :| k in s.pending && p in s.pending[k].nodes;
      assert k in t.pending && p in t.pending[k].nodes;
    } else if InRebuild(s, p) {
      RebuildKept(s, t, p);
    } else {
      ClientKept(s, t, p);
    }
  }

  lemma OffClientCovers(s: State, h: Handle, l: nat, nodes: set<nat>, p: Pair)
    requires h in s.clients && Covered(s, p) && !(p.listener == l && p.node in nodes)
    ensures Covered(OffClient(s, h, l, nodes), p)
  {
    if OnClient(s, p) {
      ClientKept(s, OffClient(s, h, l, nodes), p);
    }
  }

  lemma ForgetCovers(s: State, h: Handle, l: nat, p: Pair)
    requires h in s.clients && Covered(s, p) && p.listener != l
    ensures Covered(ForgetOnClient(s, h, l), p)
  {
    if OnClient(s, p) {
      ClientKept(s, ForgetOnClient(s, h, l), p);
    }
  }

  /** The same pairs in the same places. */
  lemma PlacesKept(s: State, t: State, p: Pair)
    requires Covered(s, p) && t.pending == s.pending && t.rebuilds == s.rebuilds && t.clients == s.clients
    ensures Covered(t, p)
  {
  }

  // ---- A create's answer ----

  lemma SettleCovers(s: State, r: nat, l: nat, restored: set<nat>, p: Pair)
    requires HasFrame(s, r)
    ensures InPending(s, p) ==> InPending(Settle(s, r, l, restored), p)
    ensures OnClient(s, p) ==> OnClient(Settle(s, r, l, restored), p)
    ensures (exists q :: q in s.rebuilds && q != r && p in s.rebuilds[q].nodes) ==> InRebuild(Settle(s, r, l, restored), p)
  {
    var t, h := Settle(s, r, l, restored), s.frames[r].client;
    var wanted, left := NodesOf(s.rebuilds[r].nodes, l), Forget(s.rebuilds[r].nodes, l);
    if !(Up(s, h) || Removed(s, h)) {
      ParkCovers(WithRebuild(s, r, {}), s.clients[h].key, left + Pairs(l, wanted - restored), p);
    }
    if q :| q in s.rebuilds && q != r && p in s.rebuilds[q].nodes {
      assert q in t.rebuilds && p in t.rebuilds[q].nodes;
    }
  }

  lemma SettleOwn(s: State, r: nat, l: nat, restored: set<nat>, p: Pair)
    requires HasFrame(s, r) && p in s.rebuilds[r].nodes && !s.shuttingDown
    requires p.listener == l ==> !Up(s, s.frames[r].client) && !Removed(s, s.frames[r].client) && p.node !in restored
    ensures InPending(Settle(s, r, l, restored), p) || InRebuild(Settle(s, r, l, restored), p)
  {
    var t, h := Settle(s, r, l, restored), s.frames[r].client;
    var wanted, left := NodesOf(s.rebuilds[r].nodes, l), Forget(s.rebuilds[r].nodes, l);
    if Up(s, h) || Removed(s, h) {
      assert p in t.rebuilds[r].nodes;
    } else {
      assert p in left + Pairs(l, wanted - restored);
      ParkCovers(WithRebuild(s, r, {}), s.clients[h].key, left + Pairs(l, wanted - restored), p);
    }
  }

  lemma TakeOffCovers(s: State, h: Handle, slug: string, l: nat, dropped: set<nat>, p: Pair)
    requires h in s.clients && Covered(s, p) && !(p.listener == l && p.node in dropped)
    ensures Covered(TakeOff(s, h, slug, l, dropped), p)
  {
    if dropped != {} {
      OffClientCovers(s, h, l, dropped, p);
      OffPendingCovers(OffClient(s, h, l, dropped), slug, l, dropped, p);
    }
  }

  lemma HeardUp(s: State, h: Handle, loss: bool, p: Pair)
    requires Up(s, h) && p in s.clients[h].items && !s.shuttingDown
    ensures InPending(Heard(s, h, loss), p) || OnClient(Heard(s, h, loss), p)
  {
    LoseCovers(s, h, p);
  }

  /** A pair of the listener whose create was answered. */
  lemma AnsweredOwn(s: State, e: Step, p: Pair)
    requires e.Answer? && Enabled(s, e) && p in s.rebuilds[e.rebuild].nodes && p.listener == s.frames[e.rebuild].phase.listener
    requires !EndedByAnswer(s, e, p)
    ensures var h := s.frames[e.rebuild].client;
            var heard := Heard(Attach(s, e.rebuild, e.ok, e.whole), h, e.loss);
            InPending(heard, p) || OnClient(heard, p) || (!Up(heard, h) && !Removed(heard, h) && p.node !in RestoredNodes(s, e))
  {
    if Up(s, s.frames[e.rebuild].client) && p in AttachedItems(s, e) {
      HeardUp(Attach(s, e.rebuild, e.ok, e.whole), s.frames[e.rebuild].client, e.loss, p);
    }
  }

  lemma AttachCovers(s: State, e: Step, p: Pair)
    requires e.Answer? && Enabled(s, e) && Covered(s, p)
    ensures Covered(Attach(s, e.rebuild, e.ok, e.whole), p)
  {
    if OnClient(s, p) {
      ClientKept(s, Attach(s, e.rebuild, e.ok, e.whole), p);
    }
  }

  lemma SettledCovers(s: State, e: Step, p: Pair)
    requires e.Answer? && Enabled(s, e) && Covered(s, p) && !EndedByAnswer(s, e, p)
    ensures var h, l := s.frames[e.rebuild].client, s.frames[e.rebuild].phase.listener;
            Covered(Settle(Heard(Attach(s, e.rebuild, e.ok, e.whole), h, e.loss), e.rebuild, l, RestoredNodes(s, e)), p)
  {
    var r, h, l := e.rebuild, s.frames[e.rebuild].client, s.frames[e.rebuild].phase.listener;
    var attached := Attach(s, r, e.ok, e.whole);
    var heard := Heard(attached, h, e.loss);
    AttachCovers(s, e, p);
    HeardCovers(attached, h, e.loss, p);
    SettleCovers(heard, r, l, RestoredNodes(s, e), p);
    if p in s.rebuilds[r].nodes {
      if p.listener == l {
        AnsweredOwn(s, e, p);
      }
      if !InPending(heard, p) && !OnClient(heard, p) {
        SettleOwn(heard, r, l, RestoredNodes(s, e), p);
      }
    }
  }

  lemma AnswerCovers(s: State, e: Step, p: Pair)
    requires e.Answer? && Enabled(s, e) && Covered(s, p) && !EndedByAnswer(s, e, p)
    ensures Covered(Next(s, e), p)
  {
    var r, h, l := e.rebuild, s.frames[e.rebuild].client, s.frames[e.rebuild].phase.listener;
    var settled := Settle(Heard(Attach(s, r, e.ok, e.whole), h, e.loss), r, l, RestoredNodes(s, e));
    var dropped := RestoredNodes(s, e) - NodesOf(s.rebuilds[r].nodes, l);
    SettledCovers(s, e, p);
    TakeOffCovers(settled, h, s.rebuilds[r].slug, l, dropped, p);
    PlacesKept(TakeOff(settled, h, s.rebuilds[r].slug, l, dropped), Next(s, e), p);
  }

  // ---- Every other step ----

  lemma EndCovers(s: State, r: nat, p: Pair)
    requires HasFrame(s, r) && Covered(s, p)
    requires p in s.rebuilds[r].nodes ==> !Up(s, s.frames[r].client) && !Removed(s, s.frames[r].client) && !s.shuttingDown
    ensures Covered(Ended(s, r), p)
  {
    var t := s.(rebuilds := s.rebuilds - {r}, frames := s.frames - {r});
    var h := s.frames[r].client;
    assert OnClient(s, p) ==> OnClient(t, p);
    assert InPending(s, p) ==> InPending(t, p);
    ParkCovers(t, s.clients[h].key, s.rebuilds[r].nodes, p);
    if InRebuild(s, p) && p !in s.rebuilds[r].nodes {
      var q :| q in s.rebuilds && p in s.rebuilds[q].nodes;
      assert q in t.rebuilds && p in t.rebuilds[q].nodes;
    }
  }

  lemma RebuildingCovers(s: State, r: nat, h: Handle, slug: string, ps: set<Pair>, p: Pair)
    requires r !in s.rebuilds
    ensures Covered(s, p) ==> Covered(Rebuilding(s, r, h, slug, ps), p)
    ensures p in ps ==> InRebuild(Rebuilding(s, r, h, slug, ps), p)
  {
    var t := Rebuilding(s, r, h, slug, ps);
    if Covered(s, p) {
      if InRebuild(s, p) {
        RebuildKept(s, t, p);
      } else if OnClient(s, p) {
        ClientKept(s, t, p);
      }
    }
    if p in ps {
      assert r in t.rebuilds && p in t.rebuilds[r].nodes;
    }
  }

  lemma TakeBackCovers(s: State, h: Handle, r: nat, p: Pair)
    requires h in s.clients && r !in s.rebuilds && Covered(s, p)
    ensures Covered(TakenBack(s, h, r), p)
  {
    var t := Take(s, h);
    if s.clients[h].items == {} {
      assert t.clients == s.clients;
      PlacesKept(s, t, p);
    }
    RebuildingCovers(t, r, h, s.clients[h].key.slug, s.clients[h].items, p);
    if OnClient(s, p) && p !in s.clients[h].items {
      var g :| Up(s, g) && p in s.clients[g].items;
      assert Up(t, g) && p in t.clients[g].items;
    }
  }

  lemma RemoveCovers(s: State, h: Handle, p: Pair)
    requires h in s.clients && Covered(s, p) && p !in s.clients[h].items
    ensures Covered(Removing(s, h), p)
  {
    if OnClient(s, p) {
      ClientKept(s, Removing(s, h), p);
    }
  }

  lemma BackUpCovers(s: State, i: nat, h: Handle, r: nat, p: Pair)
    requires i in s.chains && h in s.clients && r !in s.rebuilds && Covered(s, p) && (s.shuttingDown ==> p !in s.clients[h].items)
    ensures Covered(BackUp(s, i, h, r), p)
  {
    var t, key := EndChain(s, i), s.chains[i].key;
    PlacesKept(s, t, p);
    if s.shuttingDown {
      RemoveCovers(t, h, p);
    } else {
      var ps := if key in s.pending then s.pending[key].nodes else {};
      var u := t.(pending := t.pending - {key});
      RebuildingCovers(u, r, h, key.slug, ps, p);
      if p !in ps {
        EntriesKept(t, u, p);
      }
    }
  }

  /** A chain's own steps touch its own entry alone, and erase it only empty or given up on. */
  lemma EntriesKept(s: State, t: State, p: Pair)
    requires Covered(s, p) && t.rebuilds == s.rebuilds && t.clients == s.clients
    requires forall k :: k in s.pending && p in s.pending[k].nodes ==> k in t.pending && p in t.pending[k].nodes
    ensures Covered(t, p)
  {
    if InPending(s, p) {
      var k :| k in s.pending && p in s.pending[k].nodes;
      assert k in t.pending && p in t.pending[k].nodes;
    }
  }

  lemma WakeCovers(s: State, i: nat, p: Pair)
    requires i in s.chains && Covered(s, p)
    ensures Covered(Woken(s, i), p)
  {
    EntriesKept(s, Woken(s, i), p);
  }

  lemma RetryCovers(s: State, i: nat, rejected: bool, p: Pair)
    requires i in s.chains && Covered(s, p)
    requires s.chains[i].key in s.pending && p in s.pending[s.chains[i].key].nodes && rejected ==>
        s.pending[s.chains[i].key].rejections + 1 < MAX_REJECTIONS
    ensures Covered(Retried(s, i, rejected), p)
  {
    EntriesKept(s, Retried(s, i, rejected), p);
  }

  lemma ItemsCover(s: State, h: Handle, items: set<Pair>, p: Pair)
    requires h in s.clients && s.clients[h].items <= items && Covered(s, p)
    ensures Covered(WithItems(s, h, items), p)
  {
    if OnClient(s, p) {
      ClientKept(s, WithItems(s, h, items), p);
    }
  }

  lemma SubmitCovers(s: State, r: nat, p: Pair)
    requires HasFrame(s, r) && s.frames[r].phase.Chosen? && Covered(s, p)
    ensures Covered(Submitted(s, r), p)
  {
    var h, phase := s.frames[r].client, s.frames[r].phase;
    var items := s.clients[h].items + Pairs(phase.listener, Joined(phase.nodes, s.clients[h].items));
    ItemsCover(s, h, items, p);
    PlacesKept(WithItems(s, h, items), Submitted(s, r), p);
  }

  lemma ConnectCovers(s: State, h: Handle, key: Key, p: Pair)
    requires h !in s.clients && Covered(s, p)
    ensures Covered(s.(clients := s.clients[h := Client(key, true, false, {})], registered := s.registered + {h}), p)
  {
    if OnClient(s, p) {
      ClientKept(s, s.(clients := s.clients[h := Client(key, true, false, {})], registered := s.registered + {h}), p);
    }
  }

  lemma PhaseCovers(s: State, r: nat, phase: Phase, p: Pair)
    requires r in s.frames && Covered(s, p)
    ensures Covered(WithPhase(s, r, phase), p)
  {
    PlacesKept(s, WithPhase(s, r, phase), p);
  }

  lemma SubscribedCovers(s: State, h: Handle, r: nat, loss: bool, p: Pair)
    requires h in s.clients && r in s.frames && Covered(s, p) && !(s.shuttingDown && loss && p in s.clients[h].items)
    ensures Covered(WithPhase(Heard(s, h, loss), r, Ending), p)
  {
    HeardCovers(s, h, loss, p);
    PhaseCovers(Heard(s, h, loss), r, Ending, p);
  }

  lemma SubscribedStepCovers(s: State, e: Step, p: Pair)
    requires e.Subscribed? && FrameEnabled(s, e) && Covered(s, p) && !Ends(s, e, p)
    ensures Covered(FrameNext(s, e), p)
  {
    if e.good {
      PhaseCovers(s, e.rebuild, Looping, p);
    } else {
      SubscribedCovers(s, s.frames[e.rebuild].client, e.rebuild, e.loss, p);
    }
  }

  lemma MovedCovers(s: State, e: Step, p: Pair)
    requires (e.Start? || e.Loop? || e.Read?) && FrameEnabled(s, e) && Covered(s, p)
    ensures Covered(FrameNext(s, e), p)
  {
    PlacesKept(s, FrameNext(s, e), p);
  }

  lemma FrameStepCovers(s: State, e: Step, p: Pair)
    requires MovesFrame(e) && FrameEnabled(s, e) && Covered(s, p) && !Ends(s, e, p)
    ensures Covered(FrameNext(s, e), p)
  {
    if e.Answer? {
      AnswerCovers(s, e, p);
    } else if e.End? {
      EndCovers(s, e.rebuild, p);
    } else if e.Submit? {
      SubmitCovers(s, e.rebuild, p);
    } else if e.Subscribed? {
      SubscribedStepCovers(s, e, p);
    } else {
      MovedCovers(s, e, p);
    }
  }

  lemma ChainStepCovers(s: State, e: Step, p: Pair)
    requires MovesChain(e) && ChainEnabled(s, e) && Covered(s, p) && !Ends(s, e, p)
    ensures Covered(ChainNext(s, e), p)
  {
    match e
    case Reconnected(i, h, r) => BackUpCovers(s, i, h, r, p);
    case Wake(i) => WakeCovers(s, i, p);
    case Failed(i, rejected) => RetryCovers(s, i, rejected, p);
    case Wait(_) => PlacesKept(s, ChainNext(s, e), p);
  }

  lemma WalkCovers(s: State, id: nat, h: Handle, p: Pair)
    requires CallEnabled(s, CloseWalk(id, h)) && Covered(s, p) && p.listener != s.closing[id].listener
    ensures Covered(CallNext(s, CloseWalk(id, h)), p)
  {
    var l, t := s.closing[id].listener, CallNext(s, CloseWalk(id, h));
    if h in s.clients {
      ForgetCovers(s, h, l, p);
      PlacesKept(ForgetOnClient(s, h, l), t, p);
    } else {
      PlacesKept(s, t, p);
    }
  }

  lemma PurgedCovers(s: State, l: nat, closing: map<nat, Closing>, p: Pair)
    requires Covered(s, p) && p.listener != l
    ensures Covered(Purge(s, l).(closing := closing), p)
  {
    PurgeCovers(s, l, p);
    PlacesKept(Purge(s, l), Purge(s, l).(closing := closing), p);
  }

  lemma CallStepCovers(s: State, e: Step, p: Pair)
    requires Calls(e) && CallEnabled(s, e) && Covered(s, p) && !Ends(s, e, p)
    ensures Covered(CallNext(s, e), p)
  {
    match e
    case CloseBegin(_, l) => PurgedCovers(s, l, CallNext(s, e).closing, p);
    case CloseFind(_) => PlacesKept(s, CallNext(s, e), p);
    case CloseWalk(id, h) => WalkCovers(s, id, h, p);
    case CloseEnd(id) => PurgedCovers(s, s.closing[id].listener, CallNext(s, e).closing, p);
  }

  lemma StopCovers(s: State, p: Pair)
    requires Covered(s, p) && !InPending(s, p)
    ensures Covered(s.(pending := map[]), p)
  {
    if InRebuild(s, p) {
      RebuildKept(s, s.(pending := map[]), p);
    } else {
      ClientKept(s, s.(pending := map[]), p);
    }
  }

  lemma ClientStepCovers(s: State, e: Step, p: Pair)
    requires !MovesFrame(e) && !MovesChain(e) && !Calls(e) && ClientEnabled(s, e) && Covered(s, p) && !Ends(s, e, p)
    ensures Covered(ClientNext(s, e), p)
  {
    match e
    case Connect(h, key) => ConnectCovers(s, h, key, p);
    case Watch(h, q) => ItemsCover(s, h, s.clients[h].items + {q}, p);
    case Lost(h) => LoseCovers(s, h, p);
    case Deregister(_) => PlacesKept(s, ClientNext(s, e), p);
    case Remove(h) => RemoveCovers(s, h, p);
    case TakeBack(h, r) => TakeBackCovers(s, h, r, p);
    case Drop(slug, l, nodes) => OffPendingCovers(s, slug, l, nodes, p);
    case Leave(h, l, nodes) => OffClientCovers(s, h, l, nodes, p);
    case ShutDown => PlacesKept(s, ClientNext(s, e), p);
    case StopReconnects => StopCovers(s, p);
  }

  /** After every step, a pair that was on a client, in `pending` or in `rebuilds` is on one or in one still, unless the
      step is a way it ends. */
  lemma NoLoss(s: State, e: Step, p: Pair)
    requires Enabled(s, e) && Covered(s, p) && !Ends(s, e, p)
    ensures Covered(Next(s, e), p)
  {
    if MovesFrame(e) {
      FrameStepCovers(s, e, p);
    } else if MovesChain(e) {
      ChainStepCovers(s, e, p);
    } else if Calls(e) {
      CallStepCovers(s, e, p);
    } else {
      ClientStepCovers(s, e, p);
    }
  }

  // ---- Over whole runs ----

  ghost predicate NeverEnds(s: State, steps: seq<Step>, p: Pair)
    requires Runs(s, steps)
    decreases |steps|
  {
    steps == [] || (!Ends(s, steps[0], p) && NeverEnds(Next(s, steps[0]), steps[1..], p))
  }

  /** Through any run, however connections die, chains reconnect and rebuilds interleave. */
  lemma {:induction false} NoLossRun(s: State, steps: seq<Step>, p: Pair)
    requires Runs(s, steps) && Covered(s, p) && NeverEnds(s, steps, p)
    ensures Covered(After(s, steps), p)
    decreases |steps|
  {
    if steps != [] {
      NoLoss(s, steps[0], p);
      NoLossRun(Next(s, steps[0]), steps[1..], p);
    }
  }

  // ---- Restored onto a client whose items had been taken ----

  ghost predicate Reaches(steps: seq<Step>, t: State) {
    Runs(INITIAL, steps) && After(INITIAL, steps) == t
  }

  lemma RunsOn(steps: seq<Step>, a: State, e: Step, b: State)
    requires Reaches(steps, a) && Enabled(a, e) && Next(a, e) == b
    ensures Reaches(steps + [e], b)
  {
    RunsSnoc(INITIAL, steps, e);
  }

  lemma {:induction false} RunsSnoc(s: State, steps: seq<Step>, e: Step)
    requires Runs(s, steps) && Enabled(After(s, steps), e)
    ensures Runs(s, steps + [e]) && After(s, steps + [e]) == Next(After(s, steps), e)
    decreases |steps|
  {
    if steps == [] {
      assert steps + [e] == [e] && [e][1..] == [];
    } else {
      assert (steps + [e])[0] == steps[0] && (steps + [e])[1..] == steps[1..] + [e];
      RunsSnoc(Next(s, steps[0]), steps[1..], e);
    }
  }

  /** A client whose dropped session's one pair is being put back, up to where the rebuild has read what to create. */
  function Rereading(k: Key, p: Pair, up: bool): State {
    INITIAL.(clients := map[0 := Client(k, up, false, {})], registered := {0},
             rebuilds := map[0 := Rebuild(k.slug, {p})], frames := map[0 := Frame(0, Chosen(p.listener, {p.node}))])
  }

  /** One client that is up, and one rebuild on it. */
  function One(k: Key, items: set<Pair>, nodes: set<Pair>, phase: Phase, closing: map<nat, Closing>): State {
    INITIAL.(clients := map[0 := Client(k, true, false, items)], registered := {0}, closing := closing,
             rebuilds := map[0 := Rebuild(k.slug, nodes)], frames := map[0 := Frame(0, phase)])
  }

  function Dropped(k: Key, p: Pair, phase: Phase, closing: map<nat, Closing>): State {
    One(k, {}, {p}, phase, closing)
  }

  function Connected(k: Key, items: set<Pair>): State {
    INITIAL.(clients := map[0 := Client(k, true, false, items)], registered := {0})
  }

  lemma ConnectsFirst(k: Key)
    ensures Enabled(INITIAL, Connect(0, k)) && Next(INITIAL, Connect(0, k)) == Connected(k, {})
  {
  }

  lemma Watches(k: Key, p: Pair)
    ensures Enabled(Connected(k, {}), Watch(0, p)) && Next(Connected(k, {}), Watch(0, p)) == Connected(k, {p})
  {
    assert {} + {p} == {p};
  }

  lemma SessionDropped(k: Key, p: Pair)
    ensures Enabled(Connected(k, {p}), TakeBack(0, 0)) && Next(Connected(k, {p}), TakeBack(0, 0)) == Dropped(k, p, Starting, map[])
  {
  }

  lemma DroppedReached(k: Key, p: Pair) returns (steps: seq<Step>)
    ensures Reaches(steps, Dropped(k, p, Starting, map[]))
  {
    steps := [];
    ConnectsFirst(k);
    RunsOn(steps, INITIAL, Connect(0, k), Connected(k, {}));
    steps := steps + [Connect(0, k)];
    Watches(k, p);
    RunsOn(steps, Connected(k, {}), Watch(0, p), Connected(k, {p}));
    steps := steps + [Watch(0, p)];
    SessionDropped(k, p);
    RunsOn(steps, Connected(k, {p}), TakeBack(0, 0), Dropped(k, p, Starting, map[]));
    steps := steps + [TakeBack(0, 0)];
  }

  lemma FrameMoves(k: Key, p: Pair, c: map<nat, Closing>)
    ensures Enabled(Dropped(k, p, Starting, c), Start(0)) && Next(Dropped(k, p, Starting, c), Start(0)) == Dropped(k, p, Subscribing, c)
  {
  }

  lemma FrameMovesOn(k: Key, p: Pair, c: map<nat, Closing>)
    ensures Next(Dropped(k, p, Subscribing, c), Subscribed(0, true, false)) == Dropped(k, p, Looping, c)
    ensures Next(Dropped(k, p, Looping, c), Loop(0)) == Dropped(k, p, Reading, c)
  {
  }

  lemma FrameReads(k: Key, p: Pair, c: map<nat, Closing>)
    ensures var s, t := Dropped(k, p, Reading, c), Dropped(k, p, Chosen(p.listener, {p.node}), c);
            Enabled(s, Read(0, p.listener)) && Next(s, Read(0, p.listener)) == t
  {
    assert p in Dropped(k, p, Reading, c).rebuilds[0].nodes;
    assert NodesOf({p}, p.listener) == {p.node};
  }

  /** From where the session was dropped, a live client's rebuild goes on to read what to create. */
  lemma ReadsOn(steps: seq<Step>, k: Key, p: Pair, c: map<nat, Closing>) returns (more: seq<Step>)
    requires Reaches(steps, Dropped(k, p, Starting, c))
    ensures Reaches(more, Dropped(k, p, Chosen(p.listener, {p.node}), c))
  {
    FrameMoves(k, p, c);
    FrameMovesOn(k, p, c);
    FrameReads(k, p, c);
    more := steps;
    RunsOn(more, Dropped(k, p, Starting, c), Start(0), Dropped(k, p, Subscribing, c));
    more := more + [Start(0)];
    RunsOn(more, Dropped(k, p, Subscribing, c), Subscribed(0, true, false), Dropped(k, p, Looping, c));
    more := more + [Subscribed(0, true, false)];
    RunsOn(more, Dropped(k, p, Looping, c), Loop(0), Dropped(k, p, Reading, c));
    more := more + [Loop(0)];
    RunsOn(more, Dropped(k, p, Reading, c), Read(0, p.listener), Dropped(k, p, Chosen(p.listener, {p.node}), c));
    more := more + [Read(0, p.listener)];
  }

  lemma RereadingReached(k: Key, p: Pair) returns (steps: seq<Step>)
    ensures Reaches(steps, Rereading(k, p, true))
  {
    steps := DroppedReached(k, p);
    steps := ReadsOn(steps, k, p, map[]);
  }

  lemma LostMeanwhile(k: Key, p: Pair)
    ensures Enabled(Rereading(k, p, true), Lost(0)) && Next(Rereading(k, p, true), Lost(0)) == Rereading(k, p, false)
  {
  }

  function OutLate(k: Key, p: Pair): State {
    Rereading(k, p, false).(frames := map[0 := Frame(0, Out(p.listener, {p.node}, {}, {}, false))])
  }

  lemma SubmittedLate(k: Key, p: Pair)
    ensures Enabled(Rereading(k, p, false), Submit(0)) && Next(Rereading(k, p, false), Submit(0)) == OutLate(k, p)
  {
    var s := Rereading(k, p, false);
    var joined := Joined({p.node}, s.clients[0].items);
    assert joined == {};
    assert s.clients[0].items + Pairs(p.listener, joined) == {};
    assert WithItems(s, 0, {}) == s;
  }

  function StrandedOn(k: Key, p: Pair): State {
    Rereading(k, p, false).(clients := map[0 := Client(k, false, false, {p})], rebuilds := map[0 := Rebuild(k.slug, {})],
                            frames := map[0 := Frame(0, Looping)])
  }

  lemma AttachedLate(k: Key, p: Pair)
    ensures Attach(OutLate(k, p), 0, {p.node}, false) == OutLate(k, p).(clients := map[0 := Client(k, false, false, {p})])
    ensures Restored(OutLate(k, p).frames[0].phase, {p}, {p.node}, false) == {p.node}
  {
    var phase := OutLate(k, p).frames[0].phase;
    assert Attached(phase, {p.node}, false) == {p.node} && Pairs(p.listener, {p.node}) == {p} && {} + {p} == {p};
    assert Monitored({p}, p.node);
  }

  lemma SettledLate(k: Key, p: Pair)
    ensures var s := OutLate(k, p).(clients := map[0 := Client(k, false, false, {p})]);
            Settle(s, 0, p.listener, {p.node}) == s.(rebuilds := map[0 := Rebuild(k.slug, {})])
  {
    assert NodesOf({p}, p.listener) == {p.node} && Forget({p}, p.listener) == {} && Pairs(p.listener, {}) == {};
    assert {p.node} - {p.node} == {};
  }

  lemma AnsweredLate(k: Key, p: Pair)
    ensures var e := Answer(0, {p.node}, false, false); Enabled(OutLate(k, p), e) && Next(OutLate(k, p), e) == StrandedOn(k, p)
  {
    LateIs(k, p);
  }

  lemma LateIs(k: Key, p: Pair)
    ensures Answered(OutLate(k, p), 0, {p.node}, false, false) == StrandedOn(k, p)
  {
    AttachedLate(k, p);
    SettledLate(k, p);
    assert NodesOf({p}, p.listener) == {p.node} && {p.node} - {p.node} == {};
  }

  lemma StrandedUncovered(k: Key, p: Pair)
    ensures !Covered(StrandedOn(k, p), p)
  {
  }

  /** An edit can take a client's items after its rebuild has read what to create and before it submits the create.
      Answered before the client stops, the create puts the pair on the client no one will take it from again. */
  lemma Stranded(k: Key, p: Pair) returns (steps: seq<Step>)
    ensures Reaches(steps, StrandedOn(k, p)) && !Covered(StrandedOn(k, p), p)
  {
    steps := RereadingReached(k, p);
    LostMeanwhile(k, p);
    SubmittedLate(k, p);
    AnsweredLate(k, p);
    RunsOn(steps, Rereading(k, p, true), Lost(0), Rereading(k, p, false));
    steps := steps + [Lost(0)];
    RunsOn(steps, Rereading(k, p, false), Submit(0), OutLate(k, p));
    steps := steps + [Submit(0)];
    RunsOn(steps, OutLate(k, p), Answer(0, {p.node}, false, false), StrandedOn(k, p));
    steps := steps + [Answer(0, {p.node}, false, false)];
    StrandedUncovered(k, p);
  }
}
