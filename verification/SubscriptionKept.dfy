/** Exactly when a create's answer loses a pair, and what keeps a subscription through every run that has neither of the two causes. */
module SubscriptionKept {
  import opened Subscriptions
  import opened SubscriptionShape
  import opened SubscriptionLoss

  // ---- Where one pair is ----

  /** Parked under one key at most, and in no rebuild. */
  ghost predicate AtMostAt(s: State, p: Pair, key: Key) {
    && (forall k :: k in s.pending && p in s.pending[k].nodes ==> k == key)
    && (forall r :: r in s.rebuilds ==> p !in s.rebuilds[r].nodes)
  }

  lemma LosePair(s: State, h: Handle, p: Pair)
    requires h in s.clients && AtMostAt(s, p, s.clients[h].key)
    ensures AtMostAt(Lose(s, h), p, s.clients[h].key)
  {
  }

  lemma ParkPair(s: State, at: Key, ps: set<Pair>, p: Pair, key: Key)
    requires AtMostAt(s, p, key) && p !in ps
    ensures AtMostAt(Park(s, at, ps), p, key)
  {
  }

  lemma SettlePair(s: State, r: nat, l: nat, restored: set<nat>, p: Pair, key: Key)
    requires HasFrame(s, r) && AtMostAt(s, p, key)
    ensures AtMostAt(Settle(s, r, l, restored), p, key)
  {
    var h, nodes := s.frames[r].client, s.rebuilds[r].nodes;
    var wanted, left := NodesOf(nodes, l), Forget(nodes, l);
    assert p !in nodes;
    assert p !in Pairs(l, wanted - restored);
    if !(Up(s, h) || Removed(s, h)) {
      ParkPair(WithRebuild(s, r, {}), s.clients[h].key, left + Pairs(l, wanted - restored), p, key);
    }
  }

  lemma OffPendingPair(s: State, slug: string, dropped: set<nat>, p: Pair, key: Key)
    requires AtMostAt(s, p, key) && key.slug == slug && p.node in dropped
    ensures !InPending(OffPending(s, slug, p.listener, dropped), p) && !InRebuild(OffPending(s, slug, p.listener, dropped), p)
  {
  }

  /** Nowhere but on the client and in the rebuild. */
  ghost predicate OnlyThere(s: State, p: Pair, h: Handle, r: nat) {
    && !InPending(s, p)
    && (forall q :: q in s.rebuilds && q != r ==> p !in s.rebuilds[q].nodes)
    && (forall g :: Up(s, g) && g != h ==> p !in s.clients[g].items)
  }

  lemma OnlyAt(s: State, p: Pair, h: Handle, r: nat, key: Key)
    requires OnlyThere(s, p, h, r) && (r in s.rebuilds ==> p !in s.rebuilds[r].nodes)
    ensures AtMostAt(s, p, key)
  {
  }

  // ---- A pair watched while a create for it is out ----

  /** The nodes an answer refuses. */
  function Refused(phase: Phase, ok: set<nat>, whole: bool): set<nat>
    requires phase.Out?
  {
    if whole || phase.taken then {} else Asked(phase) - Attached(phase, ok, whole)
  }

  /** Of a pair on the client, its node is called good when the create was for it and the answer does not refuse it. */
  lemma RestoredIs(s: State, r: nat, ok: set<nat>, whole: bool, p: Pair)
    requires IsAnswerable(s, r) && p in s.clients[s.frames[r].client].items
    ensures p.node in RestoredBy(s, r, ok, whole) <==> p.node in s.frames[r].phase.nodes && p.node !in Refused(s.frames[r].phase, ok, whole)
  {
    assert p in Attach(s, r, ok, whole).clients[s.frames[r].client].items;
    assert Monitored(Attach(s, r, ok, whole).clients[s.frames[r].client].items, p.node);
  }

  lemma SettledPair(s: State, r: nat, ok: set<nat>, whole: bool, loss: bool, p: Pair)
    requires IsAnswerable(s, r) && AtMostAt(s, p, s.clients[s.frames[r].client].key)
    ensures AtMostAt(SettledAfter(s, r, ok, whole, loss), p, s.clients[s.frames[r].client].key)
  {
    var h, l, attached := s.frames[r].client, s.frames[r].phase.listener, Attach(s, r, ok, whole);
    LosePair(attached, h, p);
    SettlePair(Heard(attached, h, loss), r, l, RestoredBy(s, r, ok, whole), p, s.clients[h].key);
  }

  lemma SettledElsewhere(s: State, r: nat, ok: set<nat>, whole: bool, loss: bool, g: Handle)
    requires IsAnswerable(s, r) && g in s.clients && g != s.frames[r].client
    ensures g in SettledAfter(s, r, ok, whole, loss).clients && SettledAfter(s, r, ok, whole, loss).clients[g] == s.clients[g]
  {
  }

  /** Off the client, and out of what is parked or being rebuilt for its connection. */
  lemma TakenOffPair(s: State, h: Handle, slug: string, dropped: set<nat>, p: Pair, key: Key)
    requires h in s.clients && AtMostAt(s, p, key) && key.slug == slug && p.node in dropped
    requires forall g :: Up(s, g) && g != h ==> p !in s.clients[g].items
    ensures !Covered(TakeOff(s, h, slug, p.listener, dropped), p)
  {
    OffPendingPair(OffClient(s, h, p.listener, dropped), slug, dropped, p, key);
  }

  lemma AnswerTakesOff(s: State, r: nat, ok: set<nat>, whole: bool, loss: bool, p: Pair)
    requires ShapeOK(s) && IsAnswerable(s, r) && p.listener == s.frames[r].phase.listener
    requires p !in s.rebuilds[r].nodes && OnlyThere(s, p, s.frames[r].client, r) && p.node in RestoredBy(s, r, ok, whole)
    ensures !Covered(TakenOffAfter(s, r, ok, whole, loss), p)
  {
    var h, l := s.frames[r].client, s.frames[r].phase.listener;
    var settled := SettledAfter(s, r, ok, whole, loss);
    OnlyAt(s, p, h, r, s.clients[h].key);
    SettledPair(s, r, ok, whole, loss, p);
    forall g | Up(settled, g) && g != h ensures p !in settled.clients[g].items {
      SettledElsewhere(s, r, ok, whole, loss, g);
      assert Up(s, g);
    }
    assert p.node !in NodesOf(s.rebuilds[r].nodes, l);
    TakenOffPair(settled, h, s.rebuilds[r].slug, RestoredBy(s, r, ok, whole) - NodesOf(s.rebuilds[r].nodes, l), p, s.clients[h].key);
  }

  lemma SameCovered(s: State, t: State, p: Pair)
    requires t.pending == s.pending && t.rebuilds == s.rebuilds && t.clients == s.clients
    ensures Covered(t, p) == Covered(s, p)
  {
  }

  lemma AnswersUncovered(s: State, r: nat, ok: set<nat>, whole: bool, loss: bool, p: Pair)
    requires IsAnswerable(s, r) && !Covered(TakenOffAfter(s, r, ok, whole, loss), p)
    ensures !Covered(Answered(s, r, ok, whole, loss), p)
  {
    SameCovered(TakenOffAfter(s, r, ok, whole, loss), Answered(s, r, ok, whole, loss), p);
  }

  /** A pair that is on a client that is up, and not in the rebuild whose create is answered, survives the answer if and
      only if the create was not for its node, or the answer refuses the node. */
  lemma WatchedExact(s: State, e: Step, p: Pair)
    requires ShapeOK(s) && !s.shuttingDown && e.Answer? && Enabled(s, e) && p.listener == s.frames[e.rebuild].phase.listener
    requires var h := s.frames[e.rebuild].client; Up(s, h) && p in s.clients[h].items && OnlyThere(s, p, h, e.rebuild)
    requires p !in s.rebuilds[e.rebuild].nodes
    ensures var phase := s.frames[e.rebuild].phase;
            Covered(Next(s, e), p) <==> p.node !in phase.nodes || p.node in Refused(phase, e.ok, e.whole)
  {
    RestoredIs(s, e.rebuild, e.ok, e.whole, p);
    if p.node in RestoredBy(s, e.rebuild, e.ok, e.whole) {
      AnswerTakesOff(s, e.rebuild, e.ok, e.whole, e.loss, p);
      AnswersUncovered(s, e.rebuild, e.ok, e.whole, e.loss, p);
    } else {
      assert OnClient(s, p);
      assert !EndedByAnswer(s, e, p);
      AnswerCovers(s, e, p);
    }
  }

  // ---- A pair restored to a client that is down ----

  lemma ParkNot(s: State, at: Key, ps: set<Pair>, p: Pair)
    requires !Covered(s, p) && p !in ps
    ensures !Covered(Park(s, at, ps), p)
  {
  }

  lemma SettleDown(s: State, r: nat, p: Pair, restored: set<nat>)
    requires HasFrame(s, r) && !Up(s, s.frames[r].client) && !Removed(s, s.frames[r].client)
    requires OnlyThere(s, p, s.frames[r].client, r) && p.node in restored
    ensures !Covered(Settle(s, r, p.listener, restored), p)
  {
    var h, l, nodes := s.frames[r].client, p.listener, s.rebuilds[r].nodes;
    var emptied, left := WithRebuild(s, r, {}), Forget(nodes, l) + Pairs(l, NodesOf(nodes, l) - restored);
    assert p !in left;
    assert !OnClient(emptied, p) && !InRebuild(emptied, p) && !InPending(emptied, p);
    ParkNot(emptied, s.clients[h].key, left, p);
  }

  lemma AttachedDown(s: State, r: nat, ok: set<nat>, whole: bool, p: Pair)
    requires IsAnswerable(s, r) && !Up(s, s.frames[r].client) && OnlyThere(s, p, s.frames[r].client, r)
    ensures OnlyThere(Attach(s, r, ok, whole), p, s.frames[r].client, r)
  {
  }

  lemma SettledDown(s: State, r: nat, ok: set<nat>, whole: bool, loss: bool, p: Pair)
    requires IsAnswerable(s, r) && !Up(s, s.frames[r].client) && !Removed(s, s.frames[r].client)
    requires p.listener == s.frames[r].phase.listener && OnlyThere(s, p, s.frames[r].client, r) && p.node in RestoredBy(s, r, ok, whole)
    ensures !Covered(SettledAfter(s, r, ok, whole, loss), p)
  {
    AttachedDown(s, r, ok, whole, p);
    SettleDown(Attach(s, r, ok, whole), r, p, RestoredBy(s, r, ok, whole));
  }

  lemma TakeOffNot(s: State, h: Handle, slug: string, l: nat, dropped: set<nat>, p: Pair)
    requires h in s.clients && !Covered(s, p)
    ensures !Covered(TakeOff(s, h, slug, l, dropped), p)
  {
    var t := OffClient(s, h, l, dropped);
    assert !OnClient(t, p) by {
      forall g | Up(t, g) ensures p !in t.clients[g].items {
        assert Up(s, g);
      }
    }
  }

  /** A pair only the answered rebuild holds, its client down and not removed, survives the answer if and only if it is not called good. */
  lemma StrandedExact(s: State, e: Step, p: Pair)
    requires ShapeOK(s) && !s.shuttingDown && e.Answer? && Enabled(s, e) && p.listener == s.frames[e.rebuild].phase.listener
    requires var h := s.frames[e.rebuild].client; !Up(s, h) && !Removed(s, h) && OnlyThere(s, p, h, e.rebuild)
    requires p in s.rebuilds[e.rebuild].nodes
    ensures Covered(Next(s, e), p) <==> p.node !in RestoredNodes(s, e)
  {
    var r, h, l := e.rebuild, s.frames[e.rebuild].client, s.frames[e.rebuild].phase.listener;
    if p.node in RestoredNodes(s, e) {
      SettledDown(s, r, e.ok, e.whole, e.loss, p);
      TakeOffNot(SettledAfter(s, r, e.ok, e.whole, e.loss), h, s.rebuilds[r].slug, l,
                 RestoredBy(s, r, e.ok, e.whole) - NodesOf(s.rebuilds[r].nodes, l), p);
      AnswersUncovered(s, r, e.ok, e.whole, e.loss, p);
    } else {
      assert InRebuild(s, p);
      assert !EndedByAnswer(s, e, p);
      AnswerCovers(s, e, p);
    }
  }

  // ---- Clients that are down ----

  /** A create submitted to a client that is already down. */
  predicate LateSubmit(s: State, e: Step)
    requires Enabled(s, e)
  {
    e.Submit? && !Up(s, s.frames[e.rebuild].client)
  }

  predicate Down(s: State, h: Handle) {
    h in s.clients && !Up(s, h) && !Removed(s, h)
  }

  predicate TakenIfOut(f: Frame, h: Handle) {
    f.client == h && f.phase.Out? ==> f.phase.taken
  }

  /** Nothing is on a client that is down, and every create it has out was taken with what it monitored. */
  ghost predicate Emptied(s: State, h: Handle) {
    h in s.clients && s.clients[h].items == {} && forall r :: r in s.frames ==> TakenIfOut(s.frames[r], h)
  }

  ghost predicate Clean(s: State) {
    forall h :: Down(s, h) ==> Emptied(s, h)
  }

  /** A step after which whatever is down was, with no more on it, and no create is out that was not, nor taken back. */
  ghost predicate Quiet(s: State, t: State) {
    && (forall h :: Down(t, h) ==> Down(s, h) && t.clients[h].items <= s.clients[h].items)
    && (forall r :: r in t.frames && t.frames[r].phase.Out? ==>
          && r in s.frames && s.frames[r].phase.Out? && s.frames[r].client == t.frames[r].client
          && (s.frames[r].phase.taken ==> t.frames[r].phase.taken))
  }

  lemma QuietClean(s: State, t: State)
    requires Clean(s) && Quiet(s, t)
    ensures Clean(t)
  {
    forall h | Down(t, h) ensures Emptied(t, h) {
      assert Emptied(s, h);
      forall r | r in t.frames ensures TakenIfOut(t.frames[r], h) {
        assert r in s.frames && s.frames[r].phase.Out? ==> TakenIfOut(s.frames[r], h);
      }
    }
  }

  lemma TakeEmpties(s: State, h: Handle)
    requires h in s.clients
    ensures Emptied(Take(s, h), h) && Quiet(s, Take(s, h))
  {
  }

  lemma LoseClean(s: State, h: Handle)
    requires Clean(s) && h in s.clients && !s.shuttingDown
    ensures Clean(Lose(s, h))
  {
    var taken := Take(s, h);
    TakeEmpties(s, h);
    QuietClean(s, taken);
    var t := Lose(s, h);
    forall g | Down(t, g) ensures Emptied(t, g) {
      assert g != h ==> Down(taken, g);
      assert Emptied(taken, g);
    }
  }

  lemma HeardClean(s: State, h: Handle, loss: bool)
    requires Clean(s) && h in s.clients && !s.shuttingDown
    ensures Clean(Heard(s, h, loss))
  {
    if loss && Up(s, h) && !Removed(s, h) {
      LoseClean(s, h);
    }
  }

  /** A create answered on a client that is down attaches nothing there. */
  lemma AttachClean(s: State, r: nat, ok: set<nat>, whole: bool)
    requires Clean(s) && IsAnswerable(s, r)
    ensures Clean(Attach(s, r, ok, whole))
  {
    var h := s.frames[r].client;
    if Down(s, h) {
      assert Emptied(s, h) && TakenIfOut(s.frames[r], h);
      assert Pairs(s.frames[r].phase.listener, {}) == {};
    }
    QuietClean(s, Attach(s, r, ok, whole));
  }

  lemma SettleClean(s: State, r: nat, l: nat, restored: set<nat>)
    requires Clean(s) && HasFrame(s, r)
    ensures Clean(Settle(s, r, l, restored))
  {
    QuietClean(s, Settle(s, r, l, restored));
  }

  lemma OffClientClean(s: State, h: Handle, l: nat, nodes: set<nat>)
    requires Clean(s) && h in s.clients
    ensures Clean(OffClient(s, h, l, nodes))
  {
    QuietClean(s, OffClient(s, h, l, nodes));
  }

  lemma TakeOffClean(s: State, h: Handle, slug: string, l: nat, dropped: set<nat>)
    requires Clean(s) && h in s.clients
    ensures Clean(TakeOff(s, h, slug, l, dropped))
  {
    OffClientClean(s, h, l, dropped);
    QuietClean(OffClient(s, h, l, dropped), OffPending(OffClient(s, h, l, dropped), slug, l, dropped));
  }

  lemma PhaseClean(s: State, r: nat, phase: Phase)
    requires Clean(s) && r in s.frames && !phase.Out?
    ensures Clean(WithPhase(s, r, phase))
  {
    QuietClean(s, WithPhase(s, r, phase));
  }

  lemma AnswerClean(s: State, r: nat, ok: set<nat>, whole: bool, loss: bool)
    requires Clean(s) && IsAnswerable(s, r) && !s.shuttingDown
    ensures Clean(Answered(s, r, ok, whole, loss))
  {
    var h, l, attached := s.frames[r].client, s.frames[r].phase.listener, Attach(s, r, ok, whole);
    AttachClean(s, r, ok, whole);
    HeardClean(attached, h, loss);
    SettleClean(Heard(attached, h, loss), r, l, RestoredBy(s, r, ok, whole));
    TakeOffClean(SettledAfter(s, r, ok, whole, loss), h, s.rebuilds[r].slug, l,
        RestoredBy(s, r, ok, whole) - NodesOf(s.rebuilds[r].nodes, l));
    PhaseClean(TakenOffAfter(s, r, ok, whole, loss), r, Looping);
  }

  /** A create submitted to a client that is up is out on one that is up. */
  lemma SubmitClean(s: State, r: nat)
    requires Clean(s) && HasFrame(s, r) && s.frames[r].phase.Chosen? && Up(s, s.frames[r].client)
    ensures Clean(Submitted(s, r))
  {
    var t := Submitted(s, r);
    forall h | Down(t, h) ensures Emptied(t, h) {
      assert Down(s, h) && Emptied(s, h);
      forall q | q in t.frames ensures TakenIfOut(t.frames[q], h) {
        assert q != r ==> TakenIfOut(s.frames[q], h);
      }
    }
  }

  lemma SubscribeClean(s: State, e: Step)
    requires Clean(s) && !s.shuttingDown && e.Subscribed? && FrameEnabled(s, e)
    ensures Clean(FrameNext(s, e))
  {
    var r := e.rebuild;
    HeardClean(s, s.frames[r].client, e.loss);
    PhaseClean(if e.good then s else Heard(s, s.frames[r].client, e.loss), r, if e.good then Looping else Ending);
  }

  lemma AnswerStepClean(s: State, e: Step)
    requires Clean(s) && !s.shuttingDown && e.Answer? && FrameEnabled(s, e)
    ensures Clean(FrameNext(s, e))
  {
    AnswerClean(s, e.rebuild, e.ok, e.whole, e.loss);
  }

  lemma EndClean(s: State, e: Step)
    requires Clean(s) && e.End? && FrameEnabled(s, e)
    ensures Clean(FrameNext(s, e))
  {
    QuietClean(s, Ended(s, e.rebuild));
  }

  lemma MovedClean(s: State, e: Step)
    requires Clean(s) && (e.Start? || e.Loop? || e.Read?) && FrameEnabled(s, e)
    ensures Clean(FrameNext(s, e))
  {
    QuietClean(s, FrameNext(s, e));
  }

  lemma FrameClean(s: State, e: Step)
    requires Clean(s) && !s.shuttingDown && MovesFrame(e) && FrameEnabled(s, e) && !LateSubmit(s, e)
    ensures Clean(FrameNext(s, e))
  {
    if e.Answer? {
      AnswerStepClean(s, e);
    } else if e.Subscribed? {
      SubscribeClean(s, e);
    } else if e.End? {
      EndClean(s, e);
    } else if e.Submit? {
      SubmitClean(s, e.rebuild);
    } else {
      MovedClean(s, e);
    }
  }

  lemma ChainClean(s: State, e: Step)
    requires Clean(s) && MovesChain(e) && ChainEnabled(s, e)
    ensures Clean(ChainNext(s, e))
  {
    QuietClean(s, ChainNext(s, e));
  }

  lemma CallClean(s: State, e: Step)
    requires Clean(s) && Calls(e) && CallEnabled(s, e)
    ensures Clean(CallNext(s, e))
  {
    QuietClean(s, CallNext(s, e));
  }

  lemma TakeBackClean(s: State, h: Handle, r: nat)
    requires Clean(s) && h in s.clients && r !in s.frames
    ensures Clean(TakenBack(s, h, r))
  {
    TakeEmpties(s, h);
    QuietClean(s, Take(s, h));
    QuietClean(Take(s, h), Rebuilding(Take(s, h), r, h, s.clients[h].key.slug, s.clients[h].items));
  }

  lemma ClientClean(s: State, e: Step)
    requires Clean(s) && !s.shuttingDown && !MovesFrame(e) && !MovesChain(e) && !Calls(e) && ClientEnabled(s, e)
    ensures Clean(ClientNext(s, e))
  {
    if e.Lost? {
      LoseClean(s, e.handle);
    } else if e.TakeBack? {
      TakeBackClean(s, e.handle, e.rebuild);
    } else if e.Leave? {
      OffClientClean(s, e.handle, e.listener, e.nodes);
    } else {
      QuietClean(s, ClientNext(s, e));
    }
  }

  /** While no create is submitted to a client that is down, nothing is ever on one. */
  lemma NextClean(s: State, e: Step)
    requires Clean(s) && !s.shuttingDown && Enabled(s, e) && !LateSubmit(s, e)
    ensures Clean(Next(s, e))
  {
    if MovesFrame(e) {
      FrameClean(s, e);
    } else if MovesChain(e) {
      ChainClean(s, e);
    } else if Calls(e) {
      CallClean(s, e);
    } else {
      ClientClean(s, e);
    }
  }

  /** And no answer calls a node of a client that is down good. */
  lemma NothingRestored(s: State, e: Step)
    requires Clean(s) && e.Answer? && Enabled(s, e) && Down(s, s.frames[e.rebuild].client)
    ensures RestoredNodes(s, e) == {}
  {
    var h := s.frames[e.rebuild].client;
    assert Emptied(s, h) && TakenIfOut(s.frames[e.rebuild], h);
    assert Attached(s.frames[e.rebuild].phase, e.ok, e.whole) == {};
    assert AttachedItems(s, e) == {};
  }
}
