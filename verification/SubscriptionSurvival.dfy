/** A subscription survives every run in which it is not ended lawfully:  what can end it otherwise is a create
    submitted to a client that is down, or one for its node that was read before it was subscribed. */
module SubscriptionSurvival {
  import opened Subscriptions
  import opened SubscriptionShape
  import opened SubscriptionLoss
  import opened SubscriptionKept

  /** The frame has read the pair, and has yet to create it or to hear of it. */
  predicate Reads(f: Frame, p: Pair) {
    (f.phase.Chosen? || f.phase.Out?) && f.phase.listener == p.listener && p.node in f.phase.nodes
  }

  /** Every frame that has read the pair still has it in its rebuild. */
  ghost predicate HeldByFrames(s: State, p: Pair) {
    forall r :: r in s.frames && r in s.rebuilds && Reads(s.frames[r], p) ==> p in s.rebuilds[r].nodes
  }

  predicate Unsubscribes(s: State, e: Step, p: Pair)
    requires Enabled(s, e)
  {
    match e
    case Drop(_, l, nodes) => p.listener == l && p.node in nodes
    case Leave(_, l, nodes) => p.listener == l && p.node in nodes
    case CloseBegin(_, l) => p.listener == l
    case CloseWalk(id, _) => p.listener == s.closing[id].listener
    case CloseEnd(id) => p.listener == s.closing[id].listener
    case _ => false
  }

  /** Not restored by a create answered while its client was up, or dropped with a client that was removed. */
  predicate LawfulAnswer(s: State, e: Step, p: Pair)
    requires e.Answer? && Enabled(s, e)
  {
    var h := s.frames[e.rebuild].client;
    p in s.rebuilds[e.rebuild].nodes && p.listener == s.frames[e.rebuild].phase.listener &&
    if Up(s, h) then p !in AttachedItems(s, e) && (p.node in RestoredNodes(s, e) || !e.loss) else Removed(s, h)
  }

  /** Unsubscribed;  dropped with a client that is removed;  not restored by a create answered on a live client;  left
      when a live client refused the rebuild's subscription;  given up after the third rejection;  or the process is
      stopping. */
  predicate EndsLawfully(s: State, e: Step, p: Pair)
    requires Enabled(s, e)
  {
    match e
    case Remove(h) => p in s.clients[h].items
    case Answer(_, _, _, _) => LawfulAnswer(s, e, p)
    case End(r) => p in s.rebuilds[r].nodes && (Up(s, s.frames[r].client) || Removed(s, s.frames[r].client))
    case Failed(i, rejected) =>
      s.chains[i].key in s.pending && p in s.pending[s.chains[i].key].nodes && rejected &&
          s.pending[s.chains[i].key].rejections + 1 >= MAX_REJECTIONS
    case ShutDown => true
    case _ => Unsubscribes(s, e, p)
  }

  // ---- Frames keep what they have read ----

  /** No frame reads the pair that did not, and no rebuild of one that does has let go of it. */
  ghost predicate StillHeld(s: State, t: State, p: Pair) {
    forall r :: r in t.frames && r in t.rebuilds && Reads(t.frames[r], p) ==>
      r in s.frames && r in s.rebuilds && Reads(s.frames[r], p) && (p in s.rebuilds[r].nodes ==> p in t.rebuilds[r].nodes)
  }

  lemma StillHolds(s: State, t: State, p: Pair)
    requires HeldByFrames(s, p) && StillHeld(s, t, p)
    ensures HeldByFrames(t, p)
  {
  }

  lemma TakeHeld(s: State, h: Handle, p: Pair)
    requires HeldByFrames(s, p) && h in s.clients
    ensures HeldByFrames(Take(s, h), p)
  {
    StillHolds(s, Take(s, h), p);
  }

  lemma LoseHeld(s: State, h: Handle, p: Pair)
    requires HeldByFrames(s, p) && h in s.clients
    ensures HeldByFrames(Lose(s, h), p)
  {
    TakeHeld(s, h, p);
    StillHolds(if s.shuttingDown then s else Take(s, h), Lose(s, h), p);
  }

  lemma OffClientHeld(s: State, h: Handle, l: nat, nodes: set<nat>, p: Pair)
    requires HeldByFrames(s, p) && h in s.clients
    ensures HeldByFrames(OffClient(s, h, l, nodes), p)
  {
    StillHolds(s, OffClient(s, h, l, nodes), p);
  }

  lemma OffPendingHeld(s: State, slug: string, l: nat, nodes: set<nat>, p: Pair)
    requires HeldByFrames(s, p) && !(p.listener == l && p.node in nodes)
    ensures HeldByFrames(OffPending(s, slug, l, nodes), p)
  {
    StillHolds(s, OffPending(s, slug, l, nodes), p);
  }

  /** But for one frame, which is about to go on. */
  ghost predicate HeldBut(s: State, r: nat, p: Pair) {
    forall q :: q in s.frames && q in s.rebuilds && q != r && Reads(s.frames[q], p) ==> p in s.rebuilds[q].nodes
  }

  lemma SettleHeld(s: State, r: nat, l: nat, restored: set<nat>, p: Pair)
    requires HasFrame(s, r) && HeldBut(s, r, p)
    ensures HeldBut(Settle(s, r, l, restored), r, p)
  {
  }

  lemma OffClientHeldBut(s: State, h: Handle, l: nat, nodes: set<nat>, r: nat, p: Pair)
    requires h in s.clients && HeldBut(s, r, p)
    ensures HeldBut(OffClient(s, h, l, nodes), r, p)
  {
    var t := OffClient(s, h, l, nodes);
    forall q | q in t.frames && q in t.rebuilds && q != r && Reads(t.frames[q], p) ensures p in t.rebuilds[q].nodes {
      assert Reads(s.frames[q], p);
    }
  }

  lemma OffPendingHeldBut(s: State, slug: string, l: nat, nodes: set<nat>, r: nat, p: Pair)
    requires HeldBut(s, r, p) && !(p.listener == l && p.node in nodes)
    ensures HeldBut(OffPending(s, slug, l, nodes), r, p)
  {
  }

  lemma TakeOffHeld(s: State, h: Handle, slug: string, l: nat, dropped: set<nat>, r: nat, p: Pair)
    requires h in s.clients && HeldBut(s, r, p) && !(p.listener == l && p.node in dropped)
    ensures HeldBut(TakeOff(s, h, slug, l, dropped), r, p)
  {
    OffClientHeldBut(s, h, l, dropped, r, p);
    OffPendingHeldBut(OffClient(s, h, l, dropped), slug, l, dropped, r, p);
  }

  /** What an answer takes off is not what its rebuild holds. */
  lemma NotDropped(s: State, r: nat, ok: set<nat>, whole: bool, p: Pair)
    requires IsAnswerable(s, r) && HeldByFrames(s, p) && p.listener == s.frames[r].phase.listener
    ensures p.node !in RestoredBy(s, r, ok, whole) - NodesOf(s.rebuilds[r].nodes, p.listener)
  {
    if p.node in RestoredBy(s, r, ok, whole) {
      assert Reads(s.frames[r], p);
    }
  }

  lemma SettledHeld(s: State, r: nat, ok: set<nat>, whole: bool, loss: bool, p: Pair)
    requires IsAnswerable(s, r) && HeldByFrames(s, p)
    ensures HeldBut(SettledAfter(s, r, ok, whole, loss), r, p)
  {
    var h, attached := s.frames[r].client, Attach(s, r, ok, whole);
    StillHolds(s, attached, p);
    LoseHeld(attached, h, p);
    SettleHeld(Heard(attached, h, loss), r, s.frames[r].phase.listener, RestoredBy(s, r, ok, whole), p);
  }

  lemma MovesOnHeld(s: State, r: nat, p: Pair)
    requires r in s.frames && HeldBut(s, r, p)
    ensures HeldByFrames(WithPhase(s, r, Looping), p)
  {
  }

  lemma AnswerHeld(s: State, r: nat, ok: set<nat>, whole: bool, loss: bool, p: Pair)
    requires IsAnswerable(s, r) && HeldByFrames(s, p)
    ensures HeldByFrames(Answered(s, r, ok, whole, loss), p)
  {
    var h, l := s.frames[r].client, s.frames[r].phase.listener;
    SettledHeld(s, r, ok, whole, loss, p);
    if p.listener == l {
      NotDropped(s, r, ok, whole, p);
    }
    TakeOffHeld(SettledAfter(s, r, ok, whole, loss), h, s.rebuilds[r].slug, l,
                RestoredBy(s, r, ok, whole) - NodesOf(s.rebuilds[r].nodes, l), r, p);
    MovesOnHeld(TakenOffAfter(s, r, ok, whole, loss), r, p);
  }

  lemma AnswerStepHeld(s: State, e: Step, p: Pair)
    requires HeldByFrames(s, p) && e.Answer? && FrameEnabled(s, e)
    ensures HeldByFrames(FrameNext(s, e), p)
  {
    AnswerHeld(s, e.rebuild, e.ok, e.whole, e.loss, p);
  }

  lemma PhaseHeld(s: State, r: nat, phase: Phase, p: Pair)
    requires HeldByFrames(s, p) && r in s.frames && !phase.Chosen? && !phase.Out?
    ensures HeldByFrames(WithPhase(s, r, phase), p)
  {
    StillHolds(s, WithPhase(s, r, phase), p);
  }

  lemma SubscribeHeld(s: State, e: Step, p: Pair)
    requires HeldByFrames(s, p) && e.Subscribed? && FrameEnabled(s, e)
    ensures HeldByFrames(FrameNext(s, e), p)
  {
    if e.good {
      PhaseHeld(s, e.rebuild, Looping, p);
    } else {
      LoseHeld(s, s.frames[e.rebuild].client, p);
      PhaseHeld(Heard(s, s.frames[e.rebuild].client, e.loss), e.rebuild, Ending, p);
    }
  }

  lemma ReadHeld(s: State, e: Step, p: Pair)
    requires HeldByFrames(s, p) && e.Read? && FrameEnabled(s, e)
    ensures HeldByFrames(FrameNext(s, e), p)
  {
  }

  lemma EndHeld(s: State, e: Step, p: Pair)
    requires HeldByFrames(s, p) && e.End? && FrameEnabled(s, e)
    ensures HeldByFrames(FrameNext(s, e), p)
  {
    StillHolds(s, Ended(s, e.rebuild), p);
  }

  lemma MovedHeld(s: State, e: Step, p: Pair)
    requires HeldByFrames(s, p) && (e.Start? || e.Loop? || e.Submit?) && FrameEnabled(s, e)
    ensures HeldByFrames(FrameNext(s, e), p)
  {
    StillHolds(s, FrameNext(s, e), p);
  }

  lemma FrameHeld(s: State, e: Step, p: Pair)
    requires HeldByFrames(s, p) && MovesFrame(e) && FrameEnabled(s, e)
    ensures HeldByFrames(FrameNext(s, e), p)
  {
    if e.Answer? {
      AnswerStepHeld(s, e, p);
    } else if e.Subscribed? {
      SubscribeHeld(s, e, p);
    } else if e.Read? {
      ReadHeld(s, e, p);
    } else if e.End? {
      EndHeld(s, e, p);
    } else {
      MovedHeld(s, e, p);
    }
  }

  lemma RebuildHeld(s: State, r: nat, h: Handle, slug: string, ps: set<Pair>, p: Pair)
    requires HeldByFrames(s, p)
    ensures HeldByFrames(Rebuilding(s, r, h, slug, ps), p)
  {
    StillHolds(s, Rebuilding(s, r, h, slug, ps), p);
  }

  lemma ChainHeld(s: State, e: Step, p: Pair)
    requires HeldByFrames(s, p) && MovesChain(e) && ChainEnabled(s, e)
    ensures HeldByFrames(ChainNext(s, e), p)
  {
    StillHolds(s, ChainNext(s, e), p);
  }

  lemma CallHeld(s: State, e: Step, p: Pair)
    requires HeldByFrames(s, p) && Calls(e) && CallEnabled(s, e) && !Unsubscribes(s, e, p)
    ensures HeldByFrames(CallNext(s, e), p)
  {
    StillHolds(s, CallNext(s, e), p);
  }

  lemma ClientHeld(s: State, e: Step, p: Pair)
    requires HeldByFrames(s, p) && !MovesFrame(e) && !MovesChain(e) && !Calls(e) && ClientEnabled(s, e) && !Unsubscribes(s, e, p)
    ensures HeldByFrames(ClientNext(s, e), p)
  {
    if e.Lost? {
      LoseHeld(s, e.handle, p);
    } else if e.TakeBack? {
      TakeHeld(s, e.handle, p);
      RebuildHeld(Take(s, e.handle), e.rebuild, e.handle, s.clients[e.handle].key.slug, s.clients[e.handle].items, p);
    } else if e.Leave? {
      OffClientHeld(s, e.handle, e.listener, e.nodes, p);
    } else if e.Drop? {
      OffPendingHeld(s, e.slug, e.listener, e.nodes, p);
    } else {
      StillHolds(s, ClientNext(s, e), p);
    }
  }

  lemma NextHeld(s: State, e: Step, p: Pair)
    requires HeldByFrames(s, p) && Enabled(s, e) && !Unsubscribes(s, e, p)
    ensures HeldByFrames(Next(s, e), p)
  {
    if MovesFrame(e) {
      FrameHeld(s, e, p);
    } else if MovesChain(e) {
      ChainHeld(s, e, p);
    } else if Calls(e) {
      CallHeld(s, e, p);
    } else {
      ClientHeld(s, e, p);
    }
  }

  // ---- Every step ----

  /** With neither cause, an answer ends a subscription only lawfully. */
  lemma AnswerLawful(s: State, e: Step, p: Pair)
    requires ShapeOK(s) && Clean(s) && HeldByFrames(s, p) && !s.shuttingDown && e.Answer? && Enabled(s, e) && EndedByAnswer(s, e, p)
    ensures LawfulAnswer(s, e, p)
  {
    var h := s.frames[e.rebuild].client;
    if Down(s, h) {
      NothingRestored(s, e);
    }
    if p.listener == s.frames[e.rebuild].phase.listener && p.node in RestoredNodes(s, e) {
      assert Reads(s.frames[e.rebuild], p);
    }
  }

  lemma OnlyLawfully(s: State, e: Step, p: Pair)
    requires ShapeOK(s) && Clean(s) && HeldByFrames(s, p) && !s.shuttingDown && Enabled(s, e) && Ends(s, e, p)
    ensures EndsLawfully(s, e, p)
  {
    if e.Answer? {
      AnswerLawful(s, e, p);
    }
  }

  lemma LawfulUnsubscribes(s: State, e: Step, p: Pair)
    requires Enabled(s, e) && Unsubscribes(s, e, p)
    ensures EndsLawfully(s, e, p)
  {
  }

  lemma FrameStaysUp(s: State, e: Step)
    requires MovesFrame(e) && FrameEnabled(s, e)
    ensures FrameNext(s, e).shuttingDown == s.shuttingDown
  {
  }

  lemma ChainStaysUp(s: State, e: Step)
    requires MovesChain(e) && ChainEnabled(s, e)
    ensures ChainNext(s, e).shuttingDown == s.shuttingDown
  {
  }

  lemma ClientStaysUp(s: State, e: Step)
    requires !MovesFrame(e) && !MovesChain(e) && !Calls(e) && ClientEnabled(s, e) && !e.ShutDown?
    ensures ClientNext(s, e).shuttingDown == s.shuttingDown
  {
  }

  lemma StaysUp(s: State, e: Step)
    requires Enabled(s, e) && !s.shuttingDown && !e.ShutDown?
    ensures !Next(s, e).shuttingDown
  {
    if MovesFrame(e) {
      FrameStaysUp(s, e);
    } else if MovesChain(e) {
      ChainStaysUp(s, e);
    } else if !Calls(e) {
      ClientStaysUp(s, e);
    }
  }

  lemma SurvivesStep(s: State, e: Step, p: Pair)
    requires ShapeOK(s) && Clean(s) && HeldByFrames(s, p) && !s.shuttingDown && Covered(s, p)
    requires Enabled(s, e) && !LateSubmit(s, e) && !EndsLawfully(s, e, p)
    ensures ShapeOK(Next(s, e)) && Clean(Next(s, e)) && HeldByFrames(Next(s, e), p) && !Next(s, e).shuttingDown && Covered(Next(s, e), p)
  {
    if Ends(s, e, p) {
      OnlyLawfully(s, e, p);
    }
    if Unsubscribes(s, e, p) {
      LawfulUnsubscribes(s, e, p);
    }
    NoLoss(s, e, p);
    NextShape(s, e);
    NextClean(s, e);
    NextHeld(s, e, p);
    StaysUp(s, e);
  }

  // ---- Over whole runs ----

  /** No create is submitted to a client that is down, nor does the process stop. */
  ghost predicate Prompt(s: State, steps: seq<Step>)
    requires Runs(s, steps)
    decreases |steps|
  {
    steps == [] || (!LateSubmit(s, steps[0]) && !steps[0].ShutDown? && Prompt(Next(s, steps[0]), steps[1..]))
  }

  ghost predicate NeverLawfully(s: State, steps: seq<Step>, p: Pair)
    requires Runs(s, steps)
    decreases |steps|
  {
    steps == [] || (!EndsLawfully(s, steps[0], p) && NeverLawfully(Next(s, steps[0]), steps[1..], p))
  }

  lemma {:induction false} RunSurvives(s: State, steps: seq<Step>, p: Pair)
    requires ShapeOK(s) && Clean(s) && HeldByFrames(s, p) && !s.shuttingDown && Covered(s, p)
    requires Runs(s, steps) && Prompt(s, steps) && NeverLawfully(s, steps, p)
    ensures Covered(After(s, steps), p)
    decreases |steps|
  {
    if steps != [] {
      SurvivesStep(s, steps[0], p);
      RunSurvives(Next(s, steps[0]), steps[1..], p);
    }
  }

  lemma {:induction false} RunClean(s: State, steps: seq<Step>)
    requires ShapeOK(s) && Clean(s) && !s.shuttingDown && Runs(s, steps) && Prompt(s, steps)
    ensures ShapeOK(After(s, steps)) && Clean(After(s, steps)) && !After(s, steps).shuttingDown
    decreases |steps|
  {
    if steps != [] {
      NextShape(s, steps[0]);
      NextClean(s, steps[0]);
      StaysUp(s, steps[0]);
      RunClean(Next(s, steps[0]), steps[1..]);
    }
  }

  lemma WatchStarts(s: State, h: Handle, p: Pair)
    requires Enabled(s, Watch(h, p)) && HeldByFrames(s, p)
    ensures Covered(Next(s, Watch(h, p)), p) && HeldByFrames(Next(s, Watch(h, p)), p)
  {
    var t := Next(s, Watch(h, p));
    assert Up(t, h) && p in t.clients[h].items;
    StillHolds(s, t, p);
  }

  /** From the subscribe on, in any run from the start:  a pair subscribed while no frame has read it that its rebuild does not hold is on a
      client, parked or being rebuilt until it ends lawfully, if no create is submitted to a client that is down. */
  lemma Survives(steps: seq<Step>, h: Handle, p: Pair, more: seq<Step>)
    requires Runs(INITIAL, steps) && Prompt(INITIAL, steps)
    requires var s := After(INITIAL, steps); Enabled(s, Watch(h, p)) && HeldByFrames(s, p)
    requires var t := Next(After(INITIAL, steps), Watch(h, p)); Runs(t, more) && Prompt(t, more) && NeverLawfully(t, more, p)
    ensures Covered(After(Next(After(INITIAL, steps), Watch(h, p)), more), p)
  {
    var s := After(INITIAL, steps);
    RunClean(INITIAL, steps);
    WatchStarts(s, h, p);
    NextShape(s, Watch(h, p));
    NextClean(s, Watch(h, p));
    RunSurvives(Next(s, Watch(h, p)), more, p);
  }

  // ---- Subscribed anew ----

  lemma DroppedOut(k: Key, p: Pair, phase: Phase)
    ensures var s, e := Dropped(k, p, phase, map[]), Drop(k.slug, p.listener, {p.node});
            Enabled(s, e) && Next(s, e) == One(k, {}, {}, phase, map[])
  {
    assert Without({p}, p.listener, {p.node}) == {};
  }

  lemma WatchedAgain(k: Key, p: Pair, phase: Phase)
    ensures var s := One(k, {}, {}, phase, map[]); Enabled(s, Watch(0, p)) && Next(s, Watch(0, p)) == One(k, {p}, {}, phase, map[])
  {
    assert {} + {p} == {p};
  }

  function JoinedOwn(k: Key, p: Pair): State {
    One(k, {p}, {}, Out(p.listener, {p.node}, {p.node}, {}, false), map[])
  }

  lemma SubmittedAgain(k: Key, p: Pair)
    ensures var s := One(k, {p}, {}, Chosen(p.listener, {p.node}), map[]); Enabled(s, Submit(0)) && Next(s, Submit(0)) == JoinedOwn(k, p)
  {
    assert Monitored({p}, p.node);
    assert Joined({p.node}, {p}) == {p.node};
    assert Pairs(p.listener, {p.node}) == {p} && {p} + {p} == {p};
  }

  lemma AnsweredAgain(k: Key, p: Pair, ok: set<nat>)
    ensures var s, e := JoinedOwn(k, p), Answer(0, ok, false, false); Enabled(s, e) && !Covered(Next(s, e), p)
  {
    var s, e := JoinedOwn(k, p), Answer(0, ok, false, false);
    assert ShapeOK(s) && OnlyThere(s, p, 0, 0);
    assert Refused(s.frames[0].phase, ok, false) == {};
    WatchedExact(s, e, p);
  }

  /** A pair dropped after its rebuild had read it and subscribed again before the create is sent:  the create's answer takes it off, though
      nobody has unsubscribed it since. */
  lemma TakenAnew(k: Key, p: Pair, ok: set<nat>) returns (steps: seq<Step>, s: State)
    ensures Reaches(steps, s) && Enabled(s, Watch(0, p)) && !HeldByFrames(s, p)
    ensures var t := Next(s, Watch(0, p));
            Covered(t, p) && Enabled(t, Submit(0)) && Enabled(Next(t, Submit(0)), Answer(0, ok, false, false))
            && !Covered(Next(Next(t, Submit(0)), Answer(0, ok, false, false)), p)
  {
    var phase := Chosen(p.listener, {p.node});
    steps := DroppedReached(k, p);
    steps := ReadsOn(steps, k, p, map[]);
    DroppedOut(k, p, phase);
    s := One(k, {}, {}, phase, map[]);
    RunsOn(steps, Dropped(k, p, phase, map[]), Drop(k.slug, p.listener, {p.node}), s);
    steps := steps + [Drop(k.slug, p.listener, {p.node})];
    assert Reads(s.frames[0], p);
    WatchedAgain(k, p, phase);
    var t := One(k, {p}, {}, phase, map[]);
    assert Up(t, 0) && p in t.clients[0].items;
    SubmittedAgain(k, p);
    AnsweredAgain(k, p, ok);
  }
}
