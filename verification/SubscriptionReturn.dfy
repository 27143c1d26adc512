/** After a listener's Unsubscribe has returned:  it stays parked nowhere and on no client but through creates that are
    out, until a step takes the items of a client a create has it on. */
module SubscriptionReturn {
  import opened Subscriptions
  import opened SubscriptionShape
  import opened SubscriptionClose

  /** In neither map, and on a client that is up only through a create that is out and joined the node's item. */
  ghost predicate Gone(s: State, l: nat) {
    !Parked(s, l) && Off(s, l, {})
  }

  predicate Loses(s: State, h: Handle, loss: bool) {
    loss && Up(s, h) && !Removed(s, h) && !s.shuttingDown
  }

  /** What is on an answered create's client but what the answer restores to its listener. */
  function LeftOn(s: State, r: nat, ok: set<nat>, whole: bool): set<Pair>
    requires IsAnswerable(s, r)
  {
    Without(s.clients[s.frames[r].client].items, s.frames[r].phase.listener, RestoredBy(s, r, ok, whole))
  }

  predicate On(s: State, h: Handle, l: nat) {
    h in s.clients && Has(s.clients[h].items, l)
  }

  predicate LossTakes(s: State, h: Handle, loss: bool, l: nat) {
    Loses(s, h, loss) && On(s, h, l)
  }

  predicate AnswerTakes(s: State, r: nat, ok: set<nat>, whole: bool, loss: bool, l: nat)
    requires IsAnswerable(s, r)
  {
    Loses(s, s.frames[r].client, loss) && Has(LeftOn(s, r, ok, whole), l)
  }

  /** The step takes a client's items, and the listener is on it. */
  predicate Revives(s: State, e: Step, l: nat)
    requires Enabled(s, e)
  {
    match e
    case Lost(h) => !s.shuttingDown && On(s, h, l)
    case TakeBack(h, _) => On(s, h, l)
    case Subscribed(r, good, loss) => !good && LossTakes(s, s.frames[r].client, loss, l)
    case Answer(r, ok, whole, loss) => AnswerTakes(s, r, ok, whole, loss, l)
    case _ => false
  }

  // ---- What is parked after each operation ----

  lemma SameParked(s: State, t: State, l: nat)
    requires t.pending == s.pending && t.rebuilds == s.rebuilds
    ensures Parked(t, l) == Parked(s, l)
  {
  }

  /** Entries and rebuilds that hold no more than they did. */
  predicate NoMore(s: State, t: State) {
    && (forall k :: k in t.pending ==> k in s.pending && t.pending[k].nodes <= s.pending[k].nodes)
    && (forall r :: r in t.rebuilds ==> r in s.rebuilds && t.rebuilds[r].nodes <= s.rebuilds[r].nodes)
  }

  lemma NoMoreParked(s: State, t: State, l: nat)
    requires !Parked(s, l) && NoMore(s, t)
    ensures !Parked(t, l)
  {
    forall k | k in t.pending ensures !Has(t.pending[k].nodes, l) {
      assert !Has(s.pending[k].nodes, l);
    }
    forall r | r in t.rebuilds ensures !Has(t.rebuilds[r].nodes, l) {
      assert !Has(s.rebuilds[r].nodes, l);
    }
  }

  lemma ParkParked(s: State, key: Key, ps: set<Pair>, l: nat)
    requires !Parked(s, l)
    ensures Parked(Park(s, key, ps), l) <==> Has(ps, l) && !s.shuttingDown
  {
    var t := Park(s, key, ps);
    if Has(ps, l) && !s.shuttingDown {
      var p :| p in ps && p.listener == l;
      assert key in t.pending && p in t.pending[key].nodes;
    } else {
      forall k | k in t.pending ensures !Has(t.pending[k].nodes, l) {
        assert k in s.pending ==> !Has(s.pending[k].nodes, l);
      }
    }
  }

  lemma LoseParked(s: State, h: Handle, l: nat)
    requires h in s.clients && !Parked(s, l)
    ensures Parked(Lose(s, h), l) <==> !s.shuttingDown && On(s, h, l)
  {
    SameParked(s, Take(s, h), l);
    ParkParked(Take(s, h), s.clients[h].key, s.clients[h].items, l);
    var t := if s.shuttingDown then s else Park(Take(s, h), s.clients[h].key, s.clients[h].items);
    SameParked(t, Lose(s, h), l);
  }

  lemma RebuildParked(s: State, r: nat, h: Handle, slug: string, ps: set<Pair>, l: nat)
    requires !Parked(s, l) && r !in s.rebuilds
    ensures Parked(Rebuilding(s, r, h, slug, ps), l) <==> Has(ps, l)
  {
    var t := Rebuilding(s, r, h, slug, ps);
    assert t.rebuilds[r].nodes == ps;
    forall q | q in t.rebuilds && q != r ensures !Has(t.rebuilds[q].nodes, l) {
      assert !Has(s.rebuilds[q].nodes, l);
    }
  }

  // ---- A create's answer ----

  function WaitingAt(s: State, key: Key): set<Pair> {
    if key in s.pending then s.pending[key].nodes else {}
  }

  /** Of the listener, exactly these are parked, under one key, and none is in a rebuild. */
  ghost predicate ParkedAt(s: State, l: nat, key: Key, ps: set<Pair>) {
    && (forall k :: k in s.pending && Has(s.pending[k].nodes, l) ==> k == key)
    && (forall p: Pair :: p.listener == l ==> (p in WaitingAt(s, key) <==> p in ps))
    && (forall r :: r in s.rebuilds ==> !Has(s.rebuilds[r].nodes, l))
  }

  lemma ParkedThere(s: State, l: nat, key: Key, ps: set<Pair>)
    requires ParkedAt(s, l, key, ps)
    ensures Parked(s, l) <==> Has(ps, l)
  {
    if Has(ps, l) {
      var p :| p in ps && p.listener == l;
      assert p in WaitingAt(s, key);
      assert key in s.pending && Has(s.pending[key].nodes, l);
    }
  }

  lemma ParkedNowhere(s: State, l: nat, key: Key)
    requires !Parked(s, l)
    ensures ParkedAt(s, l, key, {})
  {
    forall p: Pair | p.listener == l ensures p !in WaitingAt(s, key) {
      assert key in s.pending ==> !Has(s.pending[key].nodes, l);
    }
  }

  lemma ParkAt(s: State, key: Key, ps: set<Pair>, l: nat)
    requires !Parked(s, l) && !s.shuttingDown
    ensures ParkedAt(Park(s, key, ps), l, key, ps)
  {
    ParkedNowhere(s, l, key);
    assert forall k :: k in s.pending ==> !Has(s.pending[k].nodes, l);
  }

  lemma LoseAt(s: State, h: Handle, l: nat)
    requires h in s.clients && !Parked(s, l) && !s.shuttingDown
    ensures ParkedAt(Lose(s, h), l, s.clients[h].key, s.clients[h].items)
  {
    SameParked(s, Take(s, h), l);
    ParkAt(Take(s, h), s.clients[h].key, s.clients[h].items, l);
  }

  lemma HeardAt(s: State, h: Handle, loss: bool, l: nat)
    requires h in s.clients && !Parked(s, l) && !(loss && Up(s, h) && s.shuttingDown)
    ensures ParkedAt(Heard(s, h, loss), l, s.clients[h].key, if Loses(s, h, loss) then s.clients[h].items else {})
  {
    if Loses(s, h, loss) {
      LoseAt(s, h, l);
    } else {
      ParkedNowhere(s, l, s.clients[h].key);
    }
  }

  lemma OthersAt(s: State, at: Key, others: set<Pair>, k: Key, p: Pair)
    requires p !in others
    ensures p in WaitingAt(Park(s, at, others), k) <==> p in WaitingAt(s, k)
  {
  }

  /** Parking another's pairs leaves the listener's where they are. */
  lemma OthersParked(s: State, at: Key, others: set<Pair>, l: nat, key: Key, ps: set<Pair>)
    requires ParkedAt(s, l, key, ps) && !Has(others, l)
    ensures ParkedAt(Park(s, at, others), l, key, ps)
  {
    var t := Park(s, at, others);
    forall k | k in t.pending && Has(t.pending[k].nodes, l) ensures k == key {
      var p :| p in t.pending[k].nodes && p.listener == l;
      OthersAt(s, at, others, k, p);
      assert p in WaitingAt(s, k);
    }
    forall p: Pair | p.listener == l ensures p in WaitingAt(t, key) <==> p in ps {
      OthersAt(s, at, others, key, p);
    }
  }

  lemma SettleAt(s: State, r: nat, k: nat, restored: set<nat>, l: nat, key: Key, ps: set<Pair>)
    requires r in s.rebuilds && r in s.frames && s.frames[r].client in s.clients && ParkedAt(s, l, key, ps)
    ensures ParkedAt(Settle(s, r, k, restored), l, key, ps)
  {
    var h := s.frames[r].client;
    var wanted, left := NodesOf(s.rebuilds[r].nodes, k), Forget(s.rebuilds[r].nodes, k);
    assert !Has(s.rebuilds[r].nodes, l);
    assert !Has(left, l) && !Has(left + Pairs(k, wanted - restored), l);
    if !(Up(s, h) || Removed(s, h)) {
      OthersParked(WithRebuild(s, r, {}), s.clients[h].key, left + Pairs(k, wanted - restored), l, key, ps);
    }
  }

  lemma OffPendingAt(s: State, slug: string, k: nat, dropped: set<nat>, l: nat, key: Key, ps: set<Pair>)
    requires ParkedAt(s, l, key, ps) && key.slug == slug
    ensures ParkedAt(OffPending(s, slug, k, dropped), l, key, Without(ps, k, dropped))
  {
    var t := OffPending(s, slug, k, dropped);
    forall j | j in t.pending && Has(t.pending[j].nodes, l) ensures j == key {
      assert Has(s.pending[j].nodes, l);
    }
    forall r | r in t.rebuilds ensures !Has(t.rebuilds[r].nodes, l) {
      assert !Has(s.rebuilds[r].nodes, l);
    }
  }

  lemma TakeOffAt(s: State, h: Handle, slug: string, k: nat, dropped: set<nat>, l: nat, key: Key, ps: set<Pair>)
    requires ParkedAt(s, l, key, ps) && key.slug == slug && h in s.clients
    ensures ParkedAt(TakeOff(s, h, slug, k, dropped), l, key, Without(ps, k, dropped))
  {
    if dropped == {} {
      assert Without(ps, k, dropped) == ps;
    } else {
      OffPendingAt(OffClient(s, h, k, dropped), slug, k, dropped, l, key, ps);
    }
  }

  /** The pairs a loss heard with an answer parks, and of them those that stay parked. */
  function Stashed(s: State, r: nat, ok: set<nat>, whole: bool, loss: bool): set<Pair>
    requires IsAnswerable(s, r)
  {
    if Loses(s, s.frames[r].client, loss) then Attach(s, r, ok, whole).clients[s.frames[r].client].items else {}
  }

  function StillStashed(s: State, r: nat, ok: set<nat>, whole: bool, loss: bool): set<Pair>
    requires IsAnswerable(s, r)
  {
    var k := s.frames[r].phase.listener;
    Without(Stashed(s, r, ok, whole, loss), k, RestoredBy(s, r, ok, whole) - NodesOf(s.rebuilds[r].nodes, k))
  }

  lemma AnswerAt(s: State, r: nat, ok: set<nat>, whole: bool, loss: bool, l: nat)
    requires ShapeOK(s) && IsAnswerable(s, r) && !Parked(s, l) && !s.shuttingDown
    ensures ParkedAt(Answered(s, r, ok, whole, loss), l, s.clients[s.frames[r].client].key, StillStashed(s, r, ok, whole, loss))
  {
    var h, k, slug := s.frames[r].client, s.frames[r].phase.listener, s.rebuilds[r].slug;
    var key, ps := s.clients[h].key, Stashed(s, r, ok, whole, loss);
    var attached := Attach(s, r, ok, whole);
    SameParked(s, attached, l);
    HeardAt(attached, h, loss, l);
    SettleAt(Heard(attached, h, loss), r, k, RestoredBy(s, r, ok, whole), l, key, ps);
    TakeOffAt(SettledAfter(s, r, ok, whole, loss), h, slug, k, RestoredBy(s, r, ok, whole) - NodesOf(s.rebuilds[r].nodes, k), l, key, ps);
    SamePhaseAt(TakenOffAfter(s, r, ok, whole, loss), r, l, key, StillStashed(s, r, ok, whole, loss));
  }

  lemma SamePhaseAt(s: State, r: nat, l: nat, key: Key, ps: set<Pair>)
    requires r in s.frames && ParkedAt(s, l, key, ps)
    ensures ParkedAt(WithPhase(s, r, Looping), l, key, ps)
  {
  }

  lemma AttachedRestored(s: State, r: nat, ok: set<nat>, whole: bool, n: nat)
    requires IsAnswerable(s, r) && n in Attached(s.frames[r].phase, ok, whole)
    ensures n in RestoredBy(s, r, ok, whole)
  {
    var phase, attached := s.frames[r].phase, Attach(s, r, ok, whole);
    assert Pair(phase.listener, n) in attached.clients[s.frames[r].client].items;
    GoodOnes(phase, attached.clients[s.frames[r].client].items, ok, whole, n);
  }

  /** What the answer itself puts on comes off again, so only what was there before it counts. */
  lemma StashedLeft(s: State, r: nat, ok: set<nat>, whole: bool, loss: bool, l: nat)
    requires IsAnswerable(s, r) && !Has(s.rebuilds[r].nodes, l)
    ensures Has(StillStashed(s, r, ok, whole, loss), l) <==> AnswerTakes(s, r, ok, whole, loss, l)
  {
    var h, k, phase := s.frames[r].client, s.frames[r].phase.listener, s.frames[r].phase;
    assert k == l ==> NodesOf(s.rebuilds[r].nodes, k) == {};
    if Has(StillStashed(s, r, ok, whole, loss), l) {
      var p :| p in StillStashed(s, r, ok, whole, loss) && p.listener == l;
      if p !in s.clients[h].items {
        assert p.listener == k && p.node in Attached(phase, ok, whole);
        AttachedRestored(s, r, ok, whole, p.node);
        assert false;
      }
      assert p in LeftOn(s, r, ok, whole);
    }
    if Loses(s, h, loss) && Has(LeftOn(s, r, ok, whole), l) {
      var p :| p in LeftOn(s, r, ok, whole) && p.listener == l;
      assert p in StillStashed(s, r, ok, whole, loss);
    }
  }

  // On the way out of the process nothing is parked.

  lemma SettleStopping(s: State, r: nat, k: nat, restored: set<nat>, l: nat)
    requires HasFrame(s, r) && !Parked(s, l) && s.shuttingDown
    ensures !Parked(Settle(s, r, k, restored), l)
  {
    NoMoreParked(s, Settle(s, r, k, restored), l);
  }

  lemma OffPendingParked(s: State, slug: string, k: nat, dropped: set<nat>, l: nat)
    requires !Parked(s, l)
    ensures !Parked(OffPending(s, slug, k, dropped), l)
  {
    NoMoreParked(s, OffPending(s, slug, k, dropped), l);
  }

  lemma TakeOffParked(s: State, h: Handle, slug: string, k: nat, dropped: set<nat>, l: nat)
    requires h in s.clients && !Parked(s, l)
    ensures !Parked(TakeOff(s, h, slug, k, dropped), l)
  {
    SameParked(s, OffClient(s, h, k, dropped), l);
    OffPendingParked(OffClient(s, h, k, dropped), slug, k, dropped, l);
  }

  lemma HeardStopping(s: State, h: Handle, loss: bool, l: nat)
    requires h in s.clients && !Parked(s, l) && s.shuttingDown
    ensures !Parked(Heard(s, h, loss), l)
  {
    LoseParked(s, h, l);
  }

  lemma AnswerStopping(s: State, r: nat, ok: set<nat>, whole: bool, loss: bool, l: nat)
    requires IsAnswerable(s, r) && !Parked(s, l) && s.shuttingDown
    ensures !Parked(Answered(s, r, ok, whole, loss), l)
  {
    var h, k, attached := s.frames[r].client, s.frames[r].phase.listener, Attach(s, r, ok, whole);
    SameParked(s, attached, l);
    HeardStopping(attached, h, loss, l);
    SettleStopping(Heard(attached, h, loss), r, k, RestoredBy(s, r, ok, whole), l);
    TakeOffParked(SettledAfter(s, r, ok, whole, loss), h, s.rebuilds[r].slug, k,
        RestoredBy(s, r, ok, whole) - NodesOf(s.rebuilds[r].nodes, k), l);
    SameParked(TakenOffAfter(s, r, ok, whole, loss), Answered(s, r, ok, whole, loss), l);
  }

  lemma AnswerParked(s: State, r: nat, ok: set<nat>, whole: bool, loss: bool, l: nat)
    requires ShapeOK(s) && IsAnswerable(s, r) && !Parked(s, l)
    ensures Parked(Answered(s, r, ok, whole, loss), l) <==> AnswerTakes(s, r, ok, whole, loss, l)
  {
    if s.shuttingDown {
      AnswerStopping(s, r, ok, whole, loss, l);
    } else {
      AnswerAt(s, r, ok, whole, loss, l);
      ParkedThere(Answered(s, r, ok, whole, loss), l, s.clients[s.frames[r].client].key, StillStashed(s, r, ok, whole, loss));
      assert !Has(s.rebuilds[r].nodes, l);
      StashedLeft(s, r, ok, whole, loss, l);
    }
  }

  // ---- Every step ----

  lemma SubscribedParked(s: State, r: nat, loss: bool, l: nat)
    requires HasFrame(s, r) && !Parked(s, l)
    ensures var h := s.frames[r].client;
            Parked(WithPhase(Heard(s, h, loss), r, Ending), l) <==> LossTakes(s, h, loss, l)
  {
    var h := s.frames[r].client;
    LoseParked(s, h, l);
    SameParked(Heard(s, h, loss), WithPhase(Heard(s, h, loss), r, Ending), l);
  }

  lemma EndParked(s: State, r: nat, l: nat)
    requires HasFrame(s, r) && !Parked(s, l)
    ensures !Parked(Ended(s, r), l)
  {
    var t := s.(rebuilds := s.rebuilds - {r}, frames := s.frames - {r});
    NoMoreParked(s, t, l);
    assert !Has(s.rebuilds[r].nodes, l);
    ParkParked(t, s.clients[s.frames[r].client].key, s.rebuilds[r].nodes, l);
  }

  /** A frame that only moves on parks nothing. */
  lemma MovedParked(s: State, e: Step, l: nat)
    requires (e.Start? || e.Loop? || e.Read? || e.Submit?) && FrameEnabled(s, e) && !Parked(s, l)
    ensures !Parked(FrameNext(s, e), l) && !Revives(s, e, l)
  {
    SameParked(s, FrameNext(s, e), l);
  }

  lemma SubscribeParked(s: State, e: Step, l: nat)
    requires e.Subscribed? && FrameEnabled(s, e) && !Parked(s, l)
    ensures Parked(FrameNext(s, e), l) <==> Revives(s, e, l)
  {
    if e.good {
      SameParked(s, FrameNext(s, e), l);
    } else {
      SubscribedParked(s, e.rebuild, e.loss, l);
    }
  }

  lemma AnswerStepParked(s: State, e: Step, l: nat)
    requires ShapeOK(s) && e.Answer? && FrameEnabled(s, e) && !Parked(s, l)
    ensures Parked(FrameNext(s, e), l) <==> Revives(s, e, l)
  {
    AnswerIs(s, e);
    AnswerRevives(s, e, l);
    ParkedIff(s, e.rebuild, e.ok, e.whole, e.loss, l, Answered(s, e.rebuild, e.ok, e.whole, e.loss),
        AnswerTakes(s, e.rebuild, e.ok, e.whole, e.loss, l));
  }

  lemma AnswerIs(s: State, e: Step)
    requires e.Answer? && FrameEnabled(s, e)
    ensures FrameNext(s, e) == Answered(s, e.rebuild, e.ok, e.whole, e.loss)
  {
  }

  lemma AnswerRevives(s: State, e: Step, l: nat)
    requires e.Answer? && FrameEnabled(s, e)
    ensures Revives(s, e, l) == AnswerTakes(s, e.rebuild, e.ok, e.whole, e.loss, l)
  {
  }

  lemma ParkedIff(s: State, r: nat, ok: set<nat>, whole: bool, loss: bool, l: nat, t: State, takes: bool)
    requires ShapeOK(s) && IsAnswerable(s, r) && !Parked(s, l)
    requires t == Answered(s, r, ok, whole, loss) && takes == AnswerTakes(s, r, ok, whole, loss, l)
    ensures Parked(t, l) <==> takes
  {
    AnswerParked(s, r, ok, whole, loss, l);
  }

  lemma EndStepParked(s: State, e: Step, l: nat)
    requires e.End? && FrameEnabled(s, e) && !Parked(s, l)
    ensures !Parked(FrameNext(s, e), l) && !Revives(s, e, l)
  {
    EndParked(s, e.rebuild, l);
  }

  lemma FrameParked(s: State, e: Step, l: nat)
    requires ShapeOK(s) && MovesFrame(e) && FrameEnabled(s, e) && !Parked(s, l)
    ensures Parked(FrameNext(s, e), l) <==> Revives(s, e, l)
  {
    if e.Answer? {
      AnswerStepParked(s, e, l);
    } else if e.Subscribed? {
      SubscribeParked(s, e, l);
    } else if e.End? {
      EndStepParked(s, e, l);
    } else {
      MovedParked(s, e, l);
    }
  }

  lemma BackUpParked(s: State, i: nat, h: Handle, r: nat, l: nat)
    requires i in s.chains && h in s.clients && r !in s.rebuilds && !Parked(s, l)
    ensures !Parked(BackUp(s, i, h, r), l)
  {
    var t, key := EndChain(s, i), s.chains[i].key;
    SameParked(s, t, l);
    if s.shuttingDown {
      SameParked(t, Removing(t, h), l);
    } else {
      var u := t.(pending := t.pending - {key});
      NoMoreParked(t, u, l);
      var ps := if key in s.pending then s.pending[key].nodes else {};
      assert !Has(ps, l);
      RebuildParked(u, r, h, key.slug, ps, l);
    }
  }

  lemma WokenParked(s: State, i: nat, l: nat)
    requires i in s.chains && !Parked(s, l)
    ensures !Parked(Woken(s, i), l)
  {
    NoMoreParked(s, Woken(s, i), l);
  }

  lemma RetriedParked(s: State, i: nat, rejected: bool, l: nat)
    requires i in s.chains && !Parked(s, l)
    ensures !Parked(Retried(s, i, rejected), l)
  {
    NoMoreParked(s, Retried(s, i, rejected), l);
  }

  lemma ChainParked(s: State, e: Step, l: nat)
    requires MovesChain(e) && ChainEnabled(s, e) && !Parked(s, l)
    ensures !Parked(ChainNext(s, e), l)
  {
    match e
    case Wait(_) => SameParked(s, ChainNext(s, e), l);
    case Wake(i) => WokenParked(s, i, l);
    case Reconnected(i, h, r) => BackUpParked(s, i, h, r, l);
    case Failed(i, rejected) => RetriedParked(s, i, rejected, l);
  }

  lemma CallParked(s: State, e: Step, l: nat)
    requires Calls(e) && CallEnabled(s, e) && !Parked(s, l)
    ensures !Parked(CallNext(s, e), l)
  {
    NoMoreParked(s, CallNext(s, e), l);
  }

  lemma TakeBackParked(s: State, h: Handle, r: nat, l: nat)
    requires h in s.clients && r !in s.rebuilds && !Parked(s, l)
    ensures Parked(TakenBack(s, h, r), l) <==> On(s, h, l)
  {
    SameParked(s, Take(s, h), l);
    RebuildParked(Take(s, h), r, h, s.clients[h].key.slug, s.clients[h].items, l);
  }

  lemma ClientParked(s: State, e: Step, l: nat)
    requires !MovesFrame(e) && !MovesChain(e) && !Calls(e) && ClientEnabled(s, e) && !Parked(s, l)
    ensures Parked(ClientNext(s, e), l) <==> Revives(s, e, l)
  {
    match e
    case Lost(h) => LoseParked(s, h, l);
    case TakeBack(h, r) => TakeBackParked(s, h, r, l);
    case Connect(_, _) => SameParked(s, ClientNext(s, e), l);
    case Watch(_, _) => SameParked(s, ClientNext(s, e), l);
    case Deregister(_) => SameParked(s, ClientNext(s, e), l);
    case Remove(_) => SameParked(s, ClientNext(s, e), l);
    case Drop(_, _, _) => NoMoreParked(s, ClientNext(s, e), l);
    case Leave(_, _, _) => SameParked(s, ClientNext(s, e), l);
    case ShutDown => SameParked(s, ClientNext(s, e), l);
    case StopReconnects => NoMoreParked(s, ClientNext(s, e), l);
  }

  lemma NextParked(s: State, e: Step, l: nat)
    requires ShapeOK(s) && Enabled(s, e) && !Parked(s, l)
    ensures Parked(Next(s, e), l) <==> Revives(s, e, l)
  {
    if MovesFrame(e) {
      FrameParked(s, e, l);
    } else if MovesChain(e) {
      ChainParked(s, e, l);
    } else if Calls(e) {
      CallParked(s, e, l);
    } else {
      ClientParked(s, e, l);
    }
  }

  /** A listener that is gone and subscribes to nothing stays gone through a step if and only if the step does not take
      the items of a client it is on. */
  lemma StaysGone(s: State, e: Step, l: nat)
    requires ShapeOK(s) && Gone(s, l) && Enabled(s, e) && !(e.Watch? && e.pair.listener == l)
    ensures Gone(Next(s, e), l) <==> !Revives(s, e, l)
  {
    NextParked(s, e, l);
    assert e.Answer? ==> !Has(s.rebuilds[e.rebuild].nodes, l);
    NextOff(s, e, l, {});
  }

  /** What can bring it back from a client that is up:  a create, out on that client, that joined the item of another listener's node. */
  lemma RevivedThrough(s: State, h: Handle, l: nat)
    requires Gone(s, l) && Up(s, h)
    ensures Has(s.clients[h].items, l) <==> exists n :: Pair(l, n) in s.clients[h].items && OutFor(s, h, l, n)
  {
    if Has(s.clients[h].items, l) {
      var p :| p in s.clients[h].items && p.listener == l;
      assert Pair(l, p.node) in s.clients[h].items && OutFor(s, h, l, p.node);
    }
  }

  // ---- Over whole runs ----

  predicate WatchesNothing(steps: seq<Step>, l: nat) {
    forall e :: e in steps && e.Watch? ==> e.pair.listener != l
  }

  ghost predicate NeverRevives(s: State, steps: seq<Step>, l: nat)
    requires Runs(s, steps)
    decreases |steps|
  {
    steps == [] || (!Revives(s, steps[0], l) && NeverRevives(Next(s, steps[0]), steps[1..], l))
  }

  lemma {:induction false} RunStaysGone(s: State, steps: seq<Step>, l: nat)
    requires ShapeOK(s) && Gone(s, l) && Runs(s, steps) && WatchesNothing(steps, l) && NeverRevives(s, steps, l)
    ensures Gone(After(s, steps), l)
    decreases |steps|
  {
    if steps != [] {
      StaysGone(s, steps[0], l);
      NextShape(s, steps[0]);
      RunStaysGone(Next(s, steps[0]), steps[1..], l);
    }
  }

  /** From a call's return on, in every run in which the listener subscribes to nothing and no step takes the items of a client it is on. */
  lemma StaysAway(steps: seq<Step>, id: nat, more: seq<Step>)
    requires Runs(INITIAL, steps) && LegalRun(INITIAL, steps) && Enabled(After(INITIAL, steps), CloseEnd(id))
    requires var l, t := After(INITIAL, steps).closing[id].listener, Next(After(INITIAL, steps), CloseEnd(id));
             Runs(t, more) && WatchesNothing(more, l) && NeverRevives(t, more, l)
    ensures var l, t := After(INITIAL, steps).closing[id].listener, Next(After(INITIAL, steps), CloseEnd(id));
            Gone(t, l) && Gone(After(t, more), l)
  {
    var s := After(INITIAL, steps);
    var l, t := s.closing[id].listener, Next(s, CloseEnd(id));
    RunCloses(INITIAL, steps);
    PurgeUnparks(s, l, s.closing - {id});
    CallOff(s, CloseEnd(id), l, {});
    NextShape(s, CloseEnd(id));
    RunStaysGone(t, more, l);
  }

  /** With every create that is out for the listener answered, it is on no client that is up. */
  lemma AllAnswered(s: State, h: Handle, l: nat)
    requires Gone(s, l) && Up(s, h) && forall r :: r in s.frames && s.frames[r].phase.Out? ==> s.frames[r].phase.listener != l
    ensures !Has(s.clients[h].items, l)
  {
    RevivedThrough(s, h, l);
  }
}
