/** No revival on close:  a session's Unsubscribe purges what is parked, walks the clients registered, and purges again;  whatever moves
    meanwhile, its listener is left nowhere but through creates that are out. */
module SubscriptionClose {
  import opened Subscriptions
  import opened SubscriptionShape

  // ---- Where a listener may still be during its call ----

  predicate IsOut(f: Frame, h: Handle, l: nat, n: nat) {
    f.client == h && f.phase.Out? && f.phase.listener == l && n in f.phase.nodes && n in f.phase.joined
  }

  /** On the client through a create that is out, which joined the node's item when it was submitted. */
  ghost predicate OutFor(s: State, h: Handle, l: nat, n: nat) {
    exists r :: r in s.frames && IsOut(s.frames[r], h, l, n)
  }

  /** On no client that is up and not still to be walked, but through a create that is out. */
  ghost predicate Off(s: State, l: nat, todo: set<Handle>) {
    forall h, n :: Up(s, h) && h !in todo && Pair(l, n) in s.clients[h].items ==> OutFor(s, h, l, n)
  }

  ghost predicate ClosingOK(s: State) {
    forall id :: id in s.closing && s.closing[id].Walking? ==> Off(s, s.closing[id].listener, s.closing[id].todo)
  }

  /** While a listener's call walks:  it subscribes to nothing more, and no rebuild that has taken it since has its
      create answered.  A rebuild from before holds none of it, the first purge having come after. */
  predicate Legal(s: State, e: Step)
    requires Enabled(s, e)
  {
    forall id :: id in s.closing && s.closing[id].Walking? ==> LegalFor(s, e, s.closing[id].listener)
  }

  predicate LegalFor(s: State, e: Step, l: nat)
    requires Enabled(s, e)
  {
    && (e.Watch? ==> e.pair.listener != l)
    && (e.Answer? && s.frames[e.rebuild].phase.listener == l ==> !Has(s.rebuilds[e.rebuild].nodes, l))
  }

  /** The listener's items only fewer, and the creates out for it still out. */
  ghost predicate FewerOn(s: State, t: State, l: nat) {
    && (forall h :: Up(t, h) ==> Up(s, h))
    && (forall h, n :: Up(t, h) && Pair(l, n) in t.clients[h].items ==> Pair(l, n) in s.clients[h].items)
  }

  predicate OutAlike(f: Frame, g: Frame, l: nat) {
    f.phase.Out? && f.phase.listener == l ==>
      g.client == f.client && g.phase.Out? && g.phase.listener == l && g.phase.nodes == f.phase.nodes && g.phase.joined == f.phase.joined
  }

  predicate StillOut(s: State, t: State, l: nat) {
    forall r :: r in s.frames && s.frames[r].phase.Out? && s.frames[r].phase.listener == l ==>
      r in t.frames && OutAlike(s.frames[r], t.frames[r], l)
  }

  lemma OffKept(s: State, t: State, l: nat, todo: set<Handle>)
    requires Off(s, l, todo) && FewerOn(s, t, l) && StillOut(s, t, l)
    ensures Off(t, l, todo)
  {
    forall h, n | Up(t, h) && h !in todo && Pair(l, n) in t.clients[h].items ensures OutFor(t, h, l, n) {
      assert OutFor(s, h, l, n);
      var r :| r in s.frames && IsOut(s.frames[r], h, l, n);
      assert OutAlike(s.frames[r], t.frames[r], l);
      assert IsOut(t.frames[r], h, l, n);
    }
  }

  lemma LoseFewer(s: State, h: Handle, l: nat)
    requires h in s.clients
    ensures FewerOn(s, Lose(s, h), l) && StillOut(s, Lose(s, h), l)
  {
  }

  lemma OffClientFewer(s: State, h: Handle, k: nat, nodes: set<nat>, l: nat)
    requires h in s.clients
    ensures FewerOn(s, OffClient(s, h, k, nodes), l) && StillOut(s, OffClient(s, h, k, nodes), l)
  {
  }

  lemma ForgetFewer(s: State, h: Handle, k: nat, l: nat)
    requires h in s.clients
    ensures FewerOn(s, ForgetOnClient(s, h, k), l) && StillOut(s, ForgetOnClient(s, h, k), l)
  {
  }

  lemma TakeOffFewer(s: State, h: Handle, slug: string, k: nat, dropped: set<nat>, l: nat)
    requires h in s.clients
    ensures FewerOn(s, TakeOff(s, h, slug, k, dropped), l) && StillOut(s, TakeOff(s, h, slug, k, dropped), l)
  {
    OffClientFewer(s, h, k, dropped, l);
  }

  lemma SettleFewer(s: State, r: nat, k: nat, restored: set<nat>, l: nat)
    requires HasFrame(s, r)
    ensures Settle(s, r, k, restored).clients == s.clients && Settle(s, r, k, restored).frames == s.frames
  {
  }

  // ---- Every step ----

  lemma SamePlacesOff(s: State, t: State, l: nat, todo: set<Handle>)
    requires Off(s, l, todo) && t.clients == s.clients && t.frames == s.frames
    ensures Off(t, l, todo)
  {
    OffKept(s, t, l, todo);
  }

  /** A create that is submitted for the listener is out, whatever it joined. */
  lemma SubmitOff(s: State, r: nat, l: nat, todo: set<Handle>)
    requires Off(s, l, todo) && HasFrame(s, r) && s.frames[r].phase.Chosen?
    ensures Off(Submitted(s, r), l, todo)
  {
    var t := Submitted(s, r);
    var c := s.frames[r].client;
    forall h, n | Up(t, h) && h !in todo && Pair(l, n) in t.clients[h].items ensures OutFor(t, h, l, n) {
      if Up(s, h) && Pair(l, n) in s.clients[h].items {
        var q :| q in s.frames && IsOut(s.frames[q], h, l, n);
        assert IsOut(t.frames[q], h, l, n);
      } else {
        assert IsOut(t.frames[r], h, l, n);
      }
    }
  }

  // An answer, stage by stage.

  lemma SettledFewer(s: State, r: nat, ok: set<nat>, whole: bool, loss: bool, l: nat)
    requires IsAnswerable(s, r)
    ensures FewerOn(Attach(s, r, ok, whole), SettledAfter(s, r, ok, whole, loss), l) && StillOut(s, SettledAfter(s, r, ok, whole, loss), l)
  {
    var h := s.frames[r].client;
    var attached := Attach(s, r, ok, whole);
    LoseFewer(attached, h, l);
    SettleFewer(Heard(attached, h, loss), r, s.frames[r].phase.listener, RestoredBy(s, r, ok, whole), l);
  }

  lemma TakenOffFewer(s: State, r: nat, ok: set<nat>, whole: bool, loss: bool, l: nat)
    requires IsAnswerable(s, r)
    ensures FewerOn(Attach(s, r, ok, whole), TakenOffAfter(s, r, ok, whole, loss), l)
    ensures StillOut(s, TakenOffAfter(s, r, ok, whole, loss), l)
  {
    var h, k := s.frames[r].client, s.frames[r].phase.listener;
    SettledFewer(s, r, ok, whole, loss, l);
    TakeOffFewer(SettledAfter(s, r, ok, whole, loss), h, s.rebuilds[r].slug, k,
        RestoredBy(s, r, ok, whole) - NodesOf(s.rebuilds[r].nodes, k), l);
  }

  lemma AttachOther(s: State, r: nat, ok: set<nat>, whole: bool, l: nat)
    requires IsAnswerable(s, r) && s.frames[r].phase.listener != l
    ensures FewerOn(s, Attach(s, r, ok, whole), l)
  {
  }

  lemma PhaseOther(s: State, r: nat, l: nat)
    requires r in s.frames && !(s.frames[r].phase.Out? && s.frames[r].phase.listener == l)
    ensures FewerOn(s, WithPhase(s, r, Looping), l) && StillOut(s, WithPhase(s, r, Looping), l)
  {
  }

  /** An answer for another listener. */
  lemma AnswerOtherOff(s: State, r: nat, ok: set<nat>, whole: bool, loss: bool, l: nat, todo: set<Handle>)
    requires Off(s, l, todo) && IsAnswerable(s, r) && s.frames[r].phase.listener != l
    ensures Off(Answered(s, r, ok, whole, loss), l, todo)
  {
    var k, off := s.frames[r].phase.listener, TakenOffAfter(s, r, ok, whole, loss);
    TakenOffFewer(s, r, ok, whole, loss, l);
    TakenOffFewer(s, r, ok, whole, loss, k);
    assert OutAlike(s.frames[r], off.frames[r], k);
    AttachOther(s, r, ok, whole, l);
    OffKept(s, off, l, todo);
    PhaseOther(off, r, l);
    OffKept(off, Answered(s, r, ok, whole, loss), l, todo);
  }

  /** What stays on a client a listener's nodes are taken off. */
  lemma StaysOn(s: State, h: Handle, slug: string, l: nat, dropped: set<nat>, n: nat)
    requires h in s.clients && Pair(l, n) in TakeOff(s, h, slug, l, dropped).clients[h].items
    ensures Pair(l, n) in s.clients[h].items && n !in dropped
  {
  }

  /** What a create joined, or attaches with its answer, the acknowledgement calls good. */
  lemma GoodOnes(phase: Phase, items: set<Pair>, ok: set<nat>, whole: bool, n: nat)
    requires phase.Out? && Pair(phase.listener, n) in items && n in phase.nodes
    requires n in phase.joined || n in Attached(phase, ok, whole)
    ensures n in Restored(phase, items, ok, whole)
  {
    assert Monitored(items, n);
  }

  lemma AttachedOn(s: State, r: nat, ok: set<nat>, whole: bool, n: nat)
    requires IsAnswerable(s, r)
    requires Pair(s.frames[r].phase.listener, n) in Attach(s, r, ok, whole).clients[s.frames[r].client].items
    ensures || Pair(s.frames[r].phase.listener, n) in s.clients[s.frames[r].client].items
            || (n in Attached(s.frames[r].phase, ok, whole) && n in s.frames[r].phase.nodes)
  {
  }

  /** An answer for the listener itself, of a rebuild that holds none of it any more:  what the create joined, and what
      it attaches, comes off. */
  lemma AnswerOwn(s: State, r: nat, ok: set<nat>, whole: bool, loss: bool, n: nat)
    requires IsAnswerable(s, r) && !Has(s.rebuilds[r].nodes, s.frames[r].phase.listener)
    requires var t := TakenOffAfter(s, r, ok, whole, loss);
             Up(t, s.frames[r].client) && Pair(s.frames[r].phase.listener, n) in t.clients[s.frames[r].client].items
    ensures var l, h := s.frames[r].phase.listener, s.frames[r].client; Pair(l, n) in s.clients[h].items && !IsOut(s.frames[r], h, l, n)
  {
    var l, h, phase := s.frames[r].phase.listener, s.frames[r].client, s.frames[r].phase;
    var attached, settled := Attach(s, r, ok, whole), SettledAfter(s, r, ok, whole, loss);
    var wanted := NodesOf(s.rebuilds[r].nodes, l);
    assert wanted == {};
    StaysOn(settled, h, s.rebuilds[r].slug, l, RestoredBy(s, r, ok, whole) - wanted, n);
    SettledFewer(s, r, ok, whole, loss, l);
    assert Pair(l, n) in attached.clients[h].items;
    AttachedOn(s, r, ok, whole, n);
    if n in phase.nodes && (n in phase.joined || n in Attached(phase, ok, whole)) {
      GoodOnes(phase, attached.clients[h].items, ok, whole, n);
    }
  }

  lemma AnswerOwnBefore(s: State, r: nat, ok: set<nat>, whole: bool, loss: bool, h: Handle, n: nat)
    requires IsAnswerable(s, r) && !Has(s.rebuilds[r].nodes, s.frames[r].phase.listener)
    requires OnUp(TakenOffAfter(s, r, ok, whole, loss), h, Pair(s.frames[r].phase.listener, n))
    ensures var l := s.frames[r].phase.listener; OnUp(s, h, Pair(l, n)) && !IsOut(s.frames[r], h, l, n)
  {
    var l := s.frames[r].phase.listener;
    TakenOffFewer(s, r, ok, whole, loss, l);
    assert Up(Attach(s, r, ok, whole), h);
    if h == s.frames[r].client {
      AnswerOwn(s, r, ok, whole, loss, n);
    }
  }

  /** Whatever of the listener is on a client was there, and not through the frame's create. */
  ghost predicate HeldBefore(s: State, t: State, r: nat, l: nat)
    requires r in s.frames
  {
    forall h, n :: OnUp(t, h, Pair(l, n)) ==> OnUp(s, h, Pair(l, n)) && !IsOut(s.frames[r], h, l, n)
  }

  predicate OnUp(s: State, h: Handle, p: Pair) {
    Up(s, h) && p in s.clients[h].items
  }

  lemma AnswerHeld(s: State, r: nat, ok: set<nat>, whole: bool, loss: bool, l: nat)
    requires IsAnswerable(s, r) && s.frames[r].phase.listener == l && !Has(s.rebuilds[r].nodes, l)
    ensures HeldBefore(s, TakenOffAfter(s, r, ok, whole, loss), r, l)
  {
    forall h, n | OnUp(TakenOffAfter(s, r, ok, whole, loss), h, Pair(l, n)) ensures OnUp(s, h, Pair(l, n)) && !IsOut(s.frames[r], h, l, n) {
      AnswerOwnBefore(s, r, ok, whole, loss, h, n);
    }
  }

  lemma AnswerOwnOff(s: State, r: nat, ok: set<nat>, whole: bool, loss: bool, l: nat, todo: set<Handle>)
    requires Off(s, l, todo) && IsAnswerable(s, r) && s.frames[r].phase.listener == l && !Has(s.rebuilds[r].nodes, l)
    ensures Off(Answered(s, r, ok, whole, loss), l, todo)
  {
    TakenOffFewer(s, r, ok, whole, loss, l);
    AnswerHeld(s, r, ok, whole, loss, l);
    OffBut(s, TakenOffAfter(s, r, ok, whole, loss), r, l, todo);
  }

  /** What is left is through other frames' creates, so the answered one may go on. */
  lemma OffBut(s: State, t: State, r: nat, l: nat, todo: set<Handle>)
    requires Off(s, l, todo) && StillOut(s, t, l) && r in s.frames && r in t.frames && HeldBefore(s, t, r, l)
    ensures Off(WithPhase(t, r, Looping), l, todo)
  {
    var u := WithPhase(t, r, Looping);
    forall h, n | Up(u, h) && h !in todo && Pair(l, n) in u.clients[h].items ensures OutFor(u, h, l, n) {
      assert OnUp(t, h, Pair(l, n)) && OnUp(s, h, Pair(l, n));
      var q := StillElsewhere(s, t, r, h, l, n);
      assert IsOut(u.frames[q], h, l, n);
    }
  }

  /** Some other frame's create is out for it, and stays out. */
  lemma StillElsewhere(s: State, t: State, r: nat, h: Handle, l: nat, n: nat) returns (q: nat)
    requires OutFor(s, h, l, n) && StillOut(s, t, l) && (r in s.frames ==> !IsOut(s.frames[r], h, l, n))
    ensures q != r && q in t.frames && IsOut(t.frames[q], h, l, n)
  {
    q :| q in s.frames && IsOut(s.frames[q], h, l, n);
    assert OutAlike(s.frames[q], t.frames[q], l);
  }

  lemma PhaseOff(s: State, r: nat, phase: Phase, l: nat, todo: set<Handle>)
    requires Off(s, l, todo) && r in s.frames && !s.frames[r].phase.Out?
    ensures Off(WithPhase(s, r, phase), l, todo)
  {
    OffKept(s, WithPhase(s, r, phase), l, todo);
  }

  lemma EndOff(s: State, r: nat, l: nat, todo: set<Handle>)
    requires Off(s, l, todo) && HasFrame(s, r) && !s.frames[r].phase.Out?
    ensures Off(Ended(s, r), l, todo)
  {
    var t := s.(rebuilds := s.rebuilds - {r}, frames := s.frames - {r});
    OffKept(s, t, l, todo);
    SamePlacesOff(t, Ended(s, r), l, todo);
  }

  lemma RebuildOff(s: State, r: nat, h: Handle, slug: string, ps: set<Pair>, l: nat, todo: set<Handle>)
    requires Off(s, l, todo) && r !in s.frames
    ensures Off(Rebuilding(s, r, h, slug, ps), l, todo)
  {
    OffKept(s, Rebuilding(s, r, h, slug, ps), l, todo);
  }

  lemma TakeBackOff(s: State, h: Handle, r: nat, l: nat, todo: set<Handle>)
    requires Off(s, l, todo) && h in s.clients && r !in s.frames
    ensures Off(TakenBack(s, h, r), l, todo)
  {
    OffKept(s, Take(s, h), l, todo);
    RebuildOff(Take(s, h), r, h, s.clients[h].key.slug, s.clients[h].items, l, todo);
  }

  lemma RemoveOff(s: State, h: Handle, l: nat, todo: set<Handle>)
    requires Off(s, l, todo) && h in s.clients
    ensures Off(Removing(s, h), l, todo)
  {
    OffKept(s, Removing(s, h), l, todo);
  }

  lemma BackUpOff(s: State, i: nat, h: Handle, r: nat, l: nat, todo: set<Handle>)
    requires Off(s, l, todo) && i in s.chains && h in s.clients && r !in s.frames
    ensures Off(BackUp(s, i, h, r), l, todo)
  {
    var t, key := EndChain(s, i), s.chains[i].key;
    SamePlacesOff(s, t, l, todo);
    if s.shuttingDown {
      RemoveOff(t, h, l, todo);
    } else {
      var u := t.(pending := t.pending - {key});
      SamePlacesOff(t, u, l, todo);
      RebuildOff(u, r, h, key.slug, if key in s.pending then s.pending[key].nodes else {}, l, todo);
    }
  }

  lemma ConnectOff(s: State, h: Handle, key: Key, l: nat, todo: set<Handle>)
    requires Off(s, l, todo) && h !in s.clients
    ensures Off(s.(clients := s.clients[h := Client(key, true, false, {})], registered := s.registered + {h}), l, todo)
  {
    var t := s.(clients := s.clients[h := Client(key, true, false, {})], registered := s.registered + {h});
    forall g, n | Up(t, g) && g !in todo && Pair(l, n) in t.clients[g].items ensures OutFor(t, g, l, n) {
      assert Up(s, g) && Pair(l, n) in s.clients[g].items;
      assert OutFor(s, g, l, n);
    }
  }

  lemma WatchOff(s: State, h: Handle, p: Pair, l: nat, todo: set<Handle>)
    requires Off(s, l, todo) && h in s.clients && p.listener != l
    ensures Off(WithItems(s, h, s.clients[h].items + {p}), l, todo)
  {
    OffKept(s, WithItems(s, h, s.clients[h].items + {p}), l, todo);
  }

  lemma WalkOff(s: State, h: Handle, k: nat, l: nat, todo: set<Handle>)
    requires Off(s, l, todo) && h in s.clients
    ensures Off(ForgetOnClient(s, h, k), l, todo)
  {
    ForgetFewer(s, h, k, l);
    OffKept(s, ForgetOnClient(s, h, k), l, todo);
  }

  lemma SubscribedOff(s: State, h: Handle, r: nat, loss: bool, l: nat, todo: set<Handle>)
    requires Off(s, l, todo) && h in s.clients && r in s.frames && !s.frames[r].phase.Out?
    ensures Off(WithPhase(Heard(s, h, loss), r, Ending), l, todo)
  {
    LoseFewer(s, h, l);
    OffKept(s, Heard(s, h, loss), l, todo);
    PhaseOff(Heard(s, h, loss), r, Ending, l, todo);
  }

  lemma FrameOff(s: State, e: Step, l: nat, todo: set<Handle>)
    requires Off(s, l, todo) && MovesFrame(e) && FrameEnabled(s, e) && LegalFor(s, e, l)
    ensures Off(FrameNext(s, e), l, todo)
  {
    match e
    case Start(r) => PhaseOff(s, r, if Up(s, s.frames[r].client) && s.rebuilds[r].nodes != {} then Subscribing else Looping, l, todo);
    case Subscribed(r, good, loss) =>
      if good {
        PhaseOff(s, r, Looping, l, todo);
      } else {
        SubscribedOff(s, s.frames[r].client, r, loss, l, todo);
      }
    case Loop(r) => PhaseOff(s, r, if Up(s, s.frames[r].client) then Reading else Ending, l, todo);
    case Read(r, k) => PhaseOff(s, r, if s.rebuilds[r].nodes == {} then Ending else Chosen(k, NodesOf(s.rebuilds[r].nodes, k)), l, todo);
    case Submit(r) => SubmitOff(s, r, l, todo);
    case Answer(r, ok, whole, loss) =>
      if s.frames[r].phase.listener == l {
        AnswerOwnOff(s, r, ok, whole, loss, l, todo);
      } else {
        AnswerOtherOff(s, r, ok, whole, loss, l, todo);
      }
    case End(r) => EndOff(s, r, l, todo);
  }

  lemma ChainOff(s: State, e: Step, l: nat, todo: set<Handle>)
    requires Off(s, l, todo) && MovesChain(e) && ChainEnabled(s, e)
    ensures Off(ChainNext(s, e), l, todo)
  {
    if e.Reconnected? {
      BackUpOff(s, e.chain, e.handle, e.rebuild, l, todo);
    } else {
      SamePlacesOff(s, ChainNext(s, e), l, todo);
    }
  }

  lemma CallOff(s: State, e: Step, l: nat, todo: set<Handle>)
    requires Off(s, l, todo) && Calls(e) && CallEnabled(s, e)
    ensures Off(CallNext(s, e), l, todo)
  {
    if e.CloseWalk? && e.handle in s.clients {
      WalkOff(s, e.handle, s.closing[e.call].listener, l, todo);
      SamePlacesOff(ForgetOnClient(s, e.handle, s.closing[e.call].listener), CallNext(s, e), l, todo);
    } else {
      SamePlacesOff(s, CallNext(s, e), l, todo);
    }
  }

  lemma ClientOff(s: State, e: Step, l: nat, todo: set<Handle>)
    requires Off(s, l, todo) && !MovesFrame(e) && !MovesChain(e) && !Calls(e) && ClientEnabled(s, e) && (e.Watch? ==> e.pair.listener != l)
    ensures Off(ClientNext(s, e), l, todo)
  {
    match e
    case Connect(h, key) => ConnectOff(s, h, key, l, todo);
    case Watch(h, p) => WatchOff(s, h, p, l, todo);
    case Lost(h) =>
      LoseFewer(s, h, l);
      OffKept(s, Lose(s, h), l, todo);
    case Remove(h) => RemoveOff(s, h, l, todo);
    case TakeBack(h, r) => TakeBackOff(s, h, r, l, todo);
    case Leave(h, k, nodes) =>
      OffClientFewer(s, h, k, nodes, l);
      OffKept(s, OffClient(s, h, k, nodes), l, todo);
    case Deregister(_) => SamePlacesOff(s, ClientNext(s, e), l, todo);
    case Drop(slug, k, nodes) => SamePlacesOff(s, OffPending(s, slug, k, nodes), l, todo);
    case ShutDown => SamePlacesOff(s, ClientNext(s, e), l, todo);
    case StopReconnects => SamePlacesOff(s, ClientNext(s, e), l, todo);
  }

  lemma NextOff(s: State, e: Step, l: nat, todo: set<Handle>)
    requires Off(s, l, todo) && Enabled(s, e) && LegalFor(s, e, l)
    ensures Off(Next(s, e), l, todo)
  {
    if MovesFrame(e) {
      FrameOff(s, e, l, todo);
    } else if MovesChain(e) {
      ChainOff(s, e, l, todo);
    } else if Calls(e) {
      CallOff(s, e, l, todo);
    } else {
      ClientOff(s, e, l, todo);
    }
  }

  // ---- The call ----

  lemma FindOff(s: State, id: nat)
    requires ShapeOK(s) && CallEnabled(s, CloseFind(id))
    ensures Off(CallNext(s, CloseFind(id)), s.closing[id].listener, s.registered)
  {
    var t := CallNext(s, CloseFind(id));
    forall h | Up(t, h) ensures h in s.registered {
      assert Up(s, h);
    }
  }

  lemma WalkedOff(s: State, id: nat, h: Handle)
    requires CallEnabled(s, CloseWalk(id, h)) && Off(s, s.closing[id].listener, s.closing[id].todo)
    ensures Off(CallNext(s, CloseWalk(id, h)), s.closing[id].listener, s.closing[id].todo - {h})
  {
    var l, todo, t := s.closing[id].listener, s.closing[id].todo, CallNext(s, CloseWalk(id, h));
    CallOff(s, CloseWalk(id, h), l, todo);
    forall n | h in s.clients ensures Pair(l, n) !in t.clients[h].items {
    }
    assert forall g :: Up(t, g) && g !in todo - {h} ==> g == h || g !in todo;
  }

  lemma NextClosing(s: State, e: Step)
    requires ShapeOK(s) && ClosingOK(s) && Enabled(s, e) && Legal(s, e)
    ensures ClosingOK(Next(s, e))
  {
    var t := Next(s, e);
    forall id | id in t.closing && t.closing[id].Walking? ensures Off(t, t.closing[id].listener, t.closing[id].todo) {
      ClosingIs(s, e);
      if e.CloseFind? && e.call == id {
        FindOff(s, id);
      } else if e.CloseWalk? && e.call == id {
        WalkedOff(s, id, e.handle);
      } else {
        NextOff(s, e, s.closing[id].listener, s.closing[id].todo);
      }
    }
  }

  lemma FrameClosing(s: State, e: Step)
    requires MovesFrame(e) && FrameEnabled(s, e)
    ensures FrameNext(s, e).closing == s.closing
  {
  }

  lemma ChainClosing(s: State, e: Step)
    requires MovesChain(e) && ChainEnabled(s, e)
    ensures ChainNext(s, e).closing == s.closing
  {
  }

  lemma ClientClosing(s: State, e: Step)
    requires !MovesFrame(e) && !MovesChain(e) && !Calls(e) && ClientEnabled(s, e)
    ensures ClientNext(s, e).closing == s.closing
  {
  }

  /** A call's walk moves by its own steps alone. */
  function ClosingAfter(s: State, e: Step): map<nat, Closing>
    requires Enabled(s, e)
  {
    match e
    case CloseBegin(id, l) => s.closing[id := Purged(l)]
    case CloseFind(id) => s.closing[id := Walking(s.closing[id].listener, s.registered)]
    case CloseWalk(id, h) => s.closing[id := Walking(s.closing[id].listener, s.closing[id].todo - {h})]
    case CloseEnd(id) => s.closing - {id}
    case _ => s.closing
  }

  lemma ClosingIs(s: State, e: Step)
    requires Enabled(s, e)
    ensures Next(s, e).closing == ClosingAfter(s, e)
  {
    if MovesFrame(e) {
      FrameClosing(s, e);
    } else if MovesChain(e) {
      ChainClosing(s, e);
    } else if !Calls(e) {
      ClientClosing(s, e);
    }
  }

  // ---- Over whole runs ----

  ghost predicate LegalRun(s: State, steps: seq<Step>)
    requires Runs(s, steps)
    decreases |steps|
  {
    steps == [] || (Legal(s, steps[0]) && LegalRun(Next(s, steps[0]), steps[1..]))
  }

  lemma {:induction false} RunCloses(s: State, steps: seq<Step>)
    requires ShapeOK(s) && ClosingOK(s) && Runs(s, steps) && LegalRun(s, steps)
    ensures ShapeOK(After(s, steps)) && ClosingOK(After(s, steps))
    decreases |steps|
  {
    if steps != [] {
      NextShape(s, steps[0]);
      NextClosing(s, steps[0]);
      RunCloses(Next(s, steps[0]), steps[1..]);
    }
  }

  ghost predicate Parked(s: State, l: nat) {
    || (exists k :: k in s.pending && Has(s.pending[k].nodes, l))
    || (exists r :: r in s.rebuilds && Has(s.rebuilds[r].nodes, l))
  }

  /** A create that is out for the listener, of a rebuild that holds none of it:  its answer takes off whatever it put on. */
  ghost predicate GoingOff(s: State, r: nat, h: Handle, l: nat, n: nat) {
    r in s.frames && r in s.rebuilds && IsOut(s.frames[r], h, l, n) && !Has(s.rebuilds[r].nodes, l)
  }

  lemma PurgeUnparks(s: State, l: nat, closing: map<nat, Closing>)
    ensures !Parked(Purge(s, l).(closing := closing), l)
  {
  }

  lemma ReturnLeaves(s: State, l: nat, closing: map<nat, Closing>, h: Handle, n: nat)
    requires ShapeOK(s) && Off(s, l, {})
    ensures var t := Purge(s, l).(closing := closing);
            Up(t, h) && Pair(l, n) in t.clients[h].items ==> exists r :: GoingOff(t, r, h, l, n)
  {
    var t := Purge(s, l).(closing := closing);
    if Up(t, h) && Pair(l, n) in t.clients[h].items {
      assert Up(s, h) && OutFor(s, h, l, n);
      var r :| r in s.frames && IsOut(s.frames[r], h, l, n);
      assert GoingOff(t, r, h, l, n);
    }
  }

  /** In every run in which the listener's call returns:  the listener is parked nowhere and in no rebuild, and on no client that is up but
      through a create that was out already and takes it off again when it answers. */
  lemma NoRevival(steps: seq<Step>, id: nat, h: Handle, n: nat)
    requires Runs(INITIAL, steps) && LegalRun(INITIAL, steps) && Enabled(After(INITIAL, steps), CloseEnd(id))
    ensures var l, t := After(INITIAL, steps).closing[id].listener, Next(After(INITIAL, steps), CloseEnd(id));
            !Parked(t, l) && (Up(t, h) && Pair(l, n) in t.clients[h].items ==> exists r :: GoingOff(t, r, h, l, n))
  {
    RunCloses(INITIAL, steps);
    ReturnsClean(After(INITIAL, steps), id, h, n);
  }

  lemma ReturnsClean(s: State, id: nat, h: Handle, n: nat)
    requires ShapeOK(s) && ClosingOK(s) && Enabled(s, CloseEnd(id))
    ensures var l, t := s.closing[id].listener, Next(s, CloseEnd(id));
            !Parked(t, l) && (Up(t, h) && Pair(l, n) in t.clients[h].items ==> exists r :: GoingOff(t, r, h, l, n))
  {
    PurgeUnparks(s, s.closing[id].listener, s.closing - {id});
    ReturnLeaves(s, s.closing[id].listener, s.closing - {id}, h, n);
  }

  /** And so it does. */
  lemma GoesOff(s: State, r: nat, h: Handle, l: nat, n: nat, ok: set<nat>, whole: bool, loss: bool)
    requires IsAnswerable(s, r) && GoingOff(s, r, h, l, n)
    ensures Up(Answered(s, r, ok, whole, loss), h) ==> Pair(l, n) !in Answered(s, r, ok, whole, loss).clients[h].items
  {
    AnswerHeld(s, r, ok, whole, loss, l);
    assert Answered(s, r, ok, whole, loss).clients == TakenOffAfter(s, r, ok, whole, loss).clients;
    assert !OnUp(TakenOffAfter(s, r, ok, whole, loss), h, Pair(l, n));
  }
}
