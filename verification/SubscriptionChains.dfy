/** One reconnect chain for each entry parked, its waits and its giving up, and the other books the protocol keeps. */
module SubscriptionChains {
  import opened Subscriptions

  function Pow2(n: nat): nat {
    if n == 0 then 1 else 2 * Pow2(n - 1)
  }

  /** The wait before the k-th attempt, in seconds. */
  function Backoff(k: nat): nat
    requires k >= 1
  {
    Min(Pow2(k - 1), MAX_DELAY)
  }

  /** How many of the last outcomes in a row are rejections. */
  function Trailing(outcomes: seq<bool>): nat {
    if outcomes == [] || !outcomes[|outcomes| - 1] then 0 else 1 + Trailing(outcomes[..|outcomes| - 1])
  }

  predicate ChainOK(c: Chain) {
    c.attempt >= 1 && c.delay == Backoff(c.attempt) && |c.outcomes| == c.attempt - 1 && Trailing(c.outcomes) < MAX_REJECTIONS
  }

  /** An entry's count is its chain's rejections in a row. */
  predicate Serves(pending: map<Key, Entry>, c: Chain) {
    c.key in pending && pending[c.key].rejections == Trailing(c.outcomes)
  }

  predicate AllServe(pending: map<Key, Entry>, chains: map<nat, Chain>) {
    forall i :: i in chains ==> Serves(pending, chains[i])
  }

  predicate KeysApart(chains: map<nat, Chain>) {
    forall i, j :: i in chains && j in chains && i != j ==> chains[i].key != chains[j].key
  }

  predicate HasChain(chains: map<nat, Chain>, k: Key) {
    exists i :: i in chains && chains[i].key == k
  }

  predicate AllHave(pending: map<Key, Entry>, chains: map<nat, Chain>) {
    forall k :: k in pending ==> HasChain(chains, k)
  }

  /** One chain for each entry, and one entry for each chain. */
  predicate OneEach(pending: map<Key, Entry>, chains: map<nat, Chain>) {
    AllServe(pending, chains) && KeysApart(chains) && AllHave(pending, chains)
  }

  predicate Timed(chains: map<nat, Chain>, next: nat) {
    forall i :: i in chains ==> i < next && ChainOK(chains[i])
  }

  predicate ChainsOK(s: State) {
    Timed(s.chains, s.nextChain) && (!s.shuttingDown ==> OneEach(s.pending, s.chains))
  }

  /** Only the nodes parked, and where the rest of them are, have changed. */
  predicate SameEntries(s: State, t: State) {
    && t.chains == s.chains && t.nextChain == s.nextChain && t.shuttingDown == s.shuttingDown && t.pending.Keys == s.pending.Keys
    && forall k :: k in s.pending ==> t.pending[k].rejections == s.pending[k].rejections
  }

  lemma EntriesSame(s: State, t: State)
    requires ChainsOK(s) && SameEntries(s, t)
    ensures ChainsOK(t)
  {
    if !s.shuttingDown {
      forall i | i in t.chains ensures Serves(t.pending, t.chains[i]) {
        assert Serves(s.pending, s.chains[i]);
      }
    }
  }

  lemma HasMore(chains: map<nat, Chain>, i: nat, c: Chain, k: Key)
    requires HasChain(chains, k) && (i in chains ==> chains[i].key == c.key)
    ensures HasChain(chains[i := c], k)
  {
    var j :| j in chains && chains[j].key == k;
    assert chains[i := c][j].key == k;
  }

  /** A new entry, and the chain owed for it. */
  lemma EntryAdded(pending: map<Key, Entry>, chains: map<nat, Chain>, key: Key, entry: Entry, i: nat, c: Chain)
    requires OneEach(pending, chains) && key !in pending && i !in chains && c.key == key && entry.rejections == Trailing(c.outcomes)
    ensures OneEach(pending[key := entry], chains[i := c])
  {
    var p, cs := pending[key := entry], chains[i := c];
    forall k | k in p ensures HasChain(cs, k) {
      if k == key {
        assert cs[i].key == key;
      } else {
        HasMore(chains, i, c, k);
      }
    }
    forall j | j in cs ensures Serves(p, cs[j]) {
      assert j != i ==> Serves(pending, chains[j]);
    }
    assert forall j :: j in chains ==> chains[j].key in pending by {
      forall j | j in chains ensures chains[j].key in pending {
        assert Serves(pending, chains[j]);
      }
    }
  }

  /** A chain that goes on, and its entry's count with it. */
  lemma ChainReplaced(pending: map<Key, Entry>, chains: map<nat, Chain>, i: nat, c: Chain, entry: Entry)
    requires OneEach(pending, chains) && i in chains && c.key == chains[i].key && entry.rejections == Trailing(c.outcomes)
    ensures OneEach(pending[c.key := entry], chains[i := c])
  {
    var p, cs := pending[c.key := entry], chains[i := c];
    assert Serves(pending, chains[i]);
    forall k | k in p ensures HasChain(cs, k) {
      HasMore(chains, i, c, k);
    }
    forall j | j in cs ensures Serves(p, cs[j]) {
      assert Serves(pending, chains[j]);
    }
  }

  /** A chain and its entry end together. */
  lemma ChainDropped(pending: map<Key, Entry>, chains: map<nat, Chain>, i: nat)
    requires OneEach(pending, chains) && i in chains
    ensures OneEach(pending - {chains[i].key}, chains - {i})
  {
    var p, cs := pending - {chains[i].key}, chains - {i};
    forall j | j in cs ensures Serves(p, cs[j]) {
      assert Serves(pending, chains[j]);
    }
    forall k | k in p ensures HasChain(cs, k) {
      assert HasChain(chains, k);
      var j :| j in chains && chains[j].key == k;
      assert j in cs && cs[j].key == k;
    }
  }

  lemma FirstOK(key: Key)
    ensures ChainOK(Chain(key, Owed, 1, 1, []))
  {
    assert Pow2(0) == 1;
  }

  lemma MergedSame(s: State, key: Key, ps: set<Pair>)
    requires key in s.pending
    ensures SameEntries(s, Park(s, key, ps))
  {
  }

  lemma ParkChains(s: State, key: Key, ps: set<Pair>)
    requires ChainsOK(s)
    ensures ChainsOK(Park(s, key, ps))
  {
    if ps != {} && !s.shuttingDown {
      if key in s.pending {
        MergedSame(s, key, ps);
        EntriesSame(s, Park(s, key, ps));
      } else {
        FirstOK(key);
        EntryAdded(s.pending, s.chains, key, Entry(ps, 0), s.nextChain, Chain(key, Owed, 1, 1, []));
      }
    }
  }

  lemma LoseChains(s: State, h: Handle)
    requires ChainsOK(s) && h in s.clients
    ensures ChainsOK(Lose(s, h))
  {
    if s.shuttingDown {
      EntriesSame(s, Lose(s, h));
    } else {
      EntriesSame(s, Take(s, h));
      var t := Park(Take(s, h), s.clients[h].key, s.clients[h].items);
      ParkChains(Take(s, h), s.clients[h].key, s.clients[h].items);
      EntriesSame(t, Lose(s, h));
    }
  }

  lemma SettleChains(s: State, r: nat, l: nat, restored: set<nat>)
    requires ChainsOK(s) && HasFrame(s, r)
    ensures ChainsOK(Settle(s, r, l, restored))
  {
    var h := s.frames[r].client;
    var wanted, left := NodesOf(s.rebuilds[r].nodes, l), Forget(s.rebuilds[r].nodes, l);
    EntriesSame(s, WithRebuild(s, r, left));
    EntriesSame(s, WithRebuild(s, r, {}));
    ParkChains(WithRebuild(s, r, {}), s.clients[h].key, left + Pairs(l, wanted - restored));
  }

  lemma TakeOffChains(s: State, h: Handle, slug: string, l: nat, dropped: set<nat>)
    requires ChainsOK(s) && h in s.clients
    ensures ChainsOK(TakeOff(s, h, slug, l, dropped))
  {
    EntriesSame(s, OffClient(s, h, l, dropped));
    OffPendingSame(OffClient(s, h, l, dropped), slug, l, dropped);
    EntriesSame(OffClient(s, h, l, dropped), OffPending(OffClient(s, h, l, dropped), slug, l, dropped));
  }

  lemma OffPendingSame(s: State, slug: string, l: nat, nodes: set<nat>)
    ensures SameEntries(s, OffPending(s, slug, l, nodes))
  {
  }

  lemma AnswerChains(s: State, r: nat, ok: set<nat>, whole: bool, loss: bool)
    requires ChainsOK(s) && HasFrame(s, r) && s.frames[r].phase.Out?
    ensures ChainsOK(Answered(s, r, ok, whole, loss))
  {
    var h, phase := s.frames[r].client, s.frames[r].phase;
    var attached := Attach(s, r, ok, whole);
    var restored := Restored(phase, attached.clients[h].items, ok, whole);
    var heard := Heard(attached, h, loss);
    var wanted := NodesOf(s.rebuilds[r].nodes, phase.listener);
    var settled := Settle(heard, r, phase.listener, restored);
    EntriesSame(s, attached);
    LoseChains(attached, h);
    SettleChains(heard, r, phase.listener, restored);
    TakeOffChains(settled, h, s.rebuilds[r].slug, phase.listener, restored - wanted);
    EntriesSame(TakeOff(settled, h, s.rebuilds[r].slug, phase.listener, restored - wanted), Answered(s, r, ok, whole, loss));
  }

  lemma EndedChains(s: State, r: nat)
    requires ChainsOK(s) && HasFrame(s, r)
    ensures ChainsOK(Ended(s, r))
  {
    var t := s.(rebuilds := s.rebuilds - {r}, frames := s.frames - {r});
    EntriesSame(s, t);
    ParkChains(t, s.clients[s.frames[r].client].key, s.rebuilds[r].nodes);
  }

  // ---- The chain's own steps ----

  lemma ChainEnds(s: State, i: nat, t: State)
    requires ChainsOK(s) && i in s.chains && t.chains == s.chains - {i} && t.nextChain == s.nextChain && t.shuttingDown == s.shuttingDown
    requires t.pending == s.pending - {s.chains[i].key} || s.shuttingDown
    ensures ChainsOK(t)
  {
    if !s.shuttingDown {
      ChainDropped(s.pending, s.chains, i);
    }
  }

  lemma ChainMoves(s: State, i: nat, phase: ChainPhase)
    requires ChainsOK(s) && i in s.chains && !s.shuttingDown
    ensures ChainsOK(s.(chains := s.chains[i := s.chains[i].(phase := phase)]))
  {
    var c := s.chains[i].(phase := phase);
    assert Serves(s.pending, s.chains[i]);
    ChainReplaced(s.pending, s.chains, i, c, s.pending[c.key]);
    assert s.pending[c.key := s.pending[c.key]] == s.pending;
  }

  lemma NextDelay(k: nat)
    requires k >= 1
    ensures Min(2 * Backoff(k), MAX_DELAY) == Backoff(k + 1)
  {
    assert Pow2(k) == 2 * Pow2(k - 1);
  }

  lemma TrailingSnoc(outcomes: seq<bool>, rejected: bool)
    ensures Trailing(outcomes + [rejected]) == if rejected then Trailing(outcomes) + 1 else 0
  {
    assert (outcomes + [rejected])[..|outcomes|] == outcomes;
  }

  function Again(c: Chain, rejected: bool): Chain {
    Chain(c.key, Owed, c.attempt + 1, Min(2 * c.delay, MAX_DELAY), c.outcomes + [rejected])
  }

  lemma AgainOK(c: Chain, rejected: bool)
    requires ChainOK(c) && (rejected ==> Trailing(c.outcomes) + 1 < MAX_REJECTIONS)
    ensures ChainOK(Again(c, rejected)) && Trailing(Again(c, rejected).outcomes) == if rejected then Trailing(c.outcomes) + 1 else 0
  {
    NextDelay(c.attempt);
    TrailingSnoc(c.outcomes, rejected);
  }

  /** Another wait, the next longer. */
  lemma RetriedAgain(s: State, i: nat, rejected: bool)
    requires ChainsOK(s) && i in s.chains && !s.shuttingDown && (rejected ==> Trailing(s.chains[i].outcomes) + 1 < MAX_REJECTIONS)
    ensures ChainsOK(Retried(s, i, rejected))
  {
    var c := s.chains[i];
    assert Serves(s.pending, c);
    AgainOK(c, rejected);
    var entry := s.pending[c.key].(rejections := if rejected then s.pending[c.key].rejections + 1 else 0);
    RetriedIs(s, i, rejected, entry);
    Replaced(s, i, Again(c, rejected), entry);
  }

  lemma RetriedIs(s: State, i: nat, rejected: bool, entry: Entry)
    requires i in s.chains && s.chains[i].key in s.pending && !s.shuttingDown
    requires entry == s.pending[s.chains[i].key].(rejections := if rejected then s.pending[s.chains[i].key].rejections + 1 else 0)
    requires entry.rejections < MAX_REJECTIONS
    ensures Retried(s, i, rejected) == s.(pending := s.pending[s.chains[i].key := entry],
        chains := s.chains[i := Again(s.chains[i], rejected)])
  {
  }

  lemma Replaced(s: State, i: nat, c: Chain, entry: Entry)
    requires ChainsOK(s) && i in s.chains && !s.shuttingDown && c.key == s.chains[i].key && ChainOK(c)
    requires c.key in s.pending && entry.rejections == Trailing(c.outcomes)
    ensures ChainsOK(s.(pending := s.pending[c.key := entry], chains := s.chains[i := c]))
  {
    ChainReplaced(s.pending, s.chains, i, c, entry);
  }

  /** Or, at the third rejection in a row, the end. */
  lemma RetriedChains(s: State, i: nat, rejected: bool)
    requires ChainsOK(s) && i in s.chains
    ensures ChainsOK(Retried(s, i, rejected))
  {
    if s.shuttingDown {
      ChainEnds(s, i, Retried(s, i, rejected));
    } else if rejected && Trailing(s.chains[i].outcomes) + 1 >= MAX_REJECTIONS {
      assert Serves(s.pending, s.chains[i]);
      ChainEnds(s, i, Retried(s, i, rejected));
    } else {
      RetriedAgain(s, i, rejected);
    }
  }

  lemma WokenChains(s: State, i: nat)
    requires ChainsOK(s) && i in s.chains
    ensures ChainsOK(Woken(s, i))
  {
    var c, t := s.chains[i], Woken(s, i);
    if !s.shuttingDown {
      assert Serves(s.pending, c);
    }
    if s.shuttingDown || c.key !in s.pending || s.pending[c.key].nodes == {} {
      ChainEnds(s, i, t);
    } else {
      ChainMoves(s, i, Connecting);
    }
  }

  lemma BackUpChains(s: State, i: nat, h: Handle, r: nat)
    requires ChainsOK(s) && i in s.chains && h in s.clients
    ensures ChainsOK(BackUp(s, i, h, r))
  {
    BackUpEntries(s, i, h, r);
    ChainEnds(s, i, BackUp(s, i, h, r));
  }

  lemma BackUpEntries(s: State, i: nat, h: Handle, r: nat)
    requires i in s.chains && h in s.clients
    ensures var t := BackUp(s, i, h, r);
            && t.chains == s.chains - {i} && t.nextChain == s.nextChain && t.shuttingDown == s.shuttingDown
            && (s.shuttingDown || t.pending == s.pending - {s.chains[i].key})
  {
  }

  lemma ChainStepChains(s: State, e: Step)
    requires ChainsOK(s) && MovesChain(e) && ChainEnabled(s, e)
    ensures ChainsOK(ChainNext(s, e))
  {
    if e.Wake? {
      WokenChains(s, e.chain);
    } else if e.Reconnected? {
      BackUpChains(s, e.chain, e.handle, e.rebuild);
    } else if e.Failed? {
      RetriedChains(s, e.chain, e.rejected);
    } else if s.shuttingDown {
      ChainEnds(s, e.chain, ChainNext(s, e));
    } else {
      assert Serves(s.pending, s.chains[e.chain]);
      ChainMoves(s, e.chain, Waiting);
    }
  }

  lemma PhaseSame(s: State, r: nat, phase: Phase)
    requires ChainsOK(s) && r in s.frames
    ensures ChainsOK(WithPhase(s, r, phase))
  {
    EntriesSame(s, WithPhase(s, r, phase));
  }

  lemma SubscribedChains(s: State, h: Handle, r: nat, loss: bool)
    requires ChainsOK(s) && h in s.clients && r in s.frames
    ensures ChainsOK(WithPhase(Heard(s, h, loss), r, Ending))
  {
    LoseChains(s, h);
    PhaseSame(Heard(s, h, loss), r, Ending);
  }

  lemma SubmitChains(s: State, r: nat)
    requires ChainsOK(s) && HasFrame(s, r) && s.frames[r].phase.Chosen?
    ensures ChainsOK(Submitted(s, r))
  {
    EntriesSame(s, Submitted(s, r));
  }

  lemma FrameStepChains(s: State, e: Step)
    requires ChainsOK(s) && MovesFrame(e) && FrameEnabled(s, e)
    ensures ChainsOK(FrameNext(s, e))
  {
    match e
    case Start(r) => PhaseSame(s, r, if Up(s, s.frames[r].client) && s.rebuilds[r].nodes != {} then Subscribing else Looping);
    case Subscribed(r, good, loss) =>
      SubscribedChains(s, s.frames[r].client, r, loss);
      PhaseSame(s, r, Looping);
    case Loop(r) => PhaseSame(s, r, if Up(s, s.frames[r].client) then Reading else Ending);
    case Read(r, l) => PhaseSame(s, r, if s.rebuilds[r].nodes == {} then Ending else Chosen(l, NodesOf(s.rebuilds[r].nodes, l)));
    case Submit(r) => SubmitChains(s, r);
    case Answer(r, ok, whole, loss) => AnswerChains(s, r, ok, whole, loss);
    case End(r) => EndedChains(s, r);
  }

  lemma PurgeChains(s: State, l: nat, closing: map<nat, Closing>)
    requires ChainsOK(s)
    ensures ChainsOK(Purge(s, l).(closing := closing))
  {
    PurgeSame(s, l);
    EntriesSame(s, Purge(s, l));
    EntriesSame(Purge(s, l), Purge(s, l).(closing := closing));
  }

  lemma PurgeSame(s: State, l: nat)
    ensures SameEntries(s, Purge(s, l))
  {
  }

  lemma CallStepChains(s: State, e: Step)
    requires ChainsOK(s) && Calls(e) && CallEnabled(s, e)
    ensures ChainsOK(CallNext(s, e))
  {
    match e
    case CloseBegin(id, l) => PurgeChains(s, l, CallNext(s, e).closing);
    case CloseFind(id) => EntriesSame(s, CallNext(s, e));
    case CloseWalk(id, h) =>
      if h in s.clients {
        EntriesSame(s, ForgetOnClient(s, h, s.closing[id].listener));
        EntriesSame(ForgetOnClient(s, h, s.closing[id].listener), CallNext(s, e));
      } else {
        EntriesSame(s, CallNext(s, e));
      }
    case CloseEnd(id) => PurgeChains(s, s.closing[id].listener, CallNext(s, e).closing);
  }

  lemma TakeBackChains(s: State, h: Handle, r: nat)
    requires ChainsOK(s) && h in s.clients
    ensures ChainsOK(TakenBack(s, h, r))
  {
    EntriesSame(s, Take(s, h));
    EntriesSame(Take(s, h), Rebuilding(Take(s, h), r, h, s.clients[h].key.slug, s.clients[h].items));
  }

  lemma ClientStepChains(s: State, e: Step)
    requires ChainsOK(s) && !MovesFrame(e) && !MovesChain(e) && !Calls(e) && ClientEnabled(s, e)
    ensures ChainsOK(ClientNext(s, e))
  {
    match e
    case Lost(h) => LoseChains(s, h);
    case TakeBack(h, r) => TakeBackChains(s, h, r);
    case Drop(slug, l, nodes) =>
      OffPendingSame(s, slug, l, nodes);
      EntriesSame(s, OffPending(s, slug, l, nodes));
    case Leave(h, l, nodes) => EntriesSame(s, OffClient(s, h, l, nodes));
    case ShutDown =>
    case StopReconnects =>
    case Connect(_, _) => EntriesSame(s, ClientNext(s, e));
    case Watch(_, _) => EntriesSame(s, ClientNext(s, e));
    case Deregister(_) => EntriesSame(s, ClientNext(s, e));
    case Remove(h) => EntriesSame(s, Removing(s, h));
  }

  lemma NextChains(s: State, e: Step)
    requires ChainsOK(s) && Enabled(s, e)
    ensures ChainsOK(Next(s, e))
  {
    if MovesFrame(e) {
      FrameStepChains(s, e);
    } else if MovesChain(e) {
      ChainStepChains(s, e);
    } else if Calls(e) {
      CallStepChains(s, e);
    } else {
      ClientStepChains(s, e);
    }
  }

  lemma {:induction false} RunChains(s: State, steps: seq<Step>)
    requires ChainsOK(s) && Runs(s, steps)
    ensures ChainsOK(After(s, steps))
    decreases |steps|
  {
    if steps != [] {
      NextChains(s, steps[0]);
      RunChains(Next(s, steps[0]), steps[1..]);
    }
  }

  /** In every run, until the process stops:  an entry is parked under a key exactly when one chain runs on it, and no two do. */
  lemma ChainPerEntry(steps: seq<Step>, k: Key)
    requires Runs(INITIAL, steps) && !After(INITIAL, steps).shuttingDown
    ensures var s := After(INITIAL, steps);
            && (k in s.pending <==> HasChain(s.chains, k))
            && forall i, j :: i in s.chains && j in s.chains && s.chains[i].key == s.chains[j].key == k ==> i == j
  {
    RunChains(INITIAL, steps);
    var s := After(INITIAL, steps);
    if HasChain(s.chains, k) {
      var i :| i in s.chains && s.chains[i].key == k;
      assert Serves(s.pending, s.chains[i]);
    }
  }

  /** In every run, the k-th wait of a chain is two to the k-1 seconds, at most fifteen;  and no chain has had three
      rejections in a row, which would have ended it. */
  lemma ChainWaits(steps: seq<Step>, i: nat)
    requires Runs(INITIAL, steps) && i in After(INITIAL, steps).chains
    ensures var c := After(INITIAL, steps).chains[i];
            c.attempt >= 1 && c.delay == Min(Pow2(c.attempt - 1), 15) && |c.outcomes| == c.attempt - 1 && Trailing(c.outcomes) < 3
  {
    RunChains(INITIAL, steps);
    assert ChainOK(After(INITIAL, steps).chains[i]);
  }

  /** The third in a row ends the chain and drops what it was restoring. */
  lemma ThirdRejection(s: State, i: nat)
    requires ChainsOK(s) && !s.shuttingDown && Enabled(s, Failed(i, true)) && Trailing(s.chains[i].outcomes) == 2
    ensures i !in Next(s, Failed(i, true)).chains && s.chains[i].key !in Next(s, Failed(i, true)).pending
  {
    assert Serves(s.pending, s.chains[i]);
  }
}
