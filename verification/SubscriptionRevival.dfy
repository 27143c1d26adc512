/** What a create's answer leaves on a client, and the run that shows why a closing listener's own answers matter. */
module SubscriptionRevival {
  import opened Subscriptions
  import opened SubscriptionLoss
  import opened SubscriptionClose
  import opened SubscriptionReturn

  lemma StillWanted(ps: set<Pair>, l: nat, n: nat)
    ensures n in NodesOf(ps, l) <==> Pair(l, n) in ps
  {
  }

  lemma TakenOffExactly(s: State, h: Handle, slug: string, l: nat, dropped: set<nat>, n: nat)
    requires h in s.clients && Pair(l, n) in s.clients[h].items
    ensures Pair(l, n) in TakeOff(s, h, slug, l, dropped).clients[h].items <==> n !in dropped
  {
  }

  /** What an answer puts on a client that stays up is on it afterwards if and only if the rebuild holds the pair when the answer comes. */
  lemma AnswerExact(s: State, r: nat, ok: set<nat>, whole: bool, n: nat)
    requires IsAnswerable(s, r) && Up(s, s.frames[r].client) && n in Attached(s.frames[r].phase, ok, whole)
    ensures var h, p := s.frames[r].client, Pair(s.frames[r].phase.listener, n);
            Up(Answered(s, r, ok, whole, false), h)
            && (p in Answered(s, r, ok, whole, false).clients[h].items <==> p in s.rebuilds[r].nodes)
  {
    var h, l, phase := s.frames[r].client, s.frames[r].phase.listener, s.frames[r].phase;
    var attached, settled := Attach(s, r, ok, whole), SettledAfter(s, r, ok, whole, false);
    assert Pair(l, n) in attached.clients[h].items;
    GoodOnes(phase, attached.clients[h].items, ok, whole, n);
    SettleFewer(attached, r, l, RestoredBy(s, r, ok, whole), l);
    assert settled.clients == attached.clients;
    StillWanted(s.rebuilds[r].nodes, l, n);
    TakenOffExactly(settled, h, s.rebuilds[r].slug, l, RestoredBy(s, r, ok, whole) - NodesOf(s.rebuilds[r].nodes, l), n);
  }

  // ---- A rebuild begun between the first purge and the walk ----

  function Called(k: Key, p: Pair): State {
    Connected(k, {p}).(closing := map[0 := Purged(p.listener)])
  }

  function During(k: Key, p: Pair, phase: Phase, call: Closing): State {
    Dropped(k, p, phase, map[0 := call])
  }

  function Back(k: Key, p: Pair, closing: map<nat, Closing>): State {
    Connected(k, {p}).(rebuilds := map[0 := Rebuild(k.slug, {})], frames := map[0 := Frame(0, Looping)], closing := closing)
  }

  lemma CallBegins(k: Key, p: Pair)
    ensures var e := CloseBegin(0, p.listener); Enabled(Connected(k, {p}), e) && Next(Connected(k, {p}), e) == Called(k, p)
  {
  }

  lemma TakenDuring(k: Key, p: Pair)
    ensures var t := During(k, p, Starting, Purged(p.listener));
            Enabled(Called(k, p), TakeBack(0, 0)) && Next(Called(k, p), TakeBack(0, 0)) == t
  {
  }

  lemma CallFinds(k: Key, p: Pair)
    ensures var s, t := During(k, p, Starting, Purged(p.listener)), During(k, p, Starting, Walking(p.listener, {0}));
            Enabled(s, CloseFind(0)) && Next(s, CloseFind(0)) == t
  {
  }

  lemma CallWalks(k: Key, p: Pair)
    ensures var s, t := During(k, p, Starting, Walking(p.listener, {0})), During(k, p, Starting, Walking(p.listener, {}));
            Enabled(s, CloseWalk(0, 0)) && Next(s, CloseWalk(0, 0)) == t
  {
    var s := During(k, p, Starting, Walking(p.listener, {0}));
    assert Forget({}, p.listener) == {};
    assert ForgetOnClient(s, 0, p.listener) == s;
    assert {0} - {0} == {};
  }

  function Asking(p: Pair): Phase {
    Out(p.listener, {p.node}, {}, {}, false)
  }

  lemma SubmittedOn(k: Key, p: Pair, c: Closing)
    ensures var s, t := During(k, p, Chosen(p.listener, {p.node}), c), During(k, p, Asking(p), c);
            Enabled(s, Submit(0)) && Next(s, Submit(0)) == t
  {
    var s := During(k, p, Chosen(p.listener, {p.node}), c);
    var joined := Joined({p.node}, s.clients[0].items);
    assert joined == {};
    assert s.clients[0].items + Pairs(p.listener, joined) == {};
    assert WithItems(s, 0, {}) == s;
  }

  lemma AttachedBack(k: Key, p: Pair, c: Closing)
    ensures var s := During(k, p, Asking(p), c);
            && Attach(s, 0, {p.node}, false) == s.(clients := map[0 := Client(k, true, false, {p})])
            && Restored(Asking(p), {p}, {p.node}, false) == {p.node}
  {
    assert Attached(Asking(p), {p.node}, false) == {p.node} && Pairs(p.listener, {p.node}) == {p} && {} + {p} == {p};
    assert Monitored({p}, p.node);
  }

  lemma AnsweredBack(k: Key, p: Pair, c: Closing)
    ensures Answered(During(k, p, Asking(p), c), 0, {p.node}, false, false) == Back(k, p, map[0 := c])
  {
    AttachedBack(k, p, c);
    assert NodesOf({p}, p.listener) == {p.node} && Forget({p}, p.listener) == {} && {p.node} - {p.node} == {};
  }

  lemma CallReturns(k: Key, p: Pair)
    ensures var s := Back(k, p, map[0 := Walking(p.listener, {})]); Enabled(s, CloseEnd(0)) && Next(s, CloseEnd(0)) == Back(k, p, map[])
  {
    assert Forget({}, p.listener) == {};
  }

  lemma CalledReached(k: Key, p: Pair) returns (steps: seq<Step>)
    ensures Reaches(steps, Called(k, p))
  {
    steps := [];
    ConnectsFirst(k);
    RunsOn(steps, INITIAL, Connect(0, k), Connected(k, {}));
    steps := steps + [Connect(0, k)];
    Watches(k, p);
    RunsOn(steps, Connected(k, {}), Watch(0, p), Connected(k, {p}));
    steps := steps + [Watch(0, p)];
    CallBegins(k, p);
    RunsOn(steps, Connected(k, {p}), CloseBegin(0, p.listener), Called(k, p));
    steps := steps + [CloseBegin(0, p.listener)];
  }

  lemma WalkedReached(k: Key, p: Pair) returns (steps: seq<Step>)
    ensures Reaches(steps, During(k, p, Starting, Walking(p.listener, {})))
  {
    steps := CalledReached(k, p);
    TakenDuring(k, p);
    RunsOn(steps, Called(k, p), TakeBack(0, 0), During(k, p, Starting, Purged(p.listener)));
    steps := steps + [TakeBack(0, 0)];
    CallFinds(k, p);
    RunsOn(steps, During(k, p, Starting, Purged(p.listener)), CloseFind(0), During(k, p, Starting, Walking(p.listener, {0})));
    steps := steps + [CloseFind(0)];
    CallWalks(k, p);
    RunsOn(steps, During(k, p, Starting, Walking(p.listener, {0})), CloseWalk(0, 0), During(k, p, Starting, Walking(p.listener, {})));
    steps := steps + [CloseWalk(0, 0)];
  }

  lemma OutReached(k: Key, p: Pair) returns (steps: seq<Step>)
    ensures Reaches(steps, During(k, p, Asking(p), Walking(p.listener, {})))
  {
    var c := Walking(p.listener, {});
    steps := WalkedReached(k, p);
    steps := ReadsOn(steps, k, p, map[0 := c]);
    SubmittedOn(k, p, c);
    RunsOn(steps, During(k, p, Chosen(p.listener, {p.node}), c), Submit(0), During(k, p, Asking(p), c));
    steps := steps + [Submit(0)];
  }

  lemma BackReached(k: Key, p: Pair) returns (steps: seq<Step>)
    ensures Reaches(steps, Back(k, p, map[0 := Walking(p.listener, {})]))
  {
    var c := Walking(p.listener, {});
    steps := OutReached(k, p);
    AnsweredBack(k, p, c);
    RunsOn(steps, During(k, p, Asking(p), c), Answer(0, {p.node}, false, false), Back(k, p, map[0 := c]));
    steps := steps + [Answer(0, {p.node}, false, false)];
  }

  lemma BackStays(k: Key, p: Pair)
    ensures var t := Back(k, p, map[]); OnUp(t, 0, p) && forall r :: !GoingOff(t, r, 0, p.listener, p.node)
  {
  }

  /** A session dropped between the first purge and the walk puts its pairs in a rebuild after both have passed it by.
      Answered before the last purge, its create leaves the listener on the client with nothing out that would take it
      off. */
  lemma Revived(k: Key, p: Pair) returns (steps: seq<Step>, s: State)
    ensures Reaches(steps, s) && Enabled(s, CloseEnd(0)) && s.closing[0].listener == p.listener
    ensures var t := Next(s, CloseEnd(0)); OnUp(t, 0, p) && forall r :: !GoingOff(t, r, 0, p.listener, p.node)
  {
    steps := BackReached(k, p);
    s := Back(k, p, map[0 := Walking(p.listener, {})]);
    CallReturns(k, p);
    BackStays(k, p);
  }

  // ---- Back after the return ----

  lemma WatchedBeside(k: Key, p: Pair, q: Pair, phase: Phase)
    ensures var s := Dropped(k, p, phase, map[]); Enabled(s, Watch(0, q)) && Next(s, Watch(0, q)) == One(k, {q}, {p}, phase, map[])
  {
    assert {} + {q} == {q};
  }

  lemma PurgedBeside(k: Key, p: Pair, q: Pair, phase: Phase)
    ensures var s, t := One(k, {q}, {p}, phase, map[]), One(k, {q}, {}, phase, map[0 := Purged(p.listener)]);
            Enabled(s, CloseBegin(0, p.listener)) && Next(s, CloseBegin(0, p.listener)) == t
  {
    assert Forget({p}, p.listener) == {};
  }

  lemma FoundBeside(k: Key, l: nat, q: Pair, phase: Phase)
    ensures var s, t := One(k, {q}, {}, phase, map[0 := Purged(l)]), One(k, {q}, {}, phase, map[0 := Walking(l, {0})]);
            Enabled(s, CloseFind(0)) && Next(s, CloseFind(0)) == t
  {
  }

  lemma WalkedBeside(k: Key, l: nat, q: Pair, phase: Phase)
    requires q.listener != l && !phase.Out?
    ensures var s, t := One(k, {q}, {}, phase, map[0 := Walking(l, {0})]), One(k, {q}, {}, phase, map[0 := Walking(l, {})]);
            Enabled(s, CloseWalk(0, 0)) && Next(s, CloseWalk(0, 0)) == t
  {
    var s := One(k, {q}, {}, phase, map[0 := Walking(l, {0})]);
    assert Forget({q}, l) == {q};
    assert ForgetOnClient(s, 0, l) == s;
    assert {0} - {0} == {};
  }

  lemma ReturnedBeside(k: Key, l: nat, q: Pair, phase: Phase)
    ensures var s, t := One(k, {q}, {}, phase, map[0 := Walking(l, {})]), One(k, {q}, {}, phase, map[]);
            Enabled(s, CloseEnd(0)) && Next(s, CloseEnd(0)) == t
  {
    assert Forget({}, l) == {};
  }

  /** The rebuild has read the listener's node, another listener has an item for it, and the listener's call comes and goes. */
  lemma ReturnReached(k: Key, p: Pair, q: Pair) returns (steps: seq<Step>)
    requires q.listener != p.listener
    ensures Reaches(steps, One(k, {q}, {}, Chosen(p.listener, {p.node}), map[0 := Walking(p.listener, {})]))
  {
    var l, phase := p.listener, Chosen(p.listener, {p.node});
    steps := DroppedReached(k, p);
    steps := ReadsOn(steps, k, p, map[]);
    WatchedBeside(k, p, q, phase);
    RunsOn(steps, Dropped(k, p, phase, map[]), Watch(0, q), One(k, {q}, {p}, phase, map[]));
    steps := steps + [Watch(0, q)];
    PurgedBeside(k, p, q, phase);
    RunsOn(steps, One(k, {q}, {p}, phase, map[]), CloseBegin(0, l), One(k, {q}, {}, phase, map[0 := Purged(l)]));
    steps := steps + [CloseBegin(0, l)];
    FoundBeside(k, l, q, phase);
    RunsOn(steps, One(k, {q}, {}, phase, map[0 := Purged(l)]), CloseFind(0), One(k, {q}, {}, phase, map[0 := Walking(l, {0})]));
    steps := steps + [CloseFind(0)];
    WalkedBeside(k, l, q, phase);
    RunsOn(steps, One(k, {q}, {}, phase, map[0 := Walking(l, {0})]), CloseWalk(0, 0), One(k, {q}, {}, phase, map[0 := Walking(l, {})]));
    steps := steps + [CloseWalk(0, 0)];
  }

  function Joining(k: Key, p: Pair, q: Pair): State {
    One(k, {q, p}, {}, Out(p.listener, {p.node}, {p.node}, {}, false), map[])
  }

  lemma JoinsItem(k: Key, p: Pair, q: Pair)
    requires q.node == p.node
    ensures var s := One(k, {q}, {}, Chosen(p.listener, {p.node}), map[]); Enabled(s, Submit(0)) && Next(s, Submit(0)) == Joining(k, p, q)
  {
    assert Monitored({q}, p.node);
    assert Joined({p.node}, {q}) == {p.node};
    assert Pairs(p.listener, {p.node}) == {p} && {q} + {p} == {q, p};
  }

  lemma ReturnedGone(k: Key, p: Pair, q: Pair)
    requires q.listener != p.listener
    ensures Gone(One(k, {q}, {}, Chosen(p.listener, {p.node}), map[]), p.listener)
  {
  }

  lemma LossParks(k: Key, p: Pair, q: Pair)
    requires q.listener != p.listener
    ensures Enabled(Joining(k, p, q), Lost(0)) && Parked(Next(Joining(k, p, q), Lost(0)), p.listener)
  {
    var s := Joining(k, p, q);
    assert p in s.clients[0].items && On(s, 0, p.listener);
    LoseParked(s, 0, p.listener);
  }

  /** A create submitted after the return for what its rebuild had read before joins another listener's item.  The
      client lost before the answer, the listener is parked again, though it has subscribed to nothing since. */
  lemma Rejoined(k: Key, p: Pair, q: Pair) returns (steps: seq<Step>, s: State)
    requires q.listener != p.listener && q.node == p.node
    ensures Reaches(steps, s) && Enabled(s, CloseEnd(0)) && s.closing[0].listener == p.listener
    ensures var t := Next(s, CloseEnd(0));
            Gone(t, p.listener) && Enabled(t, Submit(0)) && Enabled(Next(t, Submit(0)), Lost(0))
            && Parked(Next(Next(t, Submit(0)), Lost(0)), p.listener)
  {
    steps := ReturnReached(k, p, q);
    s := One(k, {q}, {}, Chosen(p.listener, {p.node}), map[0 := Walking(p.listener, {})]);
    ReturnedBeside(k, p.listener, q, Chosen(p.listener, {p.node}));
    ReturnedGone(k, p, q);
    JoinsItem(k, p, q);
    LossParks(k, p, q);
  }
}
