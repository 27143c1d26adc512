/** How clients, frames and rebuilds go together, through every step. */
module SubscriptionShape {
  import opened Subscriptions

  /** A rebuild has its frame and a frame its client and rebuild, all of one connection;  a client that is up is registered, one that was
      removed is not up. */
  ghost predicate ShapeOK(s: State) {
    && s.frames.Keys == s.rebuilds.Keys
    && (forall r :: r in s.frames ==> s.frames[r].client in s.clients)
    && (forall h :: Up(s, h) ==> h in s.registered && !s.clients[h].discarded)
    && s.registered <= s.clients.Keys
    && (forall r :: r in s.frames ==> s.rebuilds[r].slug == s.clients[s.frames[r].client].key.slug)
  }

  lemma SameShapeOK(s: State, t: State)
    requires ShapeOK(s) && SameShape(s, t)
    ensures ShapeOK(t)
  {
    forall h | Up(t, h) ensures h in t.registered && !t.clients[h].discarded {
      assert Up(s, h);
    }
  }

  lemma EndShape(s: State, r: nat)
    requires ShapeOK(s) && HasFrame(s, r)
    ensures ShapeOK(Ended(s, r))
  {
    var t := s.(rebuilds := s.rebuilds - {r}, frames := s.frames - {r});
    assert ShapeOK(t);
    SameShapeOK(t, Ended(s, r));
  }

  lemma RebuildShape(s: State, r: nat, h: Handle, slug: string, ps: set<Pair>)
    requires ShapeOK(s) && h in s.clients && slug == s.clients[h].key.slug
    ensures ShapeOK(Rebuilding(s, r, h, slug, ps))
  {
  }

  lemma RemoveShape(s: State, h: Handle)
    requires ShapeOK(s) && h in s.clients
    ensures ShapeOK(Removing(s, h))
  {
    var t := Removing(s, h);
    forall g | Up(t, g) ensures g in t.registered && !t.clients[g].discarded {
      assert Up(s, g);
    }
  }

  lemma SamePlacesShape(s: State, t: State)
    requires ShapeOK(s) && t.clients == s.clients && t.frames == s.frames && t.registered == s.registered
    requires t.rebuilds.Keys == s.rebuilds.Keys && forall r :: r in s.rebuilds ==> t.rebuilds[r].slug == s.rebuilds[r].slug
    ensures ShapeOK(t)
  {
  }

  lemma BackUpShape(s: State, i: nat, h: Handle, r: nat)
    requires ShapeOK(s) && i in s.chains && h in s.clients && s.clients[h].key == s.chains[i].key
    ensures ShapeOK(BackUp(s, i, h, r))
  {
    var t := EndChain(s, i);
    if s.shuttingDown {
      RemoveShape(t, h);
    } else {
      var key := s.chains[i].key;
      var ps := if key in s.pending then s.pending[key].nodes else {};
      RebuildShape(t.(pending := t.pending - {key}), r, h, key.slug, ps);
    }
  }

  lemma TakeBackShape(s: State, h: Handle, r: nat)
    requires ShapeOK(s) && h in s.clients
    ensures ShapeOK(TakenBack(s, h, r))
  {
    SameShapeOK(s, Take(s, h));
    RebuildShape(Take(s, h), r, h, s.clients[h].key.slug, s.clients[h].items);
  }

  lemma FrameShape(s: State, e: Step)
    requires ShapeOK(s) && MovesFrame(e) && FrameEnabled(s, e)
    ensures ShapeOK(FrameNext(s, e))
  {
    if e.End? {
      EndShape(s, e.rebuild);
    } else {
      SameShapeOK(s, FrameNext(s, e));
    }
  }

  lemma ChainShape(s: State, e: Step)
    requires ShapeOK(s) && MovesChain(e) && ChainEnabled(s, e)
    ensures ShapeOK(ChainNext(s, e))
  {
    if e.Reconnected? {
      BackUpShape(s, e.chain, e.handle, e.rebuild);
    } else {
      SamePlacesShape(s, ChainNext(s, e));
    }
  }

  lemma CallShape(s: State, e: Step)
    requires ShapeOK(s) && Calls(e) && CallEnabled(s, e)
    ensures ShapeOK(CallNext(s, e))
  {
    if e.CloseWalk? && e.handle in s.clients {
      var t := ForgetOnClient(s, e.handle, s.closing[e.call].listener);
      SameShapeOK(s, t);
      SamePlacesShape(t, CallNext(s, e));
    } else {
      SamePlacesShape(s, CallNext(s, e));
    }
  }

  lemma ConnectShape(s: State, h: Handle, key: Key)
    requires ShapeOK(s) && h !in s.clients
    ensures ShapeOK(s.(clients := s.clients[h := Client(key, true, false, {})], registered := s.registered + {h}))
  {
    var t := s.(clients := s.clients[h := Client(key, true, false, {})], registered := s.registered + {h});
    forall g | Up(t, g) ensures g in t.registered && !t.clients[g].discarded {
      assert g == h || Up(s, g);
    }
  }

  lemma DeregisterShape(s: State, h: Handle)
    requires ShapeOK(s) && !Up(s, h)
    ensures ShapeOK(s.(registered := s.registered - {h}))
  {
    var t := s.(registered := s.registered - {h});
    forall g | Up(t, g) ensures g in t.registered && !t.clients[g].discarded {
      assert Up(s, g);
    }
  }

  lemma ClientShape(s: State, e: Step)
    requires ShapeOK(s) && !MovesFrame(e) && !MovesChain(e) && !Calls(e) && ClientEnabled(s, e)
    ensures ShapeOK(ClientNext(s, e))
  {
    match e
    case Connect(h, key) => ConnectShape(s, h, key);
    case Deregister(h) => DeregisterShape(s, h);
    case Remove(h) => RemoveShape(s, h);
    case TakeBack(h, r) => TakeBackShape(s, h, r);
    case Watch(h, p) => SameShapeOK(s, WithItems(s, h, s.clients[h].items + {p}));
    case Lost(h) => SameShapeOK(s, Lose(s, h));
    case Drop(slug, l, nodes) => SameShapeOK(s, OffPending(s, slug, l, nodes));
    case Leave(h, l, nodes) => SameShapeOK(s, OffClient(s, h, l, nodes));
    case ShutDown => SamePlacesShape(s, ClientNext(s, e));
    case StopReconnects => SamePlacesShape(s, ClientNext(s, e));
  }

  lemma NextShape(s: State, e: Step)
    requires ShapeOK(s) && Enabled(s, e)
    ensures ShapeOK(Next(s, e))
  {
    if MovesFrame(e) {
      FrameShape(s, e);
    } else if MovesChain(e) {
      ChainShape(s, e);
    } else if Calls(e) {
      CallShape(s, e);
    } else {
      ClientShape(s, e);
    }
  }
}
