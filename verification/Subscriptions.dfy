/** What the gateway's clients monitor, kept through connections that die, sessions that are dropped and rows that are
    edited.  A pair is a listener and a node it watches.  Pairs move between the clients, `pending`, parked for a
    reconnect chain, and `rebuilds`, being put back; the steps are the critical sections on the locks that guard those.
    */
module Subscriptions {
  type Handle = nat

  datatype Pair = Pair(listener: nat, node: nat)
  datatype Key = Key(slug: string, credential: string)

  /** A client:  what it monitors, and whether it is up or was removed. */
  datatype Client = Client(key: Key, connected: bool, discarded: bool, items: set<Pair>)

  datatype Entry = Entry(nodes: set<Pair>, rejections: nat)
  datatype Rebuild = Rebuild(slug: string, nodes: set<Pair>)

  /** Where a rebuild's frame stands.  A create that is out asks for the nodes the client did not yet monitor, having
      joined the items of the others;  it is taken when the client's items are, and each of its nodes may be cancelled.
      */
  datatype Phase =
    | Starting
    | Subscribing
    | Looping
    | Reading
    | Chosen(listener: nat, nodes: set<nat>)
    | Out(listener: nat, nodes: set<nat>, joined: set<nat>, cancelled: set<nat>, taken: bool)
    | Ending

  datatype Frame = Frame(client: Handle, phase: Phase)

  /** A reconnect chain:  owed, in its wait or in its connect, with the outcomes of its attempts so far, a rejection or not. */
  datatype ChainPhase = Owed | Waiting | Connecting
  datatype Chain = Chain(key: Key, phase: ChainPhase, attempt: nat, delay: nat, outcomes: seq<bool>)

  /** An Unsubscribe call:  purged once, then walking the clients it found registered. */
  datatype Closing = Purged(listener: nat) | Walking(listener: nat, todo: set<Handle>)

  datatype State = State(
    clients: map<Handle, Client>,
    registered: set<Handle>,
    pending: map<Key, Entry>,
    rebuilds: map<nat, Rebuild>,
    frames: map<nat, Frame>,
    chains: map<nat, Chain>,
    nextChain: nat,
    closing: map<nat, Closing>,
    shuttingDown: bool)

  const INITIAL := State(map[], {}, map[], map[], map[], map[], 0, map[], false)

  const MAX_DELAY := 15
  const MAX_REJECTIONS := 3

  /** The same clients, frames and rebuilds under the same keys, whatever has moved between them. */
  predicate SameShape(s: State, t: State) {
    && t.clients.Keys == s.clients.Keys && t.frames.Keys == s.frames.Keys && t.rebuilds.Keys == s.rebuilds.Keys
    && (forall h :: h in s.clients ==> t.clients[h].key == s.clients[h].key && t.clients[h].discarded == s.clients[h].discarded)
    && (forall h :: h in s.clients && t.clients[h].connected ==> s.clients[h].connected)
    && (forall r :: r in s.frames ==> t.frames[r].client == s.frames[r].client)
    && (forall r :: r in s.rebuilds ==> t.rebuilds[r].slug == s.rebuilds[r].slug)
    && t.registered == s.registered && t.closing == s.closing && t.shuttingDown == s.shuttingDown
  }

  /** Only `pending` and its chains have changed, and what a rebuild holds. */
  predicate SamePlaces(s: State, t: State) {
    && t.clients == s.clients && t.frames == s.frames && t.rebuilds.Keys == s.rebuilds.Keys && t.registered == s.registered
    && forall r :: r in s.rebuilds ==> t.rebuilds[r].slug == s.rebuilds[r].slug
  }

  // ---- Shared operations ----

  function Items(s: State, h: Handle): set<Pair> {
    if h in s.clients then s.clients[h].items else {}
  }

  predicate Up(s: State, h: Handle) {
    h in s.clients && s.clients[h].connected
  }

  predicate Removed(s: State, h: Handle) {
    h in s.clients && s.clients[h].discarded
  }

  function WithItems(s: State, h: Handle, items: set<Pair>): (t: State)
    requires h in s.clients
    ensures SameShape(s, t)
  {
    s.(clients := s.clients[h := s.clients[h].(items := items)])
  }

  function Without(ps: set<Pair>, l: nat, nodes: set<nat>): set<Pair> {
    set p | p in ps && !(p.listener == l && p.node in nodes)
  }

  function Forget(ps: set<Pair>, l: nat): set<Pair> {
    set p | p in ps && p.listener != l
  }

  function NodesOf(ps: set<Pair>, l: nat): set<nat> {
    set p | p in ps && p.listener == l :: p.node
  }

  function Pairs(l: nat, nodes: set<nat>): set<Pair> {
    set n | n in nodes :: Pair(l, n)
  }

  predicate Monitored(items: set<Pair>, n: nat) {
    exists p :: p in items && p.node == n
  }

  /** Into `pending` under the client's key:  merged into the entry there, or a new entry and a chain owed for it. */
  function Park(s: State, key: Key, ps: set<Pair>): (t: State)
    ensures SameShape(s, t) && t.rebuilds == s.rebuilds && t.frames == s.frames && t.clients == s.clients
  {
    if ps == {} || s.shuttingDown then s
    else if key in s.pending then s.(pending := s.pending[key := s.pending[key].(nodes := s.pending[key].nodes + ps)])
    else
      s.(pending := s.pending[key := Entry(ps, 0)],
         chains := s.chains[s.nextChain := Chain(key, Owed, 1, 1, [])],
         nextChain := s.nextChain + 1)
  }

  function TakenFrame(f: Frame, h: Handle): Frame {
    if f.client == h && f.phase.Out? then f.(phase := f.phase.(taken := true)) else f
  }

  /** A client's items taken, and the creates it has out with them. */
  function Take(s: State, h: Handle): (t: State)
    requires h in s.clients
    ensures SameShape(s, t)
    ensures t.rebuilds == s.rebuilds && t.pending == s.pending && t.chains == s.chains
  {
    s.(clients := s.clients[h := s.clients[h].(items := {})],
       frames := map r | r in s.frames :: TakenFrame(s.frames[r], h))
  }

  /** A connection lost:  what the client monitored is parked, then it is no longer up.  On the way out of the process
      its items stay put. */
  function Lose(s: State, h: Handle): (t: State)
    requires h in s.clients
    ensures SameShape(s, t)
    ensures t.rebuilds == s.rebuilds && !t.clients[h].connected
  {
    var t := if s.shuttingDown then s else Park(Take(s, h), s.clients[h].key, s.clients[h].items);
    t.(clients := t.clients[h := t.clients[h].(connected := false)])
  }

  /** The nodes a create asks the server for. */
  function Asked(phase: Phase): set<nat>
    requires phase.Out?
  {
    phase.nodes - phase.joined
  }

  function CancelledFrame(f: Frame, h: Handle, l: nat, nodes: set<nat>): Frame {
    if f.client == h && f.phase.Out? && f.phase.listener == l && !f.phase.taken then
      f.(phase := f.phase.(cancelled := f.phase.cancelled + (Asked(f.phase) * nodes)))
    else f
  }

  /** A listener's nodes off a client, and off the creates it has out. */
  function OffClient(s: State, h: Handle, l: nat, nodes: set<nat>): (t: State)
    requires h in s.clients
    ensures SameShape(s, t)
    ensures t.rebuilds == s.rebuilds && t.pending == s.pending && t.chains == s.chains
  {
    s.(clients := s.clients[h := s.clients[h].(items := Without(s.clients[h].items, l, nodes))],
       frames := map r | r in s.frames :: CancelledFrame(s.frames[r], h, l, nodes))
  }

  function ForgetFrame(f: Frame, h: Handle, l: nat): Frame {
    if f.client == h && f.phase.Out? && f.phase.listener == l && !f.phase.taken
        then f.(phase := f.phase.(cancelled := Asked(f.phase))) else f
  }

  function ForgetOnClient(s: State, h: Handle, l: nat): (t: State)
    requires h in s.clients
    ensures SameShape(s, t)
    ensures t.rebuilds == s.rebuilds && t.pending == s.pending && t.chains == s.chains
  {
    s.(clients := s.clients[h := s.clients[h].(items := Forget(s.clients[h].items, l))],
       frames := map r | r in s.frames :: ForgetFrame(s.frames[r], h, l))
  }

  /** Nodes only:  an entry's chain, and a rebuild's frame, erase their own. */
  function Purge(s: State, l: nat): (t: State)
    ensures SameShape(s, t) && t.clients == s.clients && t.frames == s.frames && t.chains == s.chains && t.pending.Keys == s.pending.Keys
  {
    s.(pending := map k | k in s.pending :: s.pending[k].(nodes := Forget(s.pending[k].nodes, l)),
       rebuilds := map r | r in s.rebuilds :: s.rebuilds[r].(nodes := Forget(s.rebuilds[r].nodes, l)))
  }

  function OffPending(s: State, slug: string, l: nat, nodes: set<nat>): (t: State)
    ensures SameShape(s, t) && t.clients == s.clients && t.frames == s.frames && t.chains == s.chains && t.pending.Keys == s.pending.Keys
  {
    s.(pending := map k | k in s.pending :: if k.slug == slug
        then s.pending[k].(nodes := Without(s.pending[k].nodes, l, nodes)) else s.pending[k],
       rebuilds := map r | r in s.rebuilds :: if s.rebuilds[r].slug == slug
           then s.rebuilds[r].(nodes := Without(s.rebuilds[r].nodes, l, nodes)) else s.rebuilds[r])
  }

  function WithPhase(s: State, r: nat, phase: Phase): (t: State)
    requires r in s.frames
    ensures SameShape(s, t)
  {
    s.(frames := s.frames[r := s.frames[r].(phase := phase)])
  }

  function WithRebuild(s: State, r: nat, nodes: set<Pair>): (t: State)
    requires r in s.rebuilds
    ensures SameShape(s, t)
  {
    s.(rebuilds := s.rebuilds[r := s.rebuilds[r].(nodes := nodes)])
  }

  // ---- A create's answer ----

  /** The nodes an answer attaches:  none of a create whose items were taken or that failed as a whole. */
  function Attached(phase: Phase, ok: set<nat>, whole: bool): set<nat>
    requires phase.Out?
  {
    if whole || phase.taken then {} else Asked(phase) * ok - phase.cancelled
  }

  /** The nodes the acknowledgement calls good:  each the client monitors, for whichever listener, that the answer did not itself refuse. */
  function Restored(phase: Phase, items: set<Pair>, ok: set<nat>, whole: bool): set<nat>
    requires phase.Out?
  {
    var refused := if whole || phase.taken then {} else Asked(phase) - Attached(phase, ok, whole);
    set n | n in phase.nodes && n !in refused && Monitored(items, n)
  }

  /** The listener's nodes leave the rebuild;  what a dead client did not restore, and every listener not yet attempted, is parked. */
  function Settle(s: State, r: nat, l: nat, restored: set<nat>): (t: State)
    requires r in s.rebuilds && r in s.frames && s.frames[r].client in s.clients
    ensures SameShape(s, t)
  {
    var h := s.frames[r].client;
    var wanted, left := NodesOf(s.rebuilds[r].nodes, l), Forget(s.rebuilds[r].nodes, l);
    if Up(s, h) || Removed(s, h) then WithRebuild(s, r, left)
    else Park(WithRebuild(s, r, {}), s.clients[h].key, left + Pairs(l, wanted - restored))
  }

  /** What was restored for a listener that had unsubscribed it meanwhile comes off again. */
  function TakeOff(s: State, h: Handle, slug: string, l: nat, dropped: set<nat>): (t: State)
    requires h in s.clients
    ensures SameShape(s, t)
  {
    if dropped == {} then s else OffPending(OffClient(s, h, l, dropped), slug, l, dropped)
  }

  function Attach(s: State, r: nat, ok: set<nat>, whole: bool): (t: State)
    requires r in s.frames && s.frames[r].client in s.clients && s.frames[r].phase.Out?
    ensures SameShape(s, t) && t.rebuilds == s.rebuilds && t.frames == s.frames && t.pending == s.pending && t.chains == s.chains
  {
    var h, phase := s.frames[r].client, s.frames[r].phase;
    WithItems(s, h, s.clients[h].items + Pairs(phase.listener, Attached(phase, ok, whole)))
  }

  /** A status that means the connection went, where the client was thought up. */
  function Heard(s: State, h: Handle, loss: bool): (t: State)
    requires h in s.clients
    ensures SameShape(s, t) && t.rebuilds == s.rebuilds
  {
    if loss && Up(s, h) && !Removed(s, h) then Lose(s, h) else s
  }

  predicate IsAnswerable(s: State, r: nat) {
    r in s.frames && r in s.rebuilds && s.frames[r].client in s.clients && s.frames[r].phase.Out?
  }

  function RestoredBy(s: State, r: nat, ok: set<nat>, whole: bool): set<nat>
    requires IsAnswerable(s, r)
  {
    Restored(s.frames[r].phase, Attach(s, r, ok, whole).clients[s.frames[r].client].items, ok, whole)
  }

  function SettledAfter(s: State, r: nat, ok: set<nat>, whole: bool, loss: bool): (t: State)
    requires IsAnswerable(s, r)
    ensures SameShape(s, t)
  {
    Settle(Heard(Attach(s, r, ok, whole), s.frames[r].client, loss), r, s.frames[r].phase.listener, RestoredBy(s, r, ok, whole))
  }

  function TakenOffAfter(s: State, r: nat, ok: set<nat>, whole: bool, loss: bool): (t: State)
    requires IsAnswerable(s, r)
    ensures SameShape(s, t)
  {
    var h, l := s.frames[r].client, s.frames[r].phase.listener;
    TakeOff(SettledAfter(s, r, ok, whole, loss), h, s.rebuilds[r].slug, l, RestoredBy(s, r, ok, whole) - NodesOf(s.rebuilds[r].nodes, l))
  }

  /** The create's answer and what the frame does with it, one step:  the frame resumes inside it. */
  function Answered(s: State, r: nat, ok: set<nat>, whole: bool, loss: bool): (t: State)
    requires IsAnswerable(s, r)
    ensures SameShape(s, t)
  {
    WithPhase(TakenOffAfter(s, r, ok, whole, loss), r, Looping)
  }

  // ---- The steps ----

  datatype Step =
    | Connect(handle: Handle, key: Key)
    | Watch(handle: Handle, pair: Pair)
    | Lost(handle: Handle)
    | Deregister(handle: Handle)
    | Remove(handle: Handle)
    | TakeBack(handle: Handle, rebuild: nat)
    | Start(rebuild: nat)
    | Subscribed(rebuild: nat, good: bool, loss: bool)
    | Loop(rebuild: nat)
    | Read(rebuild: nat, listener: nat)
    | Submit(rebuild: nat)
    | Answer(rebuild: nat, ok: set<nat>, whole: bool, loss: bool)
    | End(rebuild: nat)
    | Wait(chain: nat)
    | Wake(chain: nat)
    | Reconnected(chain: nat, handle: Handle, rebuild: nat)
    | Failed(chain: nat, rejected: bool)
    | Drop(slug: string, listener: nat, nodes: set<nat>)
    | Leave(handle: Handle, listener: nat, nodes: set<nat>)
    | CloseBegin(call: nat, listener: nat)
    | CloseFind(call: nat)
    | CloseWalk(call: nat, handle: Handle)
    | CloseEnd(call: nat)
    | ShutDown
    | StopReconnects

  predicate HasFrame(s: State, r: nat) {
    r in s.frames && r in s.rebuilds && s.frames[r].client in s.clients
  }

  predicate SlotTaken(s: State, key: Key) {
    exists h :: h in s.registered && h in s.clients && s.clients[h].key == key
  }

  predicate Has(ps: set<Pair>, l: nat) {
    exists p :: p in ps && p.listener == l
  }

  predicate MovesFrame(e: Step) {
    e.Start? || e.Subscribed? || e.Loop? || e.Read? || e.Submit? || e.Answer? || e.End?
  }

  predicate MovesChain(e: Step) {
    e.Wait? || e.Wake? || e.Reconnected? || e.Failed?
  }

  predicate Calls(e: Step) {
    e.CloseBegin? || e.CloseFind? || e.CloseWalk? || e.CloseEnd?
  }

  predicate FrameEnabled(s: State, e: Step)
    requires MovesFrame(e)
  {
    HasFrame(s, e.rebuild) &&
    match e
    case Start(_) => s.frames[e.rebuild].phase.Starting?
    case Subscribed(_, _, _) => s.frames[e.rebuild].phase.Subscribing?
    case Loop(_) => s.frames[e.rebuild].phase.Looping?
    case Read(r, l) => s.frames[r].phase.Reading? && (s.rebuilds[r].nodes != {} ==> Has(s.rebuilds[r].nodes, l))
    case Submit(_) => s.frames[e.rebuild].phase.Chosen?
    case Answer(_, _, _, _) => s.frames[e.rebuild].phase.Out?
    case End(_) => s.frames[e.rebuild].phase.Ending?
  }

  predicate ChainEnabled(s: State, e: Step)
    requires MovesChain(e)
  {
    e.chain in s.chains &&
    match e
    case Wait(_) => s.chains[e.chain].phase.Owed?
    case Wake(_) => s.chains[e.chain].phase.Waiting?
    case Reconnected(i, h, r) =>
      s.chains[i].phase.Connecting? && h in s.clients && s.clients[h].key == s.chains[i].key && r !in s.rebuilds && r !in s.frames
    case Failed(i, _) => s.chains[i].phase.Connecting?
  }

  predicate CallEnabled(s: State, e: Step)
    requires Calls(e)
  {
    match e
    case CloseBegin(id, _) => id !in s.closing
    case CloseFind(id) => id in s.closing && s.closing[id].Purged?
    case CloseWalk(id, h) => id in s.closing && s.closing[id].Walking? && h in s.closing[id].todo
    case CloseEnd(id) => id in s.closing && s.closing[id].Walking? && s.closing[id].todo == {}
  }

  predicate ClientEnabled(s: State, e: Step)
    requires !MovesFrame(e) && !MovesChain(e) && !Calls(e)
  {
    match e
    case Connect(h, key) => h !in s.clients && h !in s.registered && !SlotTaken(s, key)
    case Watch(h, _) => Up(s, h)
    case Lost(h) => h in s.clients
    case Deregister(h) => h in s.registered && !Up(s, h)
    case Remove(h) => h in s.clients
    case TakeBack(h, r) => h in s.clients && r !in s.rebuilds && r !in s.frames
    case Drop(_, _, _) => true
    case Leave(h, _, _) => h in s.clients
    case ShutDown => true
    case StopReconnects => s.shuttingDown
  }

  predicate Enabled(s: State, e: Step) {
    if MovesFrame(e) then FrameEnabled(s, e)
    else if MovesChain(e) then ChainEnabled(s, e)
    else if Calls(e) then CallEnabled(s, e)
    else ClientEnabled(s, e)
  }

  function Removing(s: State, h: Handle): (t: State)
    requires h in s.clients
    ensures t.closing == s.closing && t.registered == s.registered && t.frames == s.frames && t.rebuilds == s.rebuilds
  {
    s.(clients := s.clients[h := s.clients[h].(discarded := true, connected := false)])
  }

  /** Off the client or out of `pending`, straight into `rebuilds`. */
  function Rebuilding(s: State, r: nat, h: Handle, slug: string, ps: set<Pair>): (t: State)
    ensures t.closing == s.closing && t.registered == s.registered && t.clients == s.clients && t.pending == s.pending
  {
    s.(rebuilds := s.rebuilds[r := Rebuild(slug, ps)], frames := s.frames[r := Frame(h, Starting)])
  }

  /** A dropped session's items into a rebuild, if there are any;  the creates that are out go with them either way. */
  function TakenBack(s: State, h: Handle, r: nat): (t: State)
    requires h in s.clients
    ensures t.closing == s.closing && t.registered == s.registered && t.pending == s.pending
  {
    if s.clients[h].items == {} then Take(s, h)
    else Rebuilding(Take(s, h), r, h, s.clients[h].key.slug, s.clients[h].items)
  }

  /** The nodes a create need not ask for:  the listener joins the items there are. */
  function Joined(nodes: set<nat>, items: set<Pair>): set<nat> {
    set n | n in nodes && Monitored(items, n)
  }

  function Submitted(s: State, r: nat): (t: State)
    requires HasFrame(s, r) && s.frames[r].phase.Chosen?
    ensures SameShape(s, t)
  {
    var h, phase := s.frames[r].client, s.frames[r].phase;
    var joined := Joined(phase.nodes, s.clients[h].items);
    WithPhase(WithItems(s, h, s.clients[h].items + Pairs(phase.listener, joined)), r,
              Out(phase.listener, phase.nodes, joined, {}, false))
  }

  function Ended(s: State, r: nat): (t: State)
    requires HasFrame(s, r)
    ensures t.closing == s.closing && t.registered == s.registered && t.clients == s.clients
  {
    var h := s.frames[r].client;
    var t := s.(rebuilds := s.rebuilds - {r}, frames := s.frames - {r});
    if Up(s, h) || Removed(s, h) then t else Park(t, s.clients[h].key, s.rebuilds[r].nodes)
  }

  function EndChain(s: State, i: nat): (t: State)
    ensures SamePlaces(s, t) && t.closing == s.closing && t.pending == s.pending && t.nextChain == s.nextChain
    ensures t.shuttingDown == s.shuttingDown
  {
    s.(chains := s.chains - {i})
  }

  function Woken(s: State, i: nat): (t: State)
    requires i in s.chains
    ensures SamePlaces(s, t) && t.closing == s.closing
  {
    var key := s.chains[i].key;
    if s.shuttingDown || key !in s.pending then EndChain(s, i)
    else if s.pending[key].nodes == {} then EndChain(s, i).(pending := s.pending - {key})
    else s.(chains := s.chains[i := s.chains[i].(phase := Connecting)])
  }

  function BackUp(s: State, i: nat, h: Handle, r: nat): (t: State)
    requires i in s.chains && h in s.clients
    ensures t.closing == s.closing && t.registered == s.registered
  {
    var key := s.chains[i].key;
    var ps := if key in s.pending then s.pending[key].nodes else {};
    var t := EndChain(s, i);
    if s.shuttingDown then Removing(t, h)
    else
      var u := t.(pending := t.pending - {key});
      if ps == {} then u else Rebuilding(u, r, h, key.slug, ps)
  }

  function Min(a: nat, b: nat): nat {
    if a < b then a else b
  }

  function Retried(s: State, i: nat, rejected: bool): (t: State)
    requires i in s.chains
    ensures SamePlaces(s, t) && t.closing == s.closing
  {
    var c := s.chains[i];
    if c.key !in s.pending then EndChain(s, i)
    else
      var rejections := if rejected then s.pending[c.key].rejections + 1 else 0;
      if rejections >= MAX_REJECTIONS then EndChain(s, i).(pending := s.pending - {c.key})
      else
        var t := s.(pending := s.pending[c.key := s.pending[c.key].(rejections := rejections)]);
        if s.shuttingDown then EndChain(t, i)
        else t.(chains := t.chains[i := Chain(c.key, Owed, c.attempt + 1, Min(2 * c.delay, MAX_DELAY), c.outcomes + [rejected])])
  }

  function FrameNext(s: State, e: Step): State
    requires MovesFrame(e) && FrameEnabled(s, e)
  {
    match e
    case Start(r) => WithPhase(s, r, if Up(s, s.frames[r].client) && s.rebuilds[r].nodes != {} then Subscribing else Looping)
    case Subscribed(r, good, loss) => WithPhase(if good then s else Heard(s, s.frames[r].client, loss), r, if good then Looping else Ending)
    case Loop(r) => WithPhase(s, r, if Up(s, s.frames[r].client) then Reading else Ending)
    case Read(r, l) => WithPhase(s, r, if s.rebuilds[r].nodes == {} then Ending else Chosen(l, NodesOf(s.rebuilds[r].nodes, l)))
    case Submit(r) => Submitted(s, r)
    case Answer(r, ok, whole, loss) => Answered(s, r, ok, whole, loss)
    case End(r) => Ended(s, r)
  }

  function ChainNext(s: State, e: Step): State
    requires MovesChain(e) && ChainEnabled(s, e)
  {
    match e
    case Wait(i) =>
      if s.shuttingDown || s.chains[i].key !in s.pending then EndChain(s, i)
          else s.(chains := s.chains[i := s.chains[i].(phase := Waiting)])
    case Wake(i) => Woken(s, i)
    case Reconnected(i, h, r) => BackUp(s, i, h, r)
    case Failed(i, rejected) => Retried(s, i, rejected)
  }

  function CallNext(s: State, e: Step): State
    requires Calls(e) && CallEnabled(s, e)
  {
    match e
    case CloseBegin(id, l) => Purge(s, l).(closing := s.closing[id := Purged(l)])
    case CloseFind(id) => s.(closing := s.closing[id := Walking(s.closing[id].listener, s.registered)])
    case CloseWalk(id, h) =>
      var t := if h in s.clients then ForgetOnClient(s, h, s.closing[id].listener) else s;
      t.(closing := s.closing[id := Walking(s.closing[id].listener, s.closing[id].todo - {h})])
    case CloseEnd(id) => Purge(s, s.closing[id].listener).(closing := s.closing - {id})
  }

  function ClientNext(s: State, e: Step): State
    requires !MovesFrame(e) && !MovesChain(e) && !Calls(e) && ClientEnabled(s, e)
  {
    match e
    case Connect(h, key) => s.(clients := s.clients[h := Client(key, true, false, {})], registered := s.registered + {h})
    case Watch(h, p) => WithItems(s, h, s.clients[h].items + {p})
    case Lost(h) => Lose(s, h)
    case Deregister(h) => s.(registered := s.registered - {h})
    case Remove(h) => Removing(s, h)
    case TakeBack(h, r) => TakenBack(s, h, r)
    case Drop(slug, l, nodes) => OffPending(s, slug, l, nodes)
    case Leave(h, l, nodes) => OffClient(s, h, l, nodes)
    case ShutDown => s.(shuttingDown := true)
    case StopReconnects => s.(pending := map[])
  }

  function Next(s: State, e: Step): State
    requires Enabled(s, e)
  {
    if MovesFrame(e) then FrameNext(s, e)
    else if MovesChain(e) then ChainNext(s, e)
    else if Calls(e) then CallNext(s, e)
    else ClientNext(s, e)
  }

  // ---- Runs ----

  ghost predicate Runs(s: State, steps: seq<Step>)
    decreases |steps|
  {
    steps == [] || (Enabled(s, steps[0]) && Runs(Next(s, steps[0]), steps[1..]))
  }

  function After(s: State, steps: seq<Step>): State
    requires Runs(s, steps)
    decreases |steps|
  {
    if steps == [] then s else After(Next(s, steps[0]), steps[1..])
  }
}
