/** A value fetched on first use:  one fetch at a time, later callers parked on it, then answered from memory.  A cache
    keeps a slot per key. Fetches end, and posted answers reach their waiters, whenever the environment has them do so.
    */
module Lazy {
  import opened Options

  type Key = nat
  type Waiter = nat

  datatype Answer = Value(value: nat) | Error(error: nat)
  datatype Delivery = Delivery(waiter: Waiter, answer: Answer)

  datatype Phase = Empty | Fetching | Ready | Failed
  datatype Slot = Slot(phase: Phase, value: nat, error: Option<nat>, waiters: seq<Waiter>)

  const NEW_SLOT := Slot(Empty, 0, None, [])

  // ---- A slot ----

  function Stored(slot: Slot): Answer {
    if slot.error.Some? then Error(slot.error.value) else Value(slot.value)
  }

  predicate Launches(slot: Slot, refetch: bool) {
    slot.phase.Empty? || (refetch && !slot.phase.Fetching?)
  }

  function Started(slot: Slot, waiter: Option<Waiter>, refetch: bool): Slot {
    var s := if Launches(slot, refetch) then slot.(phase := Fetching) else slot;
    if s.phase.Fetching? && waiter.Some? then s.(waiters := s.waiters + [waiter.value]) else s
  }

  function Posts(slot: Slot, waiter: Option<Waiter>, refetch: bool): seq<Delivery> {
    if waiter.Some? && !Started(slot, waiter, refetch).phase.Fetching? then [Delivery(waiter.value, Stored(slot))] else []
  }

  function Finished(slot: Slot, answer: Answer, forget: bool): Slot {
    match answer
    case Value(v) => Slot(Ready, v, None, [])
    case Error(e) => if forget then Slot(Empty, slot.value, None, []) else Slot(Failed, slot.value, Some(e), [])
  }

  function Resumes(waiters: seq<Waiter>, answer: Answer): seq<Delivery> {
    if waiters == [] then [] else [Delivery(waiters[0], answer)] + Resumes(waiters[1..], answer)
  }

  class LazySlot {
    var phase: Phase
    var value: nat
    var error: Option<nat>
    var waiters: seq<Waiter>

    function View(): Slot
      reads this
    {
      Slot(phase, value, error, waiters)
    }

    constructor ()
      ensures View() == NEW_SLOT
    {
      phase, value, error, waiters := Empty, 0, None, [];
    }

    method Start(waiter: Option<Waiter>, refetch: bool) returns (launch: bool, posted: seq<Delivery>)
      modifies this
      ensures View() == Started(old(View()), waiter, refetch)
      ensures launch == Launches(old(View()), refetch) && posted == Posts(old(View()), waiter, refetch)
    {
      launch, posted := false, [];
      if phase == Empty || (refetch && phase != Fetching) {
        phase := Fetching;
        launch := true;
      }
      if phase == Fetching {
        if waiter.Some? {
          waiters := waiters + [waiter.value];
        }
      } else if waiter.Some? {
        posted := [Delivery(waiter.value, if error.Some? then Error(error.value) else Value(value))];
      }
    }

    method Finish(answer: Answer, forget: bool) returns (resumes: seq<Delivery>)
      modifies this
      ensures View() == Finished(old(View()), answer, forget)
      ensures resumes == Resumes(old(waiters), answer)
    {
      resumes := [];
      var i := |waiters|;
      while i > 0
        invariant 0 <= i <= |waiters| && View() == old(View())
        invariant resumes == Resumes(waiters[i..], answer)
      {
        i := i - 1;
        assert waiters[i..][1..] == waiters[i + 1..];
        resumes := [Delivery(waiters[i], answer)] + resumes;
      }
      waiters := [];
      match answer
      case Error(e) =>
        phase := if forget then Empty else Failed;
        error := if forget then None else Some(e);
      case Value(v) =>
        phase, error, value := Ready, None, v;
    }
  }

  // ---- The cache, its fetches and its answers ----

  datatype State = State(
    slots: map<Key, Slot>,
    fetches: multiset<Key>,
    posted: seq<Delivery>,
    answered: seq<Delivery>,
    latest: map<Key, nat>,
    outcomes: map<(Key, nat), Answer>,
    promised: map<Waiter, (Key, nat)>)

  const INITIAL := State(map[], multiset{}, [], [], map[], map[], map[])

  function SlotAt(s: State, k: Key): Slot {
    if k in s.slots then s.slots[k] else NEW_SLOT
  }

  function LatestAt(s: State, k: Key): nat {
    if k in s.latest then s.latest[k] else 0
  }

  datatype Step =
    | Start(key: Key, waiter: Option<Waiter>, refetch: bool)
    | FetchEnds(key: Key, answer: Answer, retryable: bool)
    | Deliver(index: nat)

  /** A waiter waits once, and a fetch that is out ends. */
  predicate Enabled(s: State, e: Step) {
    match e
    case Start(_, w, _) => w.Some? ==> w.value !in s.promised
    case FetchEnds(k, _, _) => s.fetches[k] > 0
    case Deliver(i) => i < |s.posted|
  }

  /** The fetch a new waiter is due the outcome of:  the one in flight, launched here or not, else the last. */
  function Due(s: State, k: Key, refetch: bool): (Key, nat) {
    (k, LatestAt(s, k) + if Launches(SlotAt(s, k), refetch) then 1 else 0)
  }

  function Next(s: State, e: Step): State
    requires Enabled(s, e)
  {
    match e
    case Start(k, w, refetch) =>
      var slot := SlotAt(s, k);
      s.(slots := s.slots[k := Started(slot, w, refetch)],
         fetches := if Launches(slot, refetch) then s.fetches + multiset{k} else s.fetches,
         posted := s.posted + Posts(slot, w, refetch),
         latest := s.latest[k := Due(s, k, refetch).1],
         promised := if w.Some? then s.promised[w.value := Due(s, k, refetch)] else s.promised)
    case FetchEnds(k, answer, retryable) =>
      var slot := Finished(SlotAt(s, k), answer, retryable);
      s.(slots := if slot.phase.Empty? then s.slots - {k} else s.slots[k := slot],
         fetches := s.fetches - multiset{k},
         posted := s.posted + Resumes(SlotAt(s, k).waiters, answer),
         outcomes := s.outcomes[(k, LatestAt(s, k)) := answer])
    case Deliver(i) => s.(posted := s.posted[..i] + s.posted[i + 1..], answered := s.answered + [s.posted[i]])
  }

  // ---- What every step keeps ----

  /** A key is in the map exactly when its slot is not empty, and fetching exactly when its one fetch is out;  what a slot stores is the
      outcome of the last fetch for it. */
  ghost predicate SlotOK(s: State, k: Key) {
    var slot := SlotAt(s, k);
    && (k in s.slots ==> !slot.phase.Empty?)
    && s.fetches[k] == (if slot.phase.Fetching? then 1 else 0)
    && (!slot.phase.Fetching? ==> slot.waiters == [])
    && (slot.phase.Fetching? ==> (k, LatestAt(s, k)) !in s.outcomes)
    && (slot.phase.Ready? || slot.phase.Failed? ==>
          (k, LatestAt(s, k)) in s.outcomes && s.outcomes[(k, LatestAt(s, k))] == Stored(slot) &&
              (slot.phase.Failed? <==> slot.error.Some?))
    && (forall n :: (k, n) in s.outcomes ==> n <= LatestAt(s, k))
  }

  ghost predicate Kept(s: State, d: Delivery) {
    d.waiter in s.promised && s.promised[d.waiter] in s.outcomes && s.outcomes[s.promised[d.waiter]] == d.answer
  }

  function Count(ws: seq<Waiter>, w: Waiter): (n: nat)
    ensures n > 0 <==> w in ws
  {
    if ws == [] then 0 else (if ws[0] == w then 1 else 0) + Count(ws[1..], w)
  }

  function CountIn(ds: seq<Delivery>, w: Waiter): nat {
    if ds == [] then 0 else (if ds[0].waiter == w then 1 else 0) + CountIn(ds[1..], w)
  }

  /** How often a waiter is somewhere:  parked on the key, about to be answered, or answered. */
  function Times(s: State, w: Waiter, k: Key): nat {
    Count(SlotAt(s, k).waiters, w) + CountIn(s.posted, w) + CountIn(s.answered, w)
  }

  ghost predicate WaiterOK(s: State, w: Waiter) {
    if w in s.promised then Times(s, w, s.promised[w].0) == 1 else CountIn(s.posted, w) == 0 && CountIn(s.answered, w) == 0
  }

  ghost predicate ParkedOK(s: State, k: Key) {
    forall w :: w in SlotAt(s, k).waiters ==> w in s.promised && s.promised[w] == (k, LatestAt(s, k))
  }

  ghost predicate Inv(s: State) {
    && (forall k :: SlotOK(s, k) && ParkedOK(s, k))
    && (forall w :: WaiterOK(s, w))
    && (forall d :: d in s.posted || d in s.answered ==> Kept(s, d))
  }

  lemma {:induction false} CountSnoc(ws: seq<Waiter>, x: Waiter, w: Waiter)
    ensures Count(ws + [x], w) == Count(ws, w) + if x == w then 1 else 0
  {
    if ws != [] {
      assert (ws + [x])[1..] == ws[1..] + [x];
      CountSnoc(ws[1..], x, w);
    }
  }

  lemma {:induction false} CountInConcat(a: seq<Delivery>, b: seq<Delivery>, w: Waiter)
    ensures CountIn(a + b, w) == CountIn(a, w) + CountIn(b, w)
  {
    if a == [] {
      assert a + b == b;
    } else {
      assert (a + b)[1..] == a[1..] + b;
      CountInConcat(a[1..], b, w);
    }
  }

  lemma {:induction false} ResumesAll(waiters: seq<Waiter>, answer: Answer, w: Waiter)
    ensures CountIn(Resumes(waiters, answer), w) == Count(waiters, w)
    ensures forall d :: d in Resumes(waiters, answer) ==> d.waiter in waiters && d.answer == answer
  {
    if waiters != [] {
      ResumesAll(waiters[1..], answer, w);
    }
  }

  lemma StartSlots(s: State, e: Step)
    requires Inv(s) && e.Start? && Enabled(s, e)
    ensures forall k :: SlotOK(Next(s, e), k)
  {
    var t := Next(s, e);
    forall k ensures SlotOK(t, k) {
      assert SlotOK(s, k);
    }
  }

  lemma StartParked(s: State, e: Step)
    requires Inv(s) && e.Start? && Enabled(s, e)
    ensures forall k :: ParkedOK(Next(s, e), k)
  {
    var t := Next(s, e);
    forall k ensures ParkedOK(t, k) {
      assert ParkedOK(s, k) && SlotOK(s, k);
    }
  }

  lemma StartedCount(slot: Slot, waiter: Option<Waiter>, refetch: bool, w: Waiter)
    ensures Count(Started(slot, waiter, refetch).waiters, w) + CountIn(Posts(slot, waiter, refetch), w)
         == Count(slot.waiters, w) + if waiter == Some(w) then 1 else 0
    ensures waiter != Some(w) ==> CountIn(Posts(slot, waiter, refetch), w) == 0
  {
    if waiter.Some? {
      CountSnoc(slot.waiters, waiter.value, w);
    }
  }

  lemma StartWaiter(s: State, e: Step, w: Waiter)
    requires e.Start? && Enabled(s, e) && WaiterOK(s, w) && ParkedOK(s, e.key)
    ensures WaiterOK(Next(s, e), w)
  {
    CountInConcat(s.posted, Posts(SlotAt(s, e.key), e.waiter, e.refetch), w);
    StartedCount(SlotAt(s, e.key), e.waiter, e.refetch, w);
  }

  lemma StartKept(s: State, e: Step)
    requires Inv(s) && e.Start? && Enabled(s, e)
    ensures forall d :: d in Next(s, e).posted || d in Next(s, e).answered ==> Kept(Next(s, e), d)
  {
    assert SlotOK(s, e.key);
    forall d | d in Next(s, e).posted || d in Next(s, e).answered ensures Kept(Next(s, e), d) {
      assert d in s.posted || d in s.answered ==> Kept(s, d);
    }
  }

  lemma EndSlots(s: State, e: Step)
    requires Inv(s) && e.FetchEnds? && Enabled(s, e)
    ensures forall k :: SlotOK(Next(s, e), k) && ParkedOK(Next(s, e), k)
  {
    var t := Next(s, e);
    forall k ensures SlotOK(t, k) && ParkedOK(t, k) {
      assert SlotOK(s, k) && ParkedOK(s, k);
    }
  }

  lemma EndWaiter(s: State, e: Step, w: Waiter)
    requires e.FetchEnds? && Enabled(s, e) && WaiterOK(s, w) && ParkedOK(s, e.key)
    ensures WaiterOK(Next(s, e), w)
  {
    var t := Next(s, e);
    var waiters := SlotAt(s, e.key).waiters;
    CountInConcat(s.posted, Resumes(waiters, e.answer), w);
    ResumesAll(waiters, e.answer, w);
    assert SlotAt(t, e.key).waiters == [];
    if w in s.promised {
      var k := s.promised[w].0;
      assert k != e.key ==> SlotAt(t, k) == SlotAt(s, k) && w !in waiters;
    }
  }

  lemma EndKeptOne(s: State, e: Step, d: Delivery)
    requires e.FetchEnds? && Enabled(s, e) && SlotOK(s, e.key) && ParkedOK(s, e.key)
    requires Kept(s, d) || d in Resumes(SlotAt(s, e.key).waiters, e.answer)
    ensures Kept(Next(s, e), d)
  {
    ResumesAll(SlotAt(s, e.key).waiters, e.answer, d.waiter);
  }

  lemma EndKept(s: State, e: Step)
    requires Inv(s) && e.FetchEnds? && Enabled(s, e)
    ensures forall d :: d in Next(s, e).posted || d in Next(s, e).answered ==> Kept(Next(s, e), d)
  {
    var t := Next(s, e);
    forall d | d in t.posted || d in t.answered ensures Kept(t, d) {
      EndKeptOne(s, e, d);
    }
  }

  lemma DeliverWaiter(s: State, i: nat, w: Waiter)
    requires Inv(s) && i < |s.posted|
    ensures WaiterOK(Next(s, Deliver(i)), w)
  {
    var before, d, after := s.posted[..i], s.posted[i], s.posted[i + 1..];
    assert WaiterOK(s, w);
    assert s.posted == before + ([d] + after);
    CountInConcat(before, [d] + after, w);
    CountInConcat([d], after, w);
    CountInConcat(before, after, w);
    CountInConcat(s.answered, [d], w);
  }

  lemma DeliverKeeps(s: State, i: nat)
    requires Inv(s) && i < |s.posted|
    ensures Inv(Next(s, Deliver(i)))
  {
    var t := Next(s, Deliver(i));
    forall k ensures SlotOK(t, k) && ParkedOK(t, k) {
      assert SlotOK(s, k) && ParkedOK(s, k);
    }
    forall w ensures WaiterOK(t, w) {
      DeliverWaiter(s, i, w);
    }
    forall d | d in t.posted || d in t.answered ensures Kept(t, d) {
      assert d in s.posted || d in s.answered;
      assert Kept(s, d);
    }
  }

  lemma NextKeeps(s: State, e: Step)
    requires Inv(s) && Enabled(s, e)
    ensures Inv(Next(s, e))
  {
    match e
    case Start(_, _, _) =>
      StartSlots(s, e);
      StartParked(s, e);
      forall w ensures WaiterOK(Next(s, e), w) { StartWaiter(s, e, w); }
      StartKept(s, e);
    case FetchEnds(_, _, _) =>
      EndSlots(s, e);
      forall w ensures WaiterOK(Next(s, e), w) { EndWaiter(s, e, w); }
      EndKept(s, e);
    case Deliver(i) => DeliverKeeps(s, i);
  }

  // ---- Over whole runs ----

  ghost predicate Runs(s: State, steps: seq<Step>)
    decreases |steps|
  {
    steps == [] || (Enabled(s, steps[0]) && Runs(Next(s, steps[0]), steps[1..]))
  }

  function After(s: State, steps: seq<Step>): State
    requires Runs(s, steps)
    decreases |steps|
  {
    if steps == [] then s else After(Next(s, steps[0]), steps[1..])
  }

  lemma {:induction false} RunKeeps(s: State, steps: seq<Step>)
    requires Inv(s) && Runs(s, steps)
    ensures Inv(After(s, steps))
    decreases |steps|
  {
    if steps != [] {
      NextKeeps(s, steps[0]);
      RunKeeps(Next(s, steps[0]), steps[1..]);
    }
  }

  /** In every run:  a key has at most one fetch out, and one exactly while its slot is fetching;  a fetch that ends
      finds its key in the map; the map holds no empty slot. */
  lemma SingleFlight(steps: seq<Step>, k: Key)
    requires Runs(INITIAL, steps)
    ensures var s := After(INITIAL, steps);
            && s.fetches[k] <= 1
            && (s.fetches[k] == 1 <==> k in s.slots && s.slots[k].phase.Fetching?)
            && (k in s.slots ==> !s.slots[k].phase.Empty?)
  {
    RunKeeps(INITIAL, steps);
    assert SlotOK(After(INITIAL, steps), k);
  }

  /** In every run:  whoever waited is parked, about to be answered or answered, one of these and once;  parked only on a fetch that is
      out;  and answered only with the outcome of the fetch it was due. */
  lemma AnsweredOnce(steps: seq<Step>, w: Waiter)
    requires Runs(INITIAL, steps)
    ensures var s := After(INITIAL, steps);
            && (w !in s.promised ==> CountIn(s.answered, w) == 0)
            && (w in s.promised ==> Times(s, w, s.promised[w].0) == 1)
            && (w in s.promised && w in SlotAt(s, s.promised[w].0).waiters ==> s.fetches[s.promised[w].0] == 1)
            && forall d :: d in s.answered && d.waiter == w ==>
                 w in s.promised && s.promised[w] in s.outcomes && d.answer == s.outcomes[s.promised[w]]
  {
    RunKeeps(INITIAL, steps);
    var s := After(INITIAL, steps);
    assert WaiterOK(s, w);
    if w in s.promised {
      assert SlotOK(s, s.promised[w].0);
    }
    forall d | d in s.answered && d.waiter == w
      ensures w in s.promised && s.promised[w] in s.outcomes && d.answer == s.outcomes[s.promised[w]]
    {
      assert Kept(s, d);
    }
  }

  /** The fetch a waiter is due is never replaced nor its outcome changed, so what it is answered is settled once the fetch ends. */
  lemma NextSettled(s: State, e: Step)
    requires Inv(s) && Enabled(s, e)
    ensures forall w :: w in s.promised ==> w in Next(s, e).promised && Next(s, e).promised[w] == s.promised[w]
    ensures forall f :: f in s.outcomes ==> f in Next(s, e).outcomes && Next(s, e).outcomes[f] == s.outcomes[f]
    ensures s.answered <= Next(s, e).answered
  {
    if e.FetchEnds? {
      assert SlotOK(s, e.key);
    }
  }

  lemma NextInv(s: State, e: Step, t: State)
    requires Inv(s) && Enabled(s, e) && t == Next(s, e)
    ensures Inv(t)
  {
    NextKeeps(s, e);
  }

  // ---- The object ----

  class LazyCache {
    var slots: map<Key, Slot>
    var fetches: multiset<Key>
    var posted: seq<Delivery>
    ghost var answered: seq<Delivery>
    ghost var latest: map<Key, nat>
    ghost var outcomes: map<(Key, nat), Answer>
    ghost var promised: map<Waiter, (Key, nat)>

    ghost function View(): State
      reads this
    {
      State(slots, fetches, posted, answered, latest, outcomes, promised)
    }

    ghost predicate Valid()
      reads this
    {
      Inv(View())
    }

    constructor ()
      ensures Valid() && View() == INITIAL
    {
      slots, fetches, posted := map[], multiset{}, [];
      answered, latest, outcomes, promised := [], map[], map[], map[];
    }

    /** A Ready entry's value, and nothing else's. */
    method Find(k: Key) returns (r: Option<nat>)
      requires Valid()
      ensures r.Some? <==> k in slots && slots[k].phase.Ready?
      ensures r.Some? ==> (k, LatestAt(View(), k)) in outcomes && outcomes[(k, LatestAt(View(), k))] == Value(r.value)
    {
      assert SlotOK(View(), k);
      r := if k in slots && slots[k].phase.Ready? then Some(slots[k].value) else None;
    }

    method StartLocked(k: Key, waiter: Option<Waiter>, refetch: bool)
      requires Valid() && Enabled(View(), Start(k, waiter, refetch))
      modifies this
      ensures Valid() && View() == Next(old(View()), Start(k, waiter, refetch))
    {
      ghost var before := View();
      StartSlot(k, waiter, refetch);
      NextInv(before, Start(k, waiter, refetch), View());
    }

    /** The key's slot started, whatever the rest holds. */
    method StartSlot(k: Key, waiter: Option<Waiter>, refetch: bool)
      requires Enabled(View(), Start(k, waiter, refetch))
      modifies this
      ensures View() == Next(old(View()), Start(k, waiter, refetch))
    {
      ghost var due := Due(View(), k, refetch);
      var slot := if k in slots then slots[k] else NEW_SLOT;
      slots, posted := slots[k := Started(slot, waiter, refetch)], posted + Posts(slot, waiter, refetch);
      fetches := if Launches(slot, refetch) then fetches + multiset{k} else fetches;
      latest, promised := latest[k := due.1], if waiter.Some? then promised[waiter.value := due] else promised;
    }

    method Finish(k: Key, answer: Answer, retryable: bool)
      requires Valid() && Enabled(View(), FetchEnds(k, answer, retryable))
      modifies this
      ensures Valid() && View() == Next(old(View()), FetchEnds(k, answer, retryable))
    {
      NextKeeps(View(), FetchEnds(k, answer, retryable));
      assert k in slots by {
        assert SlotOK(View(), k);
      }
      var slot := Finished(slots[k], answer, retryable);
      outcomes := outcomes[(k, LatestAt(View(), k)) := answer];
      posted := posted + Resumes(slots[k].waiters, answer);
      fetches := fetches - multiset{k};
      slots := if slot.phase.Empty? then slots - {k} else slots[k := slot];
    }

    method Deliver(i: nat) returns (d: Delivery)
      requires Valid() && Enabled(View(), Step.Deliver(i))
      modifies this
      ensures Valid() && View() == Next(old(View()), Step.Deliver(i)) && d == old(posted)[i]
    {
      NextKeeps(View(), Step.Deliver(i));
      d := posted[i];
      posted, answered := posted[..i] + posted[i + 1..], answered + [d];
    }
  }
}
