/** A hub's registrations:  a socket claims its application and instance name before it publishes them, so that no two hold one name with
    different resource schemas.  The claim's check holds the claims mutex, visits the sessions one by one, and every other step may come
    between but those that take the mutex. */
module Claims {
  import opened Options

  type Id = nat

  datatype Instance = Instance(application: string, name: string, resource: string, host: string, pid: nat, port: nat)

  const BLANK := Instance("", "", "", "", 0, 0)

  predicate SameProcess(x: Instance, y: Instance) {
    x.host == y.host && x.pid == y.pid
  }

  /** A restart on the same endpoint, where there is one. */
  predicate Restart(x: Instance, y: Instance) {
    x.port != 0 && x.host == y.host && x.port == y.port
  }

  predicate Conflicts(x: Instance, y: Instance) {
    x.application == y.application && x.name == y.name && x.resource != y.resource && !SameProcess(x, y) && !Restart(x, y)
  }

  lemma ConflictsBothWays(x: Instance, y: Instance)
    ensures Conflicts(x, y) == Conflicts(y, x)
  {
  }

  /** A socket's session:  whether the registry still lists it, whether its stream is open, and what it has published. */
  datatype Session = Session(listed: bool, open: bool, published: bool, instance: Instance)

  /** A claim's check under way:  the sessions it has yet to visit. */
  datatype Check = Check(id: Id, instance: Instance, todo: set<Id>)

  /** `regs`:  the registrations between claiming and their end. */
  datatype State = State(claims: map<Id, Instance>, sessions: map<Id, Session>, check: Option<Check>, regs: multiset<(Id, Instance)>)

  const INITIAL := State(map[], map[], None, multiset{})

  datatype Step =
    | Connect(id: Id)
    | Begin(id: Id, instance: Instance)
    | Visit(other: Id)
    | Insert
    | Publish(id: Id, instance: Instance)
    | Release(id: Id, instance: Instance)
    | Evict(id: Id, instance: Instance)
    | Close(id: Id)
    | Disconnect(id: Id)

  predicate Enabled(s: State, e: Step) {
    match e
    case Connect(id) => id !in s.sessions
    case Begin(id, x) => s.check.None?
    case Visit(b) => s.check.Some? && b in s.check.value.todo
    case Insert => s.check.Some? && s.check.value.todo == {}
    case Publish(id, x) => (id, x) in s.regs && id in s.sessions
    case Release(id, x) => (id, x) in s.regs && s.check.None?
    case Evict(id, x) => (id, x) in s.regs
    case Close(id) => id in s.sessions
    case Disconnect(id) => id in s.sessions
  }

  predicate InFlight(s: State, id: Id) {
    exists r :: r in s.regs && r.0 == id
  }

  /** One registration in flight a socket. */
  predicate Legal(s: State, e: Step) {
    e.Begin? ==> !InFlight(s, e.id)
  }

  predicate Claimed(s: State, id: Id, x: Instance) {
    exists b :: b in s.claims && b != id && Conflicts(s.claims[b], x)
  }

  /** A session whose visit ends a check:  another's, listed and open, with a conflicting instance. */
  predicate Blocks(s: State, c: Check, b: Id) {
    b in s.sessions && b != c.id && s.sessions[b].listed && s.sessions[b].open && Conflicts(s.sessions[b].instance, c.instance)
  }

  predicate Superseded(session: Session, host: string, port: nat) {
    session.listed && session.instance.host == host && session.instance.port == port
  }

  function Next(s: State, e: Step): State
    requires Enabled(s, e)
  {
    match e
    case Connect(id) => s.(sessions := s.sessions[id := Session(true, true, false, BLANK)])
    case Begin(id, x) =>
      if Claimed(s, id, x) then s
      else s.(check := Some(Check(id, x, set b | b in s.sessions && s.sessions[b].listed)))
    case Visit(b) =>
      var c := s.check.value;
      if Blocks(s, c, b) then s.(check := None)
      else s.(check := Some(c.(todo := c.todo - {b})))
    case Insert =>
      var c := s.check.value;
      s.(claims := if c.id in s.claims then s.claims else s.claims[c.id := c.instance], check := None,
          regs := s.regs + multiset{(c.id, c.instance)})
    case Publish(id, x) => s.(sessions := s.sessions[id := s.sessions[id].(published := true, instance := x)])
    case Release(id, x) => s.(claims := s.claims - {id}, regs := s.regs - multiset{(id, x)})
    case Evict(_, x) =>
      if x.port == 0 then s
      else s.(sessions := map b | b in s.sessions ::
                if Superseded(s.sessions[b], x.host, x.port) then s.sessions[b].(listed := false) else s.sessions[b])
    case Close(id) => s.(sessions := s.sessions[id := s.sessions[id].(open := false)])
    case Disconnect(id) => s.(sessions := s.sessions[id := s.sessions[id].(listed := false)])
  }

  // ---- What every step keeps ----

  /** A socket holds what it is claiming, and what it has published while listed and open. */
  predicate Holds(s: State, id: Id, x: Instance) {
    || (id in s.claims && s.claims[id] == x)
    || (id in s.sessions && s.sessions[id].listed && s.sessions[id].open && s.sessions[id].published && s.sessions[id].instance == x)
  }

  ghost predicate Apart(s: State) {
    forall a, b, x, y :: a != b && Holds(s, a, x) && Holds(s, b, y) ==> !Conflicts(x, y)
  }

  predicate Live(session: Session) {
    session.listed && session.open && session.published
  }

  /** What a check has passed stays passed:  the claims are locked, and a session publishes only what its claim covers. */
  ghost predicate CheckOK(s: State) {
    s.check.Some? ==>
      var c := s.check.value;
      && (forall b :: b in s.claims && b != c.id ==> !Conflicts(s.claims[b], c.instance))
      && (forall b :: b in s.sessions && b != c.id && b !in c.todo && Live(s.sessions[b]) ==>
            !Conflicts(s.sessions[b].instance, c.instance))
  }

  ghost predicate Inv(s: State) {
    Apart(s) && CheckOK(s)
  }

  /** A claim stands in for an instance:  it is the same but that it may have no port. */
  predicate Covers(held: Instance, x: Instance) {
    held == x || held == x.(port := 0)
  }

  lemma CoverKeeps(held: Instance, x: Instance, z: Instance)
    requires Covers(held, x) && Conflicts(x, z)
    ensures Conflicts(held, z)
  {
  }

  /** Conflicts with `x`, and with `held` only if that covers `x`. */
  function Rival(held: Instance, x: Instance): (z: Instance)
    ensures Conflicts(x, z) && z.application == x.application && (Conflicts(held, z) ==> Covers(held, x))
  {
    var other := x.(resource := x.resource + ".", pid := x.pid + 1, port := 0);
    if held.application != x.application || held.name != x.name then other
    else if held.resource != x.resource then other.(resource := held.resource)
    else if held.host != x.host || held.pid != x.pid then other.(host := held.host, pid := held.pid)
    else if held.port != x.port && held.port != 0 then other.(port := held.port)
    else other
  }

  /** A claim refuses everyone who conflicts with an instance if and only if it covers it. */
  lemma CoverExact(held: Instance, x: Instance)
    ensures Covers(held, x) <==> forall z :: Conflicts(x, z) ==> Conflicts(held, z)
  {
    if Covers(held, x) {
      forall z | Conflicts(x, z) ensures Conflicts(held, z) {
        CoverKeeps(held, x, z);
      }
    } else {
      assert Conflicts(x, Rival(held, x)) && !Conflicts(held, Rival(held, x));
    }
  }

  /** Whoever publishes has a claim that covers what it publishes. */
  predicate Guarded(s: State, e: Step) {
    e.Publish? ==> e.id in s.claims && Covers(s.claims[e.id], e.instance)
  }

  lemma FewerHeld(s: State, t: State)
    requires Apart(s) && forall a, x :: Holds(t, a, x) ==> Holds(s, a, x)
    ensures Apart(t)
  {
  }

  lemma InsertApart(s: State)
    requires Inv(s) && Enabled(s, Insert)
    ensures Apart(Next(s, Insert))
  {
    var t, c := Next(s, Insert), s.check.value;
    forall a, b, x, y | a != b && Holds(t, a, x) && Holds(t, b, y) ensures !Conflicts(x, y) {
      ConflictsBothWays(x, y);
      if !Holds(s, a, x) {
        assert a == c.id && x == c.instance && Holds(s, b, y);
      } else if !Holds(s, b, y) {
        assert b == c.id && y == c.instance;
      }
    }
  }

  /** Whoever conflicts with what is published conflicted with the claim. */
  lemma PublishApart(s: State, e: Step)
    requires Apart(s) && e.Publish? && Enabled(s, e) && Guarded(s, e)
    ensures Apart(Next(s, e))
  {
    var t := Next(s, e);
    forall a, b, x, y | a != b && Holds(t, a, x) && Holds(t, b, y) ensures !Conflicts(x, y) {
      ConflictsBothWays(x, y);
      if Conflicts(x, y) {
        if a == e.id && x == e.instance {
          CoverKeeps(s.claims[a], x, y);
          assert Holds(s, a, s.claims[a]) && Holds(s, b, y);
        } else if b == e.id && y == e.instance {
          CoverKeeps(s.claims[b], y, x);
          ConflictsBothWays(s.claims[b], x);
          assert Holds(s, b, s.claims[b]) && Holds(s, a, x);
        } else {
          assert Holds(s, a, x) && Holds(s, b, y);
        }
      }
    }
  }

  lemma PublishKeeps(s: State, e: Step)
    requires Inv(s) && e.Publish? && Enabled(s, e) && Guarded(s, e)
    ensures Inv(Next(s, e))
  {
    PublishApart(s, e);
    if s.check.Some? && e.id != s.check.value.id && Conflicts(e.instance, s.check.value.instance) {
      CoverKeeps(s.claims[e.id], e.instance, s.check.value.instance);
      assert false;
    }
  }

  lemma CheckKeeps(s: State, e: Step)
    requires Inv(s) && (e.Begin? || e.Visit? || e.Release?) && Enabled(s, e)
    ensures Inv(Next(s, e))
  {
    FewerHeld(s, Next(s, e));
  }

  /** A session that comes, goes or closes holds nothing it did not hold. */
  lemma SessionKeeps(s: State, e: Step)
    requires Inv(s) && (e.Connect? || e.Evict? || e.Close? || e.Disconnect?) && Enabled(s, e)
    ensures Inv(Next(s, e))
  {
    var t := Next(s, e);
    forall b | b in t.sessions && t.sessions[b].listed && t.sessions[b].open && t.sessions[b].published
      ensures b in s.sessions && s.sessions[b] == t.sessions[b]
    {
    }
    FewerHeld(s, t);
  }

  /** Every step keeps the holders apart, however many registrations a socket has in flight, if what is published is covered. */
  lemma NextKeeps(s: State, e: Step)
    requires Inv(s) && Enabled(s, e) && Guarded(s, e)
    ensures Inv(Next(s, e))
  {
    match e
    case Insert => InsertApart(s);
    case Publish(_, _) => PublishKeeps(s, e);
    case Begin(_, _) => CheckKeeps(s, e);
    case Visit(_) => CheckKeeps(s, e);
    case Release(_, _) => CheckKeeps(s, e);
    case _ => SessionKeeps(s, e);
  }

  // ---- One registration in flight a socket ----

  /** A registration in flight has its claim, no claim is without one, and none is being claimed twice. */
  ghost predicate ClaimsOK(s: State) {
    && (forall id, x :: (id, x) in s.regs ==> s.regs[(id, x)] == 1 && id in s.claims && s.claims[id] == x)
    && (forall id :: id in s.claims ==> (id, s.claims[id]) in s.regs)
    && (s.check.Some? ==> s.check.value.id !in s.claims)
  }

  lemma InsertClaims(s: State)
    requires ClaimsOK(s) && Enabled(s, Insert)
    ensures ClaimsOK(Next(s, Insert))
  {
    var t, c := Next(s, Insert), s.check.value;
    assert (c.id, c.instance) !in s.regs;
    assert forall r :: t.regs[r] == s.regs[r] + if r == (c.id, c.instance) then 1 else 0;
  }

  lemma ReleaseClaims(s: State, e: Step)
    requires ClaimsOK(s) && e.Release? && Enabled(s, e)
    ensures ClaimsOK(Next(s, e))
  {
    assert forall r :: Next(s, e).regs[r] == s.regs[r] - if r == (e.id, e.instance) then 1 else 0;
  }

  lemma BeginClaims(s: State, e: Step)
    requires ClaimsOK(s) && e.Begin? && Enabled(s, e) && Legal(s, e)
    ensures ClaimsOK(Next(s, e))
  {
    assert e.id !in s.claims;
  }

  /** So whoever publishes is covered. */
  lemma LegalGuarded(s: State, e: Step)
    requires ClaimsOK(s) && Enabled(s, e) && Legal(s, e)
    ensures Guarded(s, e) && ClaimsOK(Next(s, e))
  {
    match e
    case Insert => InsertClaims(s);
    case Release(_, _) => ReleaseClaims(s, e);
    case Begin(_, _) => BeginClaims(s, e);
    case _ =>
  }

  // ---- Over whole runs ----

  ghost predicate Runs(s: State, steps: seq<Step>)
    decreases |steps|
  {
    steps == [] || (Enabled(s, steps[0]) && Legal(s, steps[0]) && Runs(Next(s, steps[0]), steps[1..]))
  }

  function After(s: State, steps: seq<Step>): State
    requires Runs(s, steps)
    decreases |steps|
  {
    if steps == [] then s else After(Next(s, steps[0]), steps[1..])
  }

  lemma {:induction false} RunKeeps(s: State, steps: seq<Step>)
    requires Inv(s) && ClaimsOK(s) && Runs(s, steps)
    ensures Inv(After(s, steps)) && ClaimsOK(After(s, steps))
    decreases |steps|
  {
    if steps != [] {
      LegalGuarded(s, steps[0]);
      NextKeeps(s, steps[0]);
      RunKeeps(Next(s, steps[0]), steps[1..]);
    }
  }

  /** In every run, with one registration in flight a socket, no two sockets hold one application and instance name with
      different resources, but for one process, or one host and port. */
  lemma NamesApart(steps: seq<Step>, a: Id, b: Id, x: Instance, y: Instance)
    requires Runs(INITIAL, steps) && a != b && Holds(After(INITIAL, steps), a, x) && Holds(After(INITIAL, steps), b, y)
    requires x.application == y.application && x.name == y.name && x.resource != y.resource
    ensures SameProcess(x, y) || (x.host == y.host && x.port == y.port != 0)
  {
    RunKeeps(INITIAL, steps);
    assert !Conflicts(x, y);
  }

  // ---- Sessions taken off the list ----

  /** Claiming, or published and open, whether or not the registry lists the session. */
  predicate Stands(s: State, id: Id, x: Instance) {
    || (id in s.claims && s.claims[id] == x)
    || (id in s.sessions && s.sessions[id].open && s.sessions[id].published && s.sessions[id].instance == x)
  }

  ghost predicate StandApart(s: State) {
    forall a, b, x, y :: a != b && Stands(s, a, x) && Stands(s, b, y) ==> !Conflicts(x, y)
  }

  /** A session that conflicts with the claim being made and that its check does not visit:  published and open, but off the list. */
  predicate Unseen(s: State, c: Check, b: Id) {
    b in s.sessions && b != c.id && !s.sessions[b].listed && s.sessions[b].open && s.sessions[b].published &&
    Conflicts(s.sessions[b].instance, c.instance)
  }

  /** The claim about to be inserted is a new one, and some session its check does not visit conflicts with it. */
  predicate Overlooks(s: State) {
    s.check.Some? && s.check.value.id !in s.claims && exists b :: b in s.sessions && Unseen(s, s.check.value, b)
  }

  lemma FewerStand(s: State, t: State)
    requires StandApart(s) && forall a, x :: Stands(t, a, x) ==> Stands(s, a, x)
    ensures StandApart(t)
  {
  }

  lemma InsertStands(s: State)
    requires CheckOK(s) && StandApart(s) && Enabled(s, Insert) && !Overlooks(s)
    ensures StandApart(Next(s, Insert))
  {
    var t, c := Next(s, Insert), s.check.value;
    forall a, b, x, y | a != b && Stands(t, a, x) && Stands(t, b, y) ensures !Conflicts(x, y) {
      ConflictsBothWays(x, y);
      if !Stands(s, a, x) {
        assert a == c.id && x == c.instance && Stands(s, b, y) && !Unseen(s, c, b);
      } else if !Stands(s, b, y) {
        assert b == c.id && y == c.instance && !Unseen(s, c, a);
      }
    }
  }

  lemma OverlookedStands(s: State)
    requires Enabled(s, Insert) && Overlooks(s)
    ensures !StandApart(Next(s, Insert))
  {
    var t, c := Next(s, Insert), s.check.value;
    var b :| b in s.sessions && Unseen(s, c, b);
    assert Stands(t, b, s.sessions[b].instance) && Stands(t, c.id, c.instance);
  }

  lemma PublishStands(s: State, e: Step)
    requires StandApart(s) && e.Publish? && Enabled(s, e) && Guarded(s, e)
    ensures StandApart(Next(s, e))
  {
    var t := Next(s, e);
    forall a, b, x, y | a != b && Stands(t, a, x) && Stands(t, b, y) ensures !Conflicts(x, y) {
      ConflictsBothWays(x, y);
      if Conflicts(x, y) {
        if a == e.id && x == e.instance {
          CoverKeeps(s.claims[a], x, y);
          assert Stands(s, a, s.claims[a]) && Stands(s, b, y);
        } else if b == e.id && y == e.instance {
          CoverKeeps(s.claims[b], y, x);
          ConflictsBothWays(s.claims[b], x);
          assert Stands(s, b, s.claims[b]) && Stands(s, a, x);
        } else {
          assert Stands(s, a, x) && Stands(s, b, y);
        }
      }
    }
  }

  /** Sockets that claim, or are published and open, stay apart through a step if and only if it is not the insertion of
      a claim that conflicts with a session taken off the list and not yet closed. */
  lemma StandExact(s: State, e: Step)
    requires Inv(s) && StandApart(s) && Enabled(s, e) && Guarded(s, e)
    ensures StandApart(Next(s, e)) <==> !(e.Insert? && Overlooks(s))
  {
    if e.Insert? {
      if Overlooks(s) {
        OverlookedStands(s);
      } else {
        InsertStands(s);
      }
    } else if e.Publish? {
      PublishStands(s, e);
    } else {
      FewerStand(s, Next(s, e));
    }
  }

  ghost predicate NeverOverlooks(s: State, steps: seq<Step>)
    requires Runs(s, steps)
    decreases |steps|
  {
    steps == [] || (!(steps[0].Insert? && Overlooks(s)) && NeverOverlooks(Next(s, steps[0]), steps[1..]))
  }

  lemma {:induction false} StandRun(s: State, steps: seq<Step>)
    requires Inv(s) && ClaimsOK(s) && StandApart(s) && Runs(s, steps) && NeverOverlooks(s, steps)
    ensures StandApart(After(s, steps))
    decreases |steps|
  {
    if steps != [] {
      LegalGuarded(s, steps[0]);
      StandExact(s, steps[0]);
      NextKeeps(s, steps[0]);
      StandRun(Next(s, steps[0]), steps[1..]);
    }
  }

  // ---- Runs that end with a conflict ----

  /** A run;  `one`:  with one registration in flight a socket. */
  ghost predicate Goes(s: State, steps: seq<Step>, t: State, one: bool)
    decreases |steps|
  {
    if steps == [] then s == t
    else Enabled(s, steps[0]) && (one ==> Legal(s, steps[0])) && Goes(Next(s, steps[0]), steps[1..], t, one)
  }

  lemma {:induction false} GoesRuns(s: State, steps: seq<Step>, t: State)
    requires Goes(s, steps, t, true)
    ensures Runs(s, steps) && After(s, steps) == t
    decreases |steps|
  {
    if steps != [] {
      GoesRuns(Next(s, steps[0]), steps[1..], t);
    }
  }

  lemma {:induction false} GoesOn(s: State, first: seq<Step>, t: State, second: seq<Step>, u: State, one: bool)
    requires Goes(s, first, t, one) && Goes(t, second, u, one)
    ensures Goes(s, first + second, u, one)
    decreases |first|
  {
    if first == [] {
      assert first + second == second;
    } else {
      assert (first + second)[1..] == first[1..] + second;
      GoesOn(Next(s, first[0]), first[1..], t, second, u, one);
    }
  }

  lemma GoesTo(s: State, steps: seq<Step>, t: State, e: Step, u: State, one: bool)
    requires Goes(s, steps, t, one) && Enabled(t, e) && (one ==> Legal(t, e)) && Next(t, e) == u
    ensures Goes(s, steps + [e], u, one)
  {
    assert [e][1..] == [];
    GoesOn(s, steps, t, [e], u, one);
  }

  lemma {:induction false} VisitsPass(s: State, one: bool) returns (steps: seq<Step>)
    requires s.check.Some? && forall b :: b in s.check.value.todo ==> !Blocks(s, s.check.value, b)
    ensures Goes(s, steps, s.(check := Some(s.check.value.(todo := {}))), one)
    decreases s.check.value.todo
  {
    var c := s.check.value;
    if c.todo == {} {
      steps := [];
    } else {
      var b :| b in c.todo;
      var t := Next(s, Visit(b));
      assert forall a :: Blocks(t, t.check.value, a) == Blocks(s, c, a);
      var more := VisitsPass(t, one);
      steps := [Visit(b)] + more;
      assert steps[1..] == more;
    }
  }

  function WithClaim(s: State, id: Id, x: Instance): State {
    s.(claims := if id in s.claims then s.claims else s.claims[id := x], regs := s.regs + multiset{(id, x)})
  }

  /** A claim that nothing listed conflicts with is made. */
  lemma ClaimPasses(s: State, id: Id, x: Instance, one: bool) returns (steps: seq<Step>)
    requires s.check.None? && !Claimed(s, id, x) && (one ==> !InFlight(s, id))
    requires forall b :: b in s.sessions && b != id ==> !Taken(s.sessions[b], x)
    ensures Goes(s, steps, WithClaim(s, id, x), one)
  {
    var begun := Next(s, Begin(id, x));
    var c := begun.check.value;
    GoesTo(s, [], s, Begin(id, x), begun, one);
    var visits := VisitsPass(begun, one);
    var done := begun.(check := Some(c.(todo := {})));
    GoesOn(s, [] + [Begin(id, x)], begun, visits, done, one);
    GoesTo(s, [] + [Begin(id, x)] + visits, done, Insert, WithClaim(s, id, x), one);
    steps := [] + [Begin(id, x)] + visits + [Insert];
  }

  const QUIET := Session(true, true, false, BLANK)

  function Lone(a: Id, claims: map<Id, Instance>, regs: multiset<(Id, Instance)>): State {
    INITIAL.(sessions := map[a := QUIET], claims := claims, regs := regs)
  }

  /** A socket that is to publish what its claim does not cover:  another is let claim a rival, and both then hold. */
  lemma Uncovered(a: Id, b: Id, x: Instance, claims: map<Id, Instance>, regs: multiset<(Id, Instance)>)
    returns (steps: seq<Step>, t: State, z: Instance)
    requires a != b && x.application != "" && (a, x) in regs
    requires claims.Keys <= {a} && (a in claims ==> !Covers(claims[a], x))
    ensures Goes(Lone(a, claims, regs), steps, t, false) && Holds(t, a, x) && Holds(t, b, z) && Conflicts(x, z)
  {
    var s := Lone(a, claims, regs);
    z := Rival(if a in claims then claims[a] else BLANK, x);
    var s1 := Next(s, Connect(b));
    GoesTo(s, [], s, Connect(b), s1, false);
    var more := ClaimPasses(s1, b, z, false);
    var s2 := WithClaim(s1, b, z);
    GoesOn(s, [] + [Connect(b)], s1, more, s2, false);
    t := Next(s2, Publish(a, x));
    GoesTo(s, [] + [Connect(b)] + more, s2, Publish(a, x), t, false);
    steps := [] + [Connect(b)] + more + [Publish(a, x)];
  }

  lemma ClaimsAlone(a: Id, x: Instance, claims: map<Id, Instance>, regs: multiset<(Id, Instance)>) returns (steps: seq<Step>)
    requires claims.Keys <= {a}
    ensures Goes(Lone(a, claims, regs), steps, Lone(a, if a in claims then claims else claims[a := x], regs + multiset{(a, x)}), false)
  {
    steps := ClaimPasses(Lone(a, claims, regs), a, x, false);
  }

  lemma ClaimsTwice(a: Id, x: Instance, y: Instance) returns (steps: seq<Step>)
    ensures Goes(INITIAL, steps, Lone(a, map[a := x], multiset{(a, x), (a, y)}), false)
  {
    GoesTo(INITIAL, [], INITIAL, Connect(a), Lone(a, map[], multiset{}), false);
    var first := ClaimsAlone(a, x, map[], multiset{});
    assert multiset{} + multiset{(a, x)} == multiset{(a, x)};
    GoesOn(INITIAL, [] + [Connect(a)], Lone(a, map[], multiset{}), first, Lone(a, map[a := x], multiset{(a, x)}), false);
    var second := ClaimsAlone(a, y, map[a := x], multiset{(a, x)});
    assert multiset{(a, x)} + multiset{(a, y)} == multiset{(a, x), (a, y)};
    GoesOn(INITIAL, [] + [Connect(a)] + first, Lone(a, map[a := x], multiset{(a, x)}), second,
           Lone(a, map[a := x], multiset{(a, x), (a, y)}), false);
    steps := [] + [Connect(a)] + first + second;
  }

  /** Two registrations in flight on a socket, the claim the first one's:  the second is not covered by it. */
  lemma TwoInFlight(a: Id, b: Id, x: Instance, y: Instance) returns (steps: seq<Step>, t: State, z: Instance)
    requires a != b && y.application != "" && !Covers(x, y)
    ensures Goes(INITIAL, steps, t, false) && Holds(t, a, y) && Holds(t, b, z) && Conflicts(y, z)
  {
    var first := ClaimsTwice(a, x, y);
    var second;
    second, t, z := Uncovered(a, b, y, map[a := x], multiset{(a, x), (a, y)});
    GoesOn(INITIAL, first, Lone(a, map[a := x], multiset{(a, x), (a, y)}), second, t, false);
    steps := first + second;
  }

  /** Nor is the same instance claimed twice:  the first registration to end takes the one claim with it. */
  lemma FirstReleased(a: Id, b: Id, x: Instance) returns (steps: seq<Step>, t: State, z: Instance)
    requires a != b && x.application != ""
    ensures Goes(INITIAL, steps, t, false) && Holds(t, a, x) && Holds(t, b, z) && Conflicts(x, z)
  {
    var first := ClaimsTwice(a, x, x);
    var s := Lone(a, map[a := x], multiset{(a, x), (a, x)});
    assert s.claims - {a} == map[] && s.regs - multiset{(a, x)} == multiset{(a, x)};
    GoesTo(INITIAL, first, s, Release(a, x), Lone(a, map[], multiset{(a, x)}), false);
    var second;
    second, t, z := Uncovered(a, b, x, map[], multiset{(a, x)});
    GoesOn(INITIAL, first + [Release(a, x)], Lone(a, map[], multiset{(a, x)}), second, t, false);
    steps := first + [Release(a, x)] + second;
  }

  function Three(a: Session, ids: (Id, Id, Id), claims: map<Id, Instance>, regs: multiset<(Id, Instance)>): State {
    INITIAL.(sessions := map[ids.0 := a, ids.1 := QUIET, ids.2 := QUIET], claims := claims, regs := regs)
  }

  function Published(x: Instance, listed: bool): Session {
    Session(listed, true, true, x)
  }

  lemma ThreeConnect(a: Id, b: Id, c: Id) returns (steps: seq<Step>)
    requires a != b && b != c && a != c
    ensures Goes(INITIAL, steps, Three(QUIET, (a, b, c), map[], multiset{}), true)
  {
    var s1 := Next(INITIAL, Connect(a));
    var s2 := Next(s1, Connect(b));
    GoesTo(INITIAL, [], INITIAL, Connect(a), s1, true);
    GoesTo(INITIAL, [] + [Connect(a)], s1, Connect(b), s2, true);
    assert Next(s2, Connect(c)) == Three(QUIET, (a, b, c), map[], multiset{});
    GoesTo(INITIAL, [] + [Connect(a)] + [Connect(b)], s2, Connect(c), Three(QUIET, (a, b, c), map[], multiset{}), true);
    steps := [] + [Connect(a)] + [Connect(b)] + [Connect(c)];
  }

  lemma PublishesFirst(a: Id, b: Id, c: Id, x: Instance) returns (steps: seq<Step>)
    requires a != b && b != c && a != c && x.application != ""
    ensures Goes(INITIAL, steps, Three(Published(x, true), (a, b, c), map[], multiset{}), true)
  {
    var ids := (a, b, c);
    var first := ThreeConnect(a, b, c);
    var s := Three(QUIET, ids, map[], multiset{});
    var claim := ClaimPasses(s, a, x, true);
    var s1 := Three(QUIET, ids, map[a := x], multiset{(a, x)});
    assert WithClaim(s, a, x) == s1;
    GoesOn(INITIAL, first, s, claim, s1, true);
    var s2 := Three(Published(x, true), ids, map[a := x], multiset{(a, x)});
    assert Next(s1, Publish(a, x)) == s2;
    GoesTo(INITIAL, first + claim, s1, Publish(a, x), s2, true);
    assert s2.claims - {a} == map[] && s2.regs - multiset{(a, x)} == multiset{};
    GoesTo(INITIAL, first + claim + [Publish(a, x)], s2, Release(a, x), Three(Published(x, true), ids, map[], multiset{}), true);
    steps := first + claim + [Publish(a, x)] + [Release(a, x)];
  }

  lemma ClaimsThird(a: Id, b: Id, c: Id, x: Instance, w: Instance) returns (steps: seq<Step>)
    requires a != b && b != c && a != c && w.application != "" && !Conflicts(x, w)
    ensures Goes(Three(Published(x, true), (a, b, c), map[], multiset{}), steps,
                 Three(Published(x, true), (a, b, c), map[c := w], multiset{(c, w)}), true)
  {
    var s := Three(Published(x, true), (a, b, c), map[], multiset{});
    steps := ClaimPasses(s, c, w, true);
    assert WithClaim(s, c, w) == Three(Published(x, true), (a, b, c), map[c := w], multiset{(c, w)});
  }

  lemma Evicts(a: Id, b: Id, c: Id, x: Instance, w: Instance)
    requires a != b && b != c && a != c && w.host == x.host && w.port == x.port != 0
    ensures var s, t := Three(Published(x, true), (a, b, c), map[c := w], multiset{(c, w)}),
                        Three(Published(x, false), (a, b, c), map[c := w], multiset{(c, w)});
            Enabled(s, Evict(c, w)) && Next(s, Evict(c, w)) == t
  {
    var s := Three(Published(x, true), (a, b, c), map[c := w], multiset{(c, w)});
    assert Next(s, Evict(c, w)).sessions == map[a := Published(x, false), b := QUIET, c := QUIET];
  }

  /** Its endpoint registered from another socket, the first is taken off the list. */
  lemma EvictsFirst(a: Id, b: Id, c: Id, x: Instance, w: Instance) returns (steps: seq<Step>)
    requires a != b && b != c && a != c && x.application != "" && w.application != ""
    requires w.host == x.host && w.port == x.port != 0
    ensures Goes(INITIAL, steps, Three(Published(x, false), (a, b, c), map[c := w], multiset{(c, w)}), true)
  {
    var s := Three(Published(x, true), (a, b, c), map[], multiset{});
    var s1 := Three(Published(x, true), (a, b, c), map[c := w], multiset{(c, w)});
    var first := PublishesFirst(a, b, c, x);
    var claim := ClaimsThird(a, b, c, x, w);
    GoesOn(INITIAL, first, s, claim, s1, true);
    Evicts(a, b, c, x, w);
    GoesTo(INITIAL, first + claim, s1, Evict(c, w), Three(Published(x, false), (a, b, c), map[c := w], multiset{(c, w)}), true);
    steps := first + claim + [Evict(c, w)];
  }

  /** A run with one registration in flight a socket that ends with two sockets that claim, or are published and open, in conflict:  one was
      taken off the list by a registration on its host and port and is not closed yet. */
  lemma EvictedStands(a: Id, b: Id, c: Id, x: Instance, y: Instance, w: Instance) returns (steps: seq<Step>)
    requires a != b && b != c && a != c && x.application != "" && w.application != ""
    requires w.host == x.host && w.port == x.port != 0 && Conflicts(x, y) && !Conflicts(w, y)
    ensures Runs(INITIAL, steps) && Stands(After(INITIAL, steps), a, x) && Stands(After(INITIAL, steps), b, y)
  {
    var first := EvictsFirst(a, b, c, x, w);
    var s := Three(Published(x, false), (a, b, c), map[c := w], multiset{(c, w)});
    var claim := ClaimPasses(s, b, y, true);
    GoesOn(INITIAL, first, s, claim, WithClaim(s, b, y), true);
    GoesRuns(INITIAL, first + claim, WithClaim(s, b, y));
    steps := first + claim;
  }

  // ---- The object ----

  predicate Taken(session: Session, x: Instance) {
    session.listed && session.open && Conflicts(session.instance, x)
  }

  class Hub {
    var claims: map<Id, Instance>
    var sessions: map<Id, Session>

    constructor ()
      ensures claims == map[] && sessions == map[]
    {
      claims, sessions := map[], map[];
    }

    /** Refused exactly when another socket's claim, or another listed and open session, conflicts;  a socket that has a claim keeps it. */
    method ClaimInstance(id: Id, x: Instance) returns (ok: bool)
      modifies this
      ensures ok == ((forall b :: b in old(claims) && b != id ==> !Conflicts(old(claims)[b], x))
                     && (forall b :: b in sessions && b != id ==> !Taken(sessions[b], x)))
      ensures sessions == old(sessions)
      ensures claims == if ok && id !in old(claims) then old(claims)[id := x] else old(claims)
    {
      var todo := claims.Keys;
      while todo != {}
        invariant todo <= claims.Keys && claims == old(claims) && sessions == old(sessions)
        invariant forall b :: b in claims && b !in todo && b != id ==> !Conflicts(claims[b], x)
        decreases todo
      {
        var b :| b in todo;
        if b != id && Conflicts(claims[b], x) {
          return false;
        }
        todo := todo - {b};
      }
      todo := sessions.Keys;
      while todo != {}
        invariant todo <= sessions.Keys && claims == old(claims) && sessions == old(sessions)
        invariant forall b :: b in sessions && b !in todo && b != id ==> !Taken(sessions[b], x)
        decreases todo
      {
        var b :| b in todo;
        if b != id && Taken(sessions[b], x) {
          return false;
        }
        todo := todo - {b};
      }
      claims := if id in claims then claims else claims[id := x];
      ok := true;
    }

    method EndClaim(id: Id)
      modifies this
      ensures claims == old(claims) - {id} && sessions == old(sessions)
    {
      claims := claims - {id};
    }

    /** Off the list every session on the endpoint, none where there is no port. */
    method RemoveExisting(host: string, port: nat) returns (evicted: set<Id>)
      modifies this
      ensures claims == old(claims) && sessions.Keys == old(sessions).Keys
      ensures forall b :: b in evicted <==> b in old(sessions) && port != 0 && Superseded(old(sessions)[b], host, port)
      ensures forall b :: b in sessions ==> sessions[b] == if b in evicted then old(sessions)[b].(listed := false) else old(sessions)[b]
    {
      evicted := {};
      if port != 0 {
        var todo := sessions.Keys;
        while todo != {}
          invariant todo <= sessions.Keys == old(sessions).Keys && claims == old(claims)
          invariant forall b :: b in evicted <==> b in old(sessions) && b !in todo && Superseded(old(sessions)[b], host, port)
          invariant forall b :: b in sessions ==>
                      sessions[b] == if b in evicted then old(sessions)[b].(listed := false) else old(sessions)[b]
          decreases todo
        {
          var b :| b in todo;
          if Superseded(sessions[b], host, port) {
            evicted, sessions := evicted + {b}, sessions[b := sessions[b].(listed := false)];
          }
          todo := todo - {b};
        }
      }
    }
  }
}
