/** Edits to a connection's row against connects in flight.  Each edit is numbered and a connect takes the count before it reads its row;  a
    client registers, in the lock edits are recorded in, only if its row has not been edited since, and an edit removes the clients already
    registered.  The steps are the critical sections. */
module Edits {
  type Handle = nat

  /** A connection row, by what an edit or a connect names it. */
  datatype Row = Row(id: nat, slug: string)
  datatype Key = ById(id: nat) | BySlug(slug: string)

  predicate Matches(key: Key, row: Row) {
    if key.ById? then key.id == row.id else key.slug == row.slug
  }

  /** An edit:  of the row's settings, which removes the clients built from it, or of its keep-alive alone, which does not. */
  datatype Edit = Edit(key: Key, removes: bool)

  predicate Hits(log: seq<Edit>, m: nat, row: Row)
    requires 1 <= m <= |log|
  {
    Matches(log[m - 1].key, row)
  }

  /** Whether any edit past the first `edits` was to the row. */
  ghost predicate EditedAfter(log: seq<Edit>, row: Row, edits: nat) {
    exists m :: edits < m <= |log| && Hits(log, m, row)
  }

  /** An edit is its key's last, or before it. */
  predicate Kept(idEdits: map<nat, nat>, slugEdits: map<string, nat>, log: seq<Edit>, m: nat)
    requires 1 <= m <= |log|
  {
    var key := log[m - 1].key;
    if key.ById? then key.id in idEdits && m <= idEdits[key.id] else key.slug in slugEdits && m <= slugEdits[key.slug]
  }

  predicate Last(log: seq<Edit>, m: nat, key: Key) {
    1 <= m <= |log| && log[m - 1].key == key
  }

  ghost predicate Numbered(idEdits: map<nat, nat>, slugEdits: map<string, nat>, log: seq<Edit>) {
    && (forall id :: id in idEdits ==> Last(log, idEdits[id], ById(id)))
    && (forall slug :: slug in slugEdits ==> Last(log, slugEdits[slug], BySlug(slug)))
    && (forall m :: 1 <= m <= |log| ==> Kept(idEdits, slugEdits, log, m))
  }

  lemma RecordNumbered(idEdits: map<nat, nat>, slugEdits: map<string, nat>, log: seq<Edit>, edit: Edit)
    requires Numbered(idEdits, slugEdits, log)
    ensures Numbered(if edit.key.ById? then idEdits[edit.key.id := |log| + 1] else idEdits,
                     if edit.key.BySlug? then slugEdits[edit.key.slug := |log| + 1] else slugEdits, log + [edit])
  {
    var ids := if edit.key.ById? then idEdits[edit.key.id := |log| + 1] else idEdits;
    var slugs := if edit.key.BySlug? then slugEdits[edit.key.slug := |log| + 1] else slugEdits;
    var now := log + [edit];
    forall m | 1 <= m <= |now| ensures Kept(ids, slugs, now, m) {
      if m <= |log| {
        assert Kept(idEdits, slugEdits, log, m) && now[m - 1] == log[m - 1];
      }
    }
  }

  /** The two last numbers answer for every edit. */
  lemma LastAnswers(idEdits: map<nat, nat>, slugEdits: map<string, nat>, log: seq<Edit>, row: Row, since: nat)
    requires Numbered(idEdits, slugEdits, log)
    ensures EditedAfter(log, row, since) <==>
              (row.id in idEdits && idEdits[row.id] > since) || (row.slug in slugEdits && slugEdits[row.slug] > since)
  {
    if EditedAfter(log, row, since) {
      var m :| since < m <= |log| && Hits(log, m, row);
      assert Kept(idEdits, slugEdits, log, m);
    }
    if row.id in idEdits && idEdits[row.id] > since {
      assert Hits(log, idEdits[row.id], row);
    }
    if row.slug in slugEdits && slugEdits[row.slug] > since {
      assert Hits(log, slugEdits[row.slug], row);
    }
  }

  /** The numbering:  a count, and the last edit under each key it came with. */
  class Numbering {
    var edits: nat
    var idEdits: map<nat, nat>
    var slugEdits: map<string, nat>
    ghost var log: seq<Edit>

    ghost predicate Valid()
      reads this
    {
      edits == |log| && Numbered(idEdits, slugEdits, log)
    }

    constructor ()
      ensures Valid() && log == []
    {
      edits, idEdits, slugEdits, log := 0, map[], map[], [];
    }

    method RecordEdit(edit: Edit)
      requires Valid()
      modifies this
      ensures Valid() && log == old(log) + [edit]
    {
      RecordNumbered(idEdits, slugEdits, log, edit);
      edits := edits + 1;
      if edit.key.ById? {
        idEdits := idEdits[edit.key.id := edits];
      } else {
        slugEdits := slugEdits[edit.key.slug := edits];
      }
      log := log + [edit];
    }

    method EditedSince(row: Row, since: nat) returns (stale: bool)
      requires Valid()
      ensures stale <==> EditedAfter(log, row, since)
    {
      LastAnswers(idEdits, slugEdits, log, row, since);
      stale := (row.id in idEdits && idEdits[row.id] > since) || (row.slug in slugEdits && slugEdits[row.slug] > since);
    }
  }

  // ---- Connects and edits together ----

  /** A connect:  the count taken, then the row read, then its client built.  `readAt` is how many edits there were when
      the row was read. */
  datatype Connect = Counted(edits: nat) | Read(edits: nat, row: Row, readAt: nat) | Built(edits: nat, row: Row, readAt: nat)

  datatype Client = Client(row: Row, credential: string, edits: nat, readAt: nat)

  /** An edit's call:  recorded, then removing what it found registered. */
  datatype Call = Recorded | Removing(todo: set<Handle>)

  datatype State = State(
    log: seq<Edit>,
    connects: map<nat, Connect>,
    clients: map<Handle, Client>,
    registered: set<Handle>,
    calls: map<nat, Call>)

  const INITIAL := State([], map[], map[], {}, map[])

  datatype Step =
    | Count(connect: nat)
    | ReadRow(connect: nat, row: Row)
    | Build(connect: nat)
    | Answer(connect: nat, handle: Handle, credential: string)
    | Fail(connect: nat)
    | Record(edit: Edit)
    | Snapshot(number: nat)
    | Remove(number: nat, handle: Handle)
    | Return(number: nat)
    | Drop(handle: Handle)

  ghost predicate SlotTaken(s: State, row: Row, credential: string) {
    exists h :: h in s.registered && h in s.clients && s.clients[h].row.slug == row.slug && s.clients[h].credential == credential
  }

  predicate Enabled(s: State, e: Step) {
    match e
    case Count(c) => c !in s.connects
    case ReadRow(c, _) => c in s.connects && s.connects[c].Counted?
    case Build(c) => c in s.connects && s.connects[c].Read?
    case Answer(c, h, _) => c in s.connects && s.connects[c].Built? && h !in s.clients
    case Fail(c) => c in s.connects
    case Record(_) => true
    case Snapshot(m) => m in s.calls && s.calls[m].Recorded?
    case Remove(m, h) => m in s.calls && s.calls[m].Removing? && h in s.calls[m].todo
    case Return(m) => m in s.calls && s.calls[m].Removing? && s.calls[m].todo == {}
    case Drop(h) => h in s.registered
  }

  ghost function BuiltFrom(s: State, key: Key): set<Handle> {
    set h | h in s.registered && h in s.clients && Matches(key, s.clients[h].row)
  }

  ghost function Next(s: State, e: Step): State
    requires Enabled(s, e)
  {
    match e
    case Count(c) => s.(connects := s.connects[c := Counted(|s.log|)])
    case ReadRow(c, row) => s.(connects := s.connects[c := Read(s.connects[c].edits, row, |s.log|)])
    case Build(c) =>
      var x := s.connects[c];
      if EditedAfter(s.log, x.row, x.edits) then s.(connects := s.connects[c := Counted(|s.log|)])
      else s.(connects := s.connects[c := Built(x.edits, x.row, x.readAt)])
    case Answer(c, h, credential) =>
      var x := s.connects[c];
      if EditedAfter(s.log, x.row, x.edits) then s.(connects := s.connects[c := Counted(|s.log|)])
      else
        s.(connects := s.connects - {c},
           clients := s.clients[h := Client(x.row, credential, x.edits, x.readAt)],
           registered := if SlotTaken(s, x.row, credential) then s.registered else s.registered + {h})
    case Fail(c) => s.(connects := s.connects - {c})
    case Record(edit) => s.(log := s.log + [edit], calls := if edit.removes then s.calls[|s.log| + 1 := Recorded] else s.calls)
    case Snapshot(m) =>
      s.(calls := s.calls[m := Removing(if 1 <= m <= |s.log| then BuiltFrom(s, s.log[m - 1].key) else {})])
    case Remove(m, h) => s.(registered := s.registered - {h}, calls := s.calls[m := Removing(s.calls[m].todo - {h})])
    case Return(m) => s.(calls := s.calls - {m})
    case Drop(h) => s.(registered := s.registered - {h})
  }

  // ---- What every step keeps ----

  predicate Ordered(x: Connect, edits: nat) {
    x.edits <= edits && (!x.Counted? ==> x.edits <= x.readAt <= edits)
  }

  /** A client from before an edit that removes it is one the edit's call has yet to remove. */
  ghost predicate Answered(s: State, h: Handle, m: nat)
    requires h in s.clients && 1 <= m <= |s.log|
  {
    s.log[m - 1].removes && Matches(s.log[m - 1].key, s.clients[h].row) && s.clients[h].edits < m ==>
      m in s.calls && (s.calls[m].Recorded? || h in s.calls[m].todo)
  }

  ghost predicate Inv(s: State) {
    && (forall c :: c in s.connects ==> Ordered(s.connects[c], |s.log|))
    && (forall h :: h in s.clients ==> s.clients[h].edits <= s.clients[h].readAt)
    && (forall h :: h in s.registered ==> h in s.clients)
    && (forall m :: m in s.calls ==> 1 <= m <= |s.log|)
    && (forall h, m :: h in s.registered && 1 <= m <= |s.log| ==> Answered(s, h, m))
  }

  lemma RecordKeeps(s: State, e: Step)
    requires Inv(s) && e.Record?
    ensures Inv(Next(s, e))
  {
    var t := Next(s, e);
    forall h, m | h in t.registered && 1 <= m <= |t.log| ensures Answered(t, h, m) {
      if m <= |s.log| {
        assert Answered(s, h, m) && t.log[m - 1] == s.log[m - 1];
      }
    }
  }

  lemma AnswerKeeps(s: State, e: Step)
    requires Inv(s) && e.Answer? && Enabled(s, e)
    ensures Inv(Next(s, e))
  {
    var t, x := Next(s, e), s.connects[e.connect];
    forall h, m | h in t.registered && 1 <= m <= |t.log| ensures Answered(t, h, m) {
      if h in s.registered {
        assert Answered(s, h, m);
      } else if Matches(s.log[m - 1].key, x.row) {
        assert !EditedAfter(s.log, x.row, x.edits) && Hits(s.log, m, x.row);
      }
    }
  }

  lemma CallKeeps(s: State, e: Step)
    requires Inv(s) && (e.Snapshot? || e.Remove? || e.Return? || e.Drop?) && Enabled(s, e)
    ensures Inv(Next(s, e))
  {
    var t := Next(s, e);
    forall h, m | h in t.registered && 1 <= m <= |t.log| ensures Answered(t, h, m) {
      assert Answered(s, h, m);
    }
  }

  lemma ConnectKeeps(s: State, e: Step)
    requires Inv(s) && (e.Count? || e.ReadRow? || e.Build? || e.Fail?) && Enabled(s, e)
    ensures Inv(Next(s, e))
  {
    var t := Next(s, e);
    forall h, m | h in t.registered && 1 <= m <= |t.log| ensures Answered(t, h, m) {
      assert Answered(s, h, m);
    }
  }

  lemma NextKeeps(s: State, e: Step)
    requires Inv(s) && Enabled(s, e)
    ensures Inv(Next(s, e))
  {
    match e
    case Record(_) => RecordKeeps(s, e);
    case Answer(_, _, _) => AnswerKeeps(s, e);
    case Snapshot(_) => CallKeeps(s, e);
    case Remove(_, _) => CallKeeps(s, e);
    case Return(_) => CallKeeps(s, e);
    case Drop(_) => CallKeeps(s, e);
    case _ => ConnectKeeps(s, e);
  }

  // ---- Over whole runs ----

  ghost predicate Runs(s: State, steps: seq<Step>)
    decreases |steps|
  {
    steps == [] || (Enabled(s, steps[0]) && Runs(Next(s, steps[0]), steps[1..]))
  }

  ghost function After(s: State, steps: seq<Step>): State
    requires Runs(s, steps)
    decreases |steps|
  {
    if steps == [] then s else After(Next(s, steps[0]), steps[1..])
  }

  lemma {:induction false} RunKeeps(s: State, steps: seq<Step>)
    requires Inv(s) && Runs(s, steps)
    ensures Inv(After(s, steps))
    decreases |steps|
  {
    if steps != [] {
      NextKeeps(s, steps[0]);
      RunKeeps(Next(s, steps[0]), steps[1..]);
    }
  }

  /** In every run, once an edit's call has returned, whatever connects were in flight, no registered client of the row
      it was to has its row from before the edit. */
  lemma EditSettles(steps: seq<Step>, m: nat, h: Handle)
    requires Runs(INITIAL, steps)
    requires var s := After(INITIAL, steps);
             && 1 <= m <= |s.log| && s.log[m - 1].removes && m !in s.calls
             && h in s.registered && h in s.clients && Matches(s.log[m - 1].key, s.clients[h].row)
    ensures After(INITIAL, steps).clients[h].readAt >= m
  {
    RunKeeps(INITIAL, steps);
    assert Answered(After(INITIAL, steps), h, m);
  }
}
