/** The display names a connection has read:  the ids not yet seen are read together, the batch halved for good whenever the server takes
    it as too many. */
module DisplayNames {
  import opened Options

  type Id = nat

  /** A Read's outcome:  refused as too many operations, refused otherwise, or a result per node, a name or none. */
  datatype Reply = TooMany | Refused | Results(results: seq<Option<string>>)

  /** The server:  what it answers the i-th request with. */
  type Server = (nat, seq<Id>) -> Reply

  function Pow2(n: nat): (r: nat)
    ensures r >= 1
  {
    if n == 0 then 1 else 2 * Pow2(n - 1)
  }

  function Flatten(taken: seq<seq<Id>>): seq<Id> {
    if taken == [] then [] else Flatten(taken[..|taken| - 1]) + taken[|taken| - 1]
  }

  function Append(taken: seq<seq<Id>>, asked: seq<Id>): (r: seq<seq<Id>>)
    ensures |r| == |taken| + 1 && Flatten(r) == Flatten(taken) + asked
    ensures forall x :: x in r <==> x in taken || x == asked
  {
    assert (taken + [asked])[..|taken|] == taken;
    taken + [asked]
  }

  /** Reads of more than `limit` nodes are refused as too many, and no others are refused at all. */
  ghost predicate Limited(server: Server, limit: nat) {
    forall i, ids :: (server(i, ids).TooMany? <==> |ids| > limit) && !server(i, ids).Refused?
  }

  /** Every result is the node's own name, or none where the node has none. */
  ghost predicate Truthful(server: Server, names: Id -> Option<string>) {
    forall i, ids :: server(i, ids).Results? ==>
                       |server(i, ids).results| == |ids| && forall j :: 0 <= j < |ids| ==> server(i, ids).results[j] == names(ids[j])
  }

  function Name(names: map<Id, string>, id: Id): Option<string> {
    if id in names then Some(names[id]) else None
  }

  /** The names of the read's results, over those already found. */
  ghost predicate Added(found: map<Id, string>, y: map<Id, string>, asked: seq<Id>, results: seq<Option<string>>) {
    && (forall id :: id in found ==> id in y && y[id] == found[id])
    && (forall id :: id in y && id !in found ==>
          exists j :: 0 <= j < |asked| && j < |results| && asked[j] == id && results[j] == Some(y[id]))
    && (forall j :: 0 <= j < |asked| && j < |results| && results[j].Some? ==> asked[j] in y)
  }

  /** An accepted read's names:  the first result for an id stands, and an id past the results has none. */
  method Take(found: map<Id, string>, asked: seq<Id>, results: seq<Option<string>>) returns (y: map<Id, string>)
    ensures Added(found, y, asked, results)
  {
    y := found;
    var i := 0;
    while i < |asked| && i < |results|
      invariant 0 <= i <= |asked| && i <= |results|
      invariant forall id :: id in found ==> id in y && y[id] == found[id]
      invariant forall id :: id in y && id !in found ==> exists j :: 0 <= j < i && asked[j] == id && results[j] == Some(y[id])
      invariant forall j :: 0 <= j < i && results[j].Some? ==> asked[j] in y
    {
      if results[i].Some? && asked[i] !in y {
        y := y[asked[i] := results[i].value];
      }
      i := i + 1;
    }
  }

  /** Room for the refusals so far. */
  predicate Slack(batch: nat, refusals: nat, n: nat) {
    batch * Pow2(refusals) <= n
  }

  /** Half of a refused request, where a request is of two ids or more. */
  lemma Halved(batch: nat, asked: nat, refusals: nat, n: nat)
    requires 2 <= asked <= batch && Slack(batch, refusals, n)
    ensures 1 <= asked / 2 && Slack(asked / 2, refusals + 1, n)
  {
    calc {
      asked / 2 * Pow2(refusals + 1);
      asked / 2 * 2 * Pow2(refusals);
    <= { MulLe(asked / 2 * 2, batch, Pow2(refusals)); }
      batch * Pow2(refusals);
    }
  }

  lemma SlackPow(batch: nat, refusals: nat, n: nat)
    requires batch >= 1 && Slack(batch, refusals, n)
    ensures Pow2(refusals) <= n
  {
    MulLe(1, batch, Pow2(refusals));
  }

  lemma MulLe(a: nat, b: nat, c: nat)
    requires a <= b
    ensures a * c <= b * c
  {
  }

  /** Every accepted read but the last is half the limit, rounded up, or more. */
  predicate Paced(taken: nat, limit: nat, start: nat, batch: nat, n: nat) {
    var chunk := (limit + 1) / 2;
    && (batch >= chunk || batch == n)
    && (start < n ==> start >= taken * chunk)
    && (start == n && n > 0 ==> taken >= 1 && (taken - 1) * chunk < n)
  }

  lemma PacedHalved(taken: nat, limit: nat, start: nat, batch: nat, n: nat, asked: nat)
    requires Paced(taken, limit, start, batch, n) && asked > limit
    ensures Paced(taken, limit, start, asked / 2, n)
  {
  }

  lemma PacedTaken(taken: nat, limit: nat, start: nat, batch: nat, n: nat, asked: nat)
    requires Paced(taken, limit, start, batch, n) && start < n && asked == (if start + batch <= n then batch else n - start)
    ensures Paced(taken + 1, limit, start + asked, batch, n)
  {
    var chunk := (limit + 1) / 2;
    assert (taken + 1) * chunk == taken * chunk + chunk;
    assert batch < chunk ==> start + asked == n;
  }

  predicate InReach(names: map<Id, string>, ids: seq<Id>) {
    forall id :: id in names ==> id in ids
  }

  /** What the names found so far are, of an honest server with no other refusals:  every name of the ids read, and no other. */
  ghost predicate Exactly(found: map<Id, string>, ids: seq<Id>, names: Id -> Option<string>) {
    forall id :: Name(found, id) == if id in ids then names(id) else None
  }

  lemma TakeExactly(found: map<Id, string>, y: map<Id, string>, read: seq<Id>, asked: seq<Id>, results: seq<Option<string>>,
                    names: Id -> Option<string>)
    requires Exactly(found, read, names)
    requires |results| == |asked| && forall j :: 0 <= j < |asked| ==> results[j] == names(asked[j])
    requires Added(found, y, asked, results)
    ensures Exactly(y, read + asked, names)
  {
    forall id ensures Name(y, id) == if id in read + asked then names(id) else None {
      assert id in read + asked <==> id in read || id in asked;
      assert Name(found, id) == if id in read then names(id) else None;
      if id in asked {
        var j :| 0 <= j < |asked| && asked[j] == id;
        assert results[j] == names(id);
      }
    }
  }

  /** What one read sent at `i` adds. */
  lemma ReadExactly(found: map<Id, string>, y: map<Id, string>, read: seq<Id>, asked: seq<Id>, server: Server, i: nat,
                    limit: nat, names: Id -> Option<string>)
    requires Limited(server, limit) && Truthful(server, names) && |asked| <= limit
    requires Exactly(found, read, names) && (server(i, asked).Results? ==> Added(found, y, asked, server(i, asked).results))
    ensures Exactly(y, read + asked, names)
  {
    assert server(i, asked).Results?;
    TakeExactly(found, y, read, asked, server(i, asked).results, names);
  }

  /** One read's names, those of `missing[start..end]`, if the server answered them. */
  method Absorb(found: map<Id, string>, missing: seq<Id>, start: nat, end: nat, server: Server, i: nat, ghost limit: nat,
                ghost names: Id -> Option<string>)
    returns (y: map<Id, string>)
    requires start <= end <= |missing| && InReach(found, missing)
    requires server(i, missing[start..end]).TooMany? ==> end - start <= 1
    requires limit >= 1 && Limited(server, limit) && Truthful(server, names) ==> Exactly(found, missing[..start], names)
    ensures InReach(y, missing)
    ensures missing[..end] == missing[..start] + missing[start..end]
    ensures limit >= 1 && Limited(server, limit) && Truthful(server, names) ==> Exactly(y, missing[..end], names)
  {
    var asked := missing[start..end];
    var reply := server(i, asked);
    y := found;
    if reply.Results? {
      y := Take(found, asked, reply.results);
    }
    assert missing[..end] == missing[..start] + asked;
    if limit >= 1 && Limited(server, limit) && Truthful(server, names) {
      ReadExactly(found, y, missing[..start], asked, server, i, limit, names);
    }
  }

  class DisplayNameCache {
    var names: map<Id, string>

    constructor ()
      ensures names == map[]
    {
      names := map[];
    }

    /** The names held of `ids`, and the ids there is none for, in order. */
    method Find(ids: seq<Id>) returns (y: map<Id, string>, missing: seq<Id>)
      ensures forall id :: Name(y, id) == if id in ids then Name(names, id) else None
      ensures missing == Missing(names, ids)
    {
      y, missing := map[], [];
      for i := 0 to |ids|
        invariant forall id :: Name(y, id) == if id in ids[..i] then Name(names, id) else None
        invariant missing == Missing(names, ids[..i])
      {
        assert ids[..i + 1] == ids[..i] + [ids[i]];
        if ids[i] in names {
          y := y[ids[i] := names[ids[i]]];
        } else {
          missing := missing + [ids[i]];
        }
      }
      assert ids[..|ids|] == ids;
    }

    /** A name found stands in for one held, and no other name changes. */
    method Add(found: map<Id, string>)
      modifies this
      ensures forall id :: Name(names, id) == if id in found then Some(found[id]) else Name(old(names), id)
    {
      var todo := found.Keys;
      while todo != {}
        invariant todo <= found.Keys
        invariant forall id :: Name(names, id) == if id in found && id !in todo then Some(found[id]) else Name(old(names), id)
        decreases todo
      {
        var id :| id in todo;
        names := names[id := found[id]];
        todo := todo - {id};
      }
    }

    /** Every id gets the name held for it, or of a server that takes some number of nodes a read, its own. */
    method Get(ids: seq<Id>, server: Server, ghost limit: nat, ghost truth: Id -> Option<string>) returns (y: map<Id, string>)
      modifies this
      ensures forall id :: id in ids && id in old(names) ==> Name(y, id) == Name(old(names), id)
      ensures limit >= 1 && Limited(server, limit) && Truthful(server, truth) ==>
                forall id :: Name(y, id) == if id !in ids then None else if id in old(names) then Name(old(names), id) else truth(id)
    {
      var missing;
      y, missing := Find(ids);
      forall id ensures id in missing <==> id in ids && id !in names {
        MissingHas(names, ids, id);
      }
      if missing == [] {
        return;
      }
      var found, taken, refused := Fetch(missing, server, limit, truth);
      Add(found);
      y, missing := Find(ids);
      if limit >= 1 && Limited(server, limit) && Truthful(server, truth) {
        assert forall id :: Name(found, id) == if id in ids && id !in old(names) then truth(id) else None;
      }
    }

    /** Asked for again, the name is read again. */
    method Erase(id: Id)
      modifies this
      ensures forall other :: Name(names, other) == if other == id then None else Name(old(names), other)
    {
      names := names - {id};
    }
  }

  function Missing(names: map<Id, string>, ids: seq<Id>): seq<Id> {
    if ids == [] then [] else
      Missing(names, ids[..|ids| - 1]) + if ids[|ids| - 1] in names then [] else [ids[|ids| - 1]]
  }

  lemma {:induction false} MissingHas(names: map<Id, string>, ids: seq<Id>, id: Id)
    ensures id in Missing(names, ids) <==> id in ids && id !in names
  {
    if ids != [] {
      MissingHas(names, ids[..|ids| - 1], id);
      assert ids == ids[..|ids| - 1] + [ids[|ids| - 1]];
    }
  }

  /** Reads the missing ids, the requests sent answered one by one.  Whatever the server does, each id is in exactly one
      read not sent again, in order, and the ids halve at most log2 of their number of times.  Of a server that takes up
      to `limit` nodes a read, every name is found in at most as many reads as chunks of half the limit, rounded up. */
  method Fetch(missing: seq<Id>, server: Server, ghost limit: nat, ghost names: Id -> Option<string>)
    returns (found: map<Id, string>, taken: seq<seq<Id>>, refused: seq<seq<Id>>)
    ensures Flatten(taken) == missing && forall r :: r in taken ==> r != []
    ensures missing != [] ==> Pow2(|refused|) <= |missing|
    ensures missing == [] ==> refused == []
    ensures InReach(found, missing)
    ensures limit >= 1 && Limited(server, limit) && missing != [] ==>
              taken != [] && (|taken| - 1) * ((limit + 1) / 2) < |missing|
    ensures limit >= 1 && Limited(server, limit) && Truthful(server, names) ==> Exactly(found, missing, names)
  {
    found, taken, refused := map[], [], [];
    var n := |missing|;
    var batch: nat, start: nat := n, 0;
    while start < n
      invariant 0 <= start <= n && (n > 0 ==> batch >= 1)
      invariant Flatten(taken) == missing[..start] && forall r :: r in taken ==> r != []
      invariant n > 0 ==> Slack(batch, |refused|, n)
      invariant n == 0 ==> refused == []
      invariant InReach(found, missing)
      invariant limit >= 1 && Limited(server, limit) ==> Paced(|taken|, limit, start, batch, n)
      invariant limit >= 1 && Limited(server, limit) && Truthful(server, names) ==> Exactly(found, missing[..start], names)
      decreases n - start, batch
    {
      var end := if start + batch <= n then start + batch else n;
      var asked := missing[start..end];
      var reply := server(|taken| + |refused|, asked);
      if reply.TooMany? && |asked| > 1 {
        Halved(batch, |asked|, |refused|, n);
        if limit >= 1 && Limited(server, limit) {
          PacedHalved(|taken|, limit, start, batch, n, |asked|);
        }
        batch := |asked| / 2;
        refused := refused + [asked];
      } else {
        found := Absorb(found, missing, start, end, server, |taken| + |refused|, limit, names);
        if limit >= 1 && Limited(server, limit) {
          PacedTaken(|taken|, limit, start, batch, n, |asked|);
        }
        taken, start := Append(taken, asked), end;
      }
    }
    if n > 0 {
      SlackPow(batch, |refused|, n);
    }
    assert missing[..n] == missing;
  }
}
