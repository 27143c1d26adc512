# Verified models of the OPC hub's hard parts

Dafny models of six parts of the hub, and proofs about every input or every run of each.  Each model has the form of the code it follows:  what the
code updates in place is a class or a method with loops, what it computes is a function, and what several threads or strands do together is a state
machine whose steps are the critical sections and handlers of the code.  `dafny verify dfyconfig.toml` checks the whole project.

## What is modelled

**The access cache** (`Graphs`, `AccessTables`, `AccessCache`, `AccessHandlers`, `AccessPaths`, `AccessHolders`, `Authorize`, `CycleGuard`).  Every
user's rights are cached, and twenty-two event handlers keep them current as users, groups, roles, permissions and grants come and go.  Groups nest in
groups and roles in roles, and the data may loop.  The reference is `EntitledKeys`:  the permissions some acl row grants an identity from which live
groups lead to the user, through live roles.  `Authorize.Run` says that after any run of events the cached users are exactly what a load of the
remaining rows would give, although most handlers rebuild only the users they reach and some rebuild none.  One handler can leave the cache behind,
and its contract says exactly when.  The two enumerations that explain rights,
by identity and by resource, are proved to agree with the cache and with each other, source by source, path by path and in order.  The guards against
cycles are proved exact.

**Subscriptions that survive** (`Subscriptions`, `SubscriptionShape`, `SubscriptionLoss`, `SubscriptionKept`, `SubscriptionSurvival`,
`SubscriptionChains`, `SubscriptionClose`, `SubscriptionReturn`, `SubscriptionRevival`, `SubscriptionStore`).  A listener's monitored nodes move between clients, `pending` (parked for a reconnect chain) and `rebuilds` (being put back) as
connections die, sessions are dropped, rows are edited and sessions close.  Twenty-five kinds of step interleave freely.  Proved of every run:  a
subscription survives until it ends lawfully, unless one of two exactly stated events comes; one reconnect chain runs per parked entry with the
promised back-off; and a listener that unsubscribes is gone when the call returns and stays gone until, and only until, a step takes the items of a
client a create has it on.

**The websocket** (`Socket`).  One strand's write queue, the off-strand closing flag, the parked close and its deadline:  writes and the close never
overlap, frames start in the order accepted, none starts after the close's handler has run, the close completes once, and with its deadline set it is
a bounded number of steps away, none of them the peer's.

**Lazy fetches and the crawl** (`Lazy`, `DisplayNames`, `Crawl`, `CrawlDepth`, `CrawlRun`).  Single flight and exactly-once answers; a batch that is halved on refusal, with its
bounds; a breadth-first crawl with retries, batch shrinking and caps, which ends within its request budget whatever the server answers, and against a
fixed address space indexes exactly what is reachable, breadth first:  where nothing is asked twice an entry's depth is its node's distance.

**Durations** (`Durations`).  The ISO 8601 parser accepts exactly a grammar, with exactly its value, and undoes the printer.

**Registrations** (`Claims`, `Edits`).  Instance claims keep conflicting sockets apart; connection edits and connects in flight linearize.

## What the proofs found

- A role grant on a resource the cache cannot resolve puts a permission that is not cached in the role.  Granted to someone else later, the permission
  is cached and only those the new grant reaches are rebuilt.  `Authorize.AddAclPermission` is in step afterwards if and only if the permission was
  cached or nothing had named it for anyone else; `Authorization.UnresolvedGrantGoesStale` drives the two handlers into the failure from any state.
  Every other event of the twenty-two is unconditional but for the shared pk space of users and groups.
- An edit can take a client's items after its rebuild has read what to create and before it submits the create.  Answered well, the create strands the
  pair on a client that is down:  `SubscriptionLoss.Stranded` is the run, `SubscriptionKept.StrandedExact` the condition, and
  `SubscriptionKept.NextClean` says that nothing is ever on such a client unless a create is submitted to one.
- A pair dropped and subscribed anew while an older create for it is on its way is taken off by that create's answer:
  `SubscriptionSurvival.TakenAnew` is the run and `SubscriptionKept.WatchedExact` the condition.  Without these two events
  `SubscriptionSurvival.Survives` holds of every run.
- A session dropped between the two halves of an Unsubscribe call hands its pairs to a rebuild that both halves pass by (`SubscriptionRevival.Revived`,
  with `SubscriptionRevival.AnswerExact`).  And a create submitted after the call has returned, for what its rebuild had read before, joins another
  listener's item; should the client then be lost, the listener is parked again (`SubscriptionRevival.Rejoined`, with the exact condition in
  `SubscriptionReturn.StaysGone`).
- A write error's hook that writes puts two writes out at once if and only if no close has come first (`Socket.HookWrites`).  A close is left
  without a deadline if and only if its handler finds a write outstanding on a stream that is not open (`Socket.Undeadlined`).  `Socket.TwoWrites` and
  `Socket.LeftUndeadlined` are the runs.
- A session evicted by a registration on its host and port, and not yet closed, is invisible to the claim check:  `Claims.EvictedStands` is the run, and
  `Claims.StandExact` says exactly when a step leaves two sockets that claim, or are published and open, in conflict.
- Two registrations in flight on one socket share one claim.  A claim guards a publication if and only if it covers it (`Claims.CoverExact`,
  `Claims.PublishApart`); `Claims.TwoInFlight` and `Claims.FirstReleased` are runs in which it does not.

## Model

| member | source | states |
|---|---|---|
| `Graphs.VisitReaches` | libs/access/src/Authorize.cpp:684-705 | on any finite graph, loops included, the walk that enters each node once enters exactly the expandable nodes reachable from its start |
| `Graphs.LeaveForGood` | libs/access/src/Authorize.cpp:739-775 | a node the enumeration is to reach can be reached without coming back onto the path, which is why the on-path guard loses nothing |
| `AccessTables.AfterWellFormed` | libs/access/src/Authorize.cpp:440-443 | every event whose new pks are apart keeps user and group pks apart wherever they are named |
| `AccessCache.OrIntoSane` | libs/access/src/types/User.cpp:23-32 | or'ing a permission in leaves the rights the or of the permissions held, one more among them |
| `AccessCache.AddUserPermissions` | libs/access/src/Authorize.cpp:696-705 | a grant adds to a user exactly the permissions reachable through live roles not yet visited |
| `AccessCache.AddPermission` | libs/access/src/Authorize.cpp:684-695 | exactly the filtered users reachable through live groups gain exactly what the grant comes to, all others unchanged |
| `AccessCache.RecursiveUsers` | libs/access/src/Authorize.cpp:297-315 | the users under a group through live groups, each cleared and no other |
| `AccessCache.SetUserPermissions` | libs/access/src/Authorize.cpp:718-721 | every filtered user gains exactly what all acl rows entitle it to; an empty filter is everybody |
| `AccessCache.Recalc` | libs/access/src/Authorize.cpp:713-717 | every user's cache is what the rows entitle it to, whatever was cached |
| `AccessCache.RebuiltInStep` | libs/access/src/Authorize.cpp:718-721 | after a rebuild of some users everyone is in step if and only if whoever was left alone is |
| `AccessHandlers.RecalcGroup` | libs/access/src/Authorize.cpp:376-382 | exactly the users under the group end with what the rows entitle them to, every other as it was |
| `AccessHandlers.JoinGroup` | libs/access/src/Authorize.cpp:317-338 | members added and only the users they reach rebuilt leave every user in step |
| `AccessHandlers.LeaveGroup` | libs/access/src/Authorize.cpp:343-365 | members taken out and only the users they reached rebuilt leave every user in step |
| `AccessHandlers.LateEntitlement` | libs/access/src/Authorize.cpp:391-410 | a permission granted to an identity that does not reach a user leaves the user right if and only if it was cached as it stands or nothing named it for the user |
| `AccessHandlers.GrantPermission` | libs/access/src/Authorize.cpp:391-410 | the rows with the grant, and everyone in step if and only if the permission was cached or nothing had named it for anyone the identity does not reach |
| `AccessHandlers.DeletedRolePurged` | libs/access/src/Authorize.cpp:664-678 | purging a role that was already deleted needs no recalculation |
| `AccessHandlers.PermissionRerated` | libs/access/src/Authorize.cpp:706-712 | re-or'ing each holder's permissions leaves every user in step with the changed permission |
| `AccessHandlers.Rerate` | libs/access/src/types/User.cpp:7-21 | each user re-rated in turn, the changed permission and everyone in step with it |
| `AccessHandlers.ResourcePurged` | libs/access/src/Authorize.cpp:450-481 | dropping only the purged resource's entries from each user gives exactly what a full recalculation on the remaining rows would |
| `Authorization.Authorize.constructor` | libs/access/src/Authorize.cpp:30-42 | a loaded snapshot is in step |
| `Authorization.Authorize.CreateUser` | libs/access/src/Authorize.cpp:506-512 | a new user, or a rename, keeps the cache in step with the rows |
| `Authorization.Authorize.RenameUser` | libs/access/src/Authorize.cpp:513-517 | an unknown user is ignored; the cache stays in step |
| `Authorization.Authorize.DeleteUser` | libs/access/src/Authorize.cpp:518-523 | the mark only; the cache stays in step |
| `Authorization.Authorize.PurgeIdentity` | libs/access/src/Authorize.cpp:524-528 | an identity's acl rows and memberships go, and no other identity's rights change |
| `Authorization.Authorize.PurgeUser` | libs/access/src/Authorize.cpp:529-533 | the row, its grants and its memberships go; the cache stays in step |
| `Authorization.Authorize.RestoreUser` | libs/access/src/Authorize.cpp:534-538 | the mark only; the cache stays in step |
| `Authorization.Authorize.CreateGroup` | libs/access/src/Authorize.cpp:339-342 | a group that is there is kept; the cache stays in step |
| `Authorization.Authorize.AddToGroup` | libs/access/src/Authorize.cpp:317-338 | members join, the group made if missing; the cache stays in step |
| `Authorization.Authorize.RemoveFromGroup` | libs/access/src/Authorize.cpp:343-365 | members leave; the cache stays in step |
| `Authorization.Authorize.RestoreGroup` | libs/access/src/Authorize.cpp:368-374 | the group counts again; the cache stays in step |
| `Authorization.Authorize.DeleteGroup` | libs/access/src/Authorize.cpp:539-548 | the group counts no more; the cache stays in step |
| `Authorization.Authorize.PurgeGroup` | libs/access/src/Authorize.cpp:563-573 | the group, its grants and its memberships go; the cache stays in step |
| `Authorization.Authorize.AddAclPermission` | libs/access/src/Authorize.cpp:391-410 | the rows with the grant, in every state; the cache in step if and only if the permission was cached or nothing had named it for anyone else |
| `Authorization.Authorize.AddAclRole` | libs/access/src/Authorize.cpp:412-420 | a role granted; the cache stays in step |
| `Authorization.Authorize.RemoveAcl` | libs/access/src/Authorize.cpp:421-438 | a grant revoked, what other rows still grant kept; the cache stays in step |
| `Authorization.Authorize.AddRolePermission` | libs/access/src/Authorize.cpp:597-634 | a role's permission, on a cached resource, on a row it caches or on one it cannot resolve; the cache stays in step |
| `Authorization.Authorize.AddRoleChildren` | libs/access/src/Authorize.cpp:635-643 | the role made if missing; the cache stays in step |
| `Authorization.Authorize.RemoveRoleChildren` | libs/access/src/Authorize.cpp:645-656 | the cache stays in step |
| `Authorization.Authorize.MarkRole` | libs/access/src/Authorize.cpp:658-663 | the cache stays in step, a missing role's recalculation included |
| `Authorization.Authorize.PurgeRole` | libs/access/src/Authorize.cpp:664-678 | the role goes from roles and acl; the cache stays in step |
| `Authorization.Authorize.UpdatePermission` | libs/access/src/Authorize.cpp:706-712 | the error exactly for an unknown permission; else the new rights, the cache in step |
| `Authorization.Authorize.CreateResource` | libs/access/src/Authorize.cpp:445-449 | a resource row changes nobody's rights |
| `Authorization.Authorize.PurgeResource` | libs/access/src/Authorize.cpp:450-481 | the resource, its permissions and what names them go; the cache stays in step |
| `Authorization.Authorize.UserRights` | libs/access/src/Authorize.cpp:726-730 | a live user's rights, or'd up from the sources enumerated, are exactly the rights cached for enforcement; a deleted or unknown user has none |
| `Authorization.Authorize.GroupRights` | libs/access/src/Authorize.cpp:731-735 | a live group's rights are the or of the permissions granted to it through live groups and roles; a deleted or unknown one has none |
| `Authorization.Authorize.Holders` | libs/access/src/Authorize.cpp:787-872 | none exactly for a resource not cached; else each live user and group has the very sources, paths and order its own query gives, every user the rights enforced, and nobody else appears |
| `Authorization.Authorize.Handle` | libs/access/src/Authorize.cpp:293-717 | any one event leaves the rows the event's and the cache in step |
| `Authorization.Authorize.Run` | libs/access/src/Authorize.cpp:293-721 | after any run of events the cached users equal a fresh load of the remaining rows |
| `Authorization.InStepLoaded` | libs/access/src/Authorize.cpp:30-42 | in step means equal to a fresh load, masks and permissions alike |
| `Authorization.UnresolvedNames` | libs/access/src/Authorize.cpp:626-631 | after a role grant that was not resolved, a grant of its permission to another user is one that leaves the cache behind |
| `Authorization.UnresolvedGrantGoesStale` | libs/access/src/Authorize.cpp:597-634 | from any state in step the two handlers, one after the other, end with the cache out of step |
| `AccessPaths.ExpandComplete` | libs/access/src/Authorize.cpp:739-759 | the role walk finds every cached permission that can be reached off the path |
| `AccessPaths.ReachComplete` | libs/access/src/Authorize.cpp:761-775 | the group walk finds the target, with each permission the grant comes to, whenever it can be reached off the path |
| `AccessPaths.AllFoundSound` | libs/access/src/Authorize.cpp:777-785 | every source found is of a row that grants it, with the permission's present masks |
| `AccessPaths.AllFoundComplete` | libs/access/src/Authorize.cpp:777-785 | every permission a row grants the target is found |
| `AccessPaths.SourcesOr` | libs/access/src/Authorize.cpp:736-786 | the sources on a resource or up to the or of the permissions granted there |
| `AccessPaths.IdentityRights` | libs/access/src/Authorize.cpp:736-786 | one identity's resources, sources and rights, exactly those granted |
| `AccessPaths.ReachAlong` | libs/access/src/Authorize.cpp:834-854 | expanding a grant at each target is expanding it once and carrying it along every way there, in the same order |
| `AccessHolders.ExpandRole` | libs/access/src/Authorize.cpp:803-818 | a role's sources on the resource, in the enumeration's order, without the role itself |
| `AccessHolders.RoleHolders` | libs/access/src/Authorize.cpp:819-833 | exactly the live roles with a source on the resource, each with its sources |
| `AccessHolders.ReachHolders` | libs/access/src/Authorize.cpp:834-855 | each live identity reached gains the sources under each way to it, in order, and nobody else any |
| `AccessHolders.SourcesForGrant` | libs/access/src/Authorize.cpp:856-870 | a role's sources with the role put back at their head are what its own expansion gives |
| `AccessHolders.RowGain` | libs/access/src/Authorize.cpp:856-870 | what one acl row adds to a holder is what that holder's own query finds from the row |
| `AccessHolders.ResourceHolders` | libs/access/src/Authorize.cpp:787-872 | the transpose of the identity query for every identity, and the roles beside it |
| `CycleGuard.IsChild` | libs/access/src/types/Group.cpp:5-18 | the search finds only what is under the parent, and having failed has looked at everything under it, however the data loops |
| `CycleGuard.TestAddRoleMember` | libs/access/src/Authorize.cpp:575-591 | refuses exactly when the parent is the child or under it |
| `CycleGuard.TestAddGroupMember` | libs/access/src/Authorize.cpp:550-562 | refuses exactly when the parent is a user, or is or is under a member that is a group |
| `CycleGuard.RoleGuardExact` | libs/access/src/Authorize.cpp:635-643 | roles without a cycle stay so if and only if every child passes, even all added at once |
| `CycleGuard.GroupGuardExact` | libs/access/src/Authorize.cpp:317-338 | groups without a cycle stay so if and only if every member group passes |
| `Socket.NextKeeps` | include/jde/web/SocketCore.h:59-129 | every step keeps the machine's invariant |
| `Socket.SocketRun` | include/jde/web/SocketCore.h:59-129 | in every run at most one write or close is out, started frames are a prefix of accepted ones and only grow, nothing starts once the close's handler has run, and the close completes at most once, for the session that asked |
| `Socket.NeverFurther` | include/jde/web/SocketCore.h:86-129 | once closing, no step leads away from the close's completion |
| `Socket.Nearer` | include/jde/web/SocketCore.h:86-129 | a close not yet complete has a pending step that brings it strictly nearer |
| `Socket.NearerUnaided` | include/jde/web/SocketCore.h:92-104 | with the deadline set, such a step needs nothing of the peer |
| `Socket.Undeadlined` | include/jde/web/SocketCore.h:86-108 | exactly when a close is left without a deadline |
| `Socket.LeftUndeadlined` | include/jde/web/SocketCore.h:86-108 | a run of a new socket, for any frame and close, that leaves one so |
| `Socket.EndsUnaided` | include/jde/web/SocketCore.h:86-129 | from any closing state that has its deadline, or whose stream is open or idle when its handler runs, a run of at most the measure's steps, none the peer's, ends in OnClosed |
| `Socket.Drains` | include/jde/web/SocketCore.h:70-84 | with no close, every accepted frame goes out after as many completions as frames are queued |
| `Socket.HookWrites` | include/jde/web/SocketCore.h:70-84 | a write error's hook that writes keeps to one write out if and only if a close has come first |
| `Socket.TwoWrites` | include/jde/web/SocketCore.h:70-84 | a run of a new socket after which the hook's write leaves two writes out |
| `Socket.SocketCore.constructor` | include/jde/web/SocketCore.h:50-55 | starts in the machine's initial state |
| `Socket.SocketCore.Write` | include/jde/web/SocketCore.h:59-67 | posts the frame, whatever the state |
| `Socket.SocketCore.Queue` | include/jde/web/SocketCore.h:59-67 | dropped once a close was asked for, else queued, a write started if none is out |
| `Socket.SocketCore.DoWrite` | include/jde/web/SocketCore.h:70-84 | starts the head of the queue |
| `Socket.SocketCore.WriteDone` | include/jde/web/SocketCore.h:70-84 | the completion's step: next frame, parked close, or the error's hook |
| `Socket.SocketCore.Close` | include/jde/web/SocketCore.h:86-108 | only the first close posts its handler |
| `Socket.SocketCore.StartClose` | include/jde/web/SocketCore.h:86-108 | sets the deadline on an open stream, and closes now or parks behind the write that is out |
| `Socket.SocketCore.DoClose` | include/jde/web/SocketCore.h:111-129 | what is queued is dropped, and one close started, or completed at once on a stream not open or torn down |
| `Socket.SocketCore.CloseDone` | include/jde/web/SocketCore.h:111-129 | the close completes with its outcome and the deadline is cancelled |
| `Socket.SocketCore.Deadline` | include/jde/web/SocketCore.h:96-104 | the transport is closed under whatever is out |
| `Lazy.LazySlot.Start` | apps/OpcGateway/src/LazySlot.h:31-44 | launches unless one is out or stored without a refetch; the waiter is parked or answered from what is stored |
| `Lazy.LazySlot.Finish` | apps/OpcGateway/src/LazySlot.h:47-62 | every parked waiter is resumed, in order, with the outcome, and the slot settles |
| `Lazy.NextKeeps` | apps/OpcGateway/src/LazyCache.h:31-68 | every step keeps the invariant tying slots, fetches, parked waiters and answers together |
| `Lazy.SingleFlight` | apps/OpcGateway/src/LazyCache.h:45-68 | in every run one fetch at most is out per key, exactly while its slot is fetching, and a key in the map is never Empty |
| `Lazy.AnsweredOnce` | apps/OpcGateway/src/LazySlot.h:17-62 | every waiter is parked, posted or answered exactly once, while parked its fetch is out, and its answer is the outcome of the fetch it was promised |
| `Lazy.NextSettled` | apps/OpcGateway/src/LazySlot.h:31-62 | promises and outcomes are never changed, nor answers taken back |
| `Lazy.LazyCache.Find` | apps/OpcGateway/src/LazyCache.h:31-35 | a value exactly for a Ready entry, and it is the outcome of the key's latest fetch |
| `Lazy.LazyCache.StartLocked` | apps/OpcGateway/src/LazyCache.h:60-68 | the machine's start step, the slot made if missing; the invariant kept |
| `Lazy.LazyCache.Finish` | apps/OpcGateway/src/LazyCache.h:45-56 | the machine's end of a fetch; the slot is always found, a retryable failure is erased, the invariant kept |
| `DisplayNames.Take` | apps/OpcGateway/src/DisplayNameCache.cpp:62-66 | the first result for an id stands, an id past the results has none, nothing else changes |
| `DisplayNames.ReadExactly` | apps/OpcGateway/src/DisplayNameCache.cpp:39-71 | a read within the limit adds exactly the names the server has for its ids |
| `DisplayNames.Fetch` | apps/OpcGateway/src/DisplayNameCache.cpp:39-71 | every missing id is in exactly one read that stands, in order; refusals number at most log2 of the ids; reads at most the ids over half the server's limit, rounded up; of a truthful server exactly its names are found |
| `DisplayNames.MissingHas` | apps/OpcGateway/src/DisplayNameCache.cpp:7-17 | missing are exactly the ids asked for that no name is held for |
| `DisplayNames.DisplayNameCache.Find` | apps/OpcGateway/src/DisplayNameCache.cpp:7-17 | the names held of the ids, and the rest in order |
| `DisplayNames.DisplayNameCache.Add` | apps/OpcGateway/src/DisplayNameCache.cpp:18-22 | each name found stands in for one held, and no other name changes |
| `DisplayNames.DisplayNameCache.Get` | apps/OpcGateway/src/DisplayNameCache.cpp:27-71 | every id gets the name held for it, else the server's own |
| `Crawl.LevelTidy` | apps/OpcGateway/src/NodeIndex.cpp:95-169 | an answer keeps entries distinct and within the cap, and the nodes seen exactly those and Objects |
| `Crawl.LevelWithin` | apps/OpcGateway/src/NodeIndex.cpp:95-169 | an answer, a retry or a half-answered batch keeps each node's browses within two |
| `Crawl.LevelRight` | apps/OpcGateway/src/NodeIndex.cpp:95-169 | a faithful answer keeps every entry's path a chain of the space's references, and every node browsed fully covered |
| `Crawl.LevelSound` | apps/OpcGateway/src/NodeIndex.cpp:95-169 | an answer that says only what is so, in full or not, keeps every entry a reference of the root or of an earlier entry, whatever is cut short |
| `Crawl.LevelBatch` | apps/OpcGateway/src/NodeIndex.cpp:95-129 | the batch only shrinks, never below one |
| `CrawlRun.StepKeeps` | apps/OpcGateway/src/NodeIndex.cpp:67-178 | an answered request keeps the books and uses up some of a fixed budget |
| `Crawl.EntryReachable` | apps/OpcGateway/src/NodeIndex.cpp:137-168 | what is indexed is reachable from Objects over admissible references |
| `Crawl.AllReachable` | apps/OpcGateway/src/NodeIndex.cpp:137-168 | nothing unreachable is ever indexed |
| `Crawl.ReachableSeen` | apps/OpcGateway/src/NodeIndex.cpp:137-168 | what is reachable is seen once everything seen is expanded |
| `Crawl.Exact` | apps/OpcGateway/src/NodeIndex.cpp:67-178 | a crawl that was neither truncated nor capped indexes exactly the reachable nodes |
| `CrawlDepth.AllResultsLayers` | apps/OpcGateway/src/NodeIndex.cpp:109-169 | an answer nothing of which is asked again keeps the queue in layers, and everything a browsed node leads to within one layer of it |
| `CrawlDepth.Distances` | apps/OpcGateway/src/NodeIndex.cpp:155-168 | a complete crawl that asked nothing twice gives every entry its node's distance from Objects as depth, and holds exactly the nodes within max(1, maxDepth) |
| `CrawlRun.VisitRefs` | apps/OpcGateway/src/NodeIndex.cpp:137-168 | the loop over a node's references |
| `CrawlRun.OnAnswer` | apps/OpcGateway/src/NodeIndex.cpp:95-169 | the loop over an answer's results, what it left out first |
| `CrawlRun.Run` | apps/OpcGateway/src/NodeIndex.cpp:67-178 | for any answers at all the crawl ends: entries distinct and at most max(1, maxNodes), requests answered at most twice entries plus one, each node browsed at most twice, one refusal at most without an end, a lost session and a refused Objects reported exactly when they are the cause; against a fixed space every entry is reachable however the crawl is cut short, and a complete crawl holds exactly the reachable nodes, each path a chain; where nothing is asked twice each depth is a distance and the depth cap cuts off exactly what is farther |
| `Durations.FindUnit` | libs/fwk/src/chrono.cpp:25-75 | the one unit a designator names in its part |
| `Durations.NumberEnd` | libs/fwk/src/chrono.cpp:25-75 | where the number stops |
| `Durations.OneComponent` | libs/fwk/src/chrono.cpp:25-75 | one component read, or the error it stops with |
| `Durations.TryToDuration` | libs/fwk/src/chrono.cpp:25-75 | the loop parses as specified, errors included |
| `Durations.RenderReads` | libs/fwk/src/chrono.cpp:25-75 | whatever the grammar writes reads back as its total, or fails for range alone |
| `Durations.AcceptedRendered` | libs/fwk/src/chrono.cpp:25-75 | whatever is accepted is what the grammar writes, with that total |
| `Durations.ParseExact` | libs/fwk/src/chrono.cpp:25-75 | a text parses to a value if and only if it spells it |
| `Durations.UnitSplit` | include/jde/fwk/chrono.h:58-90 | truncating division splits a duration into whole units and a remainder on the same side of zero |
| `Durations.WrittenTotal` | include/jde/fwk/chrono.h:58-90 | the units printed add up again with no partial sum out of range |
| `Durations.RoundTrip` | include/jde/fwk/chrono.h:58-90 | for every duration, negative ones included, parsing what is printed gives it truncated toward zero to milliseconds |
| `Durations.Output` | include/jde/fwk/chrono.h:58-90 | one unit printed and taken off leaves the same text to come |
| `Durations.PrintSeconds` | include/jde/fwk/chrono.h:58-90 | seconds with up to three decimals, trailing zeros trimmed |
| `Durations.ToString` | include/jde/fwk/chrono.h:58-90 | the printer writes the text the round trip is about |
| `Claims.NextKeeps` | apps/AppServer/src/WebServer.cpp:57-115 | every step of a check, a publication, an eviction or a disconnect keeps holders apart, however many registrations are in flight, if what is published is covered by its socket's claim |
| `Claims.CoverExact` | apps/AppServer/src/WebServer.cpp:82-88 | a claim refuses everyone who conflicts with an instance if and only if it is that instance, but that it may have no port |
| `Claims.PublishApart` | apps/AppServer/src/ServerSocketSession.cpp:28-56 | a publication its socket's claim covers leaves the holders apart |
| `Claims.LegalGuarded` | apps/AppServer/src/ServerSocketSession.cpp:22-63 | with one registration in flight a socket every publication is covered |
| `Claims.NamesApart` | apps/AppServer/src/WebServer.cpp:81-108 | in every run with one registration in flight per socket, two holders of one application and instance name have the same resource, the same process or the same host and port |
| `Claims.StandExact` | apps/AppServer/src/WebServer.cpp:81-108 | sockets that claim, or are published and open, stay apart through a step if and only if it does not insert a claim that conflicts with a published, open session off the list |
| `Claims.StandRun` | apps/AppServer/src/WebServer.cpp:81-108 | so too over every run |
| `Claims.EvictedStands` | apps/AppServer/src/WebServer.cpp:57-71 | a run with one registration in flight a socket, for any such instances, in which a registration evicts a session and another then claims against it |
| `Claims.Uncovered` | apps/AppServer/src/ServerSocketSession.cpp:28-56 | whenever a lone socket is to publish what its claim does not cover, another can be let claim a rival and both then hold |
| `Claims.TwoInFlight` | apps/AppServer/src/ServerSocketSession.cpp:22-63 | a run with two registrations in flight on one socket, the second not covered by the first one's claim, that ends with two conflicting holders |
| `Claims.FirstReleased` | apps/AppServer/src/WebServer.cpp:75-80 | one instance registered twice:  the first to end takes the claim, and the same follows |
| `Claims.Hub.ClaimInstance` | apps/AppServer/src/WebServer.cpp:81-108 | refused exactly for another's conflicting claim or listed open session; the claim inserted unless one is there |
| `Claims.Hub.RemoveExisting` | apps/AppServer/src/WebServer.cpp:57-71 | exactly the listed sessions of the host and nonzero port are taken off the list |
| `Edits.RecordNumbered` | apps/OpcGateway/src/UAClient.cpp:28-35 | an edit takes the next number, by id or by slug |
| `Edits.LastAnswers` | apps/OpcGateway/src/UAClient.cpp:36-40 | a row was edited since a number if and only if one of its two last numbers is later |
| `Edits.Numbering.RecordEdit` | apps/OpcGateway/src/UAClient.cpp:28-35 | the log grows by the edit, the maps keep up |
| `Edits.Numbering.EditedSince` | apps/OpcGateway/src/UAClient.cpp:36-40 | true exactly when some edit since matches the row |
| `Edits.NextKeeps` | apps/OpcGateway/src/UAClient.cpp:222-288 | every step of an edit or a connect keeps the invariant |
| `Edits.EditSettles` | apps/OpcGateway/src/UAClient.cpp:277-288 | once an edit's call has returned no registered client it matches was built from a row read before it, whatever was in flight |
| `SubscriptionShape.NextShape` | apps/OpcGateway/src/UAClient.cpp:1106-1221 | every frame has its rebuild and a client of the same connection, and every client that is up is registered and not discarded |
| `SubscriptionLoss.ParkCovers` | apps/OpcGateway/src/UAClient.cpp:1374-1388 | parking merges, so nothing parked is lost |
| `SubscriptionLoss.LoseCovers` | apps/OpcGateway/src/UAClient.cpp:1401-1426 | what a lost client monitored is parked |
| `SubscriptionLoss.AnswerCovers` | apps/OpcGateway/src/UAClient.cpp:1134-1206 | after a create's answer, of a live, dead or removed client, every pair not ended by it is still somewhere |
| `SubscriptionLoss.EndCovers` | apps/OpcGateway/src/UAClient.cpp:1207-1221 | a rebuild that ends on a dead client parks what it still holds |
| `SubscriptionLoss.TakeBackCovers` | apps/OpcGateway/src/UAClient.cpp:1541-1569 | a dropped session's items go straight into a rebuild |
| `SubscriptionLoss.BackUpCovers` | apps/OpcGateway/src/UAClient.cpp:1294-1323 | a reconnected chain moves its entry into a rebuild in one step |
| `SubscriptionLoss.RetryCovers` | apps/OpcGateway/src/UAClient.cpp:1324-1355 | a failed attempt drops its entry only at the third rejection in a row |
| `SubscriptionLoss.NoLoss` | apps/OpcGateway/src/UAClient.cpp:1079-1221 | after every step a pair on a client, parked or in a rebuild is still on, in or at one, unless the step is one of the listed ways it ends |
| `SubscriptionLoss.NoLossRun` | apps/OpcGateway/src/UAClient.cpp:1079-1569 | so too over any run, however the steps interleave |
| `SubscriptionLoss.Stranded` | apps/OpcGateway/src/UAClient.cpp:1106-1221 | the run that leaves a pair on a client that is down, from the initial state, for any key and pair |
| `SubscriptionKept.StrandedExact` | apps/OpcGateway/src/UAClient.cpp:1134-1165 | a pair only the answered rebuild holds, its client down and not removed, survives the answer if and only if it is not called good |
| `SubscriptionKept.WatchedExact` | apps/OpcGateway/src/UAClient.cpp:1134-1165 | a pair on a client that is up, and not in the answered rebuild, survives the answer if and only if the create was not for its node or the node is refused |
| `SubscriptionKept.NextClean` | apps/OpcGateway/src/UAClient.cpp:1401-1426 | while no create is submitted to a client that is down, nothing is on one and every create it has out was taken |
| `SubscriptionKept.NothingRestored` | apps/OpcGateway/src/UAClient.cpp:1118-1133 | and then no answer calls anything of such a client good |
| `SubscriptionSurvival.NextHeld` | apps/OpcGateway/src/UAClient.cpp:1106-1165 | a frame that has read a pair keeps it in its rebuild until the pair is unsubscribed |
| `SubscriptionSurvival.SurvivesStep` | apps/OpcGateway/src/UAClient.cpp:1079-1221 | so in every step the only ends of a subscription are the lawful ones |
| `SubscriptionSurvival.Survives` | apps/OpcGateway/src/UAClient.cpp:1079-1569 | from any subscribe in any run:  covered until unsubscribed, dropped with a removed client, not restored by a live client, left by a refused subscription, given up, or stopped |
| `SubscriptionSurvival.TakenAnew` | apps/OpcGateway/src/UAClient.cpp:1134-1165 | the run in which an older create's answer takes a pair subscribed anew, for any key and pair |
| `SubscriptionChains.NextDelay` | apps/OpcGateway/src/UAClient.cpp:1266-1292 | doubling up to the cap gives the next wait of min(2^(k-1), 15) |
| `SubscriptionChains.RetriedChains` | apps/OpcGateway/src/UAClient.cpp:1324-1355 | a failed attempt leaves the entry with one chain, or neither |
| `SubscriptionChains.NextChains` | apps/OpcGateway/src/UAClient.cpp:1266-1388 | every step keeps chains and entries paired |
| `SubscriptionChains.ChainPerEntry` | apps/OpcGateway/src/UAClient.cpp:1294-1388 | in every run outside shutdown an entry is parked under a key exactly when a chain runs on it, and one only |
| `SubscriptionChains.ChainWaits` | apps/OpcGateway/src/UAClient.cpp:1266-1292 | in every run a chain's k-th wait is min(2^(k-1), 15), and never have three attempts in a row been rejected |
| `SubscriptionChains.ThirdRejection` | apps/OpcGateway/src/UAClient.cpp:1324-1355 | the third rejection in a row ends chain and entry |
| `SubscriptionClose.AnswerOwn` | apps/OpcGateway/src/UAClient.cpp:1134-1165 | what an answer restores of a listener its rebuild no longer holds comes off again |
| `SubscriptionClose.NextOff` | apps/OpcGateway/src/UAClient.cpp:1580-1591 | no step but the listener's own puts it on a client already walked |
| `SubscriptionClose.NextClosing` | apps/OpcGateway/src/UAClient.cpp:1580-1591 | every step keeps each call's progress |
| `SubscriptionClose.NoRevival` | apps/OpcGateway/src/UAClient.cpp:1474-1591 | in every run, when the call returns the listener is in neither map, and on no client that is up but through a create that is out, of a rebuild that no longer holds it |
| `SubscriptionClose.GoesOff` | apps/OpcGateway/src/UAClient.cpp:1134-1165 | and that create's answer takes it off |
| `SubscriptionReturn.NextParked` | apps/OpcGateway/src/UAClient.cpp:1374-1426 | a listener parked nowhere is parked by a step if and only if the step takes the items of a client it is on |
| `SubscriptionReturn.StaysGone` | apps/OpcGateway/src/UAClient.cpp:1580-1591 | a listener that is gone and subscribes to nothing stays gone through a step under exactly that condition |
| `SubscriptionReturn.RevivedThrough` | apps/OpcGateway/src/UAClient.cpp:1106-1133 | on a client that is up it is on only through a create that is out and joined another's item |
| `SubscriptionReturn.StaysAway` | apps/OpcGateway/src/UAClient.cpp:1580-1591 | from a call's return on, in every run without such a take |
| `SubscriptionReturn.AllAnswered` | apps/OpcGateway/src/UAClient.cpp:1134-1165 | with its creates answered, it is on no client that is up |
| `SubscriptionRevival.AnswerExact` | apps/OpcGateway/src/UAClient.cpp:1134-1165 | what an answer puts on a client that stays up stays there if and only if the rebuild holds the pair when the answer comes |
| `SubscriptionRevival.Revived` | apps/OpcGateway/src/UAClient.cpp:1580-1591 | the run, for any key and pair, in which a rebuild begun during the call brings the listener back for good |
| `SubscriptionRevival.Rejoined` | apps/OpcGateway/src/UAClient.cpp:1106-1133 | the run, for any key and pair of listeners, in which it is parked again after the return, having subscribed to nothing |
| `SubscriptionStore.ForgetRebuilds` | apps/OpcGateway/src/UAClient.cpp:1474-1484 | the loop over rebuilds forgets exactly the listener, each rebuild left in place |
| `SubscriptionStore.ForgetEntries` | apps/OpcGateway/src/UAClient.cpp:1474-1484 | the loop over entries does the same |
| `SubscriptionStore.DropNodes` | apps/OpcGateway/src/UAClient.cpp:1488-1497 | the loop over nodes takes out exactly those asked for, and answers those that were there |
| `SubscriptionStore.DropEntries` | apps/OpcGateway/src/UAClient.cpp:1499-1502 | over the connection's entries, no other touched |
| `SubscriptionStore.DropRebuilds` | apps/OpcGateway/src/UAClient.cpp:1503-1506 | over its rebuilds, no other touched |
| `SubscriptionStore.Store.ParkLocked` | apps/OpcGateway/src/UAClient.cpp:1374-1388 | the protocol's park, and true exactly when a chain is to be started |
| `SubscriptionStore.Store.RebuildStart` | apps/OpcGateway/src/UAClient.cpp:1541-1569 | a rebuild under an id no other has |
| `SubscriptionStore.Store.PurgePending` | apps/OpcGateway/src/UAClient.cpp:1474-1484 | the protocol's purge of both maps |
| `SubscriptionStore.Store.UnsubscribePending` | apps/OpcGateway/src/UAClient.cpp:1486-1508 | the protocol's removal by slug and node, answering exactly the nodes that were held |

## Left out

- Authorize.AddRolePermission: how a payload's schema, slug and criteria resolve to a cached row, a row to cache or neither is a parameter.
- Authorize.Run: every grant of a permission new to the cache meets the condition of `Authorize.AddAclPermission`.
- Authorize.CreateUser: requires a pk that is no group's and that nothing names as a group's, as users and groups share one pk sequence; CreateGroup,
  AddToGroup and PurgeUser likewise require that it is not also the other's.  Nothing is required of the other events.
- Authorize.Holders: the order of the roles, groups and users listed is the order of their maps and is not modelled; the order of each one's sources is.
- Socket.SocketRun: excludes a write error's hook that writes, which `Socket.HookWrites` covers.  The stream, the executor and the timer are steps of
  the environment, and closing with no session is not modelled.
- Claims.NamesApart: requires one registration in flight per socket, and counts a session that was evicted from the list as no holder; the exact
  conditions and the runs beside it say why.
- SubscriptionClose.NoRevival: requires that during the call's walk the listener subscribes to nothing and no rebuild still holding it has its create
  answered; `SubscriptionRevival` says why.
- SubscriptionLoss.NoLoss: a create's answer and what its frame does with it are one step, as is a listener's own create.  A node acknowledged good
  because another listener's item exists counts as not restored, as the code has it.  The two ends it lists that are not lawful are those of
  `SubscriptionKept`.
- SubscriptionSurvival.Survives: requires that no create is submitted to a client that is down, and that the pair is subscribed while every frame
  that has read it still holds it; the exact conditions and the runs say why.
- SubscriptionChains.ChainWaits: the cancelled waits at shutdown are not modelled.
- CrawlRun.Run: the reachability half is for a server that answers from one fixed space with consistent node classes; the bounds are for any server.
  Depth is unbounded, which the caps on queued depth justify for an 8-bit count; a path is its sequence of segments, not their joined text.
- DisplayNames.Fetch: the bound on reads is for a server that refuses exactly the reads over some limit; the rest is for any server.
- Durations.TryToDuration: numbers are exact decimals rather than doubles, so rounding of inputs past a double's precision is not captured.
- Masks are sets of bits; ordered sets and multimaps are sequences in their order.
- The index of resources by schema, slug and criteria, the test and admin lookups over it, and soft deletion of resources:  lookups without state of
  their own.
- Searching and publishing the node index, lower-casing of names and the settings that feed the caps:  easy members.
- Diagnostics of lost and continued connections, counters, logging and their texts.
- Unsubscribing by node from a gateway session and its remembered monitoring parameters.
- The OPC UA stack, sockets and TLS, GraphQL and SQL, start-up and routing:  only their outcomes appear, as parameters or steps.
- The historian, the emulator and the editor extension.
