# PyRP, verified

PyRP is a small router control plane: a RIPv1 speaker, an SLA protocol that probes the next hops
of configured routes, and a control plane that redistributes routes between them. This project
models the parts that decide which routes a router believes and proves what they guarantee, alone,
together, and in a network of routers.

| file | what it holds |
|---|---|
| `Addressing.dfy` | prefixes, classful truncation, what survives a wire that carries addresses only |
| `Selection.dfy` | the one specification of the four best-route loops |
| `Rip.dfy`, `RipProperties.dfy` | RIPv1 on values: messages, learned table, housekeeping, redistribution, the RIB |
| `RipInterface.dfy` | the RIPv1 instance as a class over mutable route objects, proved to do what `Rip` says |
| `Node.dfy`, `Instance.dfy` | one instance over every interleaving of its steps; the objects perform exactly such runs |
| `Identity.dfy`, `Staleness.dfy` | which learned routes displace which; when dead routes are given out |
| `Network.dfy` | N routers with packets that are lost, repeated and reordered |
| `Rounds.dfy`, `Schedules.dfy`, `Runs.dfy` | lossless synchronous rounds, as schedules of that machine; runs of any length exist |
| `Convergence.dfy`, `Collision.dfy`, `DefaultRoute.dfy` | when rounds compute shortest paths, exactly |
| `Counting.dfy`, `Following.dfy` | what happens when they do not: stale routes, captured routers, chains |
| `Recovery.dfy` | rounds from a state with stale routes: exactly when they come right again |
| `QuietPaths.dfy`, `Asynchrony.dfy`, `FairRuns.dfy` | no rounds: every fair run settles, and fair runs exist |
| `Renewal.dfy`, `FairRecovery.dfy`, `Withdrawal.dfy` | fair runs from a state with stale routes and packets; redistributions in the middle of a run |
| `Storm.dfy` | responses to poisoned routes that never end |
| `MultiIndexRib.dfy`, `Sla.dfy` | the generic RIB with its indexes; the SLA protocol |
| `Redistribution.dfy`, `Feedback.dfy`, `Ambiguity.dfy` | the rebuilt control-plane RIB, the loop it closes with RIP, and exactly when that loop settles |
| `ControlPlane.dfy` | the control plane as a class that takes turns of that loop |

## What was found

* **A learned route is not filed under the router it points at.** A route's key is computed when the
  object is made (`src/rp_rip1/main.py:83`); `handle_response` replaces a zero next hop by the sender
  afterwards (`src/rp_rip1/main.py:268-270`), and this implementation always sends zero
  (`src/rp_rip1/main.py:192`). So all neighbours share one key for a prefix, and the last response to
  mention it wins, better or worse. `Collision.ConvergesIffDistinctWires` says in which networks rounds
  still compute shortest paths, round by round and in the end: exactly those in which no router hears two
  that write the same next-hop field. In any other, some runs never get there, however long they go on. For
  this implementation that leaves the networks in which nobody hears more than one router. In all others
  a router whose order of processing stays the same ends up following the neighbour it processes last:
  `Following.ChainsDecide` gives its metric, `Following.RightIffChainIsShortest` says when that is the
  distance. `Counting.LineRun` is the shortest example of the contrary: in a line of three, with no loss and
  no change, a route at distance 2 stays at metric 16 round after round. The responses that poisoned routes
  provoke need not repair it, and need never end: `Storm.AnswersNeverEnd` builds runs of any length in which,
  from some point on, every single message answers a poisoned route its sender has just taken.
* **What does not depend on that key holds whatever the wires**: no finite metric is ever invented, under
  any interleaving (`Network.NoMetricIsInvented`), and routes without an origin, as long as they are
  re-advertised, die within 16 rounds (`Counting.CountingIsBounded`) or 32 phases of a run without rounds
  (`FairRecovery.FairRunsForget`).
* **A network recovers from stale routes exactly when none that nobody will renew shows a prefix nearer
  than it is** (`Recovery.RecoversIff`): a learned route that no neighbour re-advertises stays as it is until
  it times out, and misleads others meanwhile; everything else comes right. So does a run without rounds
  from any state whose routes and packets are renewed or harmless (`FairRecovery.FairRunsRecover`), and a
  withdrawn route goes away if the router that withdraws it has it back from a neighbour
  (`Withdrawal.RedistributionsRecover`); if not, its neighbours have to wait for the timer.
* **A redistributed route through a neighbour hides what that neighbour offers**, because it takes the
  key under which the neighbour's route would enter the RIB (`src/rp_rip1/main.py:492-496`). Rounds then
  compute the distance over the walks that avoid such hops (`Convergence.RoundsComputeDistance`).
* **A default route is taken for 0.0.0.0/8** by whoever hears it. Next to a real route for that network
  the order of entries decides, so with default routes at given routers the distances of all prefixes are
  always right, even in the end, only where nobody hears one of those routers (`DefaultRoute.AllPrefixesIff`).
* **Housekeeping does not rebuild the RIB** (`src/rp_rip1/main.py:544` does not await the refresh), so a
  poisoned route can still be given out, against rule 4 of the repository's redistribution rules;
  `Staleness.SweepKeepsRuleFourIff` says exactly when it is. The redistribution that such a pass starts asks
  RIP before its RIB is rebuilt, so the control plane takes the dead route once more
  (`Staleness.TurnAfterPass`, and the run of `Staleness.DeadRouteIsTakenOnce`).
* **The redistribution loop settles after one turn when its two free choices are made alike every time**
  (`Feedback.FixedChoicesSettle`): which of several tied SLA routes is the answer, and which of several
  learned routes showing one key a refresh picks -- there can be several because a learned route's key is not
  what it shows. That is so as long as nobody touches the sets the loops go over. If the order in which a
  loop meets a set can change between two turns, as it may once routes are discarded and added again, the
  loop settles exactly when the choices do not matter (`Ambiguity.SettlesIff`). The runs that do not settle
  need such a change of order.
* **Filtered search of the generic RIB returns everything when nothing matches**, although its
  description promises matches (`MultiIndexRib.SearchReturnsMatchesIff`).

## Reading guide

Python sets iterate in no particular order, so a loop over a set picks its next element arbitrarily
here and its result is stated up to ties. A dictionary or set field is a map the methods reassign; a
set of routes under key equality is a map from keys. Clocks, probe results and received entries are
parameters. Metrics are natural numbers. `wire` in a topology is what each router writes into the
next-hop field of its responses: zero, as here, or its own address, which the receiving code also
accepts. `hears` says whose broadcasts reach a router, including its own when they are looped back and
not rejected. A walk of routers, each hearing the one before it, is the reference against which
metrics are measured. `Node` and `Network` use the very functions that the methods of `RipInterface`
are proved to compute (`Learn`, `Decode`, `Sweep`, `RedistributeIn`, `IsRefresh`, `IsResponse`);
`Instance` makes that a refinement, step by step.

## Model

| member | source | states |
|---|---|---|
| Addressing.ClassfulIdempotent | src/rp_rip1/main.py:96-130 | truncating twice is truncating once, and the address class does not change |
| Addressing.ClassfulByNetworks | src/rp_rip1/main.py:96-130 | told by the networks the program tests for: nothing in 224.0.0.0/3 has a classful form; in 0.0.0.0/1, 128.0.0.0/2 and 192.0.0.0/3 it is the /8, /16 or /24 around the network address, and the default route stays itself |
| Addressing.ClassfulContainment | src/rp_rip1/main.py:106-121 | a network at least as long as its class is contained in the result, a shorter one contains it, the default route is untouched |
| Addressing.ClassfulMergesNested | src/rp_rip1/main.py:96-130 | two nested subnets of at least class length become the same network |
| Addressing.SurvivesWire | src/rp_rip1/main.py:188-194 | a prefix is received as it was sent if and only if it is classful and not the default route |
| Addressing.DefaultRouteBecomesNetworkZero | src/rp_rip1/main.py:96-110 | the default route is classful but is received as 0.0.0.0/8 |
| Selection.SelectionsAgree | src/rp_rip1/main.py:435-443 | in whatever order the candidates are met, the selected prefixes and scores are the same |
| RipProperties.RoundTrip | src/rp_rip1/main.py:183-199 | classful non-default routes are received in order, pointing at the sender, one hop further, capped and poisoned at 16 |
| RipProperties.DecodedRoute | src/rp_rip1/main.py:253-274 | any entry, whoever sent it: a RIP route to the class network around its address, filed under the next hop received, pointing at the sender when that is zero, down at 16 or more and else up as it came |
| RipProperties.InvalidEntryDropped | src/rp_rip1/main.py:253-279 | an entry leaves the decoding of the rest unchanged and adds nothing if and only if its address is of class D or E |
| RipProperties.DecodeConcat | src/rp_rip1/main.py:246-279 | decoding works entry by entry |
| RipProperties.LearnedAt | src/rp_rip1/main.py:155-161 | a key a message mentions holds one of its routes, and keys not mentioned are untouched |
| RipProperties.LastRouteStays | src/rp_rip1/main.py:155-161 | of the routes of a message with one key the last one stays |
| RipProperties.LearnKeepsInvariant | src/rp_rip1/main.py:261-266 | learned routes have metric at most 16, are DOWN exactly at 16 and otherwise UP, and are filed under their own keys |
| RipProperties.SweepKeepsInvariant | src/rp_rip1/main.py:530-542 | ageing in place keeps that and never changes what a route shows |
| RipProperties.SweepsCompose | src/rp_rip1/main.py:530-542 | a pass and a later pass are the later pass alone, whenever in a pass each route is looked at |
| RipProperties.SweepLeaves | src/rp_rip1/main.py:530-542 | a pass removes exactly what is older than 300 s when looked at, poisons what stays and is older than 180 s and leaves it otherwise alone, and leaves everything younger as it was |
| RipProperties.SweepChangesWhatItTouches | src/rp_rip1/main.py:527-542 | a pass changes the table if and only if it removes or poisons a route |
| RipInterface.RipInterface.DecodeResponse | src/rp_rip1/main.py:246-279 | the objects made from a message have exactly the decoded values, keys included |
| RipInterface.RipInterface.HandleResponse | src/rp_rip1/main.py:281-308 | own messages may be rejected, empty ones change nothing, otherwise each route displaces what has its key; RIB and redistributed table are untouched |
| RipProperties.RefreshedRib | src/rp_rip1/main.py:492-496 | each route of a rebuilt RIB has the metric and source of a redistributed route of its key or, under a key that was not redistributed, of a learned route that shows it; its status is unknown and its age begins anew |
| RipInterface.RipInterface.RefreshRib | src/rp_rip1/main.py:492-496 | the RIB becomes new objects: copies of the redistributed routes, and of learned routes whose shown key is free |
| RipInterface.RipInterface.CheckRoutes | src/rp_rip1/main.py:525-542 | one pass over the learned objects in place, reading the clock at each comparison, is `Sweep`; it reports a change exactly when there is one, and no RIB or redistributed route is reached |
| RipInterface.RipInterface.RedistributeIn | src/rp_rip1/main.py:469-490 | the table is rebuilt from the enabled specs in order, up to the first of class D or E, which raises; of the specs with one key the last one stays |
| RipProperties.LastSpecStays | src/rp_rip1/main.py:469-490 | that is so of every configuration and list of specs |
| RipProperties.ImportedRoute | src/rp_rip1/main.py:474-489 | the route of a spec is of unknown status, at the metric it brings, or else the one configured for its source, at most 16 |
| RipInterface.RipInterface.ExportRoutes | src/rp_rip1/main.py:435-443 | the loop selects one route of least metric for each prefix of the RIB |
| RipInterface.RipInterface.RedistributeOut | src/rp_rip1/main.py:445-467 | one route for each prefix that has a RIP route below 16, of least metric among these |
| RipInterface.RipInterface.SendResponse | src/rp_rip1/main.py:201-222 | each prefix of the RIB has exactly one entry, that of a best route, with a zero next-hop field |
| RipProperties.OneEntryEachIsResponse | src/rp_rip1/main.py:201-222 | such a message is a response as the network model understands it: every entry a best route's, every prefix mentioned |
| Node.EveryRunKeepsInvariant | src/rp_rip1/main.py:469-549 | over every run the learned table is well formed, the redistributed table holds only enabled sources, the RIB is the merge of both or known to be stale, and tasks started and refreshes awaited are as many as accepted responses and changing passes |
| Node.RedistributionsStarted | src/rp_rip1/main.py:498-549 | over every run each refresh that a response awaited and each pass that changed the learned table starts one redistribution, nothing else does, and none is started when that is switched off; each response that brings a route is followed by such a refresh or has it pending |
| Node.RedistributesOutOnlyLearned | src/rp_rip1/main.py:445-467 | rule 5: what RIP gives out was a learned route of that finite metric when the RIB was built, never one it was given |
| Instance.Instance.Respond | src/rp_rip1/main.py:281-308 | a response moves the objects by exactly one `Receive` step of the state machine |
| Instance.Instance.Refresh | src/rp_rip1/main.py:492-499 | a refresh is one `Refresh` step |
| Instance.Instance.Housekeep | src/rp_rip1/main.py:525-549 | a housekeeping pass is one `Housekeeping` step |
| Instance.Instance.RedistributeInto | src/rp_rip1/main.py:469-490 | a redistribute-in is one `RedistributeInto` step, whether it raises or not |
| Instance.ObjectsKeepInvariant | src/rp_rip1/main.py:469-549 | so the objects keep what every run of the state machine keeps |
| Identity.UniqueIffFieldsDisjoint | src/rp_rip1/main.py:255-270 | the learned table shows each (prefix, next hop) once over all runs if and only if no sender may occur as a next hop in messages that may also leave the field zero |
| Identity.OneRoutePerPrefix | src/rp_rip1/main.py:155-161 | with zero fields only there is one learned route for each prefix |
| Identity.LastMentionDecides | src/rp_rip1/main.py:305-306 | the last response to mention a prefix decides its route, however much worse its offer is |
| Staleness.FreshGivesOutOnlyLive | src/rp_rip1/main.py:492-496 | from a RIB built from the current tables RIP gives out only live routes |
| Staleness.SweepKeepsRuleFourIff | src/rp_rip1/main.py:528-544 | after a pass over any node that still holds if and only if every live RIB route is shown, at its metric, by a learned route that is not overdue when the pass looks at it |
| Staleness.DeadRouteIsGivenOut | src/rp_rip1/main.py:528-544 | one response, its refresh and a pass 200 s later: a run from the start, in any configuration, that ends with all that was learned poisoned and the RIB giving the route out |
| Staleness.TurnAfterPass | src/control_plane/main.py:131-152 | the first redistribution after a pass takes what RIP's RIB held before it, the next one live routes only |
| Staleness.DeadRouteIsTakenOnce | src/control_plane/main.py:140-152 | after that run every true answer of RIP names the dead route and the control plane's rebuilt RIB has it, whether or not RIP raises when it is given that RIB; unless something raises there is a turn, and RIP's answer after any turn is empty |
| Network.NoMetricIsInvented | src/rp_rip1/main.py:183-199 | under every interleaving of sends, deliveries, losses, repetitions, reorderings, passes, refreshes and redistributions, each metric below 16 in a table or in flight is that of a real walk from a route really redistributed in |
| Network.NeverBelowTrueDistance | src/rp_rip1/main.py:246-279 | so no router ever believes in a route shorter than the true distance |
| Rounds.MessageIsOffers | src/rp_rip1/main.py:201-222 | a broadcast response decodes to exactly its sender's offers: a best metric plus one for each prefix of its RIB, as the wire names it |
| Rounds.RoundLearned | src/rp_rip1/main.py:305-306 | after a round a key someone heard offers holds such an offer, and every other key is untouched |
| Rounds.LastOfferStands | src/rp_rip1/main.py:160-161 | when the router processed last offers a key, its offer stands |
| Schedules.RoundIsSchedule | src/rp_rip1/main.py:281-308 | a synchronous round is a run of the asynchronous machine |
| Convergence.RoundsComputeDistance | src/rp_rip1/main.py:183-199 | with distinct wires, after t rounds from empty learned tables every best metric is the distance over walks of at most t hops that no redistributed route hides, with 16 for infinity |
| Convergence.NothingHidden | src/rp_rip1/main.py:492-496 | where no router was given a route through one it hears, that is the plain distance |
| Convergence.StableFromRound15 | src/rp_rip1/main.py:435-443 | from round 15 on nothing changes, and the metrics are the distances over such walks of any length |
| Asynchrony.FairRunsSettle | src/rp_rip1/main.py:281-320 | without rounds: whatever is sent, repeated, reordered or provoked by poisoned routes, once every router has got and used a message of each neighbour in thirty phases, and nothing older than the phase before is delivered, every metric is that distance and stays it |
| Asynchrony.FairPathsSettle | src/rp_rip1/main.py:281-320 | the same from any state in which no table and no packet shows the prefix nearer than it is |
| Asynchrony.ComesAtLast | src/rp_rip1/main.py:281-320 | and from any state at all no metric is above the distance after those phases |
| FairRuns.SomeFairRun | src/rp_rip1/main.py:281-308 | from every state, with whatever stale routes and packets, there are fair runs of any number of phases |
| Recovery.DeadRouteStays | src/rp_rip1/main.py:155-161 | a learned route that nobody who can be heard offers, now or in the end, is the same after every round |
| Recovery.RecoversIff | src/rp_rip1/main.py:155-161 | with distinct wires: from a given state all rounds, in all orders, end at the distances, at the latest 16 rounds after as many as there are routers, if and only if no visible route that nobody will renew shows the prefix nearer than it is |
| Counting.StaleNetworkRecovers | src/rp_rip1/main.py:155-161 | from any state whose routes for the prefix are re-advertised, whatever their metrics, every metric is the distance from round 16 on |
| Renewal.MoveKeepsRecoverable | src/rp_rip1/main.py:281-320 | a state in which every route and packet for a prefix is renewed, or harmless, stays one under every step that is not a redistribution or a pass that changes something |
| FairRecovery.FairCountingIsBounded | src/rp_rip1/main.py:281-320 | from such a state, whatever the wires: after 2n phases of a fair run no metric is below the least of n and the distance, n up to 16 |
| FairRecovery.FairRunsForget | src/rp_rip1/main.py:281-320 | so a prefix that nobody is given any more is at 16 everywhere after 32 phases |
| FairRecovery.FairRunsRecover | src/rp_rip1/main.py:281-320 | with distinct wires every metric is the distance after 32 phases, whatever was learned or in flight before |
| Withdrawal.OffersIffStillHas | src/rp_rip1/main.py:465-498 | after a redistribution and the refresh it awaits a router offers a prefix if and only if it was given it or has learned it |
| Withdrawal.RedistributionsRecover | src/rp_rip1/main.py:465-498 | any run with redistributions in it, each followed by its refresh and leaving the router with the prefix if it offered it: all fair runs from its end reach the distances over what was given last |
| Collision.CollisionMisleads | src/rp_rip1/main.py:255-270 | two heard routers with the same wire field: runs of any length after every round of which a metric is not the distance |
| Collision.ConvergesIffDistinctWires | src/rp_rip1/main.py:155-161 | rounds compute distances, for all origins and processing orders, if and only if no router hears two that write the same next-hop field; so it is for every single round, and for what is reached from any round from 15 on |
| Collision.ZeroWiresConvergeIffOneNeighbour | src/rp_rip1/main.py:192-194 | for routers that write zero, as here: both if and only if nobody hears more than one router |
| DefaultRoute.AllPrefixesIff | src/rp_rip1/main.py:183-194 | if certain routers may be given a default route, the distances of all prefixes are right, after every round and in the end, for all origins and orders, if and only if nobody hears one of those routers and no router hears two with one wire field |
| DefaultRoute.AllPrefixesIffNobodyHears | src/rp_rip1/main.py:183-194 | if any router may, if and only if nobody hears anybody |
| DefaultRoute.DefaultRouteMisleads | src/rp_rip1/main.py:155-161 | a heard router that was given the default route at 1 and 0.0.0.0/8 at 5: runs of any length after every round of which its listener is wrong about 0.0.0.0/8 |
| Counting.CountingIsBounded | src/rp_rip1/main.py:195-197 | from any state whose routes are still re-advertised, after t rounds every best metric is at least the least of 16, t and the distance over open walks |
| Counting.CaptiveGroupLosesRoute | src/rp_rip1/main.py:155-161 | routers that process one another last lose a route they hold within 16 rounds, however near its origin |
| Counting.LineLosesLiveRoute | src/rp_rip1/main.py:155-161 | in a stable line of three a route offered all along is at metric 16 beyond its origin in every round from 18 on |
| Counting.LineRun | src/rp_rip1/main.py:155-161 | such runs exist in every line, of any length: the distance at the middle is 2 all along |
| Storm.AnswersNeverEnd | src/rp_rip1/main.py:281-320 | in every line: runs of as many cycles of eleven actions as wanted, three of them sends, that lose no message and answer every poisoned route at once; from the ninth cycle on all that routers 1 and 2 send is poisoned and router 2 has metric 16 although the route is two hops away; from the tenth on every send answers a poisoned route its sender has just taken |
| Following.OfferingSpreads | src/rp_rip1/main.py:155-161 | who offers a prefix after a round: those who did and those who hear one of them |
| Following.NextMetric | src/rp_rip1/main.py:155-161 | with zero wires, and no heard router holding a default route that is taken for the prefix, a round sets a router's metric to the best of what it was given and of what comes through the last processed neighbour that offers the prefix, or of what it had learned when none does |
| Following.ChainsDecide | src/rp_rip1/main.py:155-161 | with zero wires and fixed orders every metric becomes, and stays, the distance along the chain of routers processed last |
| Following.RightIffChainIsShortest | src/rp_rip1/main.py:155-161 | it is the true distance if and only if that chain is a shortest way |
| MultiIndexRib.Rib.AddRouteEntry | src/generic/rib.py:72-86 | the entry is added unless an equal one is there, which stays as it is, like all others, and the three indexes still agree with the set |
| MultiIndexRib.Rib.RemoveRouteEntry | src/generic/rib.py:88-106 | the entry is gone from the set and from every index, and no bucket is left empty |
| MultiIndexRib.Rib.RemoveRouteEntriesFromSource | src/generic/rib.py:108-113 | bulk removal ends, removes exactly that source's entries, and the source's bucket with them |
| MultiIndexRib.Rib.RibEntrySearch | src/generic/rib.py:115-136 | the matches, or the whole set when there are none |
| MultiIndexRib.SearchReturnsMatchesIff | src/generic/rib.py:121-136 | the result is the matches if and only if something matches or the RIB is empty |
| MultiIndexRib.SearchIsBucketIntersection | src/generic/rib.py:115-131 | the matches are the intersection of the index buckets asked for |
| MultiIndexRib.AddThenRemove | src/generic/rib.py:72-106 | adding a new entry and removing it restores the set and all indexes |
| MultiIndexRib.AddKeepsIndex | src/generic/rib.py:75-86 | adding keeps an index exact, making the bucket when it is missing |
| MultiIndexRib.RemoveKeepsIndex | src/generic/rib.py:93-106 | removing keeps an index exact, deleting the bucket when it becomes empty |
| Sla.SlaRoute.Evaluate | src/rp_sla/main.py:199-220 | a route never measured, or whose last measurement ended longer ago than the interval, gets one more and is then UP exactly when a round trip came back within the threshold; any other stays as it was |
| Sla.RpSla.AddConfiguredRoute | src/rp_sla/main.py:189-193 | both tables keep holding the same route objects, and an equal route already there keeps its measurements |
| Sla.RpSla.RemoveConfiguredRoute | src/rp_sla/main.py:195-197 | the route leaves both tables, which keep agreeing |
| Sla.RpSla.EvaluateRoutes | src/rp_sla/main.py:222-225 | whatever the probes find, exactly those routes get one more measurement each |
| Sla.RpSla.RedistributeOut | src/rp_sla/main.py:227-246 | one route for each prefix that has an UP route, of highest priority among these |
| Sla.OnlyMeasuredUpGoOut | src/rp_sla/main.py:213-218 | a route given out has a last measurement within its threshold |
| Redistribution.RebuiltConserves | src/control_plane/main.py:131-147 | the rebuilt RIB is the disjoint union by source of the static table and the two answers, its size is their sum, and a prefix has at most one SLA and one RIP route |
| Redistribution.TwoStagesAreOne | src/control_plane/main.py:131-162 | choosing per protocol and then by admin distance is choosing once among all static, UP SLA and live RIP candidates; a RIP choice has least metric, an SLA choice highest priority |
| Redistribution.RedistributeInIsImport | src/rp_rip1/main.py:469-490 | in whatever order the specs come, the redistributed keys are those of the enabled specs, each held by one of its specs |
| Redistribution.RedistributedMetric | src/rp_rip1/main.py:475-489 | every redistributed route comes from a rebuilt static or SLA route, in classful form, at the metric configured for its source, capped at 16 |
| Feedback.TurnKeys | src/rp_rip1/main.py:469-490 | the keys RIP holds after a turn are exactly those the static table and the SLA answer bring, whatever RIP answered |
| Feedback.FixedChoicesSettle | src/control_plane/main.py:131-152 | with static table, UP SLA routes and learned table held still, and every tie broken alike each time, one redistribution fixes RIP's keys, and from the second on RIP gives out the same prefixes at the same metrics |
| Feedback.LoopSettles | src/control_plane/main.py:131-152 | the same however ties are broken, if they do not matter |
| Ambiguity.SettlesIff | src/control_plane/main.py:131-152 | where each pass over a set may meet it in a new order: unless something raises, every run of the loop settles if and only if no choice among tied SLA routes changes the keys RIP is given and for each prefix some best route they leave visible has no rival that shows its key at another metric |
| Ambiguity.TieUnsettles | src/rp_sla/main.py:227-246 | if a choice among tied SLA routes changes RIP's keys, there are two turns of the loop, from empty tables, that leave RIP with different ones |
| Ambiguity.AmbiguityUnsettles | src/generic/rib.py:328-335 | if no best visible route is firm, there are three turns of the loop, from empty tables, the last two of which get different answers from RIP |
| Ambiguity.ZeroFieldsSettleIff | src/rp_rip1/main.py:155-161 | over every run of responses with zero next-hop fields, the loop settles in any order if and only if the keys are fixed |
| Ambiguity.NoTieIsFixed | src/rp_sla/main.py:227-246 | they are when no two best UP routes of a prefix have different next hops |
| Ambiguity.TwoTiedRoutes | src/rp_sla/main.py:227-246 | two tied UP routes of one prefix and nothing else: if their order changes the loop need not settle, whatever was learned |
| Ambiguity.OneResponseUnsettles | src/rp_rip1/main.py:255-270 | one response from the start that names a prefix twice: with no static and no SLA route at all the loop need not settle if the learned set changes its order |
| ControlPlane.ControlPlane.AddStaticRoute | src/control_plane/main.py:91-94 | both tables keep an equal route they already have, and a RIB that mirrors the static table goes on doing so if and only if the RIB is synchronised or the route was there |
| ControlPlane.ControlPlane.RemoveStaticRoute | src/control_plane/main.py:96-99 | the route leaves the static table, and the RIB when asked; the mirror survives if and only if the RIB is synchronised or the route was not there |
| ControlPlane.RebuiltMirrors | src/control_plane/main.py:131-134 | whatever was out of step, a rebuilt RIB mirrors the static table |
| ControlPlane.ControlPlane.ExportRoutes | src/control_plane/main.py:154-162 | one route for each prefix that has an UP route, of least admin distance among these |
| ControlPlane.ControlPlane.Redistribute | src/control_plane/main.py:131-152 | the RIB is rebuilt: the static table, an SLA route at the SLA distance for each prefix that has an UP one, of highest priority, a RIP route at the RIP distance for each prefix that has a live one, of least metric, and nothing else; with RIP switched on, its redistributed table is the import of that RIB up to what raises, nothing raises exactly when every enabled route is of class A to C, and then the call is one turn of the loop |
| ControlPlane.Turns.Turn | src/control_plane/main.py:131-152 | successive calls, with nothing else changing, are a run of the loop whose answers come at the configured distances |
| ControlPlane.ObjectsSettle | src/control_plane/main.py:131-152 | so the objects settle, if ties were broken alike or do not matter: RIP's keys stay those of the first turn, its answers those of the second |

## Left out

- Convergence.RoundsComputeDistance: a round holds one broadcast of each router; it omits the response that follows a poisoned route at once, which may bring news of a later round early. Without DistinctWires it is false, and Collision gives the exact condition; 0.0.0.0/8 is left out where a router that is heard was given a default route, and DefaultRoute shows why.
- Convergence.StableFromRound15: the same rounds; Asynchrony.FairRunsSettle has no such limit. Counting.StaleNetworkRecovers and Recovery.RecoversIff start from stale routes.
- Asynchrony.FairRunsSettle: nothing is redistributed and no learned route times out meanwhile, and it starts from empty learned tables; FairRecovery.FairRunsRecover starts from stale ones, Withdrawal.RedistributionsRecover allows redistributions before.
- FairRecovery.FairRunsRecover: no learned route times out meanwhile, so routes that nobody renews must be harmless to begin with; a router that hears itself must be heard by itself in each phase.
- Withdrawal.RedistributionsRecover: no learned route times out; a redistribution and the refresh it awaits are one step.
- Recovery.RecoversIff: rounds without the response that follows a poisoned route, and without housekeeping passes, which remove routes nobody renews; 0.0.0.0/8 is left out where a router that is heard was given a default route.
- Counting.StaleNetworkRecovers: the same.
- Counting.CountingIsBounded: rounds have no housekeeping passes, which remove routes nobody re-advertises.
- Counting.CaptiveGroupLosesRoute: its rounds omit the response always sent after a poisoned route (`src/rp_rip1/main.py:310-316`); once metrics reach 16 such a response may bring the route back for a while. Storm.AnswersNeverEnd has them.
- Counting.LineLosesLiveRoute: the same.
- Counting.LineRun: the same.
- Following.NextMetric: false of 0.0.0.0/8 where a router that is heard was given a default route; DefaultRoute shows why.
- Following.ChainsDecide: the same rounds, and one fixed order of processing at each router; its routes are re-advertised to begin with.
- Following.RightIffChainIsShortest: the same.
- Feedback.LoopSettles: a turn that raises ends the run; Ambiguity.SettlesIff covers that case.
- Ambiguity.SettlesIff: whether the order of a set nobody touched can change is up to the interpreter; for orders that do not change there is Feedback.FixedChoicesSettle.
- Ambiguity.TieUnsettles: needs the order of the SLA set to change between two turns.
- Ambiguity.TwoTiedRoutes: the same.
- Ambiguity.ZeroFieldsSettleIff: its failing half needs the same.
- Ambiguity.AmbiguityUnsettles: needs the order of the learned set to change between two turns.
- Ambiguity.OneResponseUnsettles: the same.
- RipInterface.RipInterface.RefreshRib: all copies of one refresh carry one time stamp.
- Hash collisions: routes are equal when their keys are, where the code compares hashes.
- The response triggered by a poisoned route is an ordinary send of the network model, allowed at any time; the runs of Storm.AnswersNeverEnd are the ones in which it is always sent.
- Bytes, sockets, HTTP, JSON and string forms of addresses, configuration, instance registries, logging and the monitor: no hard state.
- `ControlPlane.refresh_rib`: it calls a method the SLA client does not have and an endpoint the RIP service does not offer.
- Specs with keys RIP does not know raise when RIP is called in process; the service boundary strips them, and the model starts there.
- `rib_entries_from_search` of the generic RIB: the same loop as `rib_entry_search`, word for word.
- A probe ends in a round trip or a timeout; other socket errors are not modelled.
- Time stamps of control-plane routes, which nothing compares.
- IPv6: `classful` refuses it.
- Partial requests, split horizon and poisoned reverse: the repository does not implement them.
