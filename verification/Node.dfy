/** One RIPv1 instance as a state machine whose steps interleave freely: a
    response arrives, a pending refresh runs, housekeeping passes, the control
    plane redistributes in.  Taking the lock separates filing what arrived from
    rebuilding the RIB, so a refresh is a step of its own. */
module Node {
  import opened Types
  import opened Addressing
  import opened Rip
  import opened RipProperties

  datatype Node = Node(
    learned: Table, redistributed: Table, rib: Table,
    afterResponse: nat,       // refreshes awaited by a processed response
    afterRedistribution: nat, // refreshes awaited by a redistribute-in
    swept: bool,              // housekeeping changed the learned table since the last refresh
    aborted: bool,            // a redistribute-in raised since the last refresh
    refreshedAt: real, learnedAtRefresh: Table,
    accepted: nat,            // responses that brought at least one route
    sweeps: nat,              // housekeeping passes that changed something
    tasks: nat)               // redistribution tasks started

  datatype Cause = AfterResponse | AfterRedistribution | OnRequest

  datatype Event =
    | Receive(entries: seq<Entry>, sender: Address, own: bool, at: real)
    | Refresh(cause: Cause, rib: Table, at: real)
    | Housekeeping(clock: Clock)
    | RedistributeInto(specs: seq<RouteSpec>, at: real)

  const START: Node := Node(map[], map[], map[], 0, 0, false, false, 0.0, map[], 0, 0, 0)

  /** `handle_udp_bytes` for a response, up to the refresh it awaits. */
  function Receiving(config: Config, n: Node, e: Event): Node
    requires e.Receive?
  {
    var routes := Decode(e.entries, e.sender, e.at);
    if e.own && config.rejectOwn then n
    else if routes == [] then n
    else n.(learned := Learn(n.learned, routes), afterResponse := n.afterResponse + 1, accepted := n.accepted + 1)
  }

  /** One pass of `check_routes`.  It calls `refresh_rib` without awaiting it, so
      the RIB stays as it is. */
  function Sweeping(config: Config, n: Node, clock: Clock): Node {
    var learned := Sweep(n.learned, clock);
    if learned == n.learned then n
    else n.(learned := learned, swept := true, sweeps := n.sweeps + 1,
            tasks := if config.trigger then n.tasks + 1 else n.tasks)
  }

  function Redistributing(config: Config, n: Node, specs: seq<RouteSpec>, now: real): Node {
    var (table, ok) := RedistributeIn(config, specs, now);
    if ok then n.(redistributed := table, afterRedistribution := n.afterRedistribution + 1)
    else n.(redistributed := table, aborted := true)
  }

  ghost predicate CanRefresh(n: Node, cause: Cause) {
    match cause
    case AfterResponse => 0 < n.afterResponse
    case AfterRedistribution => 0 < n.afterRedistribution
    case OnRequest => true
  }

  function Refreshing(config: Config, n: Node, cause: Cause, rib: Table, now: real): Node
    requires cause == AfterResponse ==> 0 < n.afterResponse
    requires cause == AfterRedistribution ==> 0 < n.afterRedistribution
  {
    var m := n.(rib := rib, swept := false, aborted := false, refreshedAt := now, learnedAtRefresh := n.learned);
    match cause
    case AfterResponse =>
      m.(afterResponse := n.afterResponse - 1, tasks := if config.trigger then n.tasks + 1 else n.tasks)
    case AfterRedistribution => m.(afterRedistribution := n.afterRedistribution - 1)
    case OnRequest => m
  }

  ghost predicate Step(config: Config, n: Node, e: Event, n': Node) {
    match e
    case Receive(_, _, _, _) => n' == Receiving(config, n, e)
    case Housekeeping(clock) => n' == Sweeping(config, n, clock)
    case RedistributeInto(specs, now) => n' == Redistributing(config, n, specs, now)
    case Refresh(cause, rib, now) =>
      CanRefresh(n, cause) && IsRefresh(n.redistributed, n.learned, rib, now)
      && n' == Refreshing(config, n, cause, rib, now)
  }

  ghost predicate IsRun(config: Config, nodes: seq<Node>, events: seq<Event>) {
    && |nodes| == |events| + 1
    && nodes[0] == START
    && forall t :: 0 <= t < |events| ==> Step(config, nodes[t], events[t], nodes[t + 1])
  }

  // ---- what every run keeps --------------------------------------------

  ghost predicate RedistributedInvariant(config: Config, t: Table) {
    && ShownAsFiled(t)
    && forall k :: k in t ==> t[k].source in config.enabled && Classful(k.prefix) == Ok(k.prefix)
  }

  /** The RIB is the merge of the redistributed over the learned table, unless a
      refresh is awaited, or a pass changed the learned table, or a
      redistribute-in raised, since it was built. */
  ghost predicate Fresh(n: Node) {
    || IsRefresh(n.redistributed, n.learned, n.rib, n.refreshedAt)
    || 0 < n.afterResponse || 0 < n.afterRedistribution || n.swept || n.aborted
  }

  /** Each RIB entry is of an enabled source, or the copy of a route that was in
      the learned table at the last refresh. */
  ghost predicate NoEcho(config: Config, n: Node) {
    forall k :: k in n.rib ==>
      || n.rib[k].source in config.enabled
      || exists l :: l in n.learnedAtRefresh && n.learnedAtRefresh[l].Shown() == k
                     && n.rib[k] == Copy(n.learnedAtRefresh[l], n.refreshedAt)
  }

  ghost predicate NoCascade(config: Config, n: Node) {
    if config.trigger then n.tasks + n.afterResponse == n.accepted + n.sweeps else n.tasks == 0
  }

  ghost predicate Invariant(config: Config, n: Node) {
    && LearnedInvariant(n.learned) && LearnedInvariant(n.learnedAtRefresh)
    && RedistributedInvariant(config, n.redistributed)
    && ShownAsFiled(n.rib)
    && Fresh(n) && NoEcho(config, n) && NoCascade(config, n)
  }

  lemma {:induction false} RedistributeInKeeps(config: Config, specs: seq<RouteSpec>, now: real)
    ensures RedistributedInvariant(config, RedistributeIn(config, specs, now).0)
  {
    if specs != [] {
      var init, spec := specs[..|specs| - 1], specs[|specs| - 1];
      RedistributeInKeeps(config, init, now);
      if Classful(spec.prefix).Ok? {
        ClassfulIdempotent(spec.prefix);
      }
    }
  }

  lemma RefreshedShape(config: Config, redistributed: Table, learned: Table, rib: Table, now: real)
    requires RedistributedInvariant(config, redistributed)
    requires IsRefresh(redistributed, learned, rib, now)
    ensures ShownAsFiled(rib)
    ensures forall k :: k in rib ==>
              || rib[k].source in config.enabled
              || exists l :: l in learned && learned[l].Shown() == k && rib[k] == Copy(learned[l], now)
  {
    forall k | k in rib
      ensures rib[k].identity == k && rib[k].Shown() == k
      ensures || rib[k].source in config.enabled
              || exists l :: l in learned && learned[l].Shown() == k && rib[k] == Copy(learned[l], now)
    {
      if k in redistributed {
        assert rib[k] == Copy(redistributed[k], now);
      }
    }
  }

  lemma RefreshKeeps(config: Config, n: Node, cause: Cause, rib: Table, now: real)
    requires Invariant(config, n) && CanRefresh(n, cause)
    requires IsRefresh(n.redistributed, n.learned, rib, now)
    ensures Invariant(config, Refreshing(config, n, cause, rib, now))
  {
    RefreshedShape(config, n.redistributed, n.learned, rib, now);
  }

  lemma ReceiveKeeps(config: Config, n: Node, e: Event)
    requires Invariant(config, n) && e.Receive?
    ensures Invariant(config, Receiving(config, n, e))
  {
    LearnKeepsInvariant(n.learned, e.entries, e.sender, e.at);
  }

  lemma SweepKeeps(config: Config, n: Node, clock: Clock)
    requires Invariant(config, n)
    ensures Invariant(config, Sweeping(config, n, clock))
  {
    SweepKeepsInvariant(n.learned, clock);
  }

  lemma ReplacingKeeps(config: Config, n: Node, table: Table)
    requires Invariant(config, n) && RedistributedInvariant(config, table)
    ensures Invariant(config, n.(redistributed := table, afterRedistribution := n.afterRedistribution + 1))
    ensures Invariant(config, n.(redistributed := table, aborted := true))
  {
  }

  lemma RedistributeKeeps(config: Config, n: Node, specs: seq<RouteSpec>, now: real)
    requires Invariant(config, n)
    ensures Invariant(config, Redistributing(config, n, specs, now))
  {
    var (table, ok) := RedistributeIn(config, specs, now);
    RedistributeInKeeps(config, specs, now);
    ReplacingKeeps(config, n, table);
  }

  lemma StepKeepsInvariant(config: Config, n: Node, e: Event, n': Node)
    requires Invariant(config, n) && Step(config, n, e, n')
    ensures Invariant(config, n')
  {
    match e
    case Receive(_, _, _, _) => ReceiveKeeps(config, n, e);
    case Housekeeping(clock) => SweepKeeps(config, n, clock);
    case RedistributeInto(specs, now) => RedistributeKeeps(config, n, specs, now);
    case Refresh(cause, rib, now) => RefreshKeeps(config, n, cause, rib, now);
  }

  /** Over every run: the learned table is well formed, the redistributed table
      holds only enabled sources, the RIB is fresh or known to be stale, and the
      tasks started and refreshes awaited are as many as the accepted responses and
      changing passes. */
  lemma {:induction false} EveryRunKeepsInvariant(config: Config, nodes: seq<Node>, events: seq<Event>, t: nat)
    requires IsRun(config, nodes, events) && t < |nodes|
    ensures Invariant(config, nodes[t])
  {
    if t != 0 {
      EveryRunKeepsInvariant(config, nodes, events, t - 1);
      StepKeepsInvariant(config, nodes[t - 1], events[t - 1], nodes[t]);
    }
  }

  // ---- redistributions started -----------------------------------------

  /** A response that is processed, and has an entry that is not of class D or E. */
  ghost predicate BringsRoutes(config: Config, e: Event) {
    && e.Receive? && !(e.own && config.rejectOwn)
    && exists x :: x in e.entries && !Contains(ClassNetwork(0xE000_0000, 3), Prefix(x.address, 32))
  }

  /** A redistribution in that goes through: no enabled spec is of class D or E. */
  ghost predicate GoesThrough(config: Config, e: Event) {
    && e.RedistributeInto?
    && forall x :: x in e.specs && x.source in config.enabled ==>
         !Contains(ClassNetwork(0xE000_0000, 3), Prefix(x.prefix.address, 32))
  }

  /** How many of the first t events are such responses, ... */
  ghost function Brought(config: Config, events: seq<Event>, t: nat): nat
    requires t <= |events|
  {
    if t == 0 then 0 else Brought(config, events, t - 1) + if BringsRoutes(config, events[t - 1]) then 1 else 0
  }

  /** ... such redistributions, ... */
  ghost function GoneThrough(config: Config, events: seq<Event>, t: nat): nat
    requires t <= |events|
  {
    if t == 0 then 0 else GoneThrough(config, events, t - 1) + if GoesThrough(config, events[t - 1]) then 1 else 0
  }

  /** ... refreshes that were awaited, by a response or by a redistribution, ... */
  ghost function Followed(events: seq<Event>, cause: Cause, t: nat): nat
    requires t <= |events|
  {
    if t == 0 then 0
    else Followed(events, cause, t - 1) + if events[t - 1].Refresh? && events[t - 1].cause == cause then 1 else 0
  }

  /** ... and housekeeping passes that changed the learned table. */
  ghost function Changed(nodes: seq<Node>, events: seq<Event>, t: nat): nat
    requires t <= |events| < |nodes|
  {
    if t == 0 then 0
    else
      Changed(nodes, events, t - 1)
      + if events[t - 1].Housekeeping? && nodes[t].learned != nodes[t - 1].learned then 1 else 0
  }

  lemma {:induction false} DecodesSomething(entries: seq<Entry>, sender: Address, now: real)
    ensures Decode(entries, sender, now) != [] <==>
              exists x :: x in entries && !Contains(ClassNetwork(0xE000_0000, 3), Prefix(x.address, 32))
  {
    if entries != [] {
      var init, last := entries[..|entries| - 1], entries[|entries| - 1];
      assert entries == init + [last];
      DecodesSomething(init, sender, now);
      ClassfulByNetworks(Prefix(last.address, 32));
      hide Classful;
      hide Contains;
      assert last in entries;
    }
  }

  lemma RaisesUnless(config: Config, specs: seq<RouteSpec>, now: real)
    ensures RedistributeIn(config, specs, now).1 <==>
              forall x :: x in specs && x.source in config.enabled ==>
                !Contains(ClassNetwork(0xE000_0000, 3), Prefix(x.prefix.address, 32))
  {
    hide RedistributeIn;
    hide Contains;
    hide Imported;
    var stop := LastSpecStays(config, specs, now);
    if stop == |specs| {
      forall x | x in specs && x.source in config.enabled
        ensures !Contains(ClassNetwork(0xE000_0000, 3), Prefix(x.prefix.address, 32))
      {
        var n: nat :| n < |specs| && specs[n] == x;
        ImportedRoute(config, x, now);
      }
    }
  }

  lemma StepAwaits(config: Config, n: Node, e: Event, n': Node)
    requires Step(config, n, e, n')
    ensures n'.accepted == n.accepted + if BringsRoutes(config, e) then 1 else 0
    ensures n'.afterResponse + (if e.Refresh? && e.cause == AfterResponse then 1 else 0) ==
              n.afterResponse + if BringsRoutes(config, e) then 1 else 0
    ensures n'.afterRedistribution + (if e.Refresh? && e.cause == AfterRedistribution then 1 else 0) ==
              n.afterRedistribution + if GoesThrough(config, e) then 1 else 0
  {
    hide Contains;
    hide ClassNetwork;
    hide Decode;
    hide Learn;
    hide Sweep;
    hide IsRefresh;
    hide RedistributeIn;
    if e.Receive? {
      DecodesSomething(e.entries, e.sender, e.at);
      assert BringsRoutes(config, e) <==> !(e.own && config.rejectOwn) && Decode(e.entries, e.sender, e.at) != [];
    } else if e.RedistributeInto? {
      RaisesUnless(config, e.specs, e.at);
      assert GoesThrough(config, e) <==> RedistributeIn(config, e.specs, e.at).1;
    }
    assert BringsRoutes(config, e) ==> e.Receive?;
    assert GoesThrough(config, e) ==> e.RedistributeInto?;
    hide BringsRoutes;
    hide GoesThrough;
  }

  lemma StepStarts(config: Config, n: Node, e: Event, n': Node)
    requires Step(config, n, e, n')
    ensures n'.sweeps == n.sweeps + if e.Housekeeping? && n'.learned != n.learned then 1 else 0
    ensures n'.tasks == n.tasks +
              if config.trigger && ((e.Refresh? && e.cause == AfterResponse)
                                    || (e.Housekeeping? && n'.learned != n.learned)) then 1 else 0
  {
    hide Decode;
    hide Learn;
    hide Sweep;
    hide IsRefresh;
    hide RedistributeIn;
  }

  /** Redistributions over every run, by its events: one is started by each refresh
      that a response awaited and by each housekeeping pass that changed the learned
      table, by nothing else, and none when they are switched off; every response
      that brings a route is followed by such a refresh or has it pending, and so is
      every redistribution in that goes through. */
  lemma {:induction false} RedistributionsStarted(config: Config, nodes: seq<Node>, events: seq<Event>, t: nat)
    requires IsRun(config, nodes, events) && t < |nodes|
    ensures nodes[t].tasks ==
              if config.trigger then Followed(events, AfterResponse, t) + Changed(nodes, events, t) else 0
    ensures Followed(events, AfterResponse, t) + nodes[t].afterResponse == Brought(config, events, t)
    ensures Followed(events, AfterRedistribution, t) + nodes[t].afterRedistribution == GoneThrough(config, events, t)
    ensures nodes[t].accepted == Brought(config, events, t) && nodes[t].sweeps == Changed(nodes, events, t)
  {
    hide BringsRoutes;
    hide GoesThrough;
    if t != 0 {
      RedistributionsStarted(config, nodes, events, t - 1);
      hide Step;
      StepAwaits(config, nodes[t - 1], events[t - 1], nodes[t]);
      StepStarts(config, nodes[t - 1], events[t - 1], nodes[t]);
    }
  }

  /** Rule 5 of the redistribution rules: whatever RIP redistributes out matches
      a route it had learned, of the same finite metric, when the RIB was last
      built -- never a route that was redistributed in. */
  lemma RedistributesOutOnlyLearned(config: Config, nodes: seq<Node>, events: seq<Event>, t: nat,
                                    best: map<Prefix, RouteValue>, p: Prefix)
    requires config.Valid() && IsRun(config, nodes, events) && t < |nodes|
    requires IsRedistributeOut(nodes[t].rib, best) && p in best
    ensures exists l :: && l in nodes[t].learnedAtRefresh
                        && PrefixOf(nodes[t].learnedAtRefresh[l]) == p
                        && nodes[t].learnedAtRefresh[l].nextHop == best[p].nextHop
                        && nodes[t].learnedAtRefresh[l].metric == best[p].metric < MAX_METRIC
                        && nodes[t].learnedAtRefresh[l].status == UP
  {
    EveryRunKeepsInvariant(config, nodes, events, t);
    var n := nodes[t];
    assert best[p] in LiveRoutes(n.rib);
    var k :| k in n.rib && n.rib[k] == best[p];
    assert n.rib[k].source !in config.enabled;
    var l :| l in n.learnedAtRefresh && n.learnedAtRefresh[l].Shown() == k
             && n.rib[k] == Copy(n.learnedAtRefresh[l], n.refreshedAt);
    assert LearnedRoute(n.learnedAtRefresh[l]);
  }
}
