/** N routers that broadcast to whoever hears them.  Sends, deliveries, losses,
    duplicates, reorderings, housekeeping, refreshes and redistributions
    interleave without any assumption; no finite metric is ever invented. */
module Network {
  import opened Types
  import opened Addressing
  import opened Rip
  import opened RipProperties
  import opened Node

  /** `hears[i]` are the routers whose broadcasts reach router i, which may
      include i itself.  `wire[j]` is what router j writes in the next-hop field:
      zero, as this implementation does, or its own address, which the receiver
      also accepts. */
  datatype Topology = Topology(hears: seq<set<nat>>, address: seq<Address>, wire: seq<Address>) {
    ghost predicate Valid() {
      && |address| == |hears| && |wire| == |hears|
      && (forall i, j :: 0 <= i < |hears| && j in hears[i] ==> j < |hears|)
      && (forall j :: 0 <= j < |hears| ==> address[j] != 0 && (wire[j] == 0 || wire[j] == address[j]))
      && (forall i, j :: 0 <= i < j < |hears| ==> address[i] != address[j])
    }
  }

  /** A route some router redistributed in. */
  datatype Origin = Origin(router: nat, prefix: Prefix, metric: nat)

  // ---- the reference: walks from an origin -----------------------------

  /** A walk along which routes travel: each router hears the one before it. */
  ghost predicate IsWalk(topology: Topology, w: seq<nat>) {
    && 0 < |w|
    && (forall t :: 0 <= t < |w| ==> w[t] < |topology.hears|)
    && (forall t :: 0 < t < |w| ==> w[t - 1] in topology.hears[w[t]])
  }

  /** The prefix under which a route is filed after some hops.  Only the default
      route changes name, on its first hop. */
  predicate FiledAs(q: Prefix, hops: nat, p: Prefix) {
    if hops == 0 then q == p else OnWire(q.address) == Ok(p)
  }

  ghost predicate Carries(topology: Topology, w: seq<nat>, o: Origin, i: nat, p: Prefix, m: nat) {
    && IsWalk(topology, w) && w[0] == o.router && w[|w| - 1] == i
    && FiledAs(o.prefix, |w| - 1, p)
    && m == o.metric + |w| - 1
  }

  /** Some origin reaches router i as prefix p, in at most `hops` hops, at
      exactly metric m. */
  ghost predicate Backed(topology: Topology, origins: set<Origin>, i: nat, p: Prefix, m: nat, hops: nat) {
    exists w, o :: o in origins && |w| <= hops + 1 && Carries(topology, w, o, i, p, m)
  }

  /** d is the distance of prefix p from router i over walks of at most `hops`
      hops, with 16 for infinity. */
  ghost predicate IsDistance(topology: Topology, origins: set<Origin>, i: nat, p: Prefix, hops: nat, d: nat) {
    && d <= MAX_METRIC
    && (forall m: nat :: Backed(topology, origins, i, p, m, hops) ==> d <= m)
    && (d < MAX_METRIC ==> Backed(topology, origins, i, p, d, hops))
  }

  lemma OriginBacked(topology: Topology, origins: set<Origin>, o: Origin)
    requires o in origins && o.router < |topology.hears|
    ensures Backed(topology, origins, o.router, o.prefix, o.metric, 0)
  {
    assert Carries(topology, [o.router], o, o.router, o.prefix, o.metric);
  }

  /** One more hop: what backs a route at j backs it at whoever hears j. */
  lemma BackedOneHopOn(topology: Topology, origins: set<Origin>, j: nat, q: Prefix, m: nat, hops: nat, i: nat,
                       p: Prefix)
    requires topology.Valid() && Backed(topology, origins, j, q, m, hops)
    requires i < |topology.hears| && j in topology.hears[i] && OnWire(q.address) == Ok(p)
    ensures Backed(topology, origins, i, p, m + 1, hops + 1)
  {
    var w, o :| o in origins && |w| <= hops + 1 && Carries(topology, w, o, j, q, m);
    var w' := w + [i];
    if |w| > 1 {
      WireIdempotent(o.prefix.address);
    }
    assert IsWalk(topology, w') by {
      forall t | 0 < t < |w'|
        ensures w'[t - 1] in topology.hears[w'[t]]
      {
        if t == |w| { assert w'[t - 1] == j; }
      }
    }
    assert Carries(topology, w', o, i, p, m + 1);
  }

  lemma BackedMonotone(topology: Topology, origins: set<Origin>, more: set<Origin>, i: nat, p: Prefix, m: nat,
                       hops: nat, limit: nat)
    requires Backed(topology, origins, i, p, m, hops) && origins <= more && hops <= limit
    ensures Backed(topology, more, i, p, m, limit)
  {
    var w, o :| o in origins && |w| <= hops + 1 && Carries(topology, w, o, i, p, m);
    assert o in more;
  }

  // ---- the asynchronous machine ----------------------------------------

  datatype Packet = Packet(sender: nat, entries: seq<Entry>)

  /** `sent` only grows: a packet that is never delivered is lost, one delivered
      again is a duplicate, and any order of delivery is possible. */
  datatype System = System(nodes: seq<Node>, sent: set<Packet>, origins: set<Origin>)

  datatype Action =
    | Send(i: nat, entries: seq<Entry>)
    | Deliver(i: nat, packet: Packet, at: real)
    | Act(i: nat, event: Event)

  ghost function Origins(i: nat, table: Table): set<Origin> {
    set k | k in table :: Origin(i, k.prefix, table[k].metric)
  }

  ghost predicate Enabled(topology: Topology, s: System, a: Action)
    requires topology.Valid() && |s.nodes| == |topology.hears|
  {
    match a
    case Send(i, entries) => i < |s.nodes| && IsResponse(s.nodes[i].rib, topology.wire[i], entries)
    case Deliver(i, packet, _) =>
      i < |s.nodes| && packet in s.sent && packet.sender in topology.hears[i] && packet.sender < |s.nodes|
    case Act(i, event) => i < |s.nodes| && !event.Receive?
  }

  ghost predicate Moves(topology: Topology, configs: seq<Config>, s: System, a: Action, s': System)
    requires topology.Valid() && |s.nodes| == |configs| == |topology.hears|
  {
    && Enabled(topology, s, a)
    && match a
       case Send(i, entries) => s' == s.(sent := s.sent + {Packet(i, entries)})
       case Deliver(i, packet, now) =>
         var e := Receive(packet.entries, topology.address[packet.sender], packet.sender == i, now);
         s' == s.(nodes := s.nodes[i := Receiving(configs[i], s.nodes[i], e)])
       case Act(i, event) =>
         && |s'.nodes| == |s.nodes|
         && Step(configs[i], s.nodes[i], event, s'.nodes[i])
         && s'.nodes == s.nodes[i := s'.nodes[i]]
         && s'.sent == s.sent
         && s'.origins ==
              (if event.RedistributeInto? then s.origins + Origins(i, s'.nodes[i].redistributed) else s.origins)
  }

  ghost predicate Initial(topology: Topology, s: System) {
    s == System(seq(|topology.hears|, i => START), {}, {})
  }

  ghost predicate IsSystemRun(topology: Topology, configs: seq<Config>, run: seq<System>, actions: seq<Action>)
    requires topology.Valid() && |configs| == |topology.hears|
  {
    && |run| == |actions| + 1
    && Initial(topology, run[0])
    && forall t :: 0 <= t < |actions| ==>
         |run[t].nodes| == |configs| && Moves(topology, configs, run[t], actions[t], run[t + 1])
  }

  // ---- asynchronous safety ---------------------------------------------

  ghost predicate SoundTable(topology: Topology, origins: set<Origin>, i: nat, t: Table) {
    forall k :: k in t && t[k].metric < MAX_METRIC ==> Backed(topology, origins, i, k.prefix, t[k].metric, t[k].metric)
  }

  /** A finite entry in flight carries one hop more than a walk to its sender. */
  ghost predicate SoundEntry(topology: Topology, origins: set<Origin>, sender: nat, e: Entry) {
    e.metric < MAX_METRIC ==> 0 < e.metric && BackedAddress(topology, origins, sender, e.address, e.metric - 1)
  }

  ghost predicate BackedAddress(topology: Topology, origins: set<Origin>, i: nat, a: Address, m: nat) {
    exists q: Prefix :: q.address == a && Backed(topology, origins, i, q, m, m)
  }

  ghost predicate SoundPacket(topology: Topology, origins: set<Origin>, packet: Packet) {
    forall e :: e in packet.entries ==> SoundEntry(topology, origins, packet.sender, e)
  }

  ghost predicate SoundNode(topology: Topology, origins: set<Origin>, i: nat, n: Node) {
    && SoundTable(topology, origins, i, n.learned)
    && SoundTable(topology, origins, i, n.redistributed)
    && SoundTable(topology, origins, i, n.rib)
  }

  ghost predicate Sound(topology: Topology, configs: seq<Config>, s: System) {
    && |s.nodes| == |configs| == |topology.hears|
    && (forall i :: 0 <= i < |s.nodes| ==>
          Invariant(configs[i], s.nodes[i]) && SoundNode(topology, s.origins, i, s.nodes[i]))
    && (forall packet :: packet in s.sent ==> SoundPacket(topology, s.origins, packet))
  }

  lemma SoundTableGrows(topology: Topology, origins: set<Origin>, more: set<Origin>, i: nat, t: Table)
    requires SoundTable(topology, origins, i, t) && origins <= more
    ensures SoundTable(topology, more, i, t)
  {
    forall k | k in t && t[k].metric < MAX_METRIC
      ensures Backed(topology, more, i, k.prefix, t[k].metric, t[k].metric)
    {
      BackedMonotone(topology, origins, more, i, k.prefix, t[k].metric, t[k].metric, t[k].metric);
    }
  }

  lemma BackedAddressGrows(topology: Topology, origins: set<Origin>, more: set<Origin>, i: nat, a: Address, m: nat)
    requires BackedAddress(topology, origins, i, a, m) && origins <= more
    ensures BackedAddress(topology, more, i, a, m)
  {
    var q: Prefix :| q.address == a && Backed(topology, origins, i, q, m, m);
    BackedMonotone(topology, origins, more, i, q, m, m, m);
  }

  lemma SoundEntryGrows(topology: Topology, origins: set<Origin>, more: set<Origin>, sender: nat, e: Entry)
    requires SoundEntry(topology, origins, sender, e) && origins <= more
    ensures SoundEntry(topology, more, sender, e)
  {
    if e.metric < MAX_METRIC {
      BackedAddressGrows(topology, origins, more, sender, e.address, e.metric - 1);
    }
  }

  lemma SoundPacketGrows(topology: Topology, origins: set<Origin>, more: set<Origin>, packet: Packet)
    requires SoundPacket(topology, origins, packet) && origins <= more
    ensures SoundPacket(topology, more, packet)
  {
    forall e | e in packet.entries
      ensures SoundEntry(topology, more, packet.sender, e)
    {
      SoundEntryGrows(topology, origins, more, packet.sender, e);
    }
  }

  lemma EncodedSound(topology: Topology, origins: set<Origin>, i: nat, rib: Table, k: Key, wire: Address)
    requires SoundTable(topology, origins, i, rib) && Keyed(rib) && k in rib
    ensures SoundEntry(topology, origins, i, Encode(rib[k], wire))
  {
    var e := Encode(rib[k], wire);
    if e.metric < MAX_METRIC {
      assert Backed(topology, origins, i, k.prefix, e.metric - 1, e.metric - 1);
    }
  }

  lemma ResponseSound(topology: Topology, origins: set<Origin>, i: nat, rib: Table, wire: Address, entries: seq<Entry>)
    requires SoundTable(topology, origins, i, rib) && Keyed(rib) && OnlyBest(rib, wire, entries)
    ensures SoundPacket(topology, origins, Packet(i, entries))
  {
    forall e | e in entries
      ensures SoundEntry(topology, origins, i, e)
    {
      var k :| Optimal(rib, k) && e == Encode(rib[k], wire);
      EncodedSound(topology, origins, i, rib, k, wire);
    }
  }

  lemma EntrySound(topology: Topology, origins: set<Origin>, j: nat, e: Entry, i: nat, now: real)
    requires topology.Valid() && i < |topology.hears| && j in topology.hears[i]
    requires SoundEntry(topology, origins, j, e)
    requires DecodeEntry(e, topology.address[j], now).Some?
    ensures var r := DecodeEntry(e, topology.address[j], now).value;
      r.metric < MAX_METRIC ==> Backed(topology, origins, i, PrefixOf(r), r.metric, r.metric)
  {
    hide OnWire;
    var r := DecodeEntry(e, topology.address[j], now).value;
    if r.metric < MAX_METRIC {
      var q: Prefix :| q.address == e.address && Backed(topology, origins, j, q, e.metric - 1, e.metric - 1);
      BackedOneHopOn(topology, origins, j, q, e.metric - 1, e.metric - 1, i, PrefixOf(r));
    }
  }

  lemma DeliverySound(topology: Topology, origins: set<Origin>, packet: Packet, i: nat, t: Table, now: real)
    requires topology.Valid() && i < |topology.hears| && packet.sender in topology.hears[i]
    requires SoundPacket(topology, origins, packet) && SoundTable(topology, origins, i, t)
    ensures SoundTable(topology, origins, i, Learn(t, Decode(packet.entries, topology.address[packet.sender], now)))
  {
    var sender := topology.address[packet.sender];
    var routes := Decode(packet.entries, sender, now);
    DecodeMembers(packet.entries, sender, now);
    forall k | k in Learn(t, routes) && Learn(t, routes)[k].metric < MAX_METRIC
      ensures Backed(topology, origins, i, k.prefix, Learn(t, routes)[k].metric, Learn(t, routes)[k].metric)
    {
      LearnedAt(t, routes, k);
      if exists r :: r in routes && r.identity == k {
        var e :| e in packet.entries && DecodeEntry(e, sender, now) == Some(Learn(t, routes)[k]);
        EntrySound(topology, origins, packet.sender, e, i, now);
      }
    }
  }

  lemma RefreshSound(topology: Topology, origins: set<Origin>, i: nat, redistributed: Table, learned: Table,
                     rib: Table, now: real)
    requires SoundTable(topology, origins, i, redistributed) && SoundTable(topology, origins, i, learned)
    requires Keyed(learned) && IsRefresh(redistributed, learned, rib, now)
    ensures SoundTable(topology, origins, i, rib)
  {
    forall k | k in rib && rib[k].metric < MAX_METRIC
      ensures Backed(topology, origins, i, k.prefix, rib[k].metric, rib[k].metric)
    {
      if k in redistributed {
        assert rib[k] == Copy(redistributed[k], now);
      }
    }
  }

  lemma OriginsSound(topology: Topology, origins: set<Origin>, i: nat, t: Table)
    requires i < |topology.hears| && Origins(i, t) <= origins
    ensures SoundTable(topology, origins, i, t)
  {
    forall k | k in t && t[k].metric < MAX_METRIC
      ensures Backed(topology, origins, i, k.prefix, t[k].metric, t[k].metric)
    {
      var o := Origin(i, k.prefix, t[k].metric);
      assert o in Origins(i, t);
      OriginBacked(topology, origins, o);
      BackedMonotone(topology, origins, origins, i, k.prefix, t[k].metric, 0, t[k].metric);
    }
  }

  lemma SweepSound(topology: Topology, origins: set<Origin>, i: nat, t: Table, clock: Clock)
    requires SoundTable(topology, origins, i, t)
    ensures SoundTable(topology, origins, i, Sweep(t, clock))
  {
  }

  lemma RedistributionLeavesRib(config: Config, n: Node, specs: seq<RouteSpec>, now: real)
    ensures var n' := Redistributing(config, n, specs, now); n'.learned == n.learned && n'.rib == n.rib
  {
  }

  lemma EventSound(topology: Topology, config: Config, origins: set<Origin>, i: nat, n: Node, e: Event, n': Node)
    requires i < |topology.hears| && Keyed(n.learned) && SoundNode(topology, origins, i, n)
    requires !e.Receive? && Step(config, n, e, n')
    requires e.RedistributeInto? ==> Origins(i, n'.redistributed) <= origins
    ensures SoundNode(topology, origins, i, n')
  {
    if e.Housekeeping? {
      SweepSound(topology, origins, i, n.learned, e.clock);
    } else if e.RedistributeInto? {
      OriginsSound(topology, origins, i, n'.redistributed);
      RedistributionLeavesRib(config, n, e.specs, e.at);
    } else {
      RefreshSound(topology, origins, i, n.redistributed, n.learned, e.rib, e.at);
    }
  }

  lemma SoundNodeGrows(topology: Topology, origins: set<Origin>, more: set<Origin>, i: nat, n: Node)
    requires SoundNode(topology, origins, i, n) && origins <= more
    ensures SoundNode(topology, more, i, n)
  {
    SoundTableGrows(topology, origins, more, i, n.learned);
    SoundTableGrows(topology, origins, more, i, n.redistributed);
    SoundTableGrows(topology, origins, more, i, n.rib);
  }

  lemma SoundGrows(topology: Topology, configs: seq<Config>, s: System, more: set<Origin>)
    requires Sound(topology, configs, s) && s.origins <= more
    ensures Sound(topology, configs, s.(origins := more))
  {
    forall i | 0 <= i < |s.nodes|
      ensures SoundNode(topology, more, i, s.nodes[i])
    {
      SoundNodeGrows(topology, s.origins, more, i, s.nodes[i]);
    }
    forall packet | packet in s.sent
      ensures SoundPacket(topology, more, packet)
    {
      SoundPacketGrows(topology, s.origins, more, packet);
    }
  }

  lemma NodeChanged(topology: Topology, configs: seq<Config>, s: System, i: nat, n: Node)
    requires Sound(topology, configs, s) && i < |s.nodes|
    requires Invariant(configs[i], n) && SoundNode(topology, s.origins, i, n)
    ensures Sound(topology, configs, s.(nodes := s.nodes[i := n]))
  {
  }

  lemma MoveKeepsSound(topology: Topology, configs: seq<Config>, s: System, a: Action, s': System)
    requires topology.Valid() && Sound(topology, configs, s) && Moves(topology, configs, s, a, s')
    ensures Sound(topology, configs, s')
  {
    match a
    case Send(i, entries) =>
      ResponseSound(topology, s.origins, i, s.nodes[i].rib, topology.wire[i], entries);
    case Deliver(i, packet, now) =>
      var e := Receive(packet.entries, topology.address[packet.sender], packet.sender == i, now);
      ReceiveKeeps(configs[i], s.nodes[i], e);
      DeliverySound(topology, s.origins, packet, i, s.nodes[i].learned, now);
      NodeChanged(topology, configs, s, i, s'.nodes[i]);
    case Act(i, event) =>
      SoundGrows(topology, configs, s, s'.origins);
      StepKeepsInvariant(configs[i], s.nodes[i], event, s'.nodes[i]);
      EventSound(topology, configs[i], s'.origins, i, s.nodes[i], event, s'.nodes[i]);
      NodeChanged(topology, configs, s.(origins := s'.origins), i, s'.nodes[i]);
  }

  lemma InitialSound(topology: Topology, configs: seq<Config>, s: System)
    requires |configs| == |topology.hears| && Initial(topology, s)
    ensures Sound(topology, configs, s)
  {
  }

  /** Asynchronous safety.  In every state of every run, each metric below 16 in
      a learned table, a RIB or a packet in flight is that of a real walk from a
      route that was really redistributed in. */
  lemma {:induction false} NoMetricIsInvented(topology: Topology, configs: seq<Config>, run: seq<System>,
                                              actions: seq<Action>, t: nat)
    requires topology.Valid() && |configs| == |topology.hears|
    requires IsSystemRun(topology, configs, run, actions) && t < |run|
    ensures Sound(topology, configs, run[t])
  {
    hide Moves;
    hide SoundNode;
    hide SoundPacket;
    hide Invariant;
    if t == 0 {
      InitialSound(topology, configs, run[0]);
    } else {
      NoMetricIsInvented(topology, configs, run, actions, t - 1);
      MoveKeepsSound(topology, configs, run[t - 1], actions[t - 1], run[t]);
    }
  }

  /** Hence no router ever believes in a route shorter than the shortest one. */
  lemma NeverBelowTrueDistance(topology: Topology, configs: seq<Config>, run: seq<System>, actions: seq<Action>,
                               t: nat, i: nat, p: Prefix, d: nat)
    requires topology.Valid() && |configs| == |topology.hears|
    requires IsSystemRun(topology, configs, run, actions)
    requires t < |run| && i < |configs| && IsDistance(topology, run[t].origins, i, p, MAX_METRIC, d)
    ensures |run[t].nodes| == |configs|
    ensures d <= BestMetric(run[t].nodes[i].learned, p) && d <= BestMetric(run[t].nodes[i].rib, p)
  {
    NoMetricIsInvented(topology, configs, run, actions, t);
    var n := run[t].nodes[i];
    assert SoundNode(topology, run[t].origins, i, n);
    BestBacked(topology, run[t].origins, i, n.learned, p);
    BestBacked(topology, run[t].origins, i, n.rib, p);
  }

  lemma BestBacked(topology: Topology, origins: set<Origin>, i: nat, t: Table, p: Prefix)
    requires SoundTable(topology, origins, i, t)
    ensures var m := BestMetric(t, p); m < MAX_METRIC ==> Backed(topology, origins, i, p, m, MAX_METRIC)
  {
    var m := BestMetric(t, p);
    if m < MAX_METRIC {
      var k :| k in t && k.prefix == p && t[k].metric == m;
      BackedMonotone(topology, origins, origins, i, p, m, m, MAX_METRIC);
    }
  }
}
