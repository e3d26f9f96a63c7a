/** Paths of the asynchronous machine on which nothing more is redistributed and
    no learned route gets too old: what every state on them looks like, and what
    no state on them shows nearer than it is. */
module QuietPaths {
  import opened Types
  import opened Addressing
  import opened Rip
  import opened RipProperties
  import opened Node
  import opened Network
  import opened Rounds
  import opened Convergence

  /** A router as it was when its RIB was last built. */
  ghost function Snap(n: Node): Speaker {
    Speaker(n.redistributed, n.learnedAtRefresh, n.rib)
  }

  ghost function Snaps(s: System): (net: seq<Speaker>)
    ensures |net| == |s.nodes| && forall i :: 0 <= i < |net| ==> net[i] == Snap(s.nodes[i])
  {
    seq(|s.nodes|, i requires 0 <= i < |s.nodes| => Snap(s.nodes[i]))
  }

  /** Every router was given its routes, and nothing has been sent. */
  ghost predicate StartsAt(topology: Topology, s: System) {
    && Start(topology, Snaps(s)) && s.sent == {}
    && forall i :: 0 <= i < |s.nodes| ==> s.nodes[i].learned == map[]
  }

  /** Nothing more is redistributed, and no learned route gets too old. */
  ghost predicate Quiet(s: System, a: Action, s': System) {
    a.Act? && a.i < |s.nodes| && a.i < |s'.nodes| ==>
      !a.event.RedistributeInto? && (a.event.Housekeeping? ==> s'.nodes[a.i].learned == s.nodes[a.i].learned)
  }

  /** From any state, with whatever stale routes and packets. */
  ghost predicate IsQuietPath(topology: Topology, configs: seq<Config>, run: seq<System>, actions: seq<Action>) {
    && topology.Valid() && |configs| == |topology.hears| && |run| == |actions| + 1
    && Formed(topology, Given(Snaps(run[0])), run[0])
    && forall t :: 0 <= t < |actions| ==>
         && |run[t].nodes| == |configs| && Moves(topology, configs, run[t], actions[t], run[t + 1])
         && Quiet(run[t], actions[t], run[t + 1])
  }

  /** From the start. */
  ghost predicate IsQuietRun(topology: Topology, configs: seq<Config>, run: seq<System>, actions: seq<Action>) {
    IsQuietPath(topology, configs, run, actions) && StartsAt(topology, run[0])
  }

  // ---- what every state looks like -------------------------------------

  ghost predicate EntryFormed(topology: Topology, j: nat, e: Entry)
    requires topology.Valid() && j < |topology.hears|
  {
    e.nextHop == topology.wire[j] && OnWire(e.address).Ok? && 0 < e.metric <= MAX_METRIC
  }

  ghost predicate PacketFormed(topology: Topology, packet: Packet)
    requires topology.Valid()
  {
    packet.sender < |topology.hears| && forall e :: e in packet.entries ==> EntryFormed(topology, packet.sender, e)
  }

  ghost predicate RouterFormed(topology: Topology, given: seq<Table>, i: nat, n: Node)
    requires topology.Valid() && i < |topology.hears| == |given|
  {
    n.redistributed == given[i] && SpeakerOk(topology, i, Snap(n)) && AllHeard(topology, i, n.learned)
  }

  /** Each RIB was rebuilt from tables of routes that were heard, and what is in
      flight was encoded by its sender: nothing is said about any metric. */
  ghost predicate Formed(topology: Topology, given: seq<Table>, s: System) {
    && topology.Valid() && |s.nodes| == |topology.hears| == |given|
    && (forall i :: 0 <= i < |s.nodes| ==> RouterFormed(topology, given, i, s.nodes[i]))
    && forall packet :: packet in s.sent ==> PacketFormed(topology, packet)
  }

  lemma FormedNet(topology: Topology, given: seq<Table>, s: System)
    requires Formed(topology, given, s)
    ensures NetOk(topology, Snaps(s)) && Given(Snaps(s)) == given
  {
    hide SpeakerOk;
    hide AllHeard;
    hide PacketFormed;
  }

  lemma FormedLength(topology: Topology, given: seq<Table>, s: System)
    requires Formed(topology, given, s)
    ensures |s.nodes| == |given| == |topology.hears|
  {
  }

  lemma SendFormed(topology: Topology, i: nat, s: Speaker, entries: seq<Entry>)
    requires topology.Valid() && i < |topology.hears| && SpeakerOk(topology, i, s)
    requires IsResponse(s.rib, topology.wire[i], entries)
    ensures PacketFormed(topology, Packet(i, entries))
  {
    hide SpeakerOk;
    hide OnWire;
    forall e | e in entries
      ensures EntryFormed(topology, i, e)
    {
      var k :| Optimal(s.rib, k) && e == Encode(s.rib[k], topology.wire[i]);
      RibOnWire(topology, i, s, k);
    }
  }

  lemma EntryHeard(topology: Topology, j: nat, i: nat, e: Entry, at: real, r: RouteValue)
    requires topology.Valid() && i < |topology.hears| && j in topology.hears[i] && EntryFormed(topology, j, e)
    requires DecodeEntry(e, topology.address[j], at) == Some(r)
    ensures HeardFrom(topology, i, j, r.identity, r)
  {
    WireIdempotent(e.address);
    hide OnWire;
    hide Classful;
  }

  lemma DeliveryFormed(topology: Topology, packet: Packet, i: nat, t: Table, at: real)
    requires topology.Valid() && i < |topology.hears| && packet.sender in topology.hears[i]
    requires PacketFormed(topology, packet) && AllHeard(topology, i, t)
    ensures AllHeard(topology, i, Learn(t, Decode(packet.entries, topology.address[packet.sender], at)))
  {
    hide EntryFormed;
    hide Plain;
    hide DecodeEntry;
    var j := packet.sender;
    var routes := Decode(packet.entries, topology.address[j], at);
    DecodeMembers(packet.entries, topology.address[j], at);
    hide Decode;
    hide Learn;
    forall k | k in Learn(t, routes)
      ensures exists h: nat :: HeardFrom(topology, i, h, k, Learn(t, routes)[k])
    {
      LearnedAt(t, routes, k);
      if exists r :: r in routes && r.identity == k {
        var e :| e in packet.entries && DecodeEntry(e, topology.address[j], at) == Some(Learn(t, routes)[k]);
        EntryHeard(topology, j, i, e, at, Learn(t, routes)[k]);
      }
    }
  }

  lemma DeliverFormed(topology: Topology, given: seq<Table>, config: Config, packet: Packet, i: nat, n: Node, own: bool,
                      at: real)
    requires topology.Valid() && i < |topology.hears| == |given| && packet.sender in topology.hears[i]
    requires PacketFormed(topology, packet) && RouterFormed(topology, given, i, n)
    ensures RouterFormed(topology, given, i,
                         Receiving(config, n, Receive(packet.entries, topology.address[packet.sender], own, at)))
  {
    DeliveryFormed(topology, packet, i, n.learned, at);
    hide SpeakerOk;
    hide AllHeard;
    hide PacketFormed;
    hide Learn;
    hide Decode;
  }

  lemma EventFormed(topology: Topology, given: seq<Table>, config: Config, i: nat, n: Node, e: Event, n': Node)
    requires topology.Valid() && i < |topology.hears| == |given| && RouterFormed(topology, given, i, n)
    requires !e.Receive? && !e.RedistributeInto? && Step(config, n, e, n')
    requires e.Housekeeping? ==> n'.learned == n.learned
    ensures RouterFormed(topology, given, i, n')
  {
    hide AllHeard;
    hide Classful;
    if e.Housekeeping? {
      hide Sweep;
      assert n' == n;
    } else {
      hide IsRefresh;
    }
  }

  lemma MoveKeepsFormed(topology: Topology, configs: seq<Config>, given: seq<Table>, s: System, a: Action, s': System)
    requires Formed(topology, given, s) && |configs| == |s.nodes|
    requires Moves(topology, configs, s, a, s') && Quiet(s, a, s')
    ensures Formed(topology, given, s')
  {
    hide SpeakerOk;
    hide AllHeard;
    hide PacketFormed;
    hide IsResponse;
    hide Receiving;
    hide Step;
    match a
    case Send(i, entries) =>
      assert RouterFormed(topology, given, i, s.nodes[i]);
      SendFormed(topology, i, Snap(s.nodes[i]), entries);
    case Deliver(i, packet, at) =>
      DeliverFormed(topology, given, configs[i], packet, i, s.nodes[i], packet.sender == i, at);
    case Act(i, event) => EventFormed(topology, given, configs[i], i, s.nodes[i], event, s'.nodes[i]);
  }

  lemma {:induction false} AlwaysFormed(topology: Topology, configs: seq<Config>, run: seq<System>,
                                        actions: seq<Action>, t: nat)
    requires IsQuietPath(topology, configs, run, actions) && t < |run|
    ensures Formed(topology, Given(Snaps(run[0])), run[t])
  {
    hide Moves;
    hide Formed;
    hide Quiet;
    if t != 0 {
      AlwaysFormed(topology, configs, run, actions, t - 1);
      MoveKeepsFormed(topology, configs, Given(Snaps(run[0])), run[t - 1], actions[t - 1], run[t]);
    }
  }

  /** One step of a quiet path. */
  lemma QuietStep(topology: Topology, configs: seq<Config>, run: seq<System>, actions: seq<Action>, t: nat)
    requires IsQuietPath(topology, configs, run, actions) && t < |actions|
    ensures |run| == |actions| + 1 && topology.Valid()
    ensures Formed(topology, Given(Snaps(run[0])), run[t]) && Formed(topology, Given(Snaps(run[0])), run[t + 1])
    ensures |configs| == |run[t].nodes| == |run[t + 1].nodes| == |topology.hears|
    ensures Moves(topology, configs, run[t], actions[t], run[t + 1]) && Quiet(run[t], actions[t], run[t + 1])
  {
    hide Moves;
    hide Quiet;
    AlwaysFormed(topology, configs, run, actions, t);
    AlwaysFormed(topology, configs, run, actions, t + 1);
    FormedLength(topology, Given(Snaps(run[0])), run[t]);
    FormedLength(topology, Given(Snaps(run[0])), run[t + 1]);
    hide Formed;
  }

  lemma StartFormed(topology: Topology, s: System)
    requires topology.Valid() && StartsAt(topology, s)
    ensures Formed(topology, Given(Snaps(s)), s)
  {
    hide IsRefresh;
    hide Classful;
    hide HeardFrom;
    forall i | 0 <= i < |s.nodes|
      ensures RouterFormed(topology, Given(Snaps(s)), i, s.nodes[i])
    {
      assert SpeakerOk(topology, i, Snaps(s)[i]);
    }
  }

  // ---- nothing is believed nearer than it is ---------------------------

  ghost predicate AllFrom(topology: Topology, j: nat, entries: seq<Entry>)
    requires topology.Valid() && j < |topology.hears|
  {
    forall e :: e in entries ==> e.nextHop == topology.wire[j]
  }

  lemma DecodedFrom(e: Entry, sender: Address, at: real, r: RouteValue)
    requires DecodeEntry(e, sender, at) == Some(r)
    ensures OnWire(e.address) == Ok(r.identity.prefix) && r.identity.nextHop == e.nextHop
    ensures r.metric == Min(e.metric, MAX_METRIC) && OnWire(r.identity.prefix.address) == Ok(r.identity.prefix)
    ensures r.nextHop == (if e.nextHop == 0 then sender else e.nextHop)
  {
    WireIdempotent(e.address);
    hide OnWire;
  }

  lemma PacketsComeFrom(topology: Topology, given: seq<Table>, s: System, packet: Packet)
    requires Formed(topology, given, s) && packet in s.sent
    ensures packet.sender < |topology.hears| && AllFrom(topology, packet.sender, packet.entries)
  {
    hide RouterFormed;
    hide OnWire;
    assert PacketFormed(topology, packet);
  }

  /** If the route reaches the RIB it does not show p nearer than it is -- or than
      `low`. */
  ghost predicate NotNearer(topology: Topology, given: seq<Table>, i: nat, p: Prefix, r: RouteValue, low: nat) {
    i < |given| && (r.Shown() !in given[i] ==> Min(low, Distance(topology, given, i, p)) <= r.metric)
  }

  ghost predicate TableNotNearer(topology: Topology, given: seq<Table>, i: nat, t: Table, p: Prefix, low: nat) {
    forall k :: k in t && k.prefix == p ==> NotNearer(topology, given, i, p, t[k], low)
  }

  /** ... nor do these entries, one hop on. */
  ghost predicate EntriesNotNearer(topology: Topology, given: seq<Table>, j: nat, entries: seq<Entry>, p: Prefix,
                                   low: nat)
  {
    forall e :: e in entries && OnWire(e.address) == Ok(p) ==>
      Min(Min(low, MAX_METRIC), Distance(topology, given, j, p) + 1) <= e.metric
  }

  lemma RibNotNearer(topology: Topology, net: seq<Speaker>, i: nat, p: Prefix, low: nat)
    requires NetOk(topology, net) && i < |net| && TableNotNearer(topology, Given(net), i, net[i].learned, p, low)
    ensures Min(low, Distance(topology, Given(net), i, p)) <= BestMetric(net[i].rib, p)
  {
    hide SpeakerOk;
    hide LeastFrom;
    hide Distance;
    hide IsOpenDistance;
    var m := BestMetric(net[i].rib, p);
    if m < MAX_METRIC {
      var k :| k in net[i].rib && k.prefix == p && net[i].rib[k].metric == m;
      RibHoldsOnly(topology, i, net[i], k);
      if k in net[i].redistributed && net[i].redistributed[k].metric == m {
        OriginsAreFar(topology, Given(net), i, k);
      }
    } else {
      AtMostInfinity(topology, Given(net), i, p);
    }
  }

  lemma AtMostInfinity(topology: Topology, given: seq<Table>, i: nat, p: Prefix)
    ensures Distance(topology, given, i, p) <= MAX_METRIC
  {
    hide OpenBacked;
  }

  lemma SendNotNearer(topology: Topology, given: seq<Table>, j: nat, s: Speaker, entries: seq<Entry>, p: Prefix,
                      low: nat)
    requires topology.Valid() && j < |topology.hears| && SpeakerOk(topology, j, s) && Clear(s.redistributed, p)
    requires IsResponse(s.rib, topology.wire[j], entries)
    requires Min(low, Distance(topology, given, j, p)) <= BestMetric(s.rib, p)
    ensures EntriesNotNearer(topology, given, j, entries, p, low + 1)
  {
    hide SpeakerOk;
    hide LeastFrom;
    hide OnWire;
    hide Clear;
    hide Distance;
    forall e | e in entries && OnWire(e.address) == Ok(p)
      ensures Min(Min(low + 1, MAX_METRIC), Distance(topology, given, j, p) + 1) <= e.metric
    {
      var k :| Optimal(s.rib, k) && e == Encode(s.rib[k], topology.wire[j]);
      RibOnWire(topology, j, s, k);
      OnlyItself(topology, j, s, k, p);
    }
  }

  /** What is learned from such entries does not either. */
  lemma LearnedNotNearer(topology: Topology, given: seq<Table>, j: nat, i: nat, entries: seq<Entry>, p: Prefix,
                         low: nat, at: real, r: RouteValue)
    requires topology.Valid() && i < |topology.hears| == |given| && j in topology.hears[i] && low <= MAX_METRIC
    requires AllFrom(topology, j, entries) && EntriesNotNearer(topology, given, j, entries, p, low)
    requires r in Decode(entries, topology.address[j], at) && r.identity.prefix == p
    ensures NotNearer(topology, given, i, p, r, low)
  {
    hide OnWire;
    hide DecodeEntry;
    hide Decode;
    hide Distance;
    var sender := topology.address[j];
    DecodeMembers(entries, sender, at);
    var e :| e in entries && DecodeEntry(e, sender, at) == Some(r);
    DecodedFrom(e, sender, at, r);
    AtMostInfinity(topology, given, i, p);
    if r.Shown() !in given[i] {
      DistanceNext(topology, given, j, i, p);
    }
  }

  lemma DeliveryNotNearer(topology: Topology, given: seq<Table>, j: nat, i: nat, entries: seq<Entry>, p: Prefix,
                          low: nat, t: Table, at: real)
    requires topology.Valid() && i < |topology.hears| == |given| && j in topology.hears[i] && low <= MAX_METRIC
    requires AllFrom(topology, j, entries) && EntriesNotNearer(topology, given, j, entries, p, low)
    requires TableNotNearer(topology, given, i, t, p, low)
    ensures TableNotNearer(topology, given, i, Learn(t, Decode(entries, topology.address[j], at)), p, low)
  {
    hide NotNearer;
    hide EntriesNotNearer;
    hide AllFrom;
    hide Learn;
    hide Decode;
    var routes := Decode(entries, topology.address[j], at);
    forall k | k in Learn(t, routes) && k.prefix == p
      ensures NotNearer(topology, given, i, p, Learn(t, routes)[k], low)
    {
      LearnedAt(t, routes, k);
      if exists r :: r in routes && r.identity == k {
        LearnedNotNearer(topology, given, j, i, entries, p, low, at, Learn(t, routes)[k]);
      }
    }
  }

  /** Nothing at all shows p nearer than it is, or than `low`. */
  ghost predicate NothingNearer(topology: Topology, given: seq<Table>, s: System, p: Prefix, low: nat) {
    && (forall i :: 0 <= i < |s.nodes| ==> NodeNotNearer(topology, given, i, s.nodes[i], p, low))
    && (forall packet, i :: packet in s.sent && Listens(topology, packet.sender, i) ==>
          EntriesNotNearer(topology, given, packet.sender, packet.entries, p, low))
  }

  ghost predicate Listens(topology: Topology, j: nat, i: nat) {
    i < |topology.hears| && j in topology.hears[i]
  }

  ghost predicate NodeNotNearer(topology: Topology, given: seq<Table>, i: nat, n: Node, p: Prefix, low: nat) {
    && TableNotNearer(topology, given, i, n.learned, p, low)
    && TableNotNearer(topology, given, i, n.learnedAtRefresh, p, low)
  }

  lemma EntriesWeaken(topology: Topology, given: seq<Table>, j: nat, entries: seq<Entry>, p: Prefix, high: nat,
                      low: nat)
    requires EntriesNotNearer(topology, given, j, entries, p, high) && low <= high
    ensures EntriesNotNearer(topology, given, j, entries, p, low)
  {
    hide OnWire;
    hide Distance;
  }

  /** A message of a router whose RIB was built from such a table. */
  lemma MessageNotNearer(topology: Topology, given: seq<Table>, s: System, j: nat, i: nat, entries: seq<Entry>,
                         p: Prefix, low: nat)
    requires Formed(topology, given, s) && HeardClear(topology, given, p) && Listens(topology, j, i)
    requires TableNotNearer(topology, given, j, s.nodes[j].learnedAtRefresh, p, low)
    requires IsResponse(s.nodes[j].rib, topology.wire[j], entries)
    ensures EntriesNotNearer(topology, given, j, entries, p, low + 1)
  {
    FormedNet(topology, given, s);
    assert RouterFormed(topology, given, j, s.nodes[j]) && Clear(given[j], p);
    hide Formed;
    hide HeardClear;
    hide NetOk;
    hide SpeakerOk;
    hide AllHeard;
    hide TableNotNearer;
    hide IsResponse;
    hide BestMetric;
    hide Distance;
    hide Clear;
    RibNotNearer(topology, Snaps(s), j, p, low);
    SendNotNearer(topology, given, j, Snap(s.nodes[j]), entries, p, low);
  }

  lemma DeliverNotNearer(topology: Topology, given: seq<Table>, config: Config, packet: Packet, i: nat, n: Node,
                         p: Prefix, low: nat, own: bool, at: real)
    requires topology.Valid() && i < |topology.hears| == |given| && packet.sender in topology.hears[i]
    requires AllFrom(topology, packet.sender, packet.entries) && low <= MAX_METRIC
    requires EntriesNotNearer(topology, given, packet.sender, packet.entries, p, low)
    requires NodeNotNearer(topology, given, i, n, p, low)
    ensures var e := Receive(packet.entries, topology.address[packet.sender], own, at);
      NodeNotNearer(topology, given, i, Receiving(config, n, e), p, low)
  {
    DeliveryNotNearer(topology, given, packet.sender, i, packet.entries, p, low, n.learned, at);
    hide TableNotNearer;
    hide Learn;
    hide Decode;
  }

  lemma EventNotNearer(topology: Topology, given: seq<Table>, config: Config, i: nat, n: Node, e: Event, n': Node,
                       p: Prefix, low: nat)
    requires !e.Receive? && !e.RedistributeInto? && Step(config, n, e, n')
    requires e.Housekeeping? ==> n'.learned == n.learned
    requires NodeNotNearer(topology, given, i, n, p, low)
    ensures NodeNotNearer(topology, given, i, n', p, low)
  {
    hide TableNotNearer;
    if e.Housekeeping? {
      hide Sweep;
      assert n' == n;
    } else {
      hide IsRefresh;
    }
  }

  lemma MoveKeepsFar(topology: Topology, configs: seq<Config>, given: seq<Table>, s: System, a: Action, s': System,
                     p: Prefix, low: nat)
    requires Formed(topology, given, s) && |configs| == |s.nodes| && HeardClear(topology, given, p)
    requires Moves(topology, configs, s, a, s') && Quiet(s, a, s') && low <= MAX_METRIC
    requires NothingNearer(topology, given, s, p, low)
    ensures NothingNearer(topology, given, s', p, low)
  {
    FormedLength(topology, given, s);
    hide Formed;
    hide HeardClear;
    hide EntriesNotNearer;
    hide IsResponse;
    hide Receiving;
    hide Step;
    match a
    case Send(j, entries) =>
      hide TableNotNearer;
      forall i: nat | Listens(topology, j, i)
        ensures EntriesNotNearer(topology, given, j, entries, p, low)
      {
        assert NodeNotNearer(topology, given, j, s.nodes[j], p, low);
        MessageNotNearer(topology, given, s, j, i, entries, p, low);
        EntriesWeaken(topology, given, j, entries, p, low + 1, low);
      }
    case Deliver(i, packet, at) =>
      hide NodeNotNearer;
      assert Listens(topology, packet.sender, i);
      PacketsComeFrom(topology, given, s, packet);
      DeliverNotNearer(topology, given, configs[i], packet, i, s.nodes[i], p, low, packet.sender == i, at);
    case Act(i, event) =>
      hide NodeNotNearer;
      EventNotNearer(topology, given, configs[i], i, s.nodes[i], event, s'.nodes[i], p, low);
  }

  lemma {:induction false} AlwaysFar(topology: Topology, configs: seq<Config>, run: seq<System>, actions: seq<Action>,
                                     p: Prefix, low: nat, t: nat)
    requires IsQuietPath(topology, configs, run, actions) && HeardClear(topology, Given(Snaps(run[0])), p)
    requires low <= MAX_METRIC && NothingNearer(topology, Given(Snaps(run[0])), run[0], p, low) && t < |run|
    ensures NothingNearer(topology, Given(Snaps(run[0])), run[t], p, low)
  {
    hide IsQuietPath;
    hide HeardClear;
    hide NothingNearer;
    hide Moves;
    hide Quiet;
    hide Formed;
    if t != 0 {
      QuietPathLength(topology, configs, run, actions);
      AlwaysFar(topology, configs, run, actions, p, low, t - 1);
      QuietStep(topology, configs, run, actions, t - 1);
      MoveKeepsFar(topology, configs, Given(Snaps(run[0])), run[t - 1], actions[t - 1], run[t], p, low);
    }
  }

  lemma QuietPathLength(topology: Topology, configs: seq<Config>, run: seq<System>, actions: seq<Action>)
    requires IsQuietPath(topology, configs, run, actions)
    ensures |run| == |actions| + 1 && topology.Valid() && |configs| == |topology.hears|
  {
    hide Formed;
    hide Moves;
    hide Quiet;
  }

  lemma StartsFar(topology: Topology, given: seq<Table>, s: System, p: Prefix, low: nat)
    requires topology.Valid() && StartsAt(topology, s)
    ensures NothingNearer(topology, given, s, p, low)
  {
    hide NotNearer;
    forall i | 0 <= i < |s.nodes|
      ensures NodeNotNearer(topology, given, i, s.nodes[i], p, low)
    {
      assert Snaps(s)[i].learned == map[];
    }
  }
}
