/** Stale routes and packets that are renewed, or show nothing nearer than it is:
    every state of a quiet path from such a state is one again. */
module Renewal {
  import opened Types
  import opened Addressing
  import opened Rip
  import opened RipProperties
  import opened Node
  import opened Network
  import opened Rounds
  import opened Convergence
  import opened QuietPaths
  import opened Asynchrony

  // ---- fair runs: what is renewed --------------------------------------

  /** Router i takes in what router j sends. */
  ghost predicate Accepts(topology: Topology, configs: seq<Config>, j: nat, i: nat) {
    Listens(topology, j, i) && (j == i ==> TakesOwn(topology, configs, i))
  }

  ghost predicate HearsAny(topology: Topology, configs: seq<Config>, i: nat) {
    exists j: nat :: Accepts(topology, configs, j, i)
  }

  ghost predicate OffersNow(s: System, j: nat, p: Prefix) {
    j < |s.nodes| && OffersOnWire(s.nodes[j].rib, p)
  }

  /** Some router that i takes from is offering the key. */
  ghost predicate Renewing(topology: Topology, configs: seq<Config>, s: System, i: nat, k: Key)
    requires topology.Valid()
  {
    exists j: nat :: Accepts(topology, configs, j, i) && topology.wire[j] == k.nextHop && OffersNow(s, j, k.prefix)
  }

  /** The route under k is being renewed -- or, unless we are strict, shows nothing
      nearer than it is. */
  ghost predicate RouteRecoverable(topology: Topology, configs: seq<Config>, given: seq<Table>, s: System, i: nat,
                                   k: Key, r: RouteValue, strict: bool)
    requires topology.Valid()
  {
    || Renewing(topology, configs, s, i, k)
    || (!strict && NotNearer(topology, given, i, k.prefix, r, MAX_METRIC))
  }

  /** The RIB was built from a route that is not gone by now, and will be rebuilt. */
  ghost predicate BuiltRecoverable(topology: Topology, configs: seq<Config>, given: seq<Table>, n: Node, i: nat,
                                   k: Key, r: RouteValue, strict: bool)
  {
    && k in n.learned
    && (HearsAny(topology, configs, i) || (!strict && NotNearer(topology, given, i, k.prefix, r, MAX_METRIC)))
  }

  ghost predicate RouterRecoverable(topology: Topology, configs: seq<Config>, given: seq<Table>, s: System, i: nat,
                                    p: Prefix, strict: bool)
    requires topology.Valid() && i < |s.nodes|
  {
    var n := s.nodes[i];
    && (forall k :: k in n.learned && k.prefix == p ==>
          RouteRecoverable(topology, configs, given, s, i, k, n.learned[k], strict))
    && (forall k :: k in n.learnedAtRefresh && k.prefix == p ==>
          BuiltRecoverable(topology, configs, given, n, i, k, n.learnedAtRefresh[k], strict))
  }

  /** What is in flight comes from a router that still offers p, or shows nothing
      nearer than it is. */
  ghost predicate PacketRecoverable(topology: Topology, given: seq<Table>, s: System, packet: Packet, p: Prefix,
                                    strict: bool)
  {
    || OffersNow(s, packet.sender, p) || !Names(packet.entries, p)
    || (!strict && EntriesNotNearer(topology, given, packet.sender, packet.entries, p, MAX_METRIC))
  }

  ghost predicate Names(entries: seq<Entry>, p: Prefix) {
    exists e :: e in entries && OnWire(e.address) == Ok(p)
  }

  ghost predicate Recoverable(topology: Topology, configs: seq<Config>, given: seq<Table>, s: System, p: Prefix,
                              strict: bool)
    requires topology.Valid()
  {
    && (forall i :: 0 <= i < |s.nodes| ==> RouterRecoverable(topology, configs, given, s, i, p, strict))
    && (forall packet :: packet in s.sent ==> PacketRecoverable(topology, given, s, packet, p, strict))
  }

  /** Whoever offers p goes on offering it. */
  lemma OfferStays(topology: Topology, configs: seq<Config>, given: seq<Table>, s: System, a: Action, s': System,
                   j: nat, p: Prefix, strict: bool)
    requires Formed(topology, given, s) && Formed(topology, given, s') && |configs| == |s.nodes| == |s'.nodes|
    requires Moves(topology, configs, s, a, s') && Quiet(s, a, s') && OffersNow(s, j, p)
    requires RouterRecoverable(topology, configs, given, s, j, p, strict)
    ensures OffersNow(s', j, p)
  {
    FormedLength(topology, given, s);
    if IsRebuild(a, j) {
      RebuildTakes(topology, configs, s, a, s', j);
      assert RouterFormed(topology, given, j, s.nodes[j]) && RouterFormed(topology, given, j, s'.nodes[j]);
      hide Formed;
      hide SpeakerOk;
      hide AllHeard;
      hide Moves;
      hide Quiet;
      hide Renewing;
      hide HearsAny;
      hide NotNearer;
      hide OnWire;
      var was, now := Snap(s.nodes[j]), Snap(s'.nodes[j]);
      RebuiltOffers(topology, j, was, now, p);
    } else {
      hide RouterRecoverable;
      RibStays(topology, configs, s, a, s', j);
    }
  }

  lemma RebuildTakes(topology: Topology, configs: seq<Config>, s: System, a: Action, s': System, j: nat)
    requires topology.Valid() && |configs| == |s.nodes| == |s'.nodes| == |topology.hears|
    requires Moves(topology, configs, s, a, s') && IsRebuild(a, j)
    ensures j < |s.nodes| && s'.nodes[j].learned == s.nodes[j].learned
    ensures s'.nodes[j].learnedAtRefresh == s.nodes[j].learned
  {
    hide IsRefresh;
  }

  lemma RebuiltOffers(topology: Topology, j: nat, s: Speaker, s': Speaker, p: Prefix)
    requires topology.Valid() && j < |topology.hears| && SpeakerOk(topology, j, s) && SpeakerOk(topology, j, s')
    requires s.redistributed == s'.redistributed && OffersOnWire(s.rib, p)
    requires forall k :: k in s.learned && k.prefix == p ==> k in s'.learned
    ensures OffersOnWire(s'.rib, p)
  {
    hide IsRefresh;
    hide OnWire;
    hide Classful;
    hide LeastFrom;
    var b :| b in s.rib && OnWire(b.prefix.address) == Ok(p);
    RibHoldsOnly(topology, j, s, b);
    if b in s.redistributed {
      RibOffersRedistributed(topology, j, s', b);
    } else {
      var l :| l in s.learned && l.prefix == b.prefix;
      var h := LearnedIsPlain(topology, j, s.learned, l);
      PlainOnWire(l.prefix);
      RibOffersLearned(topology, j, s', l);
    }
  }

  // ---- every state is recoverable --------------------------------------

  ghost predicate OffersOn(s: System, s': System, p: Prefix) {
    forall j: nat {:trigger OffersNow(s', j, p)} :: OffersNow(s, j, p) ==> OffersNow(s', j, p)
  }

  lemma OffersStay(topology: Topology, configs: seq<Config>, given: seq<Table>, s: System, a: Action, s': System,
                   p: Prefix, strict: bool)
    requires Formed(topology, given, s) && Formed(topology, given, s') && |configs| == |s.nodes| == |s'.nodes|
    requires Moves(topology, configs, s, a, s') && Quiet(s, a, s')
    requires Recoverable(topology, configs, given, s, p, strict)
    ensures OffersOn(s, s', p)
  {
    hide Formed;
    hide Moves;
    hide Quiet;
    hide RouterRecoverable;
    hide PacketRecoverable;
    hide OffersOnWire;
    forall j: nat | OffersNow(s, j, p)
      ensures OffersNow(s', j, p)
    {
      OfferStays(topology, configs, given, s, a, s', j, p, strict);
    }
  }

  lemma RenewingStays(topology: Topology, configs: seq<Config>, s: System, s': System, i: nat, k: Key)
    requires topology.Valid() && OffersOn(s, s', k.prefix) && Renewing(topology, configs, s, i, k)
    ensures Renewing(topology, configs, s', i, k)
  {
    hide OffersNow;
    hide TakesOwn;
    var j: nat :| Accepts(topology, configs, j, i) && topology.wire[j] == k.nextHop && OffersNow(s, j, k.prefix);
    assert OffersNow(s', j, k.prefix);
  }

  /** The route was learned from what a delivered. */
  ghost predicate Taught(topology: Topology, configs: seq<Config>, a: Action, i: nat, k: Key, r: RouteValue)
    requires topology.Valid()
  {
    && a.Deliver? && a.i == i && Accepts(topology, configs, a.packet.sender, i)
    && topology.wire[a.packet.sender] == k.nextHop && r.identity == k
    && r in Decode(a.packet.entries, topology.address[a.packet.sender], a.at)
  }

  lemma LearnedWire(topology: Topology, j: nat, entries: seq<Entry>, at: real, r: RouteValue)
    requires topology.Valid() && j < |topology.hears| && AllFrom(topology, j, entries)
    requires r in Decode(entries, topology.address[j], at)
    ensures r.identity.nextHop == topology.wire[j]
  {
    hide Decode;
    hide DecodeEntry;
    DecodeMembers(entries, topology.address[j], at);
    var e :| e in entries && DecodeEntry(e, topology.address[j], at) == Some(r);
    DecodedFrom(e, topology.address[j], at, r);
  }

  lemma DeliveryTeaches(topology: Topology, configs: seq<Config>, a: Action, n: Node, k: Key)
    requires topology.Valid() && a.Deliver? && a.i < |topology.hears| == |configs|
    requires Listens(topology, a.packet.sender, a.i)
    requires AllFrom(topology, a.packet.sender, a.packet.entries)
    ensures var j := a.packet.sender;
      var n' := Receiving(configs[a.i], n, Receive(a.packet.entries, topology.address[j], j == a.i, a.at));
      && (k in n.learned ==> k in n'.learned)
      && (k in n'.learned ==>
            || (k in n.learned && n'.learned[k] == n.learned[k])
            || Taught(topology, configs, a, a.i, k, n'.learned[k]))
  {
    hide AllFrom;
    hide Decode;
    hide Learn;
    var j := a.packet.sender;
    var routes := Decode(a.packet.entries, topology.address[j], a.at);
    LearnedAt(n.learned, routes, k);
    if exists r :: r in routes && r.identity == k {
      LearnedWire(topology, j, a.packet.entries, a.at, Learn(n.learned, routes)[k]);
    }
  }

  lemma TaughtNames(topology: Topology, j: nat, entries: seq<Entry>, at: real, r: RouteValue)
    requires topology.Valid() && j < |topology.hears| && r in Decode(entries, topology.address[j], at)
    ensures Names(entries, r.identity.prefix)
  {
    hide Decode;
    hide DecodeEntry;
    hide OnWire;
    DecodeMembers(entries, topology.address[j], at);
    var e :| e in entries && DecodeEntry(e, topology.address[j], at) == Some(r);
    DecodedFrom(e, topology.address[j], at, r);
  }

  /** A step leaves a learned route as it is, or teaches it; none goes. */
  lemma KeyMoves(topology: Topology, configs: seq<Config>, given: seq<Table>, s: System, a: Action, s': System, i: nat,
                 k: Key)
    requires Formed(topology, given, s) && |configs| == |s.nodes| == |s'.nodes| && i < |s.nodes|
    requires Moves(topology, configs, s, a, s') && Quiet(s, a, s')
    ensures k in s.nodes[i].learned ==> k in s'.nodes[i].learned
    ensures k in s'.nodes[i].learned ==>
              || (k in s.nodes[i].learned && s'.nodes[i].learned[k] == s.nodes[i].learned[k])
              || Taught(topology, configs, a, i, k, s'.nodes[i].learned[k])
  {
    FormedLength(topology, given, s);
    hide IsResponse;
    hide IsRefresh;
    hide Sweep;
    hide Rip.RedistributeIn;
    if a.Deliver? && a.i == i {
      PacketsComeFrom(topology, given, s, a.packet);
      hide Formed;
      hide AllFrom;
      hide Taught;
      hide Receiving;
      DeliveryTeaches(topology, configs, a, s.nodes[i], k);
    } else {
      hide Formed;
      hide Learn;
      hide Decode;
      hide Taught;
    }
  }

  /** What is taught from a recoverable packet. */
  lemma TaughtRecoverable(topology: Topology, configs: seq<Config>, given: seq<Table>, s: System, a: Action, i: nat,
                          k: Key, r: RouteValue, strict: bool)
    requires Formed(topology, given, s) && i < |s.nodes| && a.Deliver? && a.packet in s.sent
    requires Taught(topology, configs, a, i, k, r) && PacketRecoverable(topology, given, s, a.packet, k.prefix, strict)
    ensures RouteRecoverable(topology, configs, given, s, i, k, r, strict)
  {
    FormedLength(topology, given, s);
    PacketsComeFrom(topology, given, s, a.packet);
    hide Formed;
    hide AllFrom;
    hide Decode;
    hide NotNearer;
    hide EntriesNotNearer;
    hide OffersNow;
    var j := a.packet.sender;
    TaughtNames(topology, j, a.packet.entries, a.at, r);
    if !OffersNow(s, j, k.prefix) {
      LearnedNotNearer(topology, given, j, i, a.packet.entries, k.prefix, MAX_METRIC, a.at, r);
    }
  }

  lemma RefreshMoves(topology: Topology, configs: seq<Config>, s: System, a: Action, s': System, i: nat)
    requires topology.Valid() && |configs| == |s.nodes| == |s'.nodes| == |topology.hears| && i < |s.nodes|
    requires Moves(topology, configs, s, a, s') && Quiet(s, a, s')
    ensures s'.nodes[i].learnedAtRefresh ==
              if IsRebuild(a, i) then s.nodes[i].learned else s.nodes[i].learnedAtRefresh
  {
    hide IsResponse;
    hide Learn;
    hide Decode;
    hide IsRefresh;
    hide Sweep;
    hide Rip.RedistributeIn;
  }

  lemma RenewingHears(topology: Topology, configs: seq<Config>, s: System, i: nat, k: Key)
    requires topology.Valid() && Renewing(topology, configs, s, i, k)
    ensures HearsAny(topology, configs, i)
  {
    hide Accepts;
    hide OffersNow;
  }

  lemma RouterKeepsRecoverable(topology: Topology, configs: seq<Config>, given: seq<Table>, s: System, a: Action,
                               s': System, i: nat, p: Prefix, strict: bool)
    requires Formed(topology, given, s) && Formed(topology, given, s') && |configs| == |s.nodes| == |s'.nodes|
    requires Moves(topology, configs, s, a, s') && Quiet(s, a, s')
    requires Recoverable(topology, configs, given, s, p, strict)
    requires i < |s.nodes| && OffersOn(s, s', p)
    ensures RouterRecoverable(topology, configs, given, s', i, p, strict)
  {
    FormedLength(topology, given, s);
    DeliveredWasSent(topology, configs, s, a, s');
    hide Formed;
    hide Moves;
    hide Quiet;
    hide RouteRecoverable;
    hide BuiltRecoverable;
    hide OffersOn;
    hide PacketRecoverable;
    hide Taught;
    hide IsRebuild;
    var n, n' := s.nodes[i], s'.nodes[i];
    RefreshMoves(topology, configs, s, a, s', i);
    forall k | k in n'.learned && k.prefix == p
      ensures RouteRecoverable(topology, configs, given, s', i, k, n'.learned[k], strict)
    {
      KeyMoves(topology, configs, given, s, a, s', i, k);
      LearnedRecoverable(topology, configs, given, s, a, s', i, k, strict);
    }
    assert RouterRecoverable(topology, configs, given, s, i, p, strict);
    hide Recoverable;
    forall k | k in n'.learnedAtRefresh && k.prefix == p
      ensures BuiltRecoverable(topology, configs, given, n', i, k, n'.learnedAtRefresh[k], strict)
    {
      KeyMoves(topology, configs, given, s, a, s', i, k);
      if IsRebuild(a, i) {
        LearnedIsBuilt(topology, configs, given, s, n', i, k, n.learned[k], strict);
      } else {
        BuiltStays(topology, configs, given, n, n', i, k, n'.learnedAtRefresh[k], strict);
      }
    }
  }

  lemma LearnedIsBuilt(topology: Topology, configs: seq<Config>, given: seq<Table>, s: System, n: Node, i: nat,
                       k: Key, r: RouteValue, strict: bool)
    requires topology.Valid() && RouteRecoverable(topology, configs, given, s, i, k, r, strict) && k in n.learned
    ensures BuiltRecoverable(topology, configs, given, n, i, k, r, strict)
  {
    hide NotNearer;
    hide HearsAny;
    hide Renewing;
    if Renewing(topology, configs, s, i, k) {
      RenewingHears(topology, configs, s, i, k);
    }
  }

  lemma BuiltStays(topology: Topology, configs: seq<Config>, given: seq<Table>, n: Node, n': Node, i: nat, k: Key,
                   r: RouteValue, strict: bool)
    requires BuiltRecoverable(topology, configs, given, n, i, k, r, strict) && k in n'.learned
    ensures BuiltRecoverable(topology, configs, given, n', i, k, r, strict)
  {
  }

  lemma DeliveredWasSent(topology: Topology, configs: seq<Config>, s: System, a: Action, s': System)
    requires topology.Valid() && |configs| == |s.nodes| == |topology.hears| && Moves(topology, configs, s, a, s')
    ensures a.Deliver? ==> a.packet in s.sent && Listens(topology, a.packet.sender, a.i)
    ensures a.Send? ==> a.i < |s.nodes| && IsResponse(s.nodes[a.i].rib, topology.wire[a.i], a.entries)
    ensures s'.sent == if a.Send? then s.sent + {Packet(a.i, a.entries)} else s.sent
  {
    hide IsResponse;
    hide Learn;
    hide Decode;
    hide Step;
  }

  lemma LearnedRecoverable(topology: Topology, configs: seq<Config>, given: seq<Table>, s: System, a: Action,
                           s': System, i: nat, k: Key, strict: bool)
    requires topology.Valid() && Formed(topology, given, s) && |s.nodes| == |s'.nodes| && i < |s.nodes|
    requires k in s'.nodes[i].learned && (a.Deliver? ==> a.packet in s.sent)
    requires Recoverable(topology, configs, given, s, k.prefix, strict) && OffersOn(s, s', k.prefix)
    requires || (k in s.nodes[i].learned && s'.nodes[i].learned[k] == s.nodes[i].learned[k])
             || Taught(topology, configs, a, i, k, s'.nodes[i].learned[k])
    ensures RouteRecoverable(topology, configs, given, s', i, k, s'.nodes[i].learned[k], strict)
  {
    FormedLength(topology, given, s);
    hide Formed;
    hide NotNearer;
    hide OffersOn;
    hide Renewing;
    hide PacketRecoverable;
    hide BuiltRecoverable;
    var r := s'.nodes[i].learned[k];
    if Taught(topology, configs, a, i, k, r) {
      TaughtRecoverable(topology, configs, given, s, a, i, k, r, strict);
    } else {
      assert RouterRecoverable(topology, configs, given, s, i, k.prefix, strict);
    }
    if Renewing(topology, configs, s, i, k) {
      RenewingStays(topology, configs, s, s', i, k);
    }
  }

  /** A message that names p is of a router that offers it. */
  lemma SentRecoverable(topology: Topology, given: seq<Table>, s: System, j: nat, entries: seq<Entry>, p: Prefix,
                        strict: bool)
    requires Formed(topology, given, s) && j < |s.nodes| && IsResponse(s.nodes[j].rib, topology.wire[j], entries)
    ensures PacketRecoverable(topology, given, s, Packet(j, entries), p, strict)
  {
    assert RouterFormed(topology, given, j, s.nodes[j]);
    hide Formed;
    hide SpeakerOk;
    hide OnWire;
    hide Distance;
    if e :| e in entries && OnWire(e.address) == Ok(p) {
      var k :| Optimal(s.nodes[j].rib, k) && e == Encode(s.nodes[j].rib[k], topology.wire[j]);
      RibOnWire(topology, j, Snap(s.nodes[j]), k);
      assert OffersNow(s, j, p);
    }
  }

  lemma MoveKeepsRecoverable(topology: Topology, configs: seq<Config>, given: seq<Table>, s: System, a: Action,
                             s': System, p: Prefix, strict: bool)
    requires Formed(topology, given, s) && Formed(topology, given, s') && |configs| == |s.nodes| == |s'.nodes|
    requires Moves(topology, configs, s, a, s') && Quiet(s, a, s')
    requires Recoverable(topology, configs, given, s, p, strict)
    ensures Recoverable(topology, configs, given, s', p, strict)
  {
    FormedLength(topology, given, s);
    OffersStay(topology, configs, given, s, a, s', p, strict);
    DeliveredWasSent(topology, configs, s, a, s');
    hide Formed;
    hide Moves;
    hide Quiet;
    hide IsResponse;
    hide RouterRecoverable;
    hide EntriesNotNearer;
    hide OffersNow;
    forall i | 0 <= i < |s'.nodes|
      ensures RouterRecoverable(topology, configs, given, s', i, p, strict)
    {
      RouterKeepsRecoverable(topology, configs, given, s, a, s', i, p, strict);
    }
    forall packet | packet in s'.sent
      ensures PacketRecoverable(topology, given, s', packet, p, strict)
    {
      if packet !in s.sent {
        SentRecoverable(topology, given, s, a.i, a.entries, p, strict);
      }
      assert PacketRecoverable(topology, given, s, packet, p, strict);
      assert OffersNow(s, packet.sender, p) ==> OffersNow(s', packet.sender, p);
    }
  }

  // ---- what renewal brings ---------------------------------------------

  /** A quiet path from a recoverable state. */
  ghost predicate Recovering(topology: Topology, configs: seq<Config>, run: seq<System>, actions: seq<Action>,
                             p: Prefix)
  {
    && IsQuietPath(topology, configs, run, actions) && HeardClear(topology, Given(Snaps(run[0])), p)
    && Recoverable(topology, configs, Given(Snaps(run[0])), run[0], p, false)
  }

  lemma {:induction false} AlwaysRecoverable(topology: Topology, configs: seq<Config>, run: seq<System>,
                                             actions: seq<Action>, p: Prefix, t: nat, strict: bool)
    requires IsQuietPath(topology, configs, run, actions) && t < |run|
    requires Recoverable(topology, configs, Given(Snaps(run[0])), run[0], p, strict)
    ensures topology.Valid() && Recoverable(topology, configs, Given(Snaps(run[0])), run[t], p, strict)
  {
    hide IsQuietPath;
    hide Recoverable;
    hide Moves;
    hide Quiet;
    hide Formed;
    QuietPathLength(topology, configs, run, actions);
    if t != 0 {
      AlwaysRecoverable(topology, configs, run, actions, p, t - 1, strict);
      QuietStep(topology, configs, run, actions, t - 1);
      MoveKeepsRecoverable(topology, configs, Given(Snaps(run[0])), run[t - 1], actions[t - 1], run[t], p, strict);
    }
  }

  lemma {:induction false} OffersLater(topology: Topology, configs: seq<Config>, run: seq<System>,
                                       actions: seq<Action>, p: Prefix, j: nat, u: nat, t: nat)
    requires Recovering(topology, configs, run, actions, p) && u <= t < |run| && OffersNow(run[u], j, p)
    ensures OffersNow(run[t], j, p)
    decreases t
  {
    hide IsQuietPath;
    hide HeardClear;
    hide Recoverable;
    hide OffersNow;
    hide Moves;
    hide Quiet;
    hide Formed;
    if u < t {
      QuietPathLength(topology, configs, run, actions);
      OffersLater(topology, configs, run, actions, p, j, u, t - 1);
      AlwaysRecoverable(topology, configs, run, actions, p, t - 1, false);
      QuietStep(topology, configs, run, actions, t - 1);
      OffersStay(topology, configs, Given(Snaps(run[0])), run[t - 1], actions[t - 1], run[t], p, false);
    }
  }
}
