/** The default route has no length on the wire, so whoever hears it files it as
    0.0.0.0/8, together with what is offered for that network.  Which of the two
    stands is a matter of order, so rounds need not compute the distance of that
    one prefix, not even in the end. */
module DefaultRoute {
  import opened Types
  import opened Addressing
  import opened Rip
  import opened RipProperties
  import opened Network
  import opened Rounds
  import opened Runs
  import opened Convergence
  import opened Collision

  ghost predicate ComputesAll(topology: Topology, holders: set<nat>, nets: seq<seq<Speaker>>,
                              schedules: seq<Schedule>)
  {
    IsRounds(topology, nets, schedules) && Start(topology, nets[0]) && DefaultsOnlyAt(Given(nets[0]), holders) ==>
      forall t: nat, i: nat, p: Prefix :: t < |nets| && i < |nets[0]| ==> ComputesAt(topology, nets, t, t, i, p)
  }

  /** Whatever is redistributed, but default routes only at these routers, every
      round computes the distances of all prefixes. */
  ghost predicate AlwaysComputesAll(topology: Topology, holders: set<nat>) {
    forall nets: seq<seq<Speaker>>, schedules: seq<Schedule> :: ComputesAll(topology, holders, nets, schedules)
  }

  ghost predicate SettlesAll(topology: Topology, holders: set<nat>, nets: seq<seq<Speaker>>, schedules: seq<Schedule>,
                             round: nat)
  {
    IsRounds(topology, nets, schedules) && Start(topology, nets[0]) && DefaultsOnlyAt(Given(nets[0]), holders) ==>
      forall t: nat, i: nat, p: Prefix :: round <= t < |nets| && i < |nets[0]| ==>
        ComputesAt(topology, nets, t, MAX_METRIC, i, p)
  }

  /** The same of what is reached from the given round on. */
  ghost predicate AlwaysSettlesAllBy(topology: Topology, holders: set<nat>, round: nat) {
    forall nets: seq<seq<Speaker>>, schedules: seq<Schedule> :: SettlesAll(topology, holders, nets, schedules, round)
  }

  ghost predicate HearsNone(topology: Topology, holders: set<nat>) {
    forall i :: 0 <= i < |topology.hears| ==> topology.hears[i] !! holders
  }

  // ---- one router that was given both ----------------------------------

  const DEFAULT: Prefix := Prefix(0, 0)

  lemma NetworkZero() returns (zero: Prefix)
    ensures OnWire(0) == Ok(zero) && zero.address == 0 && zero != DEFAULT && Plain(zero)
    ensures Classful(DEFAULT) == Ok(DEFAULT)
  {
    DefaultRouteBecomesNetworkZero(DEFAULT);
    zero := OnWire(0).value;
    WireIdempotent(0);
  }

  ghost function GivenRoute(p: Prefix, m: nat): RouteValue {
    RouteValue(Key(p, 0), 0, m, STATIC, UNKNOWN, 0.0)
  }

  /** The default route at 1, and 0.0.0.0/8 at 5. */
  ghost function GivenBoth(zero: Prefix): Table {
    map[Key(DEFAULT, 0) := GivenRoute(DEFAULT, 1), Key(zero, 0) := GivenRoute(zero, 5)]
  }

  /** Router j was given both, the others nothing. */
  ghost function SpeakerAt(zero: Prefix, j: nat, h: nat): Speaker {
    if h == j then Speaker(GivenBoth(zero), map[], GivenBoth(zero)) else Speaker(map[], map[], map[])
  }

  ghost function Alone(topology: Topology, zero: Prefix, j: nat): (net: seq<Speaker>)
    ensures |net| == |topology.hears| && forall h :: 0 <= h < |net| ==> net[h] == SpeakerAt(zero, j, h)
  {
    seq(|topology.hears|, h requires 0 <= h => SpeakerAt(zero, j, h))
  }

  lemma BothIsOk(topology: Topology, i: nat, zero: Prefix)
    requires topology.Valid() && i < |topology.hears|
    requires zero != DEFAULT && Plain(zero) && Classful(DEFAULT) == Ok(DEFAULT)
    ensures SpeakerOk(topology, i, Speaker(GivenBoth(zero), map[], GivenBoth(zero)))
  {
    hide Classful;
    var s := Speaker(GivenBoth(zero), map[], GivenBoth(zero));
    assert IsRefresh(s.redistributed, s.learned, s.rib, 0.0);
  }

  lemma RouterStarts(topology: Topology, zero: Prefix, j: nat, h: nat)
    requires topology.Valid() && h < |topology.hears|
    requires zero != DEFAULT && Plain(zero) && Classful(DEFAULT) == Ok(DEFAULT)
    ensures SpeakerOk(topology, h, SpeakerAt(zero, j, h)) && SpeakerAt(zero, j, h).learned == map[]
  {
    BothIsOk(topology, h, zero);
    NewSpeakerIsOk(topology, h, zero, None);
    hide SpeakerOk;
    hide Plain;
  }

  lemma OnlyOneDefault(topology: Topology, zero: Prefix, j: nat)
    requires Plain(zero)
    ensures DefaultsOnlyAt(Given(Alone(topology, zero, j)), {j})
  {
    hide Classful;
    var given: seq<Table> := Given(Alone(topology, zero, j));
    forall h, k | 0 <= h < |given| && k in given[h] && k.prefix.length == 0
      ensures h == j
    {
      assert given[h] == SpeakerAt(zero, j, h).redistributed;
    }
  }

  lemma AloneStarts(topology: Topology, zero: Prefix, j: nat)
    requires topology.Valid() && zero != DEFAULT && Plain(zero) && Classful(DEFAULT) == Ok(DEFAULT)
    ensures Start(topology, Alone(topology, zero, j)) && DefaultsOnlyAt(Given(Alone(topology, zero, j)), {j})
  {
    OnlyOneDefault(topology, zero, j);
    hide SpeakerOk;
    hide Plain;
    hide OnWire;
    hide Classful;
    hide SpeakerAt;
    hide DefaultsOnlyAt;
    var net := Alone(topology, zero, j);
    hide Alone;
    forall h | 0 <= h < |net|
      ensures SpeakerOk(topology, h, net[h]) && net[h].learned == map[]
    {
      RouterStarts(topology, zero, j, h);
    }
  }

  // ---- what is never believed ------------------------------------------

  lemma LastEntryStands(t: Table, message: seq<Entry>, sender: Address, at: real, d: RouteValue)
    requires message != [] && DecodeEntry(message[|message| - 1], sender, at) == Some(d)
    ensures var t' := Learn(t, Decode(message, sender, at)); d.identity in t' && t'[d.identity] == d
  {
    hide DecodeEntry;
    var routes := Decode(message, sender, at);
    assert routes[|routes| - 1] == d;
  }

  ghost predicate FarNet(net: seq<Speaker>, zero: Prefix) {
    forall h :: 0 <= h < |net| ==> Far(net[h].learned, zero)
  }

  /** What router h holds for 0.0.0.0/8, as long as nobody learned it well. */
  lemma FarRib(topology: Topology, net: seq<Speaker>, zero: Prefix, j: nat, h: nat, k: Key)
    requires NetOk(topology, net) && h < |net| && FarNet(net, zero) && zero != DEFAULT
    requires net[h].redistributed == SpeakerAt(zero, j, h).redistributed && k in net[h].rib && k.prefix == zero
    ensures 3 <= net[h].rib[k].metric
  {
    hide SpeakerOk;
    RibHoldsOnly(topology, h, net[h], k);
  }

  /** An offer of another router is one for 0.0.0.0/8 itself... */
  lemma OtherOfferFar(topology: Topology, net: seq<Speaker>, zero: Prefix, j: nat, h: nat, r: RouteValue)
    requires NetOk(topology, net) && h < |net| && FarNet(net, zero) && zero != DEFAULT && h != j
    requires net[h].redistributed == SpeakerAt(zero, j, h).redistributed
    requires IsOffer(topology, h, net[h], r) && PrefixOf(r) == zero
    ensures 3 <= r.metric
  {
    hide SpeakerOk;
    hide OnWire;
    hide Classful;
    hide FarNet;
    var b :| IsOfferOf(topology, h, net[h], b, r);
    OnlyItself(topology, h, net[h], b, zero);
    FarRib(topology, net, zero, j, h, b);
  }

  /** ... and so is what stands of a message of router j, whose entry for it comes
      last. */
  lemma LastEntryFar(topology: Topology, net: seq<Speaker>, zero: Prefix, j: nat, message: seq<Entry>, t: Table,
                     at: real)
    requires NetOk(topology, net) && j < |net| && FarNet(net, zero) && zero != DEFAULT && Plain(zero)
    requires net[j].redistributed == SpeakerAt(zero, j, j).redistributed
    requires EndsWith(net[j].rib, topology.wire[j], message, zero)
    ensures var t' := Learn(t, Decode(message, topology.address[j], at));
      Key(zero, topology.wire[j]) in t' && 3 <= t'[Key(zero, topology.wire[j])].metric
  {
    hide SpeakerOk;
    hide FarNet;
    hide LeastFrom;
    assert Key(zero, 0) in net[j].redistributed;
    RibOffersRedistributed(topology, j, net[j], Key(zero, 0));
    var k :| && Optimal(net[j].rib, k) && k.prefix == zero
             && message[|message| - 1] == Encode(net[j].rib[k], topology.wire[j]);
    FarRib(topology, net, zero, j, j, k);
    RibOnWire(topology, j, net[j], k);
    DecodedIsOffer(topology, j, net[j], k, at);
    PlainOnWire(zero);
    hide Plain;
    hide OnWire;
    hide DecodeEntry;
    hide Encode;
    var d := DecodeEntry(Encode(net[j].rib[k], topology.wire[j]), topology.address[j], at).value;
    LastEntryStands(t, message, topology.address[j], at, d);
    hide Learn;
    hide Decode;
  }

  /** One message leaves every learned metric for 0.0.0.0/8 at 3 or more. */
  lemma MessageKeepsFar(topology: Topology, net: seq<Speaker>, zero: Prefix, j: nat, h: nat, message: seq<Entry>,
                        t: Table, at: real)
    requires NetOk(topology, net) && h < |net| && FarNet(net, zero) && zero != DEFAULT && Plain(zero)
    requires net[h].redistributed == SpeakerAt(zero, j, h).redistributed
    requires IsResponse(net[h].rib, topology.wire[h], message) && EndsWith(net[h].rib, topology.wire[h], message, zero)
    requires Far(t, zero)
    ensures Far(Learn(t, Decode(message, topology.address[h], at)), zero)
  {
    var routes := Decode(message, topology.address[h], at);
    var t' := Learn(t, routes);
    MessageIsOffers(topology, h, net[h], message, at);
    if h == j { LastEntryFar(topology, net, zero, j, message, t, at); }
    hide SpeakerOk;
    hide Plain;
    hide IsResponse;
    hide EndsWith;
    hide Learn;
    hide Decode;
    hide FarNet;
    hide OnWire;
    hide Optimal;
    forall k | k in t' && k.prefix == zero
      ensures 3 <= t'[k].metric
    {
      LearnedAt(t, routes, k);
      if exists r :: r in routes && r.identity == k {
        assert IsOffer(topology, h, net[h], t'[k]);
        if h == j {
          assert k == Key(zero, topology.wire[j]);
        } else {
          OtherOfferFar(topology, net, zero, j, h, t'[k]);
        }
      }
    }
  }

  lemma {:induction false} ProcessKeepsFar(topology: Topology, net: seq<Speaker>, schedule: Schedule, zero: Prefix,
                                           j: nat, t: Table, order: seq<nat>)
    requires NetOk(topology, net) && FarNet(net, zero) && zero != DEFAULT && Plain(zero)
    requires forall h :: 0 <= h < |net| ==> net[h].redistributed == SpeakerAt(zero, j, h).redistributed
    requires Shaped(topology, schedule) && InRange(topology, order) && Broadcast(topology, net, schedule)
    requires AllEndWith(topology, net, schedule, zero) && Far(t, zero)
    ensures Far(Process(topology, schedule, t, order), zero)
  {
    hide SpeakerOk;
    hide Plain;
    hide IsResponse;
    hide EndsWith;
    hide FarNet;
    hide Far;
    hide SpeakerAt;
    if order != [] {
      var h, init := order[|order| - 1], order[..|order| - 1];
      ProcessKeepsFar(topology, net, schedule, zero, j, t, init);
      var before := Process(topology, schedule, t, init);
      MessageKeepsFar(topology, net, zero, j, h, schedule.messages[h], before, schedule.at);
    }
  }

  /** A run in which router j was given both and lists 0.0.0.0/8 last. */
  ghost predicate FromBoth(topology: Topology, nets: seq<seq<Speaker>>, schedules: seq<Schedule>, zero: Prefix,
                           j: nat)
  {
    && IsRounds(topology, nets, schedules) && topology.Valid()
    && OnWire(0) == Ok(zero) && zero != DEFAULT && Plain(zero) && Classful(DEFAULT) == Ok(DEFAULT)
    && nets[0] == Alone(topology, zero, j)
    && forall s :: 0 <= s < |schedules| ==> AllEndWith(topology, nets[s], schedules[s], zero)
  }

  lemma RoundKeepsFar(topology: Topology, net: seq<Speaker>, schedule: Schedule, net': seq<Speaker>, zero: Prefix,
                      j: nat)
    requires NetOk(topology, net) && Round(topology, net, schedule, net') && FarNet(net, zero)
    requires zero != DEFAULT && Plain(zero) && Given(net) == Given(Alone(topology, zero, j))
    requires AllEndWith(topology, net, schedule, zero)
    ensures FarNet(net', zero)
  {
    hide SpeakerOk;
    hide Plain;
    hide OneEntryEach;
    hide IsRefresh;
    hide EndsWith;
    hide Far;
    hide Process;
    Broadcasts(topology, net, schedule, net');
    hide Broadcast;
    assert forall h :: 0 <= h < |net| ==> net[h].redistributed == SpeakerAt(zero, j, h).redistributed by {
      forall h | 0 <= h < |net|
        ensures net[h].redistributed == SpeakerAt(zero, j, h).redistributed
      {
        assert Given(net)[h] == Given(Alone(topology, zero, j))[h];
      }
    }
    hide SpeakerAt;
    forall i | 0 <= i < |net'|
      ensures Far(net'[i].learned, zero)
    {
      assert RoundAt(topology, schedule, i, net[i], net'[i]);
      ProcessKeepsFar(topology, net, schedule, zero, j, net[i].learned, schedule.orders[i]);
    }
  }

  lemma AloneIsFar(topology: Topology, zero: Prefix, j: nat)
    requires topology.Valid() && zero != DEFAULT && Plain(zero) && Classful(DEFAULT) == Ok(DEFAULT)
    ensures NetOk(topology, Alone(topology, zero, j)) && FarNet(Alone(topology, zero, j), zero)
  {
    AloneStarts(topology, zero, j);
    hide SpeakerOk;
    hide Plain;
    hide OnWire;
    hide SpeakerAt;
    hide DefaultsOnlyAt;
    hide Alone;
  }

  lemma {:induction false} StaysFar(topology: Topology, nets: seq<seq<Speaker>>, schedules: seq<Schedule>, zero: Prefix,
                                    j: nat, t: nat)
    requires FromBoth(topology, nets, schedules, zero, j) && t < |nets|
    ensures NetOk(topology, nets[t]) && Given(nets[t]) == Given(nets[0]) && FarNet(nets[t], zero)
  {
    hide SpeakerOk;
    hide Round;
    hide Plain;
    hide OnWire;
    hide Classful;
    hide AllEndWith;
    hide Alone;
    hide DefaultsOnlyAt;
    hide Far;
    AloneIsFar(topology, zero, j);
    RoundsKeepGiven(topology, nets, schedules, t);
    if t != 0 {
      StaysFar(topology, nets, schedules, zero, j, t - 1);
      assert AllEndWith(topology, nets[t - 1], schedules[t - 1], zero);
      RoundKeepsFar(topology, nets[t - 1], schedules[t - 1], nets[t], zero, j);
    }
  }

  /** Although the default route is one hop away at metric 1. */
  lemma DefaultArrives(topology: Topology, zero: Prefix, j: nat, i: nat, hops: nat)
    requires topology.Valid() && i < |topology.hears| && j in topology.hears[i] && OnWire(0) == Ok(zero)
    requires zero != DEFAULT && 0 < hops
    ensures OpenBacked(topology, Given(Alone(topology, zero, j)), i, zero, 2, hops)
  {
    hide OnWire;
    var given: seq<Table> := Given(Alone(topology, zero, j));
    var k := Key(DEFAULT, 0);
    assert k in given[j] && given[j][k].metric == 1;
    OriginOpen(topology, given, j, k, 0);
    assert !Hidden(topology, given, j, i, zero);
    hide Hidden;
    hide OpenBacked;
    OpenOneHopOn(topology, given, j, DEFAULT, 1, 0, i, zero);
    OpenMonotone(topology, given, i, zero, 2, 1, hops);
  }

  /** Whoever hears router j never has 0.0.0.0/8 below 3. */
  lemma NeverRight(topology: Topology, nets: seq<seq<Speaker>>, schedules: seq<Schedule>, zero: Prefix, j: nat, i: nat,
                   t: nat, hops: nat)
    requires FromBoth(topology, nets, schedules, zero, j) && t < |nets| && 0 < hops
    requires i < |topology.hears| && j in topology.hears[i]
    ensures !ComputesAt(topology, nets, t, hops, i, zero)
  {
    hide Plain;
    hide OnWire;
    hide SpeakerOk;
    hide LeastFrom;
    hide OpenBacked;
    hide IsRounds;
    hide AllEndWith;
    hide FarNet;
    StaysFar(topology, nets, schedules, zero, j, t);
    DefaultArrives(topology, zero, j, i, hops);
    hide Alone;
    hide SpeakerAt;
    var m := BestMetric(nets[t][i].rib, zero);
    if m < 3 {
      var k :| k in nets[t][i].rib && k.prefix == zero && nets[t][i].rib[k].metric == m;
      assert nets[t][i].redistributed == Given(nets[t])[i] == SpeakerAt(zero, j, i).redistributed;
      FarRib(topology, nets[t], zero, j, i, k);
    }
  }

  /** Somebody hears router j: runs of any length after every round of which a
      metric is not the distance, in which only j was given a default route. */
  lemma DefaultRouteMisleads(topology: Topology, j: nat, i: nat, rounds: nat)
      returns (nets: seq<seq<Speaker>>, schedules: seq<Schedule>, zero: Prefix)
    requires topology.Valid() && i < |topology.hears| && j in topology.hears[i]
    ensures IsRounds(topology, nets, schedules) && |schedules| == rounds && OnWire(0) == Ok(zero)
    ensures Start(topology, nets[0]) && i < |nets[0]| && DefaultsOnlyAt(Given(nets[0]), {j})
    ensures j < |nets[0]| && nets[0][j].redistributed == GivenBoth(zero)
    ensures forall t: nat, hops: nat :: t <= rounds && 0 < hops ==> !ComputesAt(topology, nets, t, hops, i, zero)
  {
    hide Plain;
    hide OnWire;
    hide Classful;
    hide SpeakerOk;
    hide DefaultsOnlyAt;
    hide AllEndWith;
    hide BadLast;
    hide ComputesAt;
    hide GivenBoth;
    hide Alone;
    zero := NetworkZero();
    AloneStarts(topology, zero, j);
    BadLastIsOrders(topology, j, i);
    nets, schedules := SomeRun(topology, Alone(topology, zero, j), BadLast(topology, j, i), zero, rounds);
    RunLength(topology, nets, schedules);
    hide IsRounds;
    hide IsOrders;
    assert FromBoth(topology, nets, schedules, zero, j);
    hide FromBoth;
    forall t: nat, hops: nat | t <= rounds && 0 < hops
      ensures !ComputesAt(topology, nets, t, hops, i, zero)
    {
      NeverRight(topology, nets, schedules, zero, j, i, t, hops);
    }
  }

  // ---- if and only if --------------------------------------------------

  lemma BadRunRefutes(topology: Topology, holders: set<nat>, nets: seq<seq<Speaker>>, schedules: seq<Schedule>, i: nat,
                      p: Prefix, round: nat)
    requires IsRounds(topology, nets, schedules) && |schedules| == round + 1
    requires Start(topology, nets[0]) && i < |nets[0]| && DefaultsOnlyAt(Given(nets[0]), holders)
    requires forall t: nat, hops: nat :: t < |nets| && 0 < hops ==> !ComputesAt(topology, nets, t, hops, i, p)
    ensures !AlwaysComputesAll(topology, holders) && !AlwaysSettlesAllBy(topology, holders, round)
  {
    hide ComputesAt;
    hide Start;
    hide DefaultsOnlyAt;
    RunLength(topology, nets, schedules);
    hide IsRounds;
    assert !ComputesAll(topology, holders, nets, schedules) by {
      assert !ComputesAt(topology, nets, 1, 1, i, p);
    }
    assert !SettlesAll(topology, holders, nets, schedules, round) by {
      assert !ComputesAt(topology, nets, round, MAX_METRIC, i, p);
    }
  }

  lemma FewerDefaults(given: seq<Table>, holders: set<nat>, more: set<nat>)
    requires DefaultsOnlyAt(given, holders) && holders <= more
    ensures DefaultsOnlyAt(given, more)
  {
  }

  lemma DefaultRefutes(topology: Topology, holders: set<nat>, j: nat, i: nat, round: nat)
    requires topology.Valid() && i < |topology.hears| && j in topology.hears[i] && j in holders
    ensures !AlwaysComputesAll(topology, holders) && !AlwaysSettlesAllBy(topology, holders, round)
  {
    hide ComputesAt;
    hide Start;
    hide GivenBoth;
    hide OnWire;
    hide DefaultsOnlyAt;
    hide AlwaysComputesAll;
    hide AlwaysSettlesAllBy;
    var nets, schedules, zero := DefaultRouteMisleads(topology, j, i, round + 1);
    RunLength(topology, nets, schedules);
    hide IsRounds;
    FewerDefaults(Given(nets[0]), {j}, holders);
    BadRunRefutes(topology, holders, nets, schedules, i, zero, round);
  }

  lemma CollisionRefutesAll(topology: Topology, holders: set<nat>, good: nat, bad: nat, i: nat, round: nat)
    requires topology.Valid() && i < |topology.hears|
    requires good in topology.hears[i] && bad in topology.hears[i] && good != bad && good != i
    requires topology.wire[good] == topology.wire[bad]
    ensures !AlwaysComputesAll(topology, holders) && !AlwaysSettlesAllBy(topology, holders, round)
  {
    hide ComputesAt;
    hide Start;
    hide DefaultsOnlyAt;
    hide AlwaysComputesAll;
    hide AlwaysSettlesAllBy;
    var nets, schedules, p := CollisionMisleads(topology, good, bad, i, round + 1);
    RunLength(topology, nets, schedules);
    hide IsRounds;
    FewerDefaults(Given(nets[0]), {}, holders);
    BadRunRefutes(topology, holders, nets, schedules, i, p, round);
  }

  lemma NoneHeardIsClear(topology: Topology, given: seq<Table>, holders: set<nat>, p: Prefix)
    requires HearsNone(topology, holders) && DefaultsOnlyAt(given, holders)
    ensures HeardClear(topology, given, p)
  {
  }

  lemma UnheardComputes(topology: Topology, holders: set<nat>, nets: seq<seq<Speaker>>, schedules: seq<Schedule>,
                        round: nat)
    requires topology.Valid() && DistinctWires(topology) && HearsNone(topology, holders) && 15 <= round
    ensures ComputesAll(topology, holders, nets, schedules) && SettlesAll(topology, holders, nets, schedules, round)
  {
    DistinctWiresCompute(topology, nets, schedules);
    DistinctWiresSettle(topology, nets, schedules, round);
    hide ComputesAt;
    hide Start;
    hide IsRounds;
    hide DistinctWires;
    hide HearsNone;
    hide HeardClear;
    hide DefaultsOnlyAt;
    if IsRounds(topology, nets, schedules) && Start(topology, nets[0]) && DefaultsOnlyAt(Given(nets[0]), holders) {
      forall p
        ensures HeardClear(topology, Given(nets[0]), p)
      {
        NoneHeardIsClear(topology, Given(nets[0]), holders, p);
      }
    }
  }

  /** If these are the routers that may be given a default route, the distances
      of all prefixes are right, after every round and in the end, for all
      origins and orders, exactly when nobody hears one of them and no router
      hears two that write the same next-hop field. */
  lemma AllPrefixesIff(topology: Topology, holders: set<nat>, round: nat)
    requires topology.Valid() && 15 <= round
    ensures AlwaysComputesAll(topology, holders) <==> DistinctWires(topology) && HearsNone(topology, holders)
    ensures AlwaysSettlesAllBy(topology, holders, round) <==> DistinctWires(topology) && HearsNone(topology, holders)
  {
    if DistinctWires(topology) && HearsNone(topology, holders) {
      hide DistinctWires;
      hide HearsNone;
      hide ComputesAll;
      hide SettlesAll;
      forall nets: seq<seq<Speaker>>, schedules: seq<Schedule>
        ensures ComputesAll(topology, holders, nets, schedules) && SettlesAll(topology, holders, nets, schedules, round)
      {
        UnheardComputes(topology, holders, nets, schedules, round);
      }
    } else if !HearsNone(topology, holders) {
      var i: nat :| i < |topology.hears| && !(topology.hears[i] !! holders);
      var j: nat :| j in topology.hears[i] && j in holders;
      hide AlwaysComputesAll;
      hide AlwaysSettlesAllBy;
      DefaultRefutes(topology, holders, j, i, round);
    } else {
      var i, j, k :| 0 <= i < |topology.hears| && j in topology.hears[i] && k in topology.hears[i] && j != k
                     && topology.wire[j] == topology.wire[k];
      hide AlwaysComputesAll;
      hide AlwaysSettlesAllBy;
      if j != i {
        CollisionRefutesAll(topology, holders, j, k, i, round);
      } else {
        CollisionRefutesAll(topology, holders, k, j, i, round);
      }
    }
  }

  ghost predicate HearsNobody(topology: Topology) {
    forall i :: 0 <= i < |topology.hears| ==> topology.hears[i] == {}
  }

  /** If anybody may be given one, exactly where nobody hears anybody. */
  lemma AllPrefixesIffNobodyHears(topology: Topology, holders: set<nat>, round: nat)
    requires topology.Valid() && 15 <= round && forall j: nat :: j < |topology.hears| ==> j in holders
    ensures AlwaysComputesAll(topology, holders) <==> HearsNobody(topology)
    ensures AlwaysSettlesAllBy(topology, holders, round) <==> HearsNobody(topology)
  {
    hide AlwaysComputesAll;
    hide AlwaysSettlesAllBy;
    AllPrefixesIff(topology, holders, round);
    forall i | 0 <= i < |topology.hears|
      ensures topology.hears[i] !! holders <==> topology.hears[i] == {}
    {
      if j :| j in topology.hears[i] { assert j in holders; }
    }
  }
}
