/** The other half: two neighbours that write the same next-hop field displace
    each other's routes, whichever is better, and rounds can stay at a wrong
    metric for ever. */
module Collision {
  import opened Types
  import opened Addressing
  import opened Rip
  import opened Network
  import opened Rounds
  import opened Runs
  import opened Convergence

  ghost predicate ComputesAt(topology: Topology, nets: seq<seq<Speaker>>, t: nat, hops: nat, i: nat, p: Prefix)
    requires t < |nets|
  {
    i < |nets[t]| && IsOpenDistance(topology, Given(nets[0]), i, p, hops, BestMetric(nets[t][i].rib, p))
  }

  ghost predicate Computes(topology: Topology, nets: seq<seq<Speaker>>, schedules: seq<Schedule>) {
    IsRounds(topology, nets, schedules) && Start(topology, nets[0]) ==>
      forall t: nat, i: nat, p: Prefix :: t < |nets| && i < |nets[0]| && HeardClear(topology, Given(nets[0]), p) ==>
        ComputesAt(topology, nets, t, t, i, p)
  }

  /** Whatever is redistributed, and in whatever order messages are processed,
      every round computes the distances over walks of that many hops. */
  ghost predicate AlwaysComputesDistance(topology: Topology) {
    forall nets: seq<seq<Speaker>>, schedules: seq<Schedule> :: Computes(topology, nets, schedules)
  }

  ghost predicate Settles(topology: Topology, nets: seq<seq<Speaker>>, schedules: seq<Schedule>, round: nat) {
    IsRounds(topology, nets, schedules) && Start(topology, nets[0]) ==>
      forall t: nat, i: nat, p: Prefix ::
        round <= t < |nets| && i < |nets[0]| && HeardClear(topology, Given(nets[0]), p) ==>
          ComputesAt(topology, nets, t, MAX_METRIC, i, p)
  }

  /** Whatever is redistributed and in whatever order, from the given round on
      the metrics are the distances over walks of any length. */
  ghost predicate AlwaysSettlesBy(topology: Topology, round: nat) {
    forall nets: seq<seq<Speaker>>, schedules: seq<Schedule> :: Settles(topology, nets, schedules, round)
  }

  // ---- two origins -----------------------------------------------------

  /** Router `good` has p at 1, router `bad` at 5, nobody else has it. */
  ghost function OriginMetric(good: nat, bad: nat, j: nat): Option<nat> {
    if j == good then Some(1) else if j == bad then Some(5) else None
  }

  ghost function TwoMetrics(good: nat, bad: nat, n: nat): (metrics: seq<Option<nat>>)
    ensures |metrics| == n && forall j :: 0 <= j < n ==> metrics[j] == OriginMetric(good, bad, j)
  {
    seq(n, j requires 0 <= j => OriginMetric(good, bad, j))
  }

  ghost function TwoOrigins(topology: Topology, p: Prefix, good: nat, bad: nat): seq<Speaker> {
    NewNet(p, TwoMetrics(good, bad, |topology.hears|))
  }

  /** Only these routers were given a default route. */
  ghost predicate DefaultsOnlyAt(given: seq<Table>, holders: set<nat>) {
    forall i, k :: 0 <= i < |given| && k in given[i] && k.prefix.length == 0 ==> i in holders
  }

  lemma NoDefaultIsClear(topology: Topology, given: seq<Table>, p: Prefix)
    requires DefaultsOnlyAt(given, {})
    ensures HeardClear(topology, given, p)
  {
  }

  lemma NewNetHasNoDefault(p: Prefix, metrics: seq<Option<nat>>)
    requires Plain(p)
    ensures DefaultsOnlyAt(Given(NewNet(p, metrics)), {})
  {
    hide Classful;
    var given: seq<Table> := Given(NewNet(p, metrics));
    forall i, k | 0 <= i < |given| && k in given[i]
      ensures k.prefix.length != 0
    {
      assert given[i] == NewSpeaker(p, metrics[i]).redistributed;
    }
  }

  lemma TwoOriginsStart(topology: Topology, p: Prefix, good: nat, bad: nat)
    requires topology.Valid() && Plain(p)
    ensures Start(topology, TwoOrigins(topology, p, good, bad))
    ensures DefaultsOnlyAt(Given(TwoOrigins(topology, p, good, bad)), {})
  {
    hide Start;
    hide DefaultsOnlyAt;
    hide NewNet;
    var metrics := TwoMetrics(good, bad, |topology.hears|);
    NewNetStarts(topology, p, metrics);
    NewNetHasNoDefault(p, metrics);
  }

  /** What any walk brings: at good at least 1, anywhere else at least 2. */
  lemma WalksFromTwo(topology: Topology, p: Prefix, good: nat, bad: nat, j: nat, q: Prefix, m: nat, hops: nat)
    requires OpenBacked(topology, Given(TwoOrigins(topology, p, good, bad)), j, q, m, hops)
    ensures 1 <= m && (j != good ==> 2 <= m)
  {
    hide Open;
    hide FiledAs;
    var given: seq<Table> := Given(TwoOrigins(topology, p, good, bad));
    var w, o :| && o in AllOrigins(given) && |w| <= hops + 1
                && Carries(topology, w, o, j, q, m) && Open(topology, given, w, q);
  }

  lemma TrueMetric(topology: Topology, p: Prefix, good: nat, bad: nat, i: nat, hops: nat)
    requires topology.Valid() && Plain(p) && i < |topology.hears| && good in topology.hears[i] && 0 < hops
    ensures OpenBacked(topology, Given(TwoOrigins(topology, p, good, bad)), i, p, 2, hops)
  {
    var given: seq<Table> := Given(TwoOrigins(topology, p, good, bad));
    PlainOnWire(p);
    hide Plain;
    hide OnWire;
    OriginOpen(topology, given, good, Key(p, 0), 0);
    OpenOneHopOn(topology, given, good, p, 1, 0, i, p);
    OpenMonotone(topology, given, i, p, 2, 1, hops);
  }

  // ---- what router i is left with --------------------------------------

  /** Router i processes `bad` last, every round. */
  ghost predicate EndsAt(topology: Topology, schedule: Schedule, i: nat, bad: nat) {
    && i < |schedule.orders| && schedule.orders[i] != [] && schedule.orders[i][|schedule.orders[i]| - 1] == bad
  }

  /** A run from the two origins, up to round t. */
  ghost predicate FromTwo(topology: Topology, nets: seq<seq<Speaker>>, schedules: seq<Schedule>, p: Prefix, good: nat,
                          bad: nat, i: nat)
  {
    && IsRounds(topology, nets, schedules) && topology.Valid() && Plain(p) && good != bad && good != i
    && i < |topology.hears| && good in topology.hears[i] && bad in topology.hears[i]
    && topology.wire[good] == topology.wire[bad]
    && nets[0] == TwoOrigins(topology, p, good, bad)
    && forall s :: 0 <= s < |schedules| ==> EndsAt(topology, schedules[s], i, bad)
  }

  ghost predicate Far(t: Table, p: Prefix) {
    forall k :: k in t && k.prefix == p ==> 3 <= t[k].metric
  }

  /** Every router but good has p at 2 or more, so offers it at 3 or more. */
  lemma OthersOfferFar(topology: Topology, nets: seq<seq<Speaker>>, schedules: seq<Schedule>, p: Prefix, good: nat,
                       bad: nat, t: nat, j: nat, k: Key, r: RouteValue)
    requires IsRounds(topology, nets, schedules) && t < |nets| && topology.Valid() && Plain(p)
    requires nets[0] == TwoOrigins(topology, p, good, bad)
    requires NetOk(topology, nets[t]) && j < |nets[t]| && j != good
    requires OfferedBy(topology, nets[t], j, k, r)
    ensures 3 <= r.metric
  {
    hide Plain;
    hide SpeakerOk;
    hide OpenBacked;
    hide TwoOrigins;
    hide FromNeighbour;
    hide OnWire;
    TwoOriginsStart(topology, p, good, bad);
    RoundsBacked(topology, nets, schedules, t);
    RibIsBacked(topology, nets[t], j, t);
    var b :| IsOfferOf(topology, j, nets[t][j], b, r);
    var m := nets[t][j].rib[b].metric;
    if m < MAX_METRIC {
      WalksFromTwo(topology, p, good, bad, j, b.prefix, m, t);
    }
  }

  lemma BadAlwaysOffers(topology: Topology, net: seq<Speaker>, p: Prefix, good: nat, bad: nat)
    requires NetOk(topology, net) && Given(net) == Given(TwoOrigins(topology, p, good, bad)) && Plain(p) && good != bad
    requires bad < |net|
    ensures OffersKey(topology, net, bad, Key(p, topology.wire[bad]))
  {
    PlainOnWire(p);
    hide Plain;
    hide OnWire;
    hide SpeakerOk;
    hide BestMetric;
    assert net[bad].redistributed == Given(net)[bad];
    RibOffersRedistributed(topology, bad, net[bad], Key(p, 0));
  }

  /** Good's offer is displaced every round, and nobody else makes as good a
      one. */
  lemma FarAfterRound(topology: Topology, nets: seq<seq<Speaker>>, schedules: seq<Schedule>, p: Prefix, good: nat,
                      bad: nat, i: nat, t: nat, k: Key)
    requires FromTwo(topology, nets, schedules, p, good, bad, i) && t < |schedules|
    requires NetOk(topology, nets[t]) && Given(nets[t]) == Given(nets[0])
    requires i < |nets[t]| && i < |nets[t + 1]| && Far(nets[t][i].learned, p)
    requires k in nets[t + 1][i].learned && k.prefix == p
    ensures 3 <= nets[t + 1][i].learned[k].metric
  {
    hide Plain;
    hide SpeakerOk;
    hide IsOffer;
    hide TwoOrigins;
    hide RoundAt;
    hide OffersOnWire;
    var net, net', schedule := nets[t], nets[t + 1], schedules[t];
    assert Round(topology, net, schedule, net') && EndsAt(topology, schedule, i, bad);
    RoundLearned(topology, net, schedule, net', i, k);
    if k.nextHop == topology.wire[bad] {
      BadAlwaysOffers(topology, net, p, good, bad);
      LastOfferStands(topology, net, schedule, net', i, k);
      OthersOfferFar(topology, nets, schedules, p, good, bad, t, bad, k, net'[i].learned[k]);
    } else if Heard(topology, net, i, k) {
      var j: nat :| j in topology.hears[i] && OfferedBy(topology, net, j, k, net'[i].learned[k]);
      assert topology.wire[j] == k.nextHop by { OfferedWire(topology, net, j, k, net'[i].learned[k]); }
      OthersOfferFar(topology, nets, schedules, p, good, bad, t, j, k, net'[i].learned[k]);
    }
  }

  lemma OfferedWire(topology: Topology, net: seq<Speaker>, j: nat, k: Key, r: RouteValue)
    requires NetOk(topology, net) && j < |net| && OfferedBy(topology, net, j, k, r)
    ensures topology.wire[j] == k.nextHop
  {
    hide SpeakerOk;
    hide OnWire;
    hide Plain;
  }

  lemma {:induction false} FarForEver(topology: Topology, nets: seq<seq<Speaker>>, schedules: seq<Schedule>,
                                      p: Prefix, good: nat, bad: nat, i: nat, t: nat)
    requires FromTwo(topology, nets, schedules, p, good, bad, i) && t < |nets|
    ensures NetOk(topology, nets[t]) && Given(nets[t]) == Given(nets[0])
    ensures i < |nets[t]| && Far(nets[t][i].learned, p)
  {
    hide Plain;
    hide SpeakerOk;
    hide Round;
    TwoOriginsStart(topology, p, good, bad);
    hide TwoOrigins;
    RoundsKeepGiven(topology, nets, schedules, t);
    if t != 0 {
      FarForEver(topology, nets, schedules, p, good, bad, i, t - 1);
      forall k | k in nets[t][i].learned && k.prefix == p
        ensures 3 <= nets[t][i].learned[k].metric
      {
        FarAfterRound(topology, nets, schedules, p, good, bad, i, t - 1, k);
      }
    }
  }

  /** Router i hears p's origin at metric 1 and never gets it below 3. */
  lemma WrongForEver(topology: Topology, nets: seq<seq<Speaker>>, schedules: seq<Schedule>,
                     p: Prefix, good: nat, bad: nat, i: nat, t: nat, hops: nat)
    requires FromTwo(topology, nets, schedules, p, good, bad, i) && t < |nets| && 0 < hops
    ensures !ComputesAt(topology, nets, t, hops, i, p)
  {
    hide LeastFrom;
    hide Round;
    hide SpeakerOk;
    hide OpenBacked;
    FarForEver(topology, nets, schedules, p, good, bad, i, t);
    TrueMetric(topology, p, good, bad, i, hops);
    hide Plain;
    var m := BestMetric(nets[t][i].rib, p);
    if m < 3 {
      var k :| k in nets[t][i].rib && k.prefix == p && nets[t][i].rib[k].metric == m;
      assert nets[t][i].redistributed == Given(nets[t])[i] == Given(nets[0])[i];
      RibHoldsOnly(topology, i, nets[t][i], k);
    }
  }

  /** Everyone's neighbours in some order, with `bad` last at i. */
  ghost function BadLast(topology: Topology, bad: nat, i: nat): seq<seq<nat>> {
    seq(|topology.hears|, j requires 0 <= j < |topology.hears| =>
      if j == i then Enumerate(topology.hears[j] - {bad}) + [bad] else Enumerate(topology.hears[j]))
  }

  lemma BadLastIsOrders(topology: Topology, bad: nat, i: nat)
    requires topology.Valid() && i < |topology.hears| && bad in topology.hears[i]
    ensures IsOrders(topology, BadLast(topology, bad, i))
  {
    var orders := BadLast(topology, bad, i);
    forall j | 0 <= j < |orders|
      ensures forall k :: k in orders[j] <==> k in topology.hears[j]
    {
    }
  }

  /** Two heard routers with one next-hop field, and runs of any length that are
      wrong after every round. */
  lemma CollisionMisleads(topology: Topology, good: nat, bad: nat, i: nat, rounds: nat)
      returns (nets: seq<seq<Speaker>>, schedules: seq<Schedule>, p: Prefix)
    requires topology.Valid() && i < |topology.hears|
    requires good in topology.hears[i] && bad in topology.hears[i] && good != bad && good != i
    requires topology.wire[good] == topology.wire[bad]
    ensures IsRounds(topology, nets, schedules) && |schedules| == rounds
    ensures Start(topology, nets[0]) && i < |nets[0]| && DefaultsOnlyAt(Given(nets[0]), {})
    ensures forall t: nat, hops: nat :: t <= rounds && 0 < hops ==> !ComputesAt(topology, nets, t, hops, i, p)
  {
    hide ComputesAt;
    hide DefaultsOnlyAt;
    hide AllEndWith;
    p := SomePlainPrefix();
    hide Plain;
    BadLastIsOrders(topology, bad, i);
    TwoOriginsStart(topology, p, good, bad);
    nets, schedules := SomeRun(topology, TwoOrigins(topology, p, good, bad), BadLast(topology, bad, i), p, rounds);
    hide IsRounds;
    hide IsOrders;
    hide SpeakerOk;
    assert FromTwo(topology, nets, schedules, p, good, bad, i) && |nets| == rounds + 1 by {
      var orders := BadLast(topology, bad, i)[i];
      assert orders[|orders| - 1] == bad;
      RunLength(topology, nets, schedules);
    }
    hide FromTwo;
    forall t: nat, hops: nat | t <= rounds && 0 < hops
      ensures !ComputesAt(topology, nets, t, hops, i, p)
    {
      WrongForEver(topology, nets, schedules, p, good, bad, i, t, hops);
    }
  }

  lemma RunLength(topology: Topology, nets: seq<seq<Speaker>>, schedules: seq<Schedule>)
    requires IsRounds(topology, nets, schedules)
    ensures |nets| == |schedules| + 1
  {
  }

  // ---- if and only if --------------------------------------------------

  lemma CollisionRefutes(topology: Topology, good: nat, bad: nat, i: nat, round: nat)
    requires topology.Valid() && i < |topology.hears|
    requires good in topology.hears[i] && bad in topology.hears[i] && good != bad && good != i
    requires topology.wire[good] == topology.wire[bad]
    ensures !AlwaysComputesDistance(topology) && !AlwaysSettlesBy(topology, round)
  {
    hide ComputesAt;
    hide HeardClear;
    hide Start;
    var nets, schedules, p := CollisionMisleads(topology, good, bad, i, round + 1);
    RunLength(topology, nets, schedules);
    NoDefaultIsClear(topology, Given(nets[0]), p);
    hide IsRounds;
    assert !Computes(topology, nets, schedules) by { assert !ComputesAt(topology, nets, 1, 1, i, p); }
    assert !Settles(topology, nets, schedules, round) by {
      assert !ComputesAt(topology, nets, round, MAX_METRIC, i, p);
    }
  }

  lemma DistinctWiresCompute(topology: Topology, nets: seq<seq<Speaker>>, schedules: seq<Schedule>)
    requires topology.Valid() && DistinctWires(topology)
    ensures Computes(topology, nets, schedules)
  {
    hide IsOpenDistance;
    hide DistinctWires;
    hide Round;
    hide NetOk;
    hide BestMetric;
    hide HeardClear;
    if IsRounds(topology, nets, schedules) && Start(topology, nets[0]) {
      forall t: nat, i: nat, p: Prefix | t < |nets| && i < |nets[0]| && HeardClear(topology, Given(nets[0]), p)
        ensures ComputesAt(topology, nets, t, t, i, p)
      {
        RoundsComputeDistance(topology, nets, schedules, t, i, p);
      }
    }
  }

  lemma DistinctWiresSettle(topology: Topology, nets: seq<seq<Speaker>>, schedules: seq<Schedule>, round: nat)
    requires topology.Valid() && DistinctWires(topology) && 15 <= round
    ensures Settles(topology, nets, schedules, round)
  {
    hide IsOpenDistance;
    hide DistinctWires;
    hide Round;
    hide NetOk;
    hide BestMetric;
    hide HeardClear;
    if IsRounds(topology, nets, schedules) && Start(topology, nets[0]) {
      forall t: nat, i: nat, p: Prefix | round <= t < |nets| && i < |nets[0]| && HeardClear(topology, Given(nets[0]), p)
        ensures ComputesAt(topology, nets, t, MAX_METRIC, i, p)
      {
        StableFromRound15(topology, nets, schedules, t, i, p, MAX_METRIC);
      }
    }
  }

  /** Rounds compute shortest paths, for every set of origins and every order of
      processing, exactly when no router hears two that write the same next-hop
      field.  This is so of every single round, and of what is reached in the
      end: with two such neighbours no number of rounds is ever enough. */
  lemma ConvergesIffDistinctWires(topology: Topology, round: nat)
    requires topology.Valid() && 15 <= round
    ensures AlwaysComputesDistance(topology) <==> DistinctWires(topology)
    ensures AlwaysSettlesBy(topology, round) <==> DistinctWires(topology)
  {
    if DistinctWires(topology) {
      hide DistinctWires;
      hide Computes;
      hide Settles;
      forall nets: seq<seq<Speaker>>, schedules: seq<Schedule>
        ensures Computes(topology, nets, schedules) && Settles(topology, nets, schedules, round)
      {
        DistinctWiresCompute(topology, nets, schedules);
        DistinctWiresSettle(topology, nets, schedules, round);
      }
    } else {
      var i, j, k :| 0 <= i < |topology.hears| && j in topology.hears[i] && k in topology.hears[i] && j != k
                     && topology.wire[j] == topology.wire[k];
      hide AlwaysComputesDistance;
      hide AlwaysSettlesBy;
      if j != i { CollisionRefutes(topology, j, k, i, round); } else { CollisionRefutes(topology, k, j, i, round); }
    }
  }

  ghost predicate HearsAtMostOne(topology: Topology) {
    forall i, j, k :: 0 <= i < |topology.hears| && j in topology.hears[i] && k in topology.hears[i] ==> j == k
  }

  /** This implementation writes zero in every next-hop field.  Its networks
      converge, for all origins and orders, exactly when nobody hears more than
      one router. */
  lemma ZeroWiresConvergeIffOneNeighbour(topology: Topology, round: nat)
    requires topology.Valid() && 15 <= round && forall j :: 0 <= j < |topology.wire| ==> topology.wire[j] == 0
    ensures AlwaysComputesDistance(topology) <==> HearsAtMostOne(topology)
    ensures AlwaysSettlesBy(topology, round) <==> HearsAtMostOne(topology)
  {
    hide AlwaysComputesDistance;
    hide AlwaysSettlesBy;
    ConvergesIffDistinctWires(topology, round);
    if DistinctWires(topology) {
      forall i, j, k | 0 <= i < |topology.hears| && j in topology.hears[i] && k in topology.hears[i]
        ensures j == k
      {
        assert topology.wire[j] == topology.wire[k];
      }
    }
  }
}
