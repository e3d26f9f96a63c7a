/** Counting to infinity: stale routes die within 16 rounds, and so does a good
    route whose holders keep listening to each other last. */
module Counting {
  import opened Types
  import opened Addressing
  import opened Rip
  import opened Network
  import opened Rounds
  import opened Runs
  import opened Convergence

  /** A router that offers a prefix keeps offering it: rounds drop nothing. */
  lemma OffersPersist(topology: Topology, net: seq<Speaker>, schedule: Schedule, net': seq<Speaker>, j: nat, k: Key)
    requires NetOk(topology, net) && Round(topology, net, schedule, net') && j < |net| && k in net[j].rib
    ensures Offers(net'[j].rib, k.prefix)
  {
    hide LeastFrom;
    hide Classful;
    hide IsRefresh;
    hide IsResponse;
    RoundKeepsSpeaker(topology, net, schedule, net', j);
    hide Round;
    assert SpeakerOk(topology, j, net[j]);
    RibHoldsOnly(topology, j, net[j], k);
    if k in net[j].redistributed {
      RibOffersRedistributed(topology, j, net'[j], k);
    } else {
      var l :| l in net[j].learned && l.prefix == k.prefix;
      RoundLearned(topology, net, schedule, net', j, l);
      RibOffersLearned(topology, j, net'[j], l);
    }
  }

  lemma OfferPersists(topology: Topology, net: seq<Speaker>, schedule: Schedule, net': seq<Speaker>, j: nat, p: Prefix)
    requires NetOk(topology, net) && Round(topology, net, schedule, net') && j < |net| && OffersOnWire(net[j].rib, p)
    ensures j < |net'| && OffersOnWire(net'[j].rib, p)
  {
    hide Round;
    hide SpeakerOk;
    hide OnWire;
    var k :| k in net[j].rib && OnWire(k.prefix.address) == Ok(p);
    OffersPersist(topology, net, schedule, net', j, k);
    RoundKeepsOk(topology, net, schedule, net');
  }

  lemma HeardPersists(topology: Topology, net: seq<Speaker>, schedule: Schedule, net': seq<Speaker>, i: nat, k: Key)
    requires NetOk(topology, net) && Round(topology, net, schedule, net') && NetOk(topology, net') && i < |net|
    requires Heard(topology, net, i, k)
    ensures Heard(topology, net', i, k)
  {
    hide Round;
    hide SpeakerOk;
    hide OffersOnWire;
    var j: nat :| j in topology.hears[i] && OffersKey(topology, net, j, k);
    OfferPersists(topology, net, schedule, net', j, k.prefix);
    assert OffersKey(topology, net', j, k);
  }

  // ---- stale routes ----------------------------------------------------

  /** Every learned route for p is still being offered by a neighbour with the
      key it is filed under. */
  ghost predicate KeptAlive(topology: Topology, net: seq<Speaker>, p: Prefix)
    requires NetOk(topology, net)
  {
    forall i, k :: 0 <= i < |net| && k in net[i].learned && k.prefix == p ==> Heard(topology, net, i, k)
  }

  /** Each learned metric for p is at least `low`, or infinite, or real. */
  ghost predicate LearnedLowIfBacked(topology: Topology, given: seq<Table>, i: nat, t: Table, p: Prefix, low: nat)
    requires topology.Valid() && i < |topology.hears|
  {
    forall k :: k in t && k.prefix == p && t[k].metric < MAX_METRIC && t[k].metric < low ==>
      FromNeighbour(topology, given, i, k, t[k], t[k].metric)
  }

  ghost predicate NetLowIfBacked(topology: Topology, net: seq<Speaker>, p: Prefix, low: nat)
    requires NetOk(topology, net)
  {
    forall i :: 0 <= i < |net| ==> LearnedLowIfBacked(topology, Given(net), i, net[i].learned, p, low)
  }

  /** The same of what the RIB was built from. */
  lemma RibLowIfBacked(topology: Topology, net: seq<Speaker>, i: nat, p: Prefix, low: nat, k: Key)
    requires NetOk(topology, net) && i < |net| && LearnedLowIfBacked(topology, Given(net), i, net[i].learned, p, low)
    requires k in net[i].rib && k.prefix == p && net[i].rib[k].metric < MAX_METRIC && net[i].rib[k].metric < low
    ensures OpenBacked(topology, Given(net), i, p, net[i].rib[k].metric, net[i].rib[k].metric)
  {
    hide OpenBacked;
    hide Classful;
    hide OnWire;
    hide IsRefresh;
    hide AllHeard;
    hide FromNeighbour;
    var m := net[i].rib[k].metric;
    assert SpeakerOk(topology, i, net[i]);
    RibHoldsOnly(topology, i, net[i], k);
    if k in net[i].redistributed && net[i].redistributed[k].metric == m {
      OriginOpen(topology, Given(net), i, k, m);
    } else {
      var l :| && l in net[i].learned && l.prefix == p && net[i].learned[l].Shown() == k
               && k !in net[i].redistributed && net[i].learned[l].metric == m;
      ShownIsOpen(topology, net, i, l, m);
    }
  }

  /** A route the RIB offers as p is one for p, or the default route, which is
      nothing but an origin. */
  lemma OfferedLowIfBacked(topology: Topology, net: seq<Speaker>, j: nat, p: Prefix, low: nat, b: Key)
    requires NetOk(topology, net) && j < |net| && LearnedLowIfBacked(topology, Given(net), j, net[j].learned, p, low)
    requires b in net[j].rib && OnWire(b.prefix.address) == Ok(p)
    requires net[j].rib[b].metric < MAX_METRIC && net[j].rib[b].metric < low
    ensures OpenBacked(topology, Given(net), j, b.prefix, net[j].rib[b].metric, net[j].rib[b].metric)
  {
    hide OpenBacked;
    hide Classful;
    hide OnWire;
    hide IsRefresh;
    hide AllHeard;
    hide LearnedLowIfBacked;
    assert SpeakerOk(topology, j, net[j]);
    RibHoldsOnly(topology, j, net[j], b);
    if b.prefix.length == 0 {
      DefaultIsRedistributed(topology, j, net[j], b);
      OriginOpen(topology, Given(net), j, b, net[j].rib[b].metric);
    } else {
      PlainOnWire(b.prefix);
      RibLowIfBacked(topology, net, j, p, low, b);
    }
  }

  lemma OfferLowIfBacked(topology: Topology, net: seq<Speaker>, j: nat, i: nat, k: Key, r: RouteValue, low: nat)
    requires NetOk(topology, net) && i < |net| && j in topology.hears[i] && OfferedBy(topology, net, j, k, r)
    requires LearnedLowIfBacked(topology, Given(net), j, net[j].learned, k.prefix, low)
    requires r.metric < MAX_METRIC && r.metric < low + 1
    ensures FromNeighbour(topology, Given(net), i, k, r, r.metric)
  {
    hide OpenBacked;
    hide OnWire;
    hide Classful;
    hide SpeakerOk;
    hide LearnedLowIfBacked;
    var b :| IsOfferOf(topology, j, net[j], b, r);
    OfferedLowIfBacked(topology, net, j, k.prefix, low, b);
    assert Arrived(topology, Given(net), j, k.prefix, r.metric, r.metric);
    assert HeardFrom(topology, i, j, k, r);
  }

  lemma RoundRaisesStale(topology: Topology, net: seq<Speaker>, schedule: Schedule, net': seq<Speaker>, p: Prefix,
                         low: nat)
    requires NetOk(topology, net) && Round(topology, net, schedule, net') && NetOk(topology, net')
    requires Given(net') == Given(net) && KeptAlive(topology, net, p) && NetLowIfBacked(topology, net, p, low)
    ensures KeptAlive(topology, net', p) && NetLowIfBacked(topology, net', p, low + 1)
  {
    hide RoundAt;
    hide Shaped;
    hide SpeakerOk;
    hide FromNeighbour;
    hide IsOffer;
    hide OffersKey;
    hide LearnedLowIfBacked;
    forall i, k | 0 <= i < |net'| && k in net'[i].learned && k.prefix == p
      ensures Heard(topology, net', i, k)
      ensures net'[i].learned[k].metric < MAX_METRIC && net'[i].learned[k].metric < low + 1 ==>
                FromNeighbour(topology, Given(net), i, k, net'[i].learned[k], net'[i].learned[k].metric)
    {
      var r := net'[i].learned[k];
      RoundLearned(topology, net, schedule, net', i, k);
      assert Heard(topology, net, i, k);
      HeardPersists(topology, net, schedule, net', i, k);
      var j: nat :| j in topology.hears[i] && OfferedBy(topology, net, j, k, r);
      if r.metric < MAX_METRIC && r.metric < low + 1 {
        OfferLowIfBacked(topology, net, j, i, k, r, low);
      }
    }
    AllLowIfBacked(topology, net', p, low + 1);
  }

  lemma AllLowIfBacked(topology: Topology, net: seq<Speaker>, p: Prefix, low: nat)
    requires NetOk(topology, net)
    requires forall i, k :: 0 <= i < |net| && k in net[i].learned && k.prefix == p
                            && net[i].learned[k].metric < MAX_METRIC && net[i].learned[k].metric < low ==>
               FromNeighbour(topology, Given(net), i, k, net[i].learned[k], net[i].learned[k].metric)
    ensures NetLowIfBacked(topology, net, p, low)
  {
    hide FromNeighbour;
    hide SpeakerOk;
  }

  lemma {:induction false} StaleRoutesRise(topology: Topology, nets: seq<seq<Speaker>>, schedules: seq<Schedule>,
                                           t: nat, p: Prefix)
    requires IsRounds(topology, nets, schedules) && t < |nets| && NetOk(topology, nets[0])
    requires KeptAlive(topology, nets[0], p)
    ensures NetOk(topology, nets[t]) && KeptAlive(topology, nets[t], p) && Given(nets[t]) == Given(nets[0])
    ensures NetLowIfBacked(topology, nets[t], p, t)
  {
    hide Round;
    hide FromNeighbour;
    hide SpeakerOk;
    hide Heard;
    RoundsKeepGiven(topology, nets, schedules, t);
    if t != 0 {
      StaleRoutesRise(topology, nets, schedules, t - 1, p);
      RoundRaisesStale(topology, nets[t - 1], schedules[t - 1], nets[t], p, t - 1);
    }
  }

  /** Counting to infinity is bounded: from any state whose routes are all still
      re-advertised, after t rounds every best metric is at least the least of
      16, t and the distance over open walks.  No processing order and no
      colliding wires can change that. */
  lemma CountingIsBounded(topology: Topology, nets: seq<seq<Speaker>>, schedules: seq<Schedule>, t: nat, i: nat,
                          p: Prefix, d: nat)
    requires IsRounds(topology, nets, schedules) && t < |nets| && NetOk(topology, nets[0])
    requires KeptAlive(topology, nets[0], p)
    requires i < |nets[0]| && IsOpenDistance(topology, Given(nets[0]), i, p, MAX_METRIC, d)
    ensures i < |nets[t]| && Min(MAX_METRIC, Min(t, d)) <= BestMetric(nets[t][i].rib, p)
  {
    hide Round;
    hide OpenBacked;
    hide SpeakerOk;
    hide LeastFrom;
    hide Heard;
    hide LearnedLowIfBacked;
    StaleRoutesRise(topology, nets, schedules, t, p);
    var m := BestMetric(nets[t][i].rib, p);
    if m < MAX_METRIC && m < t {
      var k :| k in nets[t][i].rib && k.prefix == p && nets[t][i].rib[k].metric == m;
      RibLowIfBacked(topology, nets[t], i, p, t, k);
      OpenMonotone(topology, Given(nets[0]), i, p, m, m, MAX_METRIC);
    }
  }

  /** With distinct wires counting ends where it should: from any such state,
      however stale its metrics are, every best metric is the distance over open
      walks of any length from round 16 on. */
  lemma StaleNetworkRecovers(topology: Topology, nets: seq<seq<Speaker>>, schedules: seq<Schedule>, t: nat, i: nat,
                             p: Prefix, hops: nat)
    requires IsRounds(topology, nets, schedules) && 16 <= t < |nets| && NetOk(topology, nets[0])
    requires DistinctWires(topology) && KeptAlive(topology, nets[0], p) && HeardClear(topology, Given(nets[0]), p)
    requires i < |nets[0]| && 15 <= hops
    ensures i < |nets[t]| && IsOpenDistance(topology, Given(nets[0]), i, p, hops, BestMetric(nets[t][i].rib, p))
  {
    hide Round;
    hide SpeakerOk;
    hide LeastFrom;
    hide Carries;
    hide HeardClear;
    hide DistinctWires;
    hide Heard;
    hide LearnedLowIfBacked;
    hide Open;
    var given := Given(nets[0]);
    StaleRoutesRise(topology, nets, schedules, t, p);
    var d := BestMetric(nets[t][i].rib, p);
    if d < MAX_METRIC {
      var k :| k in nets[t][i].rib && k.prefix == p && nets[t][i].rib[k].metric == d;
      RibLowIfBacked(topology, nets[t], i, p, t, k);
      OpenMonotone(topology, given, i, p, d, d, hops);
    }
    forall m: nat | OpenBacked(topology, given, i, p, m, hops)
      ensures d <= m
    {
      if m < MAX_METRIC {
        OpenHopsBounded(topology, given, i, p, m, hops);
        var w, o :| && o in AllOrigins(given) && |w| <= m + 1
                    && Carries(topology, w, o, i, p, m) && Open(topology, given, w, p);
        WalkArrives(topology, nets, schedules, t, w, o, i, p, m);
      }
    }
  }

  // ---- captured routers ------------------------------------------------

  /** The router was given neither p nor anything filed under it. */
  ghost predicate NoOrigin(redistributed: Table, p: Prefix) {
    forall k :: k in redistributed ==> k.prefix != p && OnWire(k.prefix.address) != Ok(p)
  }

  /** Members of the group all offer p and none of them is an origin of it. */
  ghost predicate Captive(topology: Topology, net: seq<Speaker>, group: set<nat>, p: Prefix)
    requires NetOk(topology, net)
  {
    forall i :: i in group ==> i < |net| && OffersOnWire(net[i].rib, p) && NoOrigin(net[i].redistributed, p)
  }

  /** In this round, each member processes another member's message last. */
  ghost predicate ListensInsideLast(schedule: Schedule, group: set<nat>) {
    forall i: nat {:trigger EndsInside(schedule, group, i)} :: i in group ==> EndsInside(schedule, group, i)
  }

  ghost predicate EndsInside(schedule: Schedule, group: set<nat>, i: nat) {
    i < |schedule.orders| && schedule.orders[i] != [] && schedule.orders[i][|schedule.orders[i]| - 1] in group
  }

  ghost predicate ZeroWires(topology: Topology) {
    forall j :: 0 <= j < |topology.wire| ==> topology.wire[j] == 0
  }

  ghost predicate AtLeast(net: seq<Speaker>, group: set<nat>, p: Prefix, low: nat) {
    forall i: nat :: i in group ==> i < |net| && Min(MAX_METRIC, low) <= BestMetric(net[i].rib, p)
  }

  lemma NoOriginIsClear(redistributed: Table, p: Prefix)
    requires NoOrigin(redistributed, p)
    ensures Clear(redistributed, p)
  {
    forall k | k in redistributed && p.address == 0 && p.length == 8
      ensures k.prefix.length != 0
    {
      if k.prefix.length == 0 {
        DefaultRouteBecomesNetworkZero(k.prefix);
      }
    }
  }

  lemma CaptiveRound(topology: Topology, net: seq<Speaker>, schedule: Schedule, net': seq<Speaker>, p: Prefix,
                     low: nat, i: nat, last: nat)
    requires NetOk(topology, net) && Round(topology, net, schedule, net') && ZeroWires(topology)
    requires i < |net| && NoOrigin(net[i].redistributed, p)
    requires schedule.orders[i] != [] && last == schedule.orders[i][|schedule.orders[i]| - 1] && last < |net|
    requires OffersOnWire(net[last].rib, p) && NoOrigin(net[last].redistributed, p)
    requires Min(MAX_METRIC, low) <= BestMetric(net[last].rib, p)
    ensures i < |net'| && Min(MAX_METRIC, low + 1) <= BestMetric(net'[i].rib, p)
  {
    hide LeastFrom;
    hide SpeakerOk;
    hide Plain;
    hide OnWire;
    hide RoundAt;
    hide Shaped;
    hide OffersOnWire;
    hide IsOffer;
    LastOfferStands(topology, net, schedule, net', i, Key(p, 0));
    RoundKeepsOk(topology, net, schedule, net');
    assert OffersKey(topology, net, last, Key(p, 0));
    NoOriginIsClear(net[last].redistributed, p);
    OfferIsBest(topology, last, net[last], net'[i].learned[Key(p, 0)]);
    var m := BestMetric(net'[i].rib, p);
    if m < MAX_METRIC {
      var k :| k in net'[i].rib && k.prefix == p && net'[i].rib[k].metric == m;
      CaptiveRibEntry(topology, net', i, k);
    }
  }

  /** With zero wires a learned route for p can only be filed under (p, 0). */
  lemma CaptiveRibEntry(topology: Topology, net: seq<Speaker>, i: nat, k: Key)
    requires NetOk(topology, net) && i < |net| && ZeroWires(topology) && k in net[i].rib
    requires forall l :: l in net[i].redistributed ==> l.prefix != k.prefix
    ensures Key(k.prefix, 0) in net[i].learned && net[i].learned[Key(k.prefix, 0)].metric == net[i].rib[k].metric
  {
    hide Classful;
    hide IsRefresh;
    assert SpeakerOk(topology, i, net[i]);
    RibHoldsOnly(topology, i, net[i], k);
    var l :| l in net[i].learned && l.prefix == k.prefix && net[i].learned[l].metric == net[i].rib[k].metric;
    var j: nat :| HeardFrom(topology, i, j, l, net[i].learned[l]);
    assert l == Key(k.prefix, 0);
  }

  /** Routers that each process one another last lose the route they hold, in
      at most 16 rounds, however near its origin is: the good offers they hear
      are displaced before the RIB is next advertised. */
  lemma {:induction false} CaptiveGroupLosesRoute(topology: Topology, nets: seq<seq<Speaker>>, schedules: seq<Schedule>,
                                                  t: nat, group: set<nat>, p: Prefix)
    requires IsRounds(topology, nets, schedules) && t < |nets| && NetOk(topology, nets[0]) && ZeroWires(topology)
    requires Captive(topology, nets[0], group, p)
    requires forall s :: 0 <= s < |schedules| ==> ListensInsideLast(schedules[s], group)
    ensures NetOk(topology, nets[t]) && Captive(topology, nets[t], group, p) && AtLeast(nets[t], group, p, t)
    ensures 16 <= t ==> forall i: nat :: i in group ==> BestMetric(nets[t][i].rib, p) == MAX_METRIC
  {
    hide Round;
    hide LeastFrom;
    hide SpeakerOk;
    hide OffersOnWire;
    hide NoOrigin;
    RoundsKeepOk(topology, nets, schedules, t);
    if t != 0 {
      CaptiveGroupLosesRoute(topology, nets, schedules, t - 1, group, p);
      RoundKeepsOk(topology, nets[t - 1], schedules[t - 1], nets[t]);
      forall i | i in group
        ensures i < |nets[t]| && OffersOnWire(nets[t][i].rib, p)
        ensures Min(MAX_METRIC, t) <= BestMetric(nets[t][i].rib, p)
      {
        OfferPersists(topology, nets[t - 1], schedules[t - 1], nets[t], i, p);
        assert EndsInside(schedules[t - 1], group, i);
        var order := schedules[t - 1].orders[i];
        CaptiveRound(topology, nets[t - 1], schedules[t - 1], nets[t], p, t - 1, i, order[|order| - 1]);
      }
    }
  }

  // ---- three routers in a line -----------------------------------------

  /** 0 -- 1 -- 2, every link both ways, every next-hop field zero. */
  ghost predicate IsLine(topology: Topology) {
    topology.Valid() && ZeroWires(topology) && topology.hears == [{1}, {0, 2}, {1}]
  }

  /** The middle router processes router 2 last. */
  ghost predicate MiddleEndsFar(schedule: Schedule) {
    |schedule.orders| == 3 && schedule.orders[1] != [] && schedule.orders[1][|schedule.orders[1]| - 1] == 2
  }

  lemma FiledIsPlain(a: Address, p: Prefix)
    requires OnWire(a) == Ok(p)
    ensures Plain(p) && OnWire(p.address) == Ok(p)
  {
    WireIdempotent(a);
  }

  /** A route crosses one link in one round. */
  lemma OfferSpreads(topology: Topology, net: seq<Speaker>, schedule: Schedule, net': seq<Speaker>, j: nat, i: nat,
                     p: Prefix)
    requires NetOk(topology, net) && Round(topology, net, schedule, net') && i < |net| && j in topology.hears[i]
    requires OffersOnWire(net[j].rib, p)
    ensures i < |net'| && OffersOnWire(net'[i].rib, p)
  {
    hide Round;
    hide SpeakerOk;
    hide IsOffer;
    hide LeastFrom;
    hide OnWire;
    hide Plain;
    var b :| b in net[j].rib && OnWire(b.prefix.address) == Ok(p);
    FiledIsPlain(b.prefix.address, p);
    var k := Key(p, topology.wire[j]);
    assert OffersKey(topology, net, j, k);
    RoundLearned(topology, net, schedule, net', i, k);
    RoundKeepsOk(topology, net, schedule, net');
    RibOffersLearned(topology, i, net'[i], k);
    var c :| c in net'[i].rib && c.prefix == p;
  }

  /** None of the far two routers redistributed p in. */
  ghost predicate NoOriginBeyond(net: seq<Speaker>, p: Prefix) {
    |net| == 3 && NoOrigin(net[1].redistributed, p) && NoOrigin(net[2].redistributed, p)
  }

  lemma CaptivePair(topology: Topology, net: seq<Speaker>, p: Prefix)
    requires NetOk(topology, net) && NoOriginBeyond(net, p) && OffersOnWire(net[1].rib, p)
    requires OffersOnWire(net[2].rib, p)
    ensures Captive(topology, net, {1, 2}, p)
  {
    hide SpeakerOk;
    hide OffersOnWire;
    hide NoOrigin;
  }

  /** Two rounds carry the route down the line and the trap is set. */
  lemma LineIsCaptured(topology: Topology, x: seq<Speaker>, a: Schedule, y: seq<Speaker>, b: Schedule,
                       z: seq<Speaker>, p: Prefix)
    requires IsLine(topology) && NetOk(topology, x) && Round(topology, x, a, y) && Round(topology, y, b, z)
    requires OffersOnWire(x[0].rib, p) && NoOriginBeyond(x, p)
    ensures NetOk(topology, z) && Captive(topology, z, {1, 2}, p)
  {
    hide SpeakerOk;
    hide OffersOnWire;
    hide NoOrigin;
    assert 0 in topology.hears[1] && 1 in topology.hears[2];
    hide IsLine;
    hide Round;
    RoundKeepsOk(topology, x, a, y);
    RoundKeepsOk(topology, y, b, z);
    OfferSpreads(topology, x, a, y, 0, 1, p);
    OfferPersists(topology, y, b, z, 1, p);
    OfferSpreads(topology, y, b, z, 1, 2, p);
    CaptivePair(topology, z, p);
  }

  lemma LineListensInside(topology: Topology, net: seq<Speaker>, schedule: Schedule, net': seq<Speaker>)
    requires IsLine(topology) && Round(topology, net, schedule, net')
    requires MiddleEndsFar(schedule)
    ensures ListensInsideLast(schedule, {1, 2})
  {
    hide RoundAt;
    assert 1 in topology.hears[2];
    var order := schedule.orders[2];
    assert 1 in order;
    assert order[|order| - 1] in order;
  }

  /** In a line of three whose middle router happens to process its far
      neighbour last, a route that router 0 offers all along is at metric 16 at
      routers 1 and 2 in every round from 18 on -- in a stable network that loses
      no message. */
  lemma LineLosesLiveRoute(topology: Topology, nets: seq<seq<Speaker>>, schedules: seq<Schedule>, p: Prefix, t: nat)
    requires IsLine(topology) && IsRounds(topology, nets, schedules) && NetOk(topology, nets[0])
    requires OffersOnWire(nets[0][0].rib, p) && NoOriginBeyond(nets[0], p)
    requires forall s :: 0 <= s < |schedules| ==> MiddleEndsFar(schedules[s])
    requires 18 <= t < |nets|
    ensures |nets[t]| == 3
    ensures BestMetric(nets[t][1].rib, p) == MAX_METRIC && BestMetric(nets[t][2].rib, p) == MAX_METRIC
  {
    hide SpeakerOk;
    hide OffersOnWire;
    hide NoOrigin;
    hide LeastFrom;
    hide MiddleEndsFar;
    hide ListensInsideLast;
    hide Captive;
    LineIsCaptured(topology, nets[0], schedules[0], nets[1], schedules[1], nets[2], p);
    var later, rest := nets[2..], schedules[2..];
    RoundsGoOn(topology, nets, schedules, 2);
    forall s | 0 <= s < |rest|
      ensures ListensInsideLast(rest[s], {1, 2})
    {
      assert MiddleEndsFar(schedules[s + 2]);
      LineListensInside(topology, later[s], rest[s], later[s + 1]);
    }
    hide Round;
    CaptiveGroupLosesRoute(topology, later, rest, t - 2, {1, 2}, p);
    assert later[t - 2] == nets[t];
    assert 1 in {1, 2} && 2 in {1, 2};
    RoundsKeepOk(topology, nets, schedules, t);
  }

  /** Everyone's neighbours, with router 2 last at the middle. */
  ghost function FarLast(): seq<seq<nat>> {
    [[1], [0, 2], [1]]
  }

  lemma FarLastEndsFar(topology: Topology)
    requires IsLine(topology)
    ensures IsOrders(topology, FarLast())
    ensures forall schedule: Schedule :: schedule.orders == FarLast() ==> MiddleEndsFar(schedule)
  {
  }

  /** Such runs exist, of any length, in every line: router 0 has p at metric 1,
      so the distance at the middle is 2, and from round 18 on it is 16 there. */
  lemma LineRun(topology: Topology, rounds: nat) returns (nets: seq<seq<Speaker>>, schedules: seq<Schedule>, p: Prefix)
    requires IsLine(topology)
    ensures IsRounds(topology, nets, schedules) && |schedules| == rounds && Start(topology, nets[0])
    ensures forall s :: 0 <= s < rounds ==> MiddleEndsFar(schedules[s])
    ensures forall hops: nat :: 0 < hops ==> IsOpenDistance(topology, Given(nets[0]), 1, p, hops, 2)
    ensures forall t :: 18 <= t <= rounds ==> |nets[t]| == 3 && BestMetric(nets[t][1].rib, p) == MAX_METRIC
  {
    hide BestMetric;
    hide Plain;
    hide IsOpenDistance;
    hide NewNet;
    hide NetOk;
    hide OffersOnWire;
    hide NoOriginBeyond;
    p := SomePlainPrefix();
    LineStart(topology, p);
    FarLastEndsFar(topology);
    hide FarLast;
    hide MiddleEndsFar;
    hide IsOrders;
    nets, schedules := SomeRun(topology, NewNet(p, [Some(1), None, None]), FarLast(), p, rounds);
    forall hops: nat | 0 < hops
      ensures IsOpenDistance(topology, Given(nets[0]), 1, p, hops, 2)
    {
      LineDistance(topology, p, hops);
    }
    hide IsOpenDistance;
    hide IsLine;
    hide AllEndWith;
    assert |nets| == rounds + 1;
    hide IsRounds;
    forall t | 18 <= t <= rounds
      ensures |nets[t]| == 3 && BestMetric(nets[t][1].rib, p) == MAX_METRIC
    {
      LineLosesLiveRoute(topology, nets, schedules, p, t);
    }
  }

  lemma LineStart(topology: Topology, p: Prefix)
    requires IsLine(topology) && Plain(p)
    ensures var net := NewNet(p, [Some(1), None, None]);
      && |net| == |topology.hears| && Start(topology, net) && NetOk(topology, net)
      && OffersOnWire(net[0].rib, p) && NoOriginBeyond(net, p)
  {
    var net := NewNet(p, [Some(1), None, None]);
    NewNetStarts(topology, p, [Some(1), None, None]);
    PlainOnWire(p);
    hide Plain;
    hide OnWire;
    hide SpeakerOk;
    assert Key(p, 0) in net[0].rib;
  }

  lemma LineDistance(topology: Topology, p: Prefix, hops: nat)
    requires IsLine(topology) && Plain(p) && 0 < hops
    ensures IsOpenDistance(topology, Given(NewNet(p, [Some(1), None, None])), 1, p, hops, 2)
  {
    LineReaches(topology, p, hops);
    hide Plain;
    hide OpenBacked;
    hide NewNet;
    hide IsLine;
    var given: seq<Table> := Given(NewNet(p, [Some(1), None, None]));
    forall m: nat | OpenBacked(topology, given, 1, p, m, hops)
      ensures 2 <= m
    {
      NoCloser(topology, p, m, hops);
    }
  }

  lemma LineReaches(topology: Topology, p: Prefix, hops: nat)
    requires IsLine(topology) && Plain(p) && 0 < hops
    ensures OpenBacked(topology, Given(NewNet(p, [Some(1), None, None])), 1, p, 2, hops)
  {
    PlainOnWire(p);
    hide Plain;
    hide OnWire;
    hide OpenBacked;
    var given: seq<Table> := Given(NewNet(p, [Some(1), None, None]));
    OriginOpen(topology, given, 0, Key(p, 0), 0);
    assert 0 in topology.hears[1];
    OpenOneHopOn(topology, given, 0, p, 1, 0, 1, p);
    OpenMonotone(topology, given, 1, p, 2, 1, hops);
  }

  lemma NoCloser(topology: Topology, p: Prefix, m: nat, hops: nat)
    requires OpenBacked(topology, Given(NewNet(p, [Some(1), None, None])), 1, p, m, hops)
    ensures 2 <= m
  {
    hide Open;
    hide FiledAs;
    hide AllOrigins;
    hide NewNet;
    var given: seq<Table> := Given(NewNet(p, [Some(1), None, None]));
    var w, o :| && o in AllOrigins(given) && |w| <= hops + 1
                && Carries(topology, w, o, 1, p, m) && Open(topology, given, w, p);
    OnlyOrigin(p, o);
  }

  lemma OnlyOrigin(p: Prefix, o: Origin)
    requires o in AllOrigins(Given(NewNet(p, [Some(1), None, None])))
    ensures o.router == 0 && o.metric == 1
  {
  }
}
