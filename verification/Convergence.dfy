/** When do rounds compute shortest paths?  Exactly when every router can tell
    its neighbours apart by the next-hop field they put on the wire. */
module Convergence {
  import opened Types
  import opened Addressing
  import opened Rip
  import opened Network
  import opened Rounds

  // ---- the reference: open walks ---------------------------------------

  /** What each router was given by redistribution; rounds never touch it. */
  ghost function Given(net: seq<Speaker>): (given: seq<Table>)
    ensures |given| == |net| && forall i :: 0 <= i < |net| ==> given[i] == net[i].redistributed
  {
    seq(|net|, i requires 0 <= i < |net| => net[i].redistributed)
  }

  /** Every origin of the network. */
  ghost function AllOrigins(given: seq<Table>): set<Origin> {
    set i, k | 0 <= i < |given| && k in given[i] :: Origin(i, k.prefix, given[i][k].metric)
  }

  /** Router i was given a route to p through router j, so what j offers for p
      does not reach i's RIB. */
  ghost predicate Hidden(topology: Topology, given: seq<Table>, j: nat, i: nat, p: Prefix) {
    j < |topology.address| && i < |given| && Key(p, topology.address[j]) in given[i]
  }

  /** No hop of the walk is hidden. */
  ghost predicate Open(topology: Topology, given: seq<Table>, w: seq<nat>, p: Prefix) {
    forall t :: 0 < t < |w| ==> !Hidden(topology, given, w[t - 1], w[t], p)
  }

  /** Some origin reaches router i as prefix p by an open walk of at most `hops`
      hops, at exactly metric m. */
  ghost predicate OpenBacked(topology: Topology, given: seq<Table>, i: nat, p: Prefix, m: nat, hops: nat) {
    exists w, o :: && o in AllOrigins(given) && |w| <= hops + 1
                   && Carries(topology, w, o, i, p, m) && Open(topology, given, w, p)
  }

  /** d is the distance of p from router i over open walks of at most `hops`
      hops, with 16 for infinity. */
  ghost predicate IsOpenDistance(topology: Topology, given: seq<Table>, i: nat, p: Prefix, hops: nat, d: nat) {
    && d <= MAX_METRIC
    && (forall m: nat :: OpenBacked(topology, given, i, p, m, hops) ==> d <= m)
    && (d < MAX_METRIC ==> OpenBacked(topology, given, i, p, d, hops))
  }

  lemma OriginOpen(topology: Topology, given: seq<Table>, i: nat, k: Key, hops: nat)
    requires |given| == |topology.hears| && i < |given| && k in given[i]
    ensures OpenBacked(topology, given, i, k.prefix, given[i][k].metric, hops)
  {
    var o := Origin(i, k.prefix, given[i][k].metric);
    assert o in AllOrigins(given);
    assert Carries(topology, [i], o, i, k.prefix, o.metric) && Open(topology, given, [i], k.prefix);
  }

  /** One more hop, unless it is hidden. */
  lemma OpenOneHopOn(topology: Topology, given: seq<Table>, j: nat, q: Prefix, m: nat, hops: nat, i: nat, p: Prefix)
    requires topology.Valid() && OpenBacked(topology, given, j, q, m, hops) && !Hidden(topology, given, j, i, p)
    requires i < |topology.hears| && j in topology.hears[i] && OnWire(q.address) == Ok(p)
    ensures OpenBacked(topology, given, i, p, m + 1, hops + 1)
  {
    var w, o :| && o in AllOrigins(given) && |w| <= hops + 1
                && Carries(topology, w, o, j, q, m) && Open(topology, given, w, q);
    CarriesOneHopOn(topology, w, o, j, q, m, i, p);
    var w' := w + [i];
    forall t | 0 < t < |w'|
      ensures !Hidden(topology, given, w'[t - 1], w'[t], p)
    {
      if t == |w| {
        assert w'[t - 1] == j && w'[t] == i;
      } else {
        assert w'[t - 1] == w[t - 1] && w'[t] == w[t];
      }
    }
  }

  lemma CarriesOneHopOn(topology: Topology, w: seq<nat>, o: Origin, j: nat, q: Prefix, m: nat, i: nat, p: Prefix)
    requires topology.Valid() && Carries(topology, w, o, j, q, m)
    requires i < |topology.hears| && j in topology.hears[i] && OnWire(q.address) == Ok(p)
    ensures Carries(topology, w + [i], o, i, p, m + 1) && (|w| > 1 ==> p == q)
  {
    var w' := w + [i];
    if |w| > 1 {
      WireIdempotent(o.prefix.address);
    }
    hide OnWire;
    forall t | 0 < t < |w'|
      ensures w'[t - 1] in topology.hears[w'[t]]
    {
      if t == |w| { assert w'[t - 1] == j; }
    }
  }

  lemma OpenMonotone(topology: Topology, given: seq<Table>, i: nat, p: Prefix, m: nat, hops: nat, limit: nat)
    requires OpenBacked(topology, given, i, p, m, hops) && hops <= limit
    ensures OpenBacked(topology, given, i, p, m, limit)
  {
    var w, o :| && o in AllOrigins(given) && |w| <= hops + 1
                && Carries(topology, w, o, i, p, m) && Open(topology, given, w, p);
  }

  lemma OpenHopsBounded(topology: Topology, given: seq<Table>, i: nat, p: Prefix, m: nat, hops: nat)
    requires OpenBacked(topology, given, i, p, m, hops)
    ensures OpenBacked(topology, given, i, p, m, m)
  {
    var w, o :| && o in AllOrigins(given) && |w| <= hops + 1
                && Carries(topology, w, o, i, p, m) && Open(topology, given, w, p);
    assert |w| <= m + 1;
  }

  /** The distance over open walks of any length, with 16 for infinity. */
  ghost function Distance(topology: Topology, given: seq<Table>, i: nat, p: Prefix): (d: nat)
    ensures IsOpenDistance(topology, given, i, p, MAX_METRIC, d)
  {
    LeastBacked(topology, given, i, p, 0)
  }

  ghost function LeastBacked(topology: Topology, given: seq<Table>, i: nat, p: Prefix, low: nat): (d: nat)
    requires low <= MAX_METRIC
    requires forall m: nat :: OpenBacked(topology, given, i, p, m, MAX_METRIC) ==> low <= m
    ensures IsOpenDistance(topology, given, i, p, MAX_METRIC, d)
    decreases MAX_METRIC - low
  {
    if low == MAX_METRIC || OpenBacked(topology, given, i, p, low, MAX_METRIC) then low
    else LeastBacked(topology, given, i, p, low + 1)
  }

  /** Walks of more than fifteen hops bring nothing. */
  lemma DistanceIs(topology: Topology, given: seq<Table>, i: nat, p: Prefix, hops: nat)
    requires 15 <= hops
    ensures IsOpenDistance(topology, given, i, p, hops, Distance(topology, given, i, p))
  {
    hide OpenBacked;
    var d := Distance(topology, given, i, p);
    hide Distance;
    forall m: nat | OpenBacked(topology, given, i, p, m, hops)
      ensures d <= m
    {
      OpenHopsBounded(topology, given, i, p, m, hops);
      if m < MAX_METRIC {
        OpenMonotone(topology, given, i, p, m, m, MAX_METRIC);
      }
    }
    if d < MAX_METRIC {
      OpenHopsBounded(topology, given, i, p, d, MAX_METRIC);
      OpenMonotone(topology, given, i, p, d, d, hops);
    }
  }

  /** Across a hop that is not hidden it grows by one at most. */
  lemma DistanceNext(topology: Topology, given: seq<Table>, j: nat, i: nat, p: Prefix)
    requires topology.Valid() && i < |topology.hears| && j in topology.hears[i] && OnWire(p.address) == Ok(p)
    requires !Hidden(topology, given, j, i, p)
    ensures Distance(topology, given, i, p) <= Distance(topology, given, j, p) + 1
  {
    hide OpenBacked;
    hide OnWire;
    hide Hidden;
    var d := Distance(topology, given, j, p);
    assert IsOpenDistance(topology, given, i, p, MAX_METRIC, Distance(topology, given, i, p));
    hide Distance;
    if d + 1 < MAX_METRIC {
      OpenOneHopOn(topology, given, j, p, d, MAX_METRIC, i, p);
      OpenHopsBounded(topology, given, i, p, d + 1, MAX_METRIC + 1);
      OpenMonotone(topology, given, i, p, d + 1, d + 1, MAX_METRIC);
    }
  }

  /** No origin is nearer. */
  lemma OriginsAreFar(topology: Topology, given: seq<Table>, i: nat, k: Key)
    requires |given| == |topology.hears| && i < |given| && k in given[i]
    ensures Distance(topology, given, i, k.prefix) <= given[i][k].metric
  {
    hide OpenBacked;
    OriginOpen(topology, given, i, k, MAX_METRIC);
  }

  /** When no router hides what it hears, open walks are all walks. */
  lemma NothingHidden(topology: Topology, given: seq<Table>, i: nat, p: Prefix, hops: nat, d: nat)
    requires forall j: nat, k: nat :: k < |topology.hears| && j in topology.hears[k] ==>
               !Hidden(topology, given, j, k, p)
    ensures IsOpenDistance(topology, given, i, p, hops, d) <==> IsDistance(topology, AllOrigins(given), i, p, hops, d)
  {
    hide FiledAs;
    hide Hidden;
    hide AllOrigins;
    forall m: nat
      ensures OpenBacked(topology, given, i, p, m, hops) <==> Backed(topology, AllOrigins(given), i, p, m, hops)
    {
      if Backed(topology, AllOrigins(given), i, p, m, hops) {
        var w, o :| o in AllOrigins(given) && |w| <= hops + 1 && Carries(topology, w, o, i, p, m);
        assert IsWalk(topology, w);
        assert Open(topology, given, w, p);
      }
    }
    hide OpenBacked;
    hide Backed;
  }

  /** No router hears two routers that write the same next-hop field. */
  ghost predicate DistinctWires(topology: Topology)
    requires topology.Valid()
  {
    forall i, j, k :: 0 <= i < |topology.hears| && j in topology.hears[i] && k in topology.hears[i] && j != k ==>
      topology.wire[j] != topology.wire[k]
  }

  // ---- rounds are never late -------------------------------------------

  /** Nobody that is heard was given a default route, if p is what it would be
      mistaken for. */
  ghost predicate HeardClear(topology: Topology, given: seq<Table>, p: Prefix) {
    forall i, j :: 0 <= i < |topology.hears| && j in topology.hears[i] && j < |given| ==> Clear(given[j], p)
  }

  /** So a walk brings routes under the name they started with. */
  lemma PlainFiled(topology: Topology, net: seq<Speaker>, w: seq<nat>, o: Origin, i: nat, p: Prefix, m: nat)
    requires NetOk(topology, net) && o in AllOrigins(Given(net)) && Carries(topology, w, o, i, p, m)
    requires HeardClear(topology, Given(net), p)
    ensures p == o.prefix && (1 < |w| ==> OnWire(p.address) == Ok(p))
  {
    hide Classful;
    hide OnWire;
    hide IsRefresh;
    hide AllHeard;
    var given: seq<Table> := Given(net);
    var h: nat, k: Key :| h < |given| && k in given[h] && o == Origin(h, k.prefix, given[h][k].metric);
    assert SpeakerOk(topology, h, net[h]);
    if 1 < |w| {
      assert w[1 - 1] in topology.hears[w[1]];
      assert Clear(given[h], p);
      if o.prefix.length == 0 {
        DefaultRouteBecomesNetworkZero(o.prefix);
        assert false;
      }
      PlainOnWire(o.prefix);
    }
  }

  /** With distinct wires what router i files under j's field is j's offer. */
  lemma OfferIsFiled(topology: Topology, net: seq<Speaker>, schedule: Schedule, net': seq<Speaker>, j: nat, i: nat,
                     p: Prefix)
    requires NetOk(topology, net) && Round(topology, net, schedule, net') && DistinctWires(topology)
    requires i < |net| && j in topology.hears[i] && OffersOnWire(net[j].rib, p)
    ensures var k := Key(p, topology.wire[j]);
      k in net'[i].learned && OfferedBy(topology, net, j, k, net'[i].learned[k])
  {
    hide OffersOnWire;
    hide SpeakerOk;
    hide RoundAt;
    hide Shaped;
    hide OnWire;
    hide Classful;
    hide Optimal;
    var k := Key(p, topology.wire[j]);
    assert OffersKey(topology, net, j, k);
    RoundLearned(topology, net, schedule, net', i, k);
    var j': nat :| j' in topology.hears[i] && OfferedBy(topology, net, j', k, net'[i].learned[k]);
    assert j' == j;
  }

  /** The last hop of an open walk, taken in one round. */
  lemma OneHopArrives(topology: Topology, net: seq<Speaker>, schedule: Schedule, net': seq<Speaker>, j: nat, i: nat,
                      p: Prefix)
    requires NetOk(topology, net) && Round(topology, net, schedule, net') && DistinctWires(topology)
    requires i < |net| && j in topology.hears[i] && BestMetric(net[j].rib, p) < MAX_METRIC
    requires Clear(net[j].redistributed, p) && OnWire(p.address) == Ok(p) && !Hidden(topology, Given(net), j, i, p)
    ensures BestMetric(net'[i].rib, p) <= BestMetric(net[j].rib, p) + 1
  {
    hide LeastFrom;
    hide Classful;
    hide OnWire;
    hide Clear;
    hide DistinctWires;
    hide SpeakerOk;
    hide RoundAt;
    hide Shaped;
    var best :| best in net[j].rib && best.prefix == p;
    var k := Key(p, topology.wire[j]);
    OfferIsFiled(topology, net, schedule, net', j, i, p);
    RoundKeepsSpeaker(topology, net, schedule, net', i);
    var r := net'[i].learned[k];
    OfferIsBest(topology, j, net[j], r);
    RibOffersLearned(topology, i, net'[i], k);
  }

  lemma LastHop(topology: Topology, given: seq<Table>, w: seq<nat>, o: Origin, i: nat, p: Prefix, m: nat)
    requires topology.Valid() && Carries(topology, w, o, i, p, m) && Open(topology, given, w, p)
    requires 1 < |w| && o.prefix == p && OnWire(p.address) == Ok(p)
    ensures i < |topology.hears| && w[|w| - 2] in topology.hears[i] && 0 < m
    ensures Carries(topology, w[..|w| - 1], o, w[|w| - 2], p, m - 1) && Open(topology, given, w[..|w| - 1], p)
    ensures !Hidden(topology, given, w[|w| - 2], i, p)
  {
    hide OnWire;
  }

  lemma OriginArrives(topology: Topology, net: seq<Speaker>, o: Origin)
    requires NetOk(topology, net) && o in AllOrigins(Given(net))
    ensures o.router < |net| && BestMetric(net[o.router].rib, o.prefix) <= o.metric
  {
    hide SpeakerOk;
    hide LeastFrom;
    var given: seq<Table> := Given(net);
    var i: nat, k: Key :| i < |given| && k in given[i] && o == Origin(i, k.prefix, given[i][k].metric);
    RibOffersRedistributed(topology, i, net[i], k);
  }

  lemma {:induction false} RoundsKeepGiven(topology: Topology, nets: seq<seq<Speaker>>, schedules: seq<Schedule>,
                                           t: nat)
    requires IsRounds(topology, nets, schedules) && t < |nets| && NetOk(topology, nets[0])
    ensures NetOk(topology, nets[t]) && Given(nets[t]) == Given(nets[0])
  {
    hide IsRounds;
    hide SpeakerOk;
    RoundsKeepOk(topology, nets, schedules, t);
  }

  /** With distinct wires, after as many rounds as an open walk has hops the
      router at its end has a metric at least as good as the walk's. */
  lemma {:induction false} WalkArrives(topology: Topology, nets: seq<seq<Speaker>>, schedules: seq<Schedule>,
                                       t: nat, w: seq<nat>, o: Origin, i: nat, p: Prefix, m: nat)
    requires IsRounds(topology, nets, schedules) && t < |nets| && NetOk(topology, nets[0]) && DistinctWires(topology)
    requires HeardClear(topology, Given(nets[0]), p)
    requires o in AllOrigins(Given(nets[0])) && Carries(topology, w, o, i, p, m) && Open(topology, Given(nets[0]), w, p)
    requires |w| <= t + 1
    ensures |nets[t]| == |topology.hears| && i < |nets[t]| && BestMetric(nets[t][i].rib, p) <= m
    decreases |w|
  {
    hide Round;
    hide LeastFrom;
    hide Classful;
    hide OnWire;
    hide SpeakerOk;
    hide DistinctWires;
    hide Hidden;
    hide Clear;
    hide AllOrigins;
    RoundsKeepGiven(topology, nets, schedules, t);
    PlainFiled(topology, nets[0], w, o, i, p, m);
    if |w| == 1 {
      OriginArrives(topology, nets[t], o);
    } else if m < MAX_METRIC {
      RoundsKeepGiven(topology, nets, schedules, t - 1);
      LastHop(topology, Given(nets[0]), w, o, i, p, m);
      hide Carries;
      hide Open;
      var j := w[|w| - 2];
      WalkArrives(topology, nets, schedules, t - 1, w[..|w| - 1], o, j, p, m - 1);
      OneHopArrives(topology, nets[t - 1], schedules[t - 1], nets[t], j, i, p);
    }
  }

  // ---- rounds are never early ------------------------------------------

  /** A learned route is one hop beyond what an open walk brought the router it
      points at -- whether or not that last hop is open. */
  ghost predicate Arrived(topology: Topology, given: seq<Table>, j: nat, p: Prefix, m: nat, hops: nat) {
    && 0 < m && 0 < hops
    && exists q: Prefix :: OnWire(q.address) == Ok(p) && OpenBacked(topology, given, j, q, m - 1, hops - 1)
  }

  ghost predicate FromNeighbour(topology: Topology, given: seq<Table>, i: nat, k: Key, r: RouteValue, hops: nat)
    requires topology.Valid() && i < |topology.hears|
  {
    exists j: nat :: HeardFrom(topology, i, j, k, r) && Arrived(topology, given, j, k.prefix, r.metric, hops)
  }

  ghost predicate LearnedBacked(topology: Topology, given: seq<Table>, i: nat, t: Table, hops: nat)
    requires topology.Valid() && i < |topology.hears|
  {
    forall k :: k in t && t[k].metric < MAX_METRIC ==> FromNeighbour(topology, given, i, k, t[k], hops)
  }

  ghost predicate RibBacked(topology: Topology, given: seq<Table>, i: nat, t: Table, hops: nat) {
    forall k :: k in t && t[k].metric < MAX_METRIC ==> OpenBacked(topology, given, i, k.prefix, t[k].metric, hops)
  }

  ghost predicate NetBacked(topology: Topology, net: seq<Speaker>, hops: nat)
    requires NetOk(topology, net)
  {
    forall i :: 0 <= i < |net| ==> LearnedBacked(topology, Given(net), i, net[i].learned, hops)
  }

  /** What reaches the RIB came by a hop that is open. */
  lemma RibIsBacked(topology: Topology, net: seq<Speaker>, i: nat, hops: nat)
    requires NetOk(topology, net) && i < |net|
    requires LearnedBacked(topology, Given(net), i, net[i].learned, hops)
    ensures RibBacked(topology, Given(net), i, net[i].rib, hops)
  {
    hide OpenBacked;
    hide Classful;
    hide OnWire;
    hide IsRefresh;
    hide AllHeard;
    var given: seq<Table> := Given(net);
    forall k | k in net[i].rib && net[i].rib[k].metric < MAX_METRIC
      ensures OpenBacked(topology, given, i, k.prefix, net[i].rib[k].metric, hops)
    {
      assert SpeakerOk(topology, i, net[i]);
      RibHoldsOnly(topology, i, net[i], k);
      if k in net[i].redistributed && net[i].redistributed[k].metric == net[i].rib[k].metric {
        OriginOpen(topology, given, i, k, hops);
      } else {
        var l :| && l in net[i].learned && l.prefix == k.prefix && net[i].learned[l].Shown() == k
                 && k !in net[i].redistributed && net[i].learned[l].metric == net[i].rib[k].metric;
        ShownIsOpen(topology, net, i, l, hops);
      }
    }
  }

  lemma ShownIsOpen(topology: Topology, net: seq<Speaker>, i: nat, l: Key, hops: nat)
    requires NetOk(topology, net) && i < |net| && l in net[i].learned
    requires net[i].learned[l].Shown() !in net[i].redistributed
    requires FromNeighbour(topology, Given(net), i, l, net[i].learned[l], hops)
    ensures OpenBacked(topology, Given(net), i, l.prefix, net[i].learned[l].metric, hops)
  {
    hide OpenBacked;
    hide SpeakerOk;
    hide Classful;
    hide OnWire;
    var r, given := net[i].learned[l], Given(net);
    var j: nat :| HeardFrom(topology, i, j, l, r) && Arrived(topology, given, j, l.prefix, r.metric, hops);
    var q: Prefix :| OnWire(q.address) == Ok(l.prefix) && OpenBacked(topology, given, j, q, r.metric - 1, hops - 1);
    assert r.Shown() == Key(l.prefix, topology.address[j]);
    OpenOneHopOn(topology, given, j, q, r.metric - 1, hops - 1, i, l.prefix);
  }

  lemma OfferArrived(topology: Topology, net: seq<Speaker>, j: nat, k: Key, r: RouteValue, hops: nat)
    requires NetOk(topology, net) && j < |net| && OfferedBy(topology, net, j, k, r)
    requires RibBacked(topology, Given(net), j, net[j].rib, hops) && r.metric < MAX_METRIC
    ensures Arrived(topology, Given(net), j, k.prefix, r.metric, hops + 1)
  {
    hide OpenBacked;
    hide OnWire;
    hide Classful;
    hide SpeakerOk;
    var b :| IsOfferOf(topology, j, net[j], b, r);
    assert OpenBacked(topology, Given(net), j, b.prefix, r.metric - 1, hops);
  }

  lemma ArrivedMonotone(topology: Topology, given: seq<Table>, j: nat, p: Prefix, m: nat, hops: nat)
    requires Arrived(topology, given, j, p, m, hops)
    ensures Arrived(topology, given, j, p, m, hops + 1)
  {
    hide OpenBacked;
    hide OnWire;
    var q: Prefix :| OnWire(q.address) == Ok(p) && OpenBacked(topology, given, j, q, m - 1, hops - 1);
    OpenMonotone(topology, given, j, q, m - 1, hops - 1, hops);
  }

  lemma RoundBacked(topology: Topology, net: seq<Speaker>, schedule: Schedule, net': seq<Speaker>, hops: nat)
    requires NetOk(topology, net) && Round(topology, net, schedule, net') && NetBacked(topology, net, hops)
    ensures NetOk(topology, net') && Given(net') == Given(net) && NetBacked(topology, net', hops + 1)
  {
    hide Arrived;
    hide IsOffer;
    hide SpeakerOk;
    hide RibBacked;
    hide Plain;
    hide RoundAt;
    hide Shaped;
    RoundKeepsOk(topology, net, schedule, net');
    assert Given(net') == Given(net);
    forall i, k | 0 <= i < |net'| && k in net'[i].learned && net'[i].learned[k].metric < MAX_METRIC
      ensures FromNeighbour(topology, Given(net), i, k, net'[i].learned[k], hops + 1)
    {
      RouteBacked(topology, net, schedule, net', hops, i, k);
    }
  }

  lemma RouteBacked(topology: Topology, net: seq<Speaker>, schedule: Schedule, net': seq<Speaker>, hops: nat, i: nat,
                    k: Key)
    requires NetOk(topology, net) && Round(topology, net, schedule, net') && NetBacked(topology, net, hops)
    requires NetOk(topology, net') && i < |net'| && k in net'[i].learned && net'[i].learned[k].metric < MAX_METRIC
    ensures FromNeighbour(topology, Given(net), i, k, net'[i].learned[k], hops + 1)
  {
    hide Arrived;
    hide SpeakerOk;
    hide RibBacked;
    hide RoundAt;
    hide Shaped;
    hide OnWire;
    hide Classful;
    RoundLearned(topology, net, schedule, net', i, k);
    var r := net'[i].learned[k];
    if Heard(topology, net, i, k) {
      var j: nat :| j in topology.hears[i] && OfferedBy(topology, net, j, k, r);
      RibIsBacked(topology, net, j, hops);
      OfferArrived(topology, net, j, k, r, hops);
      assert HeardFrom(topology, i, j, k, r);
    } else {
      var j: nat :| HeardFrom(topology, i, j, k, r) && Arrived(topology, Given(net), j, k.prefix, r.metric, hops);
      ArrivedMonotone(topology, Given(net), j, k.prefix, r.metric, hops);
    }
  }

  lemma {:induction false} RoundsBacked(topology: Topology, nets: seq<seq<Speaker>>, schedules: seq<Schedule>, t: nat)
    requires IsRounds(topology, nets, schedules) && t < |nets| && Start(topology, nets[0])
    ensures NetOk(topology, nets[t]) && Given(nets[t]) == Given(nets[0]) && NetBacked(topology, nets[t], t)
  {
    hide Round;
    hide FromNeighbour;
    hide SpeakerOk;
    if t != 0 {
      RoundsBacked(topology, nets, schedules, t - 1);
      RoundBacked(topology, nets[t - 1], schedules[t - 1], nets[t], t - 1);
    }
  }

  // ---- convergence -----------------------------------------------------

  /** With distinct wires, after t rounds from empty learned tables the best
      metric of a prefix at a router is exactly its distance over open walks of
      at most t hops. */
  lemma RoundsComputeDistance(topology: Topology, nets: seq<seq<Speaker>>, schedules: seq<Schedule>, t: nat, i: nat,
                              p: Prefix)
    requires IsRounds(topology, nets, schedules) && t < |nets| && Start(topology, nets[0]) && DistinctWires(topology)
    requires i < |nets[0]| && HeardClear(topology, Given(nets[0]), p)
    ensures i < |nets[t]| && IsOpenDistance(topology, Given(nets[0]), i, p, t, BestMetric(nets[t][i].rib, p))
  {
    hide Round;
    hide SpeakerOk;
    hide LeastFrom;
    hide Carries;
    hide Clear;
    hide Open;
    hide LearnedBacked;
    var given := Given(nets[0]);
    RoundsBacked(topology, nets, schedules, t);
    RibIsBacked(topology, nets[t], i, t);
    var d := BestMetric(nets[t][i].rib, p);
    forall m: nat | OpenBacked(topology, given, i, p, m, t)
      ensures d <= m
    {
      var w, o :| && o in AllOrigins(given) && |w| <= t + 1
                  && Carries(topology, w, o, i, p, m) && Open(topology, given, w, p);
      WalkArrives(topology, nets, schedules, t, w, o, i, p, m);
    }
  }

  /** A distance below 16 takes at most 15 hops, so nothing changes after round
      15, and what is reached is the distance over walks of any length. */
  lemma DistanceSettles(topology: Topology, given: seq<Table>, i: nat, p: Prefix, hops: nat, d: nat)
    requires 15 <= hops && IsOpenDistance(topology, given, i, p, 15, d)
    ensures IsOpenDistance(topology, given, i, p, hops, d)
  {
    hide Carries;
    hide Open;
    forall m: nat | OpenBacked(topology, given, i, p, m, hops)
      ensures d <= m
    {
      OpenHopsBounded(topology, given, i, p, m, hops);
      if m < MAX_METRIC {
        OpenMonotone(topology, given, i, p, m, m, 15);
      }
    }
    if d < MAX_METRIC {
      OpenMonotone(topology, given, i, p, d, 15, hops);
    }
  }

  lemma OpenDistancesAgree(topology: Topology, given: seq<Table>, i: nat, p: Prefix, hops: nat, d: nat, d': nat)
    requires IsOpenDistance(topology, given, i, p, hops, d) && IsOpenDistance(topology, given, i, p, hops, d')
    ensures d == d'
  {
    hide OpenBacked;
    if d < MAX_METRIC { assert OpenBacked(topology, given, i, p, d, hops); }
    if d' < MAX_METRIC { assert OpenBacked(topology, given, i, p, d', hops); }
  }

  lemma StableFromRound15(topology: Topology, nets: seq<seq<Speaker>>, schedules: seq<Schedule>, t: nat, i: nat,
                          p: Prefix, hops: nat)
    requires IsRounds(topology, nets, schedules) && 15 <= t < |nets| && Start(topology, nets[0])
    requires DistinctWires(topology)
    requires i < |nets[0]| && 15 <= hops && HeardClear(topology, Given(nets[0]), p)
    ensures i < |nets[t]| && i < |nets[15]| && BestMetric(nets[t][i].rib, p) == BestMetric(nets[15][i].rib, p)
    ensures IsOpenDistance(topology, Given(nets[0]), i, p, hops, BestMetric(nets[t][i].rib, p))
  {
    hide OpenBacked;
    hide Round;
    hide SpeakerOk;
    hide LeastFrom;
    hide HeardClear;
    hide IsOpenDistance;
    var given := Given(nets[0]);
    RoundsComputeDistance(topology, nets, schedules, t, i, p);
    RoundsComputeDistance(topology, nets, schedules, 15, i, p);
    var d, d' := BestMetric(nets[15][i].rib, p), BestMetric(nets[t][i].rib, p);
    DistanceSettles(topology, given, i, p, t, d);
    OpenDistancesAgree(topology, given, i, p, t, d, d');
    DistanceSettles(topology, given, i, p, hops, d);
  }
}
