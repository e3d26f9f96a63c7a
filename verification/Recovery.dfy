/** Rounds from a state with stale routes: a network finds its way back to the
    distances exactly when no route that nobody will renew shows one nearer than
    it is. */
module Recovery {
  import opened Types
  import opened Addressing
  import opened Rip
  import opened Network
  import opened Rounds
  import opened Runs
  import opened Convergence
  import opened Counting
  import opened Following
  import opened QuietPaths

  // ---- rounds: the routes nobody renews --------------------------------

  /** Some router that i hears offers the key, now or in the end. */
  ghost predicate WillBeHeard(topology: Topology, net: seq<Speaker>, i: nat, k: Key)
    requires topology.Valid()
  {
    exists j: nat :: Listens(topology, j, i) && topology.wire[j] == k.nextHop && j in Ever(topology, net, k.prefix)
  }

  /** A route for p nobody will ever renew is either hidden or no nearer than p. */
  ghost predicate NothingMisleads(topology: Topology, net: seq<Speaker>, p: Prefix)
    requires NetOk(topology, net)
  {
    forall i, k :: 0 <= i < |net| && k in net[i].learned && k.prefix == p && !WillBeHeard(topology, net, i, k) ==>
      NotNearer(topology, Given(net), i, p, net[i].learned[k], MAX_METRIC)
  }

  lemma {:induction false} ReachedGrows(topology: Topology, s: set<nat>, a: nat, b: nat)
    requires InNet(topology, s) && a <= b
    ensures Reached(topology, s, a) <= Reached(topology, s, b) && InNet(topology, Reached(topology, s, b))
    decreases b
  {
    hide Spread;
    hide InNet;
    if a < b {
      ReachedGrows(topology, s, a, b - 1);
      SpreadGrows(topology, Reached(topology, s, b - 1));
    } else if 0 < b {
      ReachedGrows(topology, s, b - 1, b - 1);
      SpreadGrows(topology, Reached(topology, s, b - 1));
    }
  }

  lemma OfferingInNet(topology: Topology, net: seq<Speaker>, p: Prefix)
    requires |net| == |topology.hears|
    ensures InNet(topology, Offering(net, p))
  {
    hide OffersOnWire;
  }

  /** Nobody else offers p at any time, and after as many rounds as there are
      routers all of them do. */
  lemma OfferingEver(topology: Topology, nets: seq<seq<Speaker>>, schedules: seq<Schedule>, p: Prefix, t: nat)
    requires IsRounds(topology, nets, schedules) && t < |nets| && NetOk(topology, nets[0])
    ensures NetOk(topology, nets[t]) && Offering(nets[t], p) <= Ever(topology, nets[0], p)
    ensures |topology.hears| <= t ==> Offering(nets[t], p) == Ever(topology, nets[0], p)
  {
    hide Offering;
    hide Reached;
    hide IsRounds;
    hide SpeakerOk;
    OfferingInNet(topology, nets[0], p);
    hide InNet;
    OfferingAt(topology, nets, schedules, p, t);
    if |topology.hears| <= t {
      EverOffering(topology, nets, schedules, p, t);
    } else {
      ReachedGrows(topology, Offering(nets[0], p), t, |topology.hears|);
    }
  }

  lemma HeardIsFinal(topology: Topology, nets: seq<seq<Speaker>>, schedules: seq<Schedule>, t: nat, i: nat, k: Key)
    requires IsRounds(topology, nets, schedules) && t < |nets| && NetOk(topology, nets[0]) && i < |topology.hears|
    ensures NetOk(topology, nets[t]) && |nets[t]| == |topology.hears|
    ensures Heard(topology, nets[t], i, k) ==> WillBeHeard(topology, nets[0], i, k)
    ensures |topology.hears| <= t && WillBeHeard(topology, nets[0], i, k) ==> Heard(topology, nets[t], i, k)
  {
    hide IsRounds;
    hide SpeakerOk;
    hide Ever;
    hide OffersOnWire;
    OfferingEver(topology, nets, schedules, k.prefix, t);
    var net := nets[t];
    if Heard(topology, net, i, k) {
      var j: nat :| j in topology.hears[i] && OffersKey(topology, net, j, k);
      assert j in Offering(net, k.prefix);
      assert Listens(topology, j, i);
    }
    if |topology.hears| <= t && WillBeHeard(topology, nets[0], i, k) {
      var j: nat :| Listens(topology, j, i) && topology.wire[j] == k.nextHop
                    && j in Ever(topology, nets[0], k.prefix);
      assert OffersKey(topology, net, j, k);
    }
  }

  /** A route nobody will renew stays as it is, round after round. */
  lemma {:induction false} DeadRouteStays(topology: Topology, nets: seq<seq<Speaker>>, schedules: seq<Schedule>,
                                          t: nat, i: nat, k: Key)
    requires IsRounds(topology, nets, schedules) && t < |nets| && NetOk(topology, nets[0]) && i < |nets[0]|
    requires !WillBeHeard(topology, nets[0], i, k)
    ensures NetOk(topology, nets[t]) && |nets[t]| == |nets[0]|
    ensures k in nets[t][i].learned <==> k in nets[0][i].learned
    ensures k in nets[t][i].learned ==> nets[t][i].learned[k] == nets[0][i].learned[k]
  {
    hide Round;
    hide SpeakerOk;
    hide WillBeHeard;
    hide Heard;
    HeardIsFinal(topology, nets, schedules, t, i, k);
    if t != 0 {
      DeadRouteStays(topology, nets, schedules, t - 1, i, k);
      HeardIsFinal(topology, nets, schedules, t - 1, i, k);
      RoundLearned(topology, nets[t - 1], schedules[t - 1], nets[t], i, k);
    }
  }

  // ---- rounds: the others rise -----------------------------------------

  ghost predicate AllNotNearer(topology: Topology, given: seq<Table>, net: seq<Speaker>, p: Prefix, low: nat) {
    forall i :: 0 <= i < |net| ==> TableNotNearer(topology, given, i, net[i].learned, p, low)
  }

  lemma NotNearerZero(topology: Topology, given: seq<Table>, net: seq<Speaker>, p: Prefix)
    requires |net| == |given|
    ensures AllNotNearer(topology, given, net, p, 0)
  {
    hide Distance;
  }

  /** An offer is one hop beyond a RIB that shows nothing nearer. */
  lemma OfferNotNearer(topology: Topology, net: seq<Speaker>, j: nat, i: nat, k: Key, r: RouteValue, low: nat)
    requires NetOk(topology, net) && i < |net| && j in topology.hears[i] && OfferedBy(topology, net, j, k, r)
    requires TableNotNearer(topology, Given(net), j, net[j].learned, k.prefix, low)
    requires Clear(net[j].redistributed, k.prefix)
    ensures NotNearer(topology, Given(net), i, k.prefix, r, low + 1)
  {
    hide SpeakerOk;
    hide BestMetric;
    hide OnWire;
    hide Clear;
    hide Distance;
    hide TableNotNearer;
    RibNotNearer(topology, net, j, k.prefix, low);
    OfferIsBest(topology, j, net[j], r);
    OfferIsWired(topology, net, j, k, r);
    AtMostInfinity(topology, Given(net), i, k.prefix);
    hide IsOffer;
    if r.Shown() !in Given(net)[i] {
      DistanceNext(topology, Given(net), j, i, k.prefix);
    }
  }

  lemma OfferIsWired(topology: Topology, net: seq<Speaker>, j: nat, k: Key, r: RouteValue)
    requires NetOk(topology, net) && j < |net| && OfferedBy(topology, net, j, k, r)
    ensures r.Shown() == Key(k.prefix, topology.address[j]) && OnWire(k.prefix.address) == Ok(k.prefix)
  {
    hide OnWire;
    hide SpeakerOk;
    PlainOnWire(k.prefix);
  }

  lemma DeadIsFar(topology: Topology, nets: seq<seq<Speaker>>, schedules: seq<Schedule>, t: nat, i: nat, k: Key,
                  low: nat)
    requires IsRounds(topology, nets, schedules) && t < |nets| && NetOk(topology, nets[0]) && i < |nets[0]|
    requires NothingMisleads(topology, nets[0], k.prefix) && !WillBeHeard(topology, nets[0], i, k)
    requires i < |nets[t]| && k in nets[t][i].learned
    ensures NotNearer(topology, Given(nets[0]), i, k.prefix, nets[t][i].learned[k], low)
  {
    hide IsRounds;
    hide SpeakerOk;
    hide WillBeHeard;
    hide Distance;
    DeadRouteStays(topology, nets, schedules, t, i, k);
    AtMostInfinity(topology, Given(nets[0]), i, k.prefix);
  }

  lemma RoundRaises(topology: Topology, nets: seq<seq<Speaker>>, schedules: seq<Schedule>, t: nat, p: Prefix, low: nat)
    requires IsRounds(topology, nets, schedules) && |topology.hears| <= t < |schedules| && NetOk(topology, nets[0])
    requires HeardClear(topology, Given(nets[0]), p) && NothingMisleads(topology, nets[0], p)
    requires AllNotNearer(topology, Given(nets[0]), nets[t], p, low)
    ensures AllNotNearer(topology, Given(nets[0]), nets[t + 1], p, low + 1)
  {
    hide SpeakerOk;
    hide Round;
    hide NotNearer;
    hide NothingMisleads;
    hide WillBeHeard;
    var given, net' := Given(nets[0]), nets[t + 1];
    RoundsKeepGiven(topology, nets, schedules, t);
    RoundsKeepGiven(topology, nets, schedules, t + 1);
    forall i, k | 0 <= i < |net'| && k in net'[i].learned && k.prefix == p
      ensures NotNearer(topology, given, i, p, net'[i].learned[k], low + 1)
    {
      if WillBeHeard(topology, nets[0], i, k) {
        HeardIsFar(topology, nets, schedules, t, i, k, low);
      } else {
        DeadIsFar(topology, nets, schedules, t + 1, i, k, low + 1);
      }
    }
  }

  lemma HeardIsFar(topology: Topology, nets: seq<seq<Speaker>>, schedules: seq<Schedule>, t: nat, i: nat, k: Key,
                   low: nat)
    requires IsRounds(topology, nets, schedules) && |topology.hears| <= t < |schedules| && NetOk(topology, nets[0])
    requires HeardClear(topology, Given(nets[0]), k.prefix) && i < |topology.hears|
    requires AllNotNearer(topology, Given(nets[0]), nets[t], k.prefix, low) && WillBeHeard(topology, nets[0], i, k)
    ensures i < |nets[t + 1]| && k in nets[t + 1][i].learned
    ensures NotNearer(topology, Given(nets[0]), i, k.prefix, nets[t + 1][i].learned[k], low + 1)
  {
    hide SpeakerOk;
    hide Round;
    hide NotNearer;
    hide TableNotNearer;
    hide WillBeHeard;
    hide OfferedBy;
    hide Clear;
    RoundsKeepGiven(topology, nets, schedules, t);
    RoundsKeepGiven(topology, nets, schedules, t + 1);
    HeardIsFinal(topology, nets, schedules, t, i, k);
    RoundLearned(topology, nets[t], schedules[t], nets[t + 1], i, k);
    var r := nets[t + 1][i].learned[k];
    var j: nat :| j in topology.hears[i] && OfferedBy(topology, nets[t], j, k, r);
    assert Clear(Given(nets[0])[j], k.prefix);
    OfferNotNearer(topology, nets[t], j, i, k, r, low);
  }

  lemma {:induction false} RoundsRaise(topology: Topology, nets: seq<seq<Speaker>>, schedules: seq<Schedule>, t: nat,
                                       p: Prefix, low: nat)
    requires IsRounds(topology, nets, schedules) && |topology.hears| + low <= t < |nets| && NetOk(topology, nets[0])
    requires HeardClear(topology, Given(nets[0]), p) && NothingMisleads(topology, nets[0], p)
    ensures AllNotNearer(topology, Given(nets[0]), nets[t], p, low)
  {
    hide NothingMisleads;
    hide HeardClear;
    hide Round;
    hide SpeakerOk;
    hide AllNotNearer;
    RoundsKeepGiven(topology, nets, schedules, t);
    if low == 0 {
      NotNearerZero(topology, Given(nets[0]), nets[t], p);
    } else {
      RoundsRaise(topology, nets, schedules, t - 1, p, low - 1);
      RoundRaises(topology, nets, schedules, t - 1, p, low - 1);
    }
  }

  // ---- rounds: exactly when --------------------------------------------

  ghost predicate RightAt(topology: Topology, given: seq<Table>, net: seq<Speaker>, i: nat, p: Prefix) {
    i < |net| && BestMetric(net[i].rib, p) == Distance(topology, given, i, p)
  }

  ghost predicate RightFrom(topology: Topology, net: seq<Speaker>, nets: seq<seq<Speaker>>, p: Prefix, round: nat) {
    forall t, i :: round <= t < |nets| && 0 <= i < |net| ==> RightAt(topology, Given(net), nets[t], i, p)
  }

  /** Whatever rounds there are from this state: from that round on every best
      metric is the distance. */
  ghost predicate RecoversBy(topology: Topology, net: seq<Speaker>, p: Prefix, round: nat) {
    forall nets, schedules :: IsRounds(topology, nets, schedules) && nets[0] == net ==>
      RightFrom(topology, net, nets, p, round)
  }

  lemma Recovers(topology: Topology, nets: seq<seq<Speaker>>, schedules: seq<Schedule>, p: Prefix, t: nat, i: nat)
    requires IsRounds(topology, nets, schedules) && NetOk(topology, nets[0]) && DistinctWires(topology)
    requires HeardClear(topology, Given(nets[0]), p) && NothingMisleads(topology, nets[0], p)
    requires |topology.hears| + MAX_METRIC <= t < |nets| && i < |nets[0]|
    ensures i < |nets[t]| && BestMetric(nets[t][i].rib, p) == Distance(topology, Given(nets[0]), i, p)
  {
    hide Round;
    hide SpeakerOk;
    hide DistinctWires;
    hide HeardClear;
    hide NothingMisleads;
    hide BestMetric;
    hide Distance;
    hide TableNotNearer;
    RoundsKeepGiven(topology, nets, schedules, t);
    assert |nets[t]| == |Given(nets[0])|;
    RoundsRaise(topology, nets, schedules, t, p, MAX_METRIC);
    RibNotNearer(topology, nets[t], i, p, MAX_METRIC);
    AtMostInfinity(topology, Given(nets[0]), i, p);
    WalksArrive(topology, nets, schedules, t, i, p);
  }

  lemma WalksArrive(topology: Topology, nets: seq<seq<Speaker>>, schedules: seq<Schedule>, t: nat, i: nat, p: Prefix)
    requires IsRounds(topology, nets, schedules) && NetOk(topology, nets[0]) && DistinctWires(topology)
    requires HeardClear(topology, Given(nets[0]), p) && MAX_METRIC <= t < |nets| && i < |nets[t]|
    ensures BestMetric(nets[t][i].rib, p) <= Distance(topology, Given(nets[0]), i, p)
  {
    hide Round;
    hide SpeakerOk;
    hide DistinctWires;
    hide HeardClear;
    hide LeastFrom;
    hide AllOrigins;
    hide Carries;
    hide Open;
    var given := Given(nets[0]);
    var d := Distance(topology, given, i, p);
    assert IsOpenDistance(topology, given, i, p, MAX_METRIC, d);
    hide Distance;
    if d < MAX_METRIC {
      var w, o :| && o in AllOrigins(given) && |w| <= MAX_METRIC + 1
                  && Carries(topology, w, o, i, p, d) && Open(topology, given, w, p);
      WalkArrives(topology, nets, schedules, t, w, o, i, p, d);
    }
  }

  /** A dead route that shows p too near: it does so for ever. */
  lemma DeadMisleads(topology: Topology, nets: seq<seq<Speaker>>, schedules: seq<Schedule>, t: nat, i: nat, k: Key)
    requires IsRounds(topology, nets, schedules) && t < |nets| && NetOk(topology, nets[0]) && i < |nets[0]|
    requires k in nets[0][i].learned && !WillBeHeard(topology, nets[0], i, k)
    requires !NotNearer(topology, Given(nets[0]), i, k.prefix, nets[0][i].learned[k], MAX_METRIC)
    ensures i < |nets[t]| && BestMetric(nets[t][i].rib, k.prefix) < Distance(topology, Given(nets[0]), i, k.prefix)
  {
    hide IsRounds;
    hide SpeakerOk;
    hide WillBeHeard;
    hide Distance;
    hide BestMetric;
    DeadRouteStays(topology, nets, schedules, t, i, k);
    RoundsKeepGiven(topology, nets, schedules, t);
    RibOffersLearned(topology, i, nets[t][i], k);
  }

  lemma AnyOrders(topology: Topology) returns (orders: seq<seq<nat>>)
    requires topology.Valid()
    ensures IsOrders(topology, orders)
  {
    orders := seq(|topology.hears|, j requires 0 <= j < |topology.hears| => Enumerate(topology.hears[j]));
  }

  /** With distinct wires a network recovers, whatever is processed in whatever
      order, exactly when none of its routes that nobody will renew shows the
      prefix nearer than it is.  No later round makes a difference. */
  lemma RecoversIff(topology: Topology, net: seq<Speaker>, p: Prefix, round: nat)
    requires NetOk(topology, net) && DistinctWires(topology) && HeardClear(topology, Given(net), p)
    requires |topology.hears| + MAX_METRIC <= round
    ensures RecoversBy(topology, net, p, round) <==> NothingMisleads(topology, net, p)
  {
    if NothingMisleads(topology, net, p) {
      hide NothingMisleads;
      hide DistinctWires;
      hide HeardClear;
      hide SpeakerOk;
      hide Round;
      forall nets: seq<seq<Speaker>>, schedules | IsRounds(topology, nets, schedules) && nets[0] == net
        ensures RightFrom(topology, net, nets, p, round)
      {
        forall t, i | round <= t < |nets| && 0 <= i < |net|
          ensures RightAt(topology, Given(net), nets[t], i, p)
        {
          Recovers(topology, nets, schedules, p, t, i);
        }
      }
    } else {
      hide NotNearer;
      hide WillBeHeard;
      hide SpeakerOk;
      hide HeardClear;
      var i, k :| && 0 <= i < |net| && k in net[i].learned && k.prefix == p && !WillBeHeard(topology, net, i, k)
                  && !NotNearer(topology, Given(net), i, p, net[i].learned[k], MAX_METRIC);
      hide NothingMisleads;
      var orders := AnyOrders(topology);
      var nets, schedules := SomeRun(topology, net, orders, p, round);
      hide IsRounds;
      DeadMisleads(topology, nets, schedules, round, i, k);
      RunsLength(topology, nets, schedules);
      hide BestMetric;
      hide Distance;
      assert !RightAt(topology, Given(net), nets[round], i, p);
      hide RightAt;
      assert !RightFrom(topology, net, nets, p, round);
    }
  }

  lemma RunsLength(topology: Topology, nets: seq<seq<Speaker>>, schedules: seq<Schedule>)
    requires IsRounds(topology, nets, schedules)
    ensures |nets| == |schedules| + 1
  {
  }

  /** Where every route for p is renewed already, none misleads. */
  lemma KeptAliveMisleadsNot(topology: Topology, net: seq<Speaker>, p: Prefix)
    requires NetOk(topology, net) && KeptAlive(topology, net, p)
    ensures NothingMisleads(topology, net, p)
  {
    hide SpeakerOk;
    hide OffersOnWire;
    hide Reached;
    hide NotNearer;
    OfferingInNet(topology, net, p);
    ReachedGrows(topology, Offering(net, p), 0, |topology.hears|);
    assert Reached(topology, Offering(net, p), 0) == Offering(net, p) by { ReachedZero(topology, Offering(net, p)); }
    forall i, k | 0 <= i < |net| && k in net[i].learned && k.prefix == p
      ensures WillBeHeard(topology, net, i, k)
    {
      assert Heard(topology, net, i, k);
      var j: nat :| j in topology.hears[i] && OffersKey(topology, net, j, k);
      assert Listens(topology, j, i) && j in Offering(net, p);
    }
  }

  lemma ReachedZero(topology: Topology, s: set<nat>)
    ensures Reached(topology, s, 0) == s
  {
  }
}
