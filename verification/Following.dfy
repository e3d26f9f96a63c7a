/** Zero next-hop fields and more than one neighbour: each router ends up
    following the neighbour it processes last, and its metric is the distance
    along the chain of such neighbours, whatever the network around it offers. */
module Following {
  import opened Types
  import opened Addressing
  import opened Rip
  import opened Network
  import opened Rounds
  import opened Convergence
  import opened Counting

  // ---- who offers a prefix ---------------------------------------------

  ghost function Offering(net: seq<Speaker>, p: Prefix): set<nat> {
    set i | 0 <= i < |net| && OffersOnWire(net[i].rib, p)
  }

  /** One round passes an offer on to whoever hears it, and nobody drops it. */
  ghost function Spread(topology: Topology, s: set<nat>): set<nat> {
    set i | 0 <= i < |topology.hears| && (i in s || topology.hears[i] * s != {})
  }

  ghost function Reached(topology: Topology, s: set<nat>, rounds: nat): set<nat> {
    if rounds == 0 then s else Spread(topology, Reached(topology, s, rounds - 1))
  }

  /** Nothing is offered that was not offered before, here or next door. */
  lemma OfferIsOld(topology: Topology, net: seq<Speaker>, schedule: Schedule, net': seq<Speaker>, i: nat, p: Prefix)
    requires NetOk(topology, net) && Round(topology, net, schedule, net') && i < |net'| && OffersOnWire(net'[i].rib, p)
    ensures || OffersOnWire(net[i].rib, p)
            || exists j :: j in topology.hears[i] && j < |net| && OffersOnWire(net[j].rib, p)
  {
    hide LeastFrom;
    hide Classful;
    hide OnWire;
    hide IsRefresh;
    hide OneEntryEach;
    hide AllHeard;
    RoundKeepsSpeaker(topology, net, schedule, net', i);
    var k :| k in net'[i].rib && OnWire(k.prefix.address) == Ok(p);
    RibHoldsOnly(topology, i, net'[i], k);
    if k in net'[i].redistributed {
      RibOffersRedistributed(topology, i, net[i], k);
    } else {
      var l :| l in net'[i].learned && l.prefix == k.prefix;
      LearnedIsOld(topology, net, schedule, net', i, l);
    }
  }

  lemma LearnedIsOld(topology: Topology, net: seq<Speaker>, schedule: Schedule, net': seq<Speaker>, i: nat, l: Key)
    requires NetOk(topology, net) && Round(topology, net, schedule, net') && i < |net'| && l in net'[i].learned
    ensures OnWire(l.prefix.address) == Ok(l.prefix)
    ensures || OffersOnWire(net[i].rib, l.prefix)
            || exists j :: j in topology.hears[i] && j < |net| && OffersOnWire(net[j].rib, l.prefix)
  {
    hide LeastFrom;
    hide Classful;
    hide OnWire;
    hide SpeakerOk;
    hide RoundAt;
    hide IsOffer;
    RoundKeepsSpeaker(topology, net, schedule, net', i);
    SpeakerHears(topology, i, net'[i]);
    var h := LearnedIsPlain(topology, i, net'[i].learned, l);
    PlainOnWire(l.prefix);
    hide OffersOnWire;
    RoundLearned(topology, net, schedule, net', i, l);
    if Heard(topology, net, i, l) {
      var j: nat :| j in topology.hears[i] && OffersKey(topology, net, j, l);
    } else {
      RibOffersLearned(topology, i, net[i], l);
      OffersItself(net[i].rib, l.prefix);
    }
  }

  lemma SpeakerHears(topology: Topology, i: nat, s: Speaker)
    requires topology.Valid() && i < |topology.hears| && SpeakerOk(topology, i, s)
    ensures AllHeard(topology, i, s.learned)
  {
  }

  lemma OffersItself(rib: Table, p: Prefix)
    requires Offers(rib, p) && OnWire(p.address) == Ok(p)
    ensures OffersOnWire(rib, p)
  {
  }

  lemma OfferingSpreads(topology: Topology, net: seq<Speaker>, schedule: Schedule, net': seq<Speaker>, p: Prefix)
    requires NetOk(topology, net) && Round(topology, net, schedule, net')
    ensures Offering(net', p) == Spread(topology, Offering(net, p))
  {
    hide SpeakerOk;
    hide RoundAt;
    hide Shaped;
    hide OffersOnWire;
    forall i: nat
      ensures i in Offering(net', p) <==> i in Spread(topology, Offering(net, p))
    {
      if i in Offering(net', p) {
        OfferIsOld(topology, net, schedule, net', i, p);
        if !OffersOnWire(net[i].rib, p) {
          var j :| j in topology.hears[i] && j < |net| && OffersOnWire(net[j].rib, p);
          assert j in topology.hears[i] * Offering(net, p);
        }
      }
      if i in Spread(topology, Offering(net, p)) {
        if i in Offering(net, p) {
          OfferPersists(topology, net, schedule, net', i, p);
        } else {
          var j :| j in topology.hears[i] * Offering(net, p);
          OfferSpreads(topology, net, schedule, net', j, i, p);
        }
      }
    }
  }

  lemma {:induction false} OfferingAt(topology: Topology, nets: seq<seq<Speaker>>, schedules: seq<Schedule>,
                                      p: Prefix, t: nat)
    requires IsRounds(topology, nets, schedules) && t < |nets| && NetOk(topology, nets[0])
    ensures NetOk(topology, nets[t]) && Offering(nets[t], p) == Reached(topology, Offering(nets[0], p), t)
  {
    hide Round;
    hide SpeakerOk;
    hide Offering;
    hide Spread;
    RoundsKeepOk(topology, nets, schedules, t);
    if t != 0 {
      OfferingAt(topology, nets, schedules, p, t - 1);
      OfferingSpreads(topology, nets[t - 1], schedules[t - 1], nets[t], p);
    }
  }

  // ---- the spreading stops ---------------------------------------------

  ghost predicate InNet(topology: Topology, s: set<nat>) {
    forall i :: i in s ==> i < |topology.hears|
  }

  lemma SpreadGrows(topology: Topology, s: set<nat>)
    requires InNet(topology, s)
    ensures s <= Spread(topology, s) && InNet(topology, Spread(topology, s))
  {
  }

  lemma {:induction false} BoundedSet(s: set<nat>, n: nat)
    requires forall i :: i in s ==> i < n
    ensures |s| <= n
    ensures |s| == n ==> forall i: nat :: i < n ==> i in s
    decreases n
  {
    if n != 0 {
      var rest := s - {n - 1};
      BoundedSet(rest, n - 1);
      assert n - 1 in s ==> |s| == |rest| + 1;
      assert n - 1 !in s ==> rest == s;
      if |s| == n {
        forall i: nat | i < n
          ensures i in s
        {
          assert i < n - 1 ==> i in rest;
        }
      }
    }
  }

  /** Either nothing is new any more, or a router was won in each round. */
  lemma {:induction false} GrowsOrStops(topology: Topology, s: set<nat>, n: nat)
    requires InNet(topology, s)
    ensures InNet(topology, Reached(topology, s, n))
    ensures Reached(topology, s, n + 1) == Reached(topology, s, n) || n < |Reached(topology, s, n + 1)|
  {
    hide Spread;
    if n != 0 {
      GrowsOrStops(topology, s, n - 1);
    }
    var before, after := Reached(topology, s, n), Reached(topology, s, n + 1);
    SpreadGrows(topology, if n == 0 then s else Reached(topology, s, n - 1));
    SpreadGrows(topology, before);
    if after != before {
      ProperSubset(before, after);
    }
  }

  lemma ProperSubset(a: set<nat>, b: set<nat>)
    requires a <= b && a != b
    ensures |a| < |b|
  {
    assert b == a + (b - a);
    assert b - a != {};
  }

  lemma {:induction false} StopsFor(topology: Topology, s: set<nat>, n: nat, m: nat)
    requires Reached(topology, s, n + 1) == Reached(topology, s, n) && n <= m
    ensures Reached(topology, s, m) == Reached(topology, s, n)
    decreases m
  {
    hide Spread;
    if n < m {
      StopsFor(topology, s, n, m - 1);
    }
  }

  /** After as many rounds as there are routers, everyone who will ever offer the
      prefix does. */
  lemma ReachedStops(topology: Topology, s: set<nat>, m: nat)
    requires InNet(topology, s) && |topology.hears| <= m
    ensures Reached(topology, s, m) == Reached(topology, s, |topology.hears|)
  {
    hide Spread;
    hide Reached;
    var n := |topology.hears|;
    GrowsOrStops(topology, s, n);
    GrowsOrStops(topology, s, n + 1);
    if Reached(topology, s, n + 1) != Reached(topology, s, n) {
      BoundedSet(Reached(topology, s, n + 1), n);
      assert false;
    }
    StopsFor(topology, s, n, m);
  }

  /** Who will offer p in the end. */
  ghost function Ever(topology: Topology, net: seq<Speaker>, p: Prefix): set<nat> {
    Reached(topology, Offering(net, p), |topology.hears|)
  }

  // ---- one round -------------------------------------------------------

  /** The last router of an order that offers the prefix. */
  ghost function LastOffering(order: seq<nat>, s: set<nat>): (last: Option<nat>)
    ensures last.Some? ==> last.value in order && last.value in s
    ensures last.None? ==> forall j :: j in order ==> j !in s
  {
    if order == [] then None
    else if order[|order| - 1] in s then Some(order[|order| - 1])
    else LastOffering(order[..|order| - 1], s)
  }

  lemma ZeroWireOffers(topology: Topology, net: seq<Speaker>, j: nat, p: Prefix)
    requires NetOk(topology, net) && ZeroWires(topology) && j < |net|
    ensures OffersKey(topology, net, j, Key(p, 0)) <==> j in Offering(net, p)
  {
    hide SpeakerOk;
    hide OffersOnWire;
  }

  /** Of all the messages processed, that of the last router with the prefix
      stands. */
  lemma {:induction false} LastOfferingStands(topology: Topology, net: seq<Speaker>, schedule: Schedule, t: Table,
                                              order: seq<nat>, p: Prefix)
    requires NetOk(topology, net) && Shaped(topology, schedule) && Broadcast(topology, net, schedule)
    requires InRange(topology, order) && ZeroWires(topology)
    ensures var t', k, last := Process(topology, schedule, t, order), Key(p, 0), LastOffering(order, Offering(net, p));
      if last.None? then (k in t' <==> k in t) && (k in t ==> t'[k] == t[k])
      else last.value < |net| && k in t' && OfferedBy(topology, net, last.value, k, t'[k])
  {
    hide IsOffer;
    hide SpeakerOk;
    hide IsResponse;
    hide OffersKey;
    hide Offering;
    if order != [] {
      var j, init := order[|order| - 1], order[..|order| - 1];
      LastOfferingStands(topology, net, schedule, t, init, p);
      var before := Process(topology, schedule, t, init);
      OneMessage(topology, net, schedule, before, j, Key(p, 0));
      ZeroWireOffers(topology, net, j, p);
      var routes := Decode(schedule.messages[j], topology.address[j], schedule.at);
      assert Process(topology, schedule, t, order) == Learn(before, routes);
    }
  }

  /** What comes to router i for p through its parent, with 16 for nothing. */
  ghost function Through(topology: Topology, given: seq<Table>, i: nat, p: Prefix, parent: nat, metric: nat): nat {
    if Hidden(topology, given, parent, i, p) then MAX_METRIC else OneMore(metric)
  }

  /** What router i is left with when nobody it hears offers p: the route it had,
      unless that is hidden. */
  ghost function Left(s: Speaker, p: Prefix): nat {
    var k := Key(p, 0);
    if k in s.learned && s.learned[k].Shown() !in s.redistributed then Min(s.learned[k].metric, MAX_METRIC)
    else MAX_METRIC
  }

  /** One round at one router: the best of what it was given and of what comes
      through the router it processed last among those that offer p -- or, when
      none does, of what it had learned before. */
  lemma NextMetric(topology: Topology, net: seq<Speaker>, schedule: Schedule, net': seq<Speaker>, i: nat, p: Prefix)
    requires NetOk(topology, net) && Round(topology, net, schedule, net') && ZeroWires(topology) && i < |net|
    requires HeardClear(topology, Given(net), p)
    ensures i < |net'| && i < |schedule.orders|
    ensures var last := LastOffering(schedule.orders[i], Offering(net, p));
      && (last.Some? ==> last.value < |net|)
      && BestMetric(net'[i].rib, p) ==
           Min(BestMetric(net[i].redistributed, p),
               if last.None? then Left(net[i], p)
               else Through(topology, Given(net), i, p, last.value, BestMetric(net[last.value].rib, p)))
  {
    hide SpeakerOk;
    hide Plain;
    hide OnWire;
    hide IsRefresh;
    hide OneEntryEach;
    hide BestMetric;
    hide HeardClear;
    hide Offering;
    hide Hidden;
    Broadcasts(topology, net, schedule, net');
    RoundKeepsOk(topology, net, schedule, net');
    assert RoundAt(topology, schedule, i, net[i], net'[i]);
    var last := LastOffering(schedule.orders[i], Offering(net, p));
    LastOfferingStands(topology, net, schedule, net[i].learned, schedule.orders[i], p);
    hide Process;
    if last.None? {
      NothingHeard(topology, net, schedule, net', i, p);
    } else {
      SomethingHeard(topology, net, schedule, net', i, p, last.value);
    }
  }

  /** The best metric of a RIB, from its tables, with zero wires. */
  lemma BestOfTables(topology: Topology, net: seq<Speaker>, i: nat, p: Prefix, m: nat)
    requires NetOk(topology, net) && i < |net| && ZeroWires(topology) && m <= MAX_METRIC
    requires forall k :: k in net[i].learned && k.prefix == p && net[i].learned[k].Shown() !in net[i].redistributed ==>
               m <= net[i].learned[k].metric
    requires m < MAX_METRIC ==> BestMetric(net[i].rib, p) <= m
    ensures BestMetric(net[i].rib, p) == Min(BestMetric(net[i].redistributed, p), m)
  {
    hide SpeakerOk;
    hide LeastFrom;
    var g, b := BestMetric(net[i].redistributed, p), BestMetric(net[i].rib, p);
    if g < MAX_METRIC {
      var k :| k in net[i].redistributed && k.prefix == p && net[i].redistributed[k].metric == g;
      RibOffersRedistributed(topology, i, net[i], k);
    }
    if b < MAX_METRIC {
      var k :| k in net[i].rib && k.prefix == p && net[i].rib[k].metric == b;
      RibHoldsOnly(topology, i, net[i], k);
    }
  }

  lemma NobodyIsHeard(topology: Topology, net: seq<Speaker>, schedule: Schedule, net': seq<Speaker>, i: nat, k: Key)
    requires NetOk(topology, net) && Round(topology, net, schedule, net') && i < |net|
    requires LastOffering(schedule.orders[i], Offering(net, k.prefix)).None?
    ensures !Heard(topology, net, i, k)
  {
    hide SpeakerOk;
    hide OffersOnWire;
    hide RoundAt;
  }

  lemma NothingHeard(topology: Topology, net: seq<Speaker>, schedule: Schedule, net': seq<Speaker>, i: nat, p: Prefix)
    requires NetOk(topology, net) && Round(topology, net, schedule, net') && NetOk(topology, net')
    requires ZeroWires(topology) && i < |net| && net'[i].redistributed == net[i].redistributed
    requires LastOffering(schedule.orders[i], Offering(net, p)).None?
    ensures BestMetric(net'[i].rib, p) == Min(BestMetric(net[i].redistributed, p), Left(net[i], p))
  {
    hide SpeakerOk;
    hide BestMetric;
    hide OffersOnWire;
    hide RoundAt;
    hide IsOffer;
    hide LastOffering;
    hide Offering;
    var k := Key(p, 0);
    NobodyIsHeard(topology, net, schedule, net', i, k);
    RoundLearned(topology, net, schedule, net', i, k);
    forall l | l in net'[i].learned && l.prefix == p
      ensures l == k
    {
      ZeroWireKey(topology, net', i, l);
    }
    if k in net'[i].learned {
      RibOffersLearned(topology, i, net'[i], k);
    }
    BestOfTables(topology, net', i, p, Left(net[i], p));
  }

  /** A route that is renewed is not all a router is left with. */
  lemma NothingLeft(topology: Topology, net: seq<Speaker>, schedule: Schedule, net': seq<Speaker>, i: nat, p: Prefix)
    requires NetOk(topology, net) && Round(topology, net, schedule, net') && i < |net| && KeptAlive(topology, net, p)
    requires LastOffering(schedule.orders[i], Offering(net, p)).None?
    ensures Left(net[i], p) == MAX_METRIC
  {
    hide SpeakerOk;
    hide Round;
    hide LastOffering;
    hide Offering;
    hide Heard;
    NobodyIsHeard(topology, net, schedule, net', i, Key(p, 0));
  }

  lemma SomethingHeard(topology: Topology, net: seq<Speaker>, schedule: Schedule, net': seq<Speaker>, i: nat, p: Prefix,
                       j: nat)
    requires NetOk(topology, net) && Round(topology, net, schedule, net') && NetOk(topology, net')
    requires ZeroWires(topology)
    requires i < |net| && j < |net| && j in topology.hears[i] && HeardClear(topology, Given(net), p)
    requires net'[i].redistributed == net[i].redistributed
    requires Key(p, 0) in net'[i].learned && OfferedBy(topology, net, j, Key(p, 0), net'[i].learned[Key(p, 0)])
    ensures BestMetric(net'[i].rib, p) ==
              Min(BestMetric(net[i].redistributed, p),
                  Through(topology, Given(net), i, p, j, BestMetric(net[j].rib, p)))
  {
    hide SpeakerOk;
    hide LeastFrom;
    hide RoundAt;
    hide Shaped;
    hide OnWire;
    hide Clear;
    var r := net'[i].learned[Key(p, 0)];
    assert Clear(net[j].redistributed, p) by { assert Clear(Given(net)[j], p); }
    OfferIsBest(topology, j, net[j], r);
    OfferShows(topology, net, j, Key(p, 0), r);
    hide IsOffer;
    hide BestMetric;
    var m := Through(topology, Given(net), i, p, j, BestMetric(net[j].rib, p));
    RibOffersLearned(topology, i, net'[i], Key(p, 0));
    forall k | k in net'[i].learned && k.prefix == p
      ensures k == Key(p, 0)
    {
      ZeroWireKey(topology, net', i, k);
    }
    BestOfTables(topology, net', i, p, m);
  }

  lemma OfferShows(topology: Topology, net: seq<Speaker>, j: nat, k: Key, r: RouteValue)
    requires NetOk(topology, net) && j < |net| && OfferedBy(topology, net, j, k, r)
    ensures r.Shown() == Key(k.prefix, topology.address[j]) && r.metric <= MAX_METRIC
  {
    hide SpeakerOk;
    hide OnWire;
    hide Plain;
  }

  lemma ZeroWireKey(topology: Topology, net: seq<Speaker>, i: nat, k: Key)
    requires NetOk(topology, net) && i < |net| && ZeroWires(topology) && k in net[i].learned
    ensures k == Key(k.prefix, 0)
  {
    hide SpeakerOk;
    SpeakerHears(topology, i, net[i]);
    hide Plain;
    var j: nat :| HeardFrom(topology, i, j, k, net[i].learned[k]);
  }

  // ---- chains ----------------------------------------------------------

  /** A chain leads from a router to the one it follows, and on, as long as no
      router hides what the next one offers. */
  ghost predicate IsChain(topology: Topology, given: seq<Table>, orders: seq<seq<nat>>, ever: set<nat>, p: Prefix,
                          w: seq<nat>)
  {
    && w != [] && |orders| == |given| && (forall s :: 0 <= s < |w| ==> w[s] < |given|)
    && forall s :: 0 < s < |w| ==> Follows(topology, given, orders, ever, p, w[s - 1], w[s])
  }

  ghost predicate Follows(topology: Topology, given: seq<Table>, orders: seq<seq<nat>>, ever: set<nat>, p: Prefix,
                          i: nat, j: nat)
  {
    i < |orders| && LastOffering(orders[i], ever) == Some(j) && !Hidden(topology, given, j, i, p)
  }

  /** What a chain brings: the best metric its last router was given, and one for
      each hop. */
  ghost function ChainMetric(given: seq<Table>, p: Prefix, w: seq<nat>): nat
    requires w != [] && w[|w| - 1] < |given|
  {
    BestMetric(given[w[|w| - 1]], p) + |w| - 1
  }

  ghost predicate ChainBrings(topology: Topology, given: seq<Table>, orders: seq<seq<nat>>, ever: set<nat>, p: Prefix,
                              i: nat, m: nat)
  {
    exists w :: IsChain(topology, given, orders, ever, p, w) && w[0] == i && ChainMetric(given, p, w) == m
  }

  /** d is the distance of p from router i along its chain, with 16 for
      infinity. */
  ghost predicate IsChainDistance(topology: Topology, given: seq<Table>, orders: seq<seq<nat>>, ever: set<nat>,
                                  p: Prefix, i: nat, d: nat)
  {
    && d <= MAX_METRIC
    && (forall m: nat :: ChainBrings(topology, given, orders, ever, p, i, m) ==> d <= m)
    && (d < MAX_METRIC ==> ChainBrings(topology, given, orders, ever, p, i, d))
  }

  /** The same, computed for chains of fewer than n hops. */
  ghost function Follow(topology: Topology, given: seq<Table>, orders: seq<seq<nat>>, ever: set<nat>, p: Prefix,
                        i: nat, n: nat): (m: nat)
    requires |orders| == |given| && i < |given|
    requires forall h, j :: 0 <= h < |orders| && j in orders[h] ==> j < |given|
    ensures m <= MAX_METRIC
    decreases n
  {
    if n == 0 then MAX_METRIC
    else
      var last := LastOffering(orders[i], ever);
      Min(BestMetric(given[i], p),
          if last.None? then MAX_METRIC
          else Through(topology, given, i, p, last.value, Follow(topology, given, orders, ever, p, last.value, n - 1)))
  }

  lemma {:induction false} FollowIsLeast(topology: Topology, given: seq<Table>, orders: seq<seq<nat>>, ever: set<nat>,
                                         p: Prefix, w: seq<nat>, n: nat)
    requires |orders| == |given| && forall h, j :: 0 <= h < |orders| && j in orders[h] ==> j < |given|
    requires IsChain(topology, given, orders, ever, p, w) && |w| <= n
    ensures Follow(topology, given, orders, ever, p, w[0], n) <= ChainMetric(given, p, w)
    decreases |w|
  {
    hide BestMetric;
    hide Hidden;
    if |w| > 1 {
      var rest := w[1..];
      assert Follows(topology, given, orders, ever, p, w[1 - 1], w[1]);
      forall s | 0 < s < |rest|
        ensures Follows(topology, given, orders, ever, p, rest[s - 1], rest[s])
      {
        assert Follows(topology, given, orders, ever, p, w[s + 1 - 1], w[s + 1]);
      }
      FollowIsLeast(topology, given, orders, ever, p, rest, n - 1);
    }
  }

  lemma ChainOfOne(topology: Topology, given: seq<Table>, orders: seq<seq<nat>>, ever: set<nat>, p: Prefix, i: nat)
    requires |orders| == |given| && i < |given|
    ensures IsChain(topology, given, orders, ever, p, [i])
  {
  }

  lemma LongerChain(topology: Topology, given: seq<Table>, orders: seq<seq<nat>>, ever: set<nat>, p: Prefix, i: nat,
                    w: seq<nat>)
    requires IsChain(topology, given, orders, ever, p, w) && i < |given|
    requires Follows(topology, given, orders, ever, p, i, w[0])
    ensures IsChain(topology, given, orders, ever, p, [i] + w)
    ensures ChainMetric(given, p, [i] + w) == ChainMetric(given, p, w) + 1
  {
    hide Follows;
    var longer := [i] + w;
    forall s | 0 < s < |longer|
      ensures Follows(topology, given, orders, ever, p, longer[s - 1], longer[s])
    {
      if s > 1 { assert Follows(topology, given, orders, ever, p, w[s - 1 - 1], w[s - 1]); }
    }
  }

  lemma {:induction false} FollowIsReal(topology: Topology, given: seq<Table>, orders: seq<seq<nat>>, ever: set<nat>,
                                        p: Prefix, i: nat, n: nat) returns (w: seq<nat>)
    requires |orders| == |given| && i < |given| && forall h, j :: 0 <= h < |orders| && j in orders[h] ==> j < |given|
    requires Follow(topology, given, orders, ever, p, i, n) < MAX_METRIC
    ensures IsChain(topology, given, orders, ever, p, w) && w != [] && w[0] == i && w[|w| - 1] < |given|
    ensures ChainMetric(given, p, w) == Follow(topology, given, orders, ever, p, i, n)
    decreases n
  {
    hide BestMetric;
    hide Hidden;
    hide LastOffering;
    hide IsChain;
    if Follow(topology, given, orders, ever, p, i, n) == BestMetric(given[i], p) {
      w := [i];
      ChainOfOne(topology, given, orders, ever, p, i);
    } else {
      var j, m := FollowOne(topology, given, orders, ever, p, i, n);
      var rest := FollowIsReal(topology, given, orders, ever, p, j, n - 1);
      hide Follow;
      w := [i] + rest;
      LongerChain(topology, given, orders, ever, p, i, rest);
    }
  }

  lemma FollowOne(topology: Topology, given: seq<Table>, orders: seq<seq<nat>>, ever: set<nat>, p: Prefix, i: nat,
                  n: nat) returns (j: nat, m: nat)
    requires |orders| == |given| && i < |given| && forall h, j :: 0 <= h < |orders| && j in orders[h] ==> j < |given|
    requires Follow(topology, given, orders, ever, p, i, n) < MAX_METRIC
    requires Follow(topology, given, orders, ever, p, i, n) != BestMetric(given[i], p)
    ensures 0 < n && j < |given| && Follows(topology, given, orders, ever, p, i, j)
    ensures m == Follow(topology, given, orders, ever, p, j, n - 1)
    ensures m + 1 == Follow(topology, given, orders, ever, p, i, n)
  {
    hide BestMetric;
    hide Hidden;
    j := LastOffering(orders[i], ever).value;
    m := Follow(topology, given, orders, ever, p, j, n - 1);
  }

  lemma FollowIsDistance(topology: Topology, given: seq<Table>, orders: seq<seq<nat>>, ever: set<nat>, p: Prefix,
                         i: nat)
    requires |orders| == |given| && i < |given| && forall h, j :: 0 <= h < |orders| && j in orders[h] ==> j < |given|
    ensures IsChainDistance(topology, given, orders, ever, p, i,
                            Follow(topology, given, orders, ever, p, i, MAX_METRIC))
  {
    hide BestMetric;
    hide Follow;
    hide Follows;
    var d := Follow(topology, given, orders, ever, p, i, MAX_METRIC);
    forall m: nat | ChainBrings(topology, given, orders, ever, p, i, m)
      ensures d <= m
    {
      var w :| IsChain(topology, given, orders, ever, p, w) && w[0] == i && ChainMetric(given, p, w) == m;
      if |w| <= MAX_METRIC {
        FollowIsLeast(topology, given, orders, ever, p, w, MAX_METRIC);
      }
    }
    if d < MAX_METRIC {
      var w := FollowIsReal(topology, given, orders, ever, p, i, MAX_METRIC);
    }
  }

  // ---- where rounds end up ---------------------------------------------

  /** From some state on, every router processes what it hears in one order. */
  ghost predicate FixedOrders(topology: Topology, nets: seq<seq<Speaker>>, schedules: seq<Schedule>,
                              orders: seq<seq<nat>>, p: Prefix)
  {
    && IsRounds(topology, nets, schedules) && NetOk(topology, nets[0]) && ZeroWires(topology) && Plain(p)
    && KeptAlive(topology, nets[0], p) && HeardClear(topology, Given(nets[0]), p)
    && |orders| == |topology.hears| && (forall h, j :: 0 <= h < |orders| && j in orders[h] ==> j < |orders|)
    && forall s :: 0 <= s < |schedules| ==> schedules[s].orders == orders
  }


  lemma EverOffering(topology: Topology, nets: seq<seq<Speaker>>, schedules: seq<Schedule>, p: Prefix, t: nat)
    requires IsRounds(topology, nets, schedules) && |topology.hears| <= t < |nets| && NetOk(topology, nets[0])
    ensures NetOk(topology, nets[t]) && Offering(nets[t], p) == Ever(topology, nets[0], p)
  {
    hide Round;
    hide SpeakerOk;
    hide Reached;
    hide OffersOnWire;
    OfferingAt(topology, nets, schedules, p, t);
    ReachedStops(topology, Offering(nets[0], p), t);
  }

  lemma ThroughAgrees(topology: Topology, given: seq<Table>, i: nat, p: Prefix, parent: nat, a: nat, b: nat, n: nat)
    requires 0 < n <= MAX_METRIC && Min(n - 1, a) == Min(n - 1, b)
    ensures Min(n, Through(topology, given, i, p, parent, a)) == Min(n, Through(topology, given, i, p, parent, b))
  {
    hide Hidden;
  }

  /** Once nobody new offers p, one round follows one link of every chain. */
  lemma LaterMetric(topology: Topology, nets: seq<seq<Speaker>>, schedules: seq<Schedule>, orders: seq<seq<nat>>,
                    p: Prefix, i: nat, t: nat)
    requires FixedOrders(topology, nets, schedules, orders, p) && i < |topology.hears|
    requires |topology.hears| < t < |nets|
    ensures |nets[t]| == |nets[t - 1]| == |topology.hears| == |Given(nets[0])|
    ensures var last := LastOffering(orders[i], Ever(topology, nets[0], p));
      && (last.Some? ==> last.value < |topology.hears|)
      && BestMetric(nets[t][i].rib, p) ==
           Min(BestMetric(Given(nets[0])[i], p),
               if last.None? then MAX_METRIC
               else Through(topology, Given(nets[0]), i, p, last.value, BestMetric(nets[t - 1][last.value].rib, p)))
  {
    hide RoundAt;
    hide Shaped;
    hide SpeakerOk;
    hide BestMetric;
    hide Heard;
    hide HeardClear;
    hide Through;
    hide Plain;
    hide LastOffering;
    RoundsKeepGiven(topology, nets, schedules, t - 1);
    RoundsKeepGiven(topology, nets, schedules, t);
    StaleRoutesRise(topology, nets, schedules, t - 1, p);
    hide NetLowIfBacked;
    hide KeptAlive;
    EverOffering(topology, nets, schedules, p, t - 1);
    hide Ever;
    hide Offering;
    hide Left;
    NextMetric(topology, nets[t - 1], schedules[t - 1], nets[t], i, p);
    if LastOffering(orders[i], Offering(nets[t - 1], p)).None? {
      NothingLeft(topology, nets[t - 1], schedules[t - 1], nets[t], i, p);
    }
    assert nets[t - 1][i].redistributed == Given(nets[t - 1])[i];
  }

  /** After n more rounds metrics below n are those of chains. */
  lemma {:induction false} AgreesBelow(topology: Topology, nets: seq<seq<Speaker>>, schedules: seq<Schedule>,
                                       orders: seq<seq<nat>>, p: Prefix, i: nat, t: nat, n: nat)
    requires FixedOrders(topology, nets, schedules, orders, p) && i < |topology.hears| && n <= MAX_METRIC
    requires |topology.hears| + n <= t < |nets|
    ensures |nets[t]| == |topology.hears| == |Given(nets[0])|
    ensures Min(n, BestMetric(nets[t][i].rib, p)) ==
              Min(n, Follow(topology, Given(nets[0]), orders, Ever(topology, nets[0], p), p, i, n))
    decreases n
  {
    hide Round;
    hide SpeakerOk;
    hide BestMetric;
    hide Heard;
    hide HeardClear;
    hide Through;
    hide Ever;
    hide Plain;
    hide LastOffering;
    RoundsKeepGiven(topology, nets, schedules, t);
    if n != 0 {
      LaterMetric(topology, nets, schedules, orders, p, i, t);
      var last := LastOffering(orders[i], Ever(topology, nets[0], p));
      if last.Some? {
        RoundsKeepGiven(topology, nets, schedules, t - 1);
        AgreesBelow(topology, nets, schedules, orders, p, last.value, t - 1, n - 1);
        ThroughAgrees(topology, Given(nets[0]), i, p, last.value, BestMetric(nets[t - 1][last.value].rib, p),
                      Follow(topology, Given(nets[0]), orders, Ever(topology, nets[0], p), p, last.value, n - 1), n);
      }
    }
  }

  /** Where all next-hop fields are zero and every router processes what it hears
      in a fixed order, each metric becomes, and stays, the distance along the
      chain of routers processed last. */
  lemma ChainsDecide(topology: Topology, nets: seq<seq<Speaker>>, schedules: seq<Schedule>, orders: seq<seq<nat>>,
                     p: Prefix, i: nat, t: nat)
    requires FixedOrders(topology, nets, schedules, orders, p) && i < |topology.hears|
    requires |topology.hears| + MAX_METRIC <= t < |nets|
    ensures |nets[t]| == |topology.hears|
    ensures IsChainDistance(topology, Given(nets[0]), orders, Ever(topology, nets[0], p), p, i,
                            BestMetric(nets[t][i].rib, p))
  {
    hide IsRounds;
    hide SpeakerOk;
    hide LeastFrom;
    hide KeptAlive;
    hide HeardClear;
    hide Ever;
    hide Follow;
    hide IsChainDistance;
    hide Plain;
    AgreesBelow(topology, nets, schedules, orders, p, i, t, MAX_METRIC);
    FollowIsDistance(topology, Given(nets[0]), orders, Ever(topology, nets[0], p), p, i);
  }

  // ---- when that is the true distance ----------------------------------

  ghost predicate OnlyHeard(topology: Topology, orders: seq<seq<nat>>) {
    |orders| == |topology.hears| && forall h, j :: 0 <= h < |orders| && j in orders[h] ==> j in topology.hears[h]
  }

  /** A chain, read backwards, is an open walk. */
  lemma {:induction false} ChainIsWalk(topology: Topology, given: seq<Table>, orders: seq<seq<nat>>, ever: set<nat>,
                                       p: Prefix, w: seq<nat>)
    requires topology.Valid() && |given| == |topology.hears| && OnlyHeard(topology, orders)
    requires OnWire(p.address) == Ok(p)
    requires IsChain(topology, given, orders, ever, p, w) && ChainMetric(given, p, w) < MAX_METRIC
    ensures OpenBacked(topology, given, w[0], p, ChainMetric(given, p, w), |w| - 1)
    decreases |w|
  {
    hide OnWire;
    hide LeastFrom;
    hide OpenBacked;
    hide Hidden;
    if |w| == 1 {
      var m := BestMetric(given[w[0]], p);
      var k :| k in given[w[0]] && k.prefix == p && given[w[0]][k].metric == m;
      OriginOpen(topology, given, w[0], k, 0);
    } else {
      var rest := w[1..];
      assert Follows(topology, given, orders, ever, p, w[1 - 1], w[1]);
      forall s | 0 < s < |rest|
        ensures Follows(topology, given, orders, ever, p, rest[s - 1], rest[s])
      {
        assert Follows(topology, given, orders, ever, p, w[s + 1 - 1], w[s + 1]);
      }
      ChainIsWalk(topology, given, orders, ever, p, rest);
      OpenOneHopOn(topology, given, w[1], p, ChainMetric(given, p, rest), |rest| - 1, w[0], p);
    }
  }

  /** A router ends up at the true distance exactly when its chain is a shortest
      way. */
  lemma RightIffChainIsShortest(topology: Topology, nets: seq<seq<Speaker>>, schedules: seq<Schedule>,
                                orders: seq<seq<nat>>, p: Prefix, i: nat, t: nat, d: nat)
    requires FixedOrders(topology, nets, schedules, orders, p) && i < |topology.hears|
    requires |topology.hears| + MAX_METRIC <= t < |nets|
    requires IsOpenDistance(topology, Given(nets[0]), i, p, MAX_METRIC, d)
    ensures |nets[t]| == |topology.hears|
    ensures BestMetric(nets[t][i].rib, p) == d <==>
              d == MAX_METRIC || ChainBrings(topology, Given(nets[0]), orders, Ever(topology, nets[0], p), p, i, d)
  {
    hide SpeakerOk;
    hide LeastFrom;
    hide KeptAlive;
    hide HeardClear;
    hide Ever;
    hide OpenBacked;
    hide IsChain;
    hide RoundAt;
    ChainsDecide(topology, nets, schedules, orders, p, i, t);
    assert OnlyHeard(topology, orders) by {
      assert Round(topology, nets[0], schedules[0], nets[1]);
    }
    hide IsRounds;
    PlainOnWire(p);
    hide Plain;
    var given, ever, m := Given(nets[0]), Ever(topology, nets[0], p), BestMetric(nets[t][i].rib, p);
    if m < MAX_METRIC {
      ChainAtLeast(topology, given, orders, ever, p, i, m, d);
    }
  }

  lemma ChainAtLeast(topology: Topology, given: seq<Table>, orders: seq<seq<nat>>, ever: set<nat>, p: Prefix, i: nat,
                     m: nat, d: nat)
    requires topology.Valid() && |given| == |topology.hears| && OnlyHeard(topology, orders)
    requires OnWire(p.address) == Ok(p)
    requires ChainBrings(topology, given, orders, ever, p, i, m) && m < MAX_METRIC
    requires IsOpenDistance(topology, given, i, p, MAX_METRIC, d)
    ensures d <= m
  {
    hide OnWire;
    hide OpenBacked;
    hide BestMetric;
    var w :| IsChain(topology, given, orders, ever, p, w) && w[0] == i && ChainMetric(given, p, w) == m;
    ChainIsWalk(topology, given, orders, ever, p, w);
    OpenMonotone(topology, given, i, p, m, |w| - 1, MAX_METRIC);
  }
}
