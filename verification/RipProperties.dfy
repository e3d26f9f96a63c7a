/** What the RIPv1 steps promise one at a time: the wire round trip, the learned
    table's invariant, housekeeping passes that compose. */
module RipProperties {
  import opened Types
  import opened Addressing
  import opened Rip
  import opened Selection

  // ---- the wire --------------------------------------------------------

  /** Decoding works entry by entry, so an entry that is dropped leaves no trace
      on the others. */
  lemma {:induction false} DecodeConcat(x: seq<Entry>, y: seq<Entry>, sender: Address, now: real)
    ensures Decode(x + y, sender, now) == Decode(x, sender, now) + Decode(y, sender, now)
    decreases |y|
  {
    if y == [] {
      assert x + y == x;
    } else {
      var init := y[..|y| - 1];
      DecodeConcat(x, init, sender, now);
      assert (x + y)[..|x + y| - 1] == x + init;
    }
  }

  /** An entry is dropped exactly when its address is of class D or E, and then
      the rest of the message decodes as if it had not been there. */
  lemma InvalidEntryDropped(x: seq<Entry>, e: Entry, y: seq<Entry>, sender: Address, now: real)
    ensures Decode(x + [e] + y, sender, now) == Decode(x + y, sender, now) <==> ClassOf(e.address) == Other
  {
    DecodeConcat(x + [e], y, sender, now);
    DecodeConcat(x, [e], sender, now);
    DecodeConcat(x, y, sender, now);
    ClassfulForm(Prefix(e.address, 32));
    assert [e][..0] == [];
    assert Decode([e], sender, now) == match DecodeEntry(e, sender, now) case None => [] case Some(r) => [r];
  }

  function Advertise(routes: seq<RouteValue>, wire: Address): (entries: seq<Entry>)
    ensures |entries| == |routes|
    ensures forall i :: 0 <= i < |routes| ==> entries[i] == Encode(routes[i], wire)
  {
    seq(|routes|, i requires 0 <= i < |routes| => Encode(routes[i], wire))
  }

  /** What a receiver holds for a route it was sent. */
  function Received(r: RouteValue, wire: Address, sender: Address, now: real): RouteValue {
    var metric := Min(r.metric + 1, MAX_METRIC);
    RouteValue(
      Key(PrefixOf(r), wire), if wire == 0 then sender else wire, metric, RIP1,
      if metric == MAX_METRIC then DOWN else UP, now)
  }

  lemma RoundTripEntry(r: RouteValue, wire: Address, sender: Address, now: real)
    ensures DecodeEntry(Encode(r, wire), sender, now) == Some(Received(r, wire, sender, now))
      <==> Classful(PrefixOf(r)) == Ok(PrefixOf(r)) && PrefixOf(r).length != 0
  {
    SurvivesWire(PrefixOf(r));
  }

  /** A list of classful, non-default routes comes off the wire in order, with
      the prefixes it went on with, the sender as next hop and one more hop. */
  lemma {:induction false} RoundTrip(routes: seq<RouteValue>, sender: Address, now: real)
    requires forall r :: r in routes ==> Classful(PrefixOf(r)) == Ok(PrefixOf(r)) && PrefixOf(r).length != 0
    ensures var received := Decode(Advertise(routes, 0), sender, now);
      && |received| == |routes|
      && forall i :: 0 <= i < |routes| ==> received[i] == Received(routes[i], 0, sender, now)
  {
    if routes != [] {
      var last := |routes| - 1;
      RoundTrip(routes[..last], sender, now);
      RoundTripEntry(routes[last], 0, sender, now);
      assert Advertise(routes, 0)[..last] == Advertise(routes[..last], 0);
    }
  }

  /** Every decoded route comes from an entry of the message, and every entry
      that decodes is there. */
  lemma {:induction false} DecodeMembers(entries: seq<Entry>, sender: Address, now: real)
    ensures forall r :: r in Decode(entries, sender, now) ==>
              exists e :: e in entries && DecodeEntry(e, sender, now) == Some(r)
    ensures forall e :: e in entries && DecodeEntry(e, sender, now).Some? ==>
              DecodeEntry(e, sender, now).value in Decode(entries, sender, now)
  {
    if entries != [] {
      var init, last := entries[..|entries| - 1], entries[|entries| - 1];
      assert entries == init + [last];
      DecodeMembers(init, sender, now);
    }
  }

  /** What a receiver makes of any entry, whoever sent it: nothing of class D or E,
      otherwise a RIP route to the class network around the address, marked with
      the time, filed under the next hop as received and pointing at the sender
      when that is zero; at 16 or more it is down at 16, else up as it came. */
  lemma DecodedRoute(e: Entry, sender: Address, now: real)
    ensures var host := Prefix(e.address, 32);
      && (DecodeEntry(e, sender, now).None? <==> Contains(ClassNetwork(0xE000_0000, 3), host))
      && (DecodeEntry(e, sender, now).Some? ==>
            var r := DecodeEntry(e, sender, now).value;
            && Contains(r.identity.prefix, host) && 0 < r.identity.prefix.length
            && Classful(r.identity.prefix) == Ok(r.identity.prefix)
            && r.identity.nextHop == e.nextHop && r.lastUpdated == now && r.source == RIP1
            && (e.nextHop != 0 ==> r.nextHop == e.nextHop) && (e.nextHop == 0 ==> r.nextHop == sender)
            && (16 <= e.metric ==> r.metric == 16 && r.status == DOWN)
            && (e.metric < 16 ==> r.metric == e.metric && r.status == UP))
  {
    ClassfulByNetworks(Prefix(e.address, 32));
    if OnWire(e.address).Ok? {
      WireIdempotent(e.address);
    }
    hide Classful;
    hide Contains;
  }

  /** One entry for each prefix is a response. */
  lemma OneEntryEachIsResponse(rib: Table, wire: Address, prefixes: seq<Prefix>, entries: seq<Entry>)
    requires OneEntryEach(rib, wire, prefixes, entries)
    ensures IsResponse(rib, wire, entries)
  {
    forall e | e in entries
      ensures exists k :: Optimal(rib, k) && e == Encode(rib[k], wire)
    {
      var n :| 0 <= n < |entries| && entries[n] == e;
      assert IsEntryOf(rib, wire, prefixes[n], entries[n]);
    }
    forall p | Offers(rib, p)
      ensures Mentions(rib, wire, entries, p)
    {
      var n :| 0 <= n < |prefixes| && prefixes[n] == p;
      assert IsEntryOf(rib, wire, prefixes[n], entries[n]);
      var k :| Optimal(rib, k) && k.prefix == p && entries[n] == Encode(rib[k], wire);
    }
  }

  /** The prefixes of a selection are those the RIB offers. */
  lemma SelectionOffers(rib: Table, best: map<Prefix, RouteValue>, p: Prefix)
    requires Keyed(rib) && IsSelection(rib.Values, PrefixOf, MetricOf, best)
    ensures p in best <==> Offers(rib, p)
  {
    if p in best {
      SelectedIsOptimal(rib, best, p);
    }
    if Offers(rib, p) {
      var k :| k in rib && k.prefix == p;
      assert rib[k] in rib.Values && PrefixOf(rib[k]) in best;
    }
  }

  lemma SelectedIsOptimal(rib: Table, best: map<Prefix, RouteValue>, p: Prefix)
    requires Keyed(rib) && IsSelection(rib.Values, PrefixOf, MetricOf, best) && p in best
    ensures exists k :: Optimal(rib, k) && k.prefix == p && rib[k] == best[p]
  {
    assert best[p] in rib.Values;
    var k :| k in rib && rib[k] == best[p];
    forall l | l in rib && l.prefix == k.prefix
      ensures rib[k].metric <= rib[l].metric
    {
      assert rib[l] in rib.Values && PrefixOf(rib[l]) == PrefixOf(best[p]);
      assert MetricOf(best[p]) <= MetricOf(rib[l]);
    }
    assert Optimal(rib, k);
  }

  /** What RIP redistributes out, of the RIB: one route for each prefix that has a
      RIP route below 16, and none of them is worse than another of its prefix. */
  lemma GivesOutLeast(rib: Table, best: map<Prefix, RouteValue>)
    requires IsRedistributeOut(rib, best)
    ensures forall k :: k in rib && rib[k].source == RIP1 && rib[k].metric < 16 ==>
              rib[k].identity.prefix in best && best[rib[k].identity.prefix].metric <= rib[k].metric
    ensures forall p :: p in best ==>
              exists k :: && k in rib && rib[k] == best[p] && rib[k].identity.prefix == p
                          && rib[k].source == RIP1 && rib[k].metric < 16
  {
    forall k | k in rib && rib[k].source == RIP1 && rib[k].metric < 16
      ensures rib[k].identity.prefix in best && best[rib[k].identity.prefix].metric <= rib[k].metric
    {
      assert rib[k] in LiveRoutes(rib) && PrefixOf(rib[k]) in best;
      assert MetricOf(best[PrefixOf(rib[k])]) <= MetricOf(rib[k]);
    }
    forall p | p in best
      ensures exists k :: && k in rib && rib[k] == best[p] && rib[k].identity.prefix == p
                          && rib[k].source == RIP1 && rib[k].metric < 16
    {
      assert best[p] in LiveRoutes(rib) && PrefixOf(best[p]) == p;
    }
  }

  /** A redistribute-in that raises stops where it raised. */
  lemma {:induction false} ImportStops(config: Config, specs: seq<RouteSpec>, n: nat, now: real)
    requires n < |specs| && RedistributeIn(config, specs[..n], now).1
    requires specs[n].source in config.enabled && Imported(config, specs[n], now).Err?
    ensures RedistributeIn(config, specs, now) == (RedistributeIn(config, specs[..n], now).0, false)
    decreases |specs|
  {
    hide Imported;
    var last := |specs| - 1;
    if n == last {
      assert specs[..n] == specs[..last];
    } else {
      assert specs[..last][..n] == specs[..n];
      ImportStops(config, specs[..last], n, now);
    }
  }

  // ---- the learned table -----------------------------------------------

  /** A learned key holds the last route that was filed under it: one from the
      list if the list mentions the key, what was there before otherwise. */
  lemma {:induction false} LearnedAt(t: Table, routes: seq<RouteValue>, k: Key)
    ensures (exists r :: r in routes && r.identity == k) ==>
              k in Learn(t, routes) && Learn(t, routes)[k] in routes && Learn(t, routes)[k].identity == k
    ensures !(exists r :: r in routes && r.identity == k) ==>
              (k in Learn(t, routes) <==> k in t) && (k in t ==> Learn(t, routes)[k] == t[k])
  {
    if routes != [] {
      var init, last := routes[..|routes| - 1], routes[|routes| - 1];
      assert routes == init + [last];
      LearnedAt(t, init, k);
      if exists r :: r in routes && r.identity == k {
        var r :| r in routes && r.identity == k;
        assert r == last || r in init;
      }
    }
  }

  /** Place n of a list is the last that has the key. */
  ghost predicate LastWith(routes: seq<RouteValue>, n: nat, k: Key) {
    n < |routes| && routes[n].identity == k && forall m :: n < m < |routes| ==> routes[m].identity != k
  }

  /** The last route of the list with a key displaces all before it. */
  lemma {:induction false} LastRouteStays(t: Table, routes: seq<RouteValue>, n: nat, k: Key)
    requires LastWith(routes, n, k)
    ensures k in Learn(t, routes) && Learn(t, routes)[k] == routes[n]
  {
    if n < |routes| - 1 {
      LastRouteStays(t, routes[..|routes| - 1], n, k);
    }
  }

  ghost predicate LearnedRoute(r: RouteValue) {
    && r.metric <= MAX_METRIC
    && r.source == RIP1
    && r.status == (if r.metric == MAX_METRIC then DOWN else UP)
  }

  /** Filed under its own key, never above 16, DOWN exactly at 16 and otherwise
      UP. */
  ghost predicate LearnedInvariant(t: Table) {
    Keyed(t) && forall k :: k in t ==> LearnedRoute(t[k])
  }

  lemma LearnKeepsInvariant(t: Table, entries: seq<Entry>, sender: Address, now: real)
    requires LearnedInvariant(t)
    ensures LearnedInvariant(Learn(t, Decode(entries, sender, now)))
  {
    var routes := Decode(entries, sender, now);
    DecodeMembers(entries, sender, now);
    forall k | k in Learn(t, routes)
      ensures Learn(t, routes)[k].identity == k && LearnedRoute(Learn(t, routes)[k])
    {
      LearnedAt(t, routes, k);
    }
  }

  lemma SweepKeepsInvariant(t: Table, clock: Clock)
    requires LearnedInvariant(t)
    ensures LearnedInvariant(Sweep(t, clock))
    ensures forall k :: k in Sweep(t, clock) ==> k in t && Sweep(t, clock)[k].Shown() == t[k].Shown()
  {
  }

  // ---- housekeeping ----------------------------------------------------

  predicate Touched(r: RouteValue, at: Reading) {
    Expired(r, at) || Aged(r, at) != r
  }

  lemma SweepChangesWhatItTouches(t: Table, clock: Clock)
    ensures Sweep(t, clock) != t <==> exists k :: k in t && Touched(t[k], clock(k))
  {
    if forall k :: k in t ==> !Touched(t[k], clock(k)) {
      assert Sweep(t, clock) == t;
    } else {
      var k :| k in t && Touched(t[k], clock(k));
      if k in Sweep(t, clock) {
        assert Sweep(t, clock)[k] != t[k];
      }
    }
  }

  /** Each route is looked at no later by one clock than by the other. */
  ghost predicate NoLater(t: Table, earlier: Clock, later: Clock) {
    forall k :: k in t ==> earlier(k).first <= later(k).first && earlier(k).second <= later(k).second
  }

  /** Two passes with no message in between are the later pass alone. */
  lemma SweepsCompose(t: Table, earlier: Clock, later: Clock)
    requires NoLater(t, earlier, later)
    ensures Sweep(Sweep(t, earlier), later) == Sweep(t, later)
  {
    var once, twice := Sweep(t, later), Sweep(Sweep(t, earlier), later);
    forall k
      ensures k in once <==> k in twice
      ensures k in once ==> once[k] == twice[k]
    {
    }
  }

  /** After a pass nothing is older than 300 s and whatever is older than 180 s
      is poisoned, as of the readings made for it, and otherwise unchanged; younger
      routes are exactly as they were. */
  lemma SweepLeaves(t: Table, clock: Clock, k: Key)
    requires LearnedInvariant(t)
    ensures k in Sweep(t, clock) <==> k in t && clock(k).first <= t[k].lastUpdated + 300.0
    ensures k in Sweep(t, clock) && t[k].lastUpdated + 180.0 < clock(k).second ==>
              Sweep(t, clock)[k] == t[k].(metric := 16, status := DOWN)
    ensures k in Sweep(t, clock) && clock(k).second <= t[k].lastUpdated + 180.0 ==> Sweep(t, clock)[k] == t[k]
  {
  }

  // ---- redistribution in -----------------------------------------------

  /** What a spec of an enabled source becomes: nothing of class D or E, otherwise
      a fresh route to its class network, of unknown status, at the metric it
      brings -- or, if it brings none, at the one configured for its source, at most
      16. */
  lemma ImportedRoute(config: Config, spec: RouteSpec, now: real)
    ensures Imported(config, spec, now).Err? <==>
              Contains(ClassNetwork(0xE000_0000, 3), Prefix(spec.prefix.address, 32))
    ensures Imported(config, spec, now).Ok? ==>
              var r := Imported(config, spec, now).value;
              && Classful(spec.prefix) == Ok(r.identity.prefix) == Classful(r.identity.prefix)
              && r.identity.nextHop == spec.nextHop == r.nextHop
              && r.source == spec.source && r.status == UNKNOWN && r.lastUpdated == now
              && (spec.metric.Some? ==> r.metric == spec.metric.value)
              && (spec.metric.None? ==> r.metric <= 16)
              && (spec.metric.None? && r.metric < 16 ==>
                    && (spec.source == STATIC ==> r.metric == config.staticMetric)
                    && (spec.source == SLA ==> r.metric == config.slaMetric)
                    && (spec.source !in {STATIC, SLA} ==> r.metric == config.defaultMetric))
              && (spec.metric.None? && r.metric == 16 ==>
                    && (spec.source == STATIC ==> 16 <= config.staticMetric)
                    && (spec.source == SLA ==> 16 <= config.slaMetric)
                    && (spec.source !in {STATIC, SLA} ==> 16 <= config.defaultMetric))
  {
    ClassfulByNetworks(spec.prefix);
    if Classful(spec.prefix).Ok? {
      ClassfulIdempotent(spec.prefix);
    }
    hide Classful;
    hide Contains;
  }

  /** Spec n is enabled and becomes the route r. */
  ghost predicate Becomes(config: Config, specs: seq<RouteSpec>, n: nat, now: real, r: RouteValue) {
    n < |specs| && specs[n].source in config.enabled && Imported(config, specs[n], now) == Ok(r)
  }

  /** No enabled spec after n and before `stop` has the key. */
  ghost predicate NoneLater(config: Config, specs: seq<RouteSpec>, n: nat, stop: nat, now: real, k: Key)
    requires stop <= |specs|
  {
    forall m, r :: n < m < stop && Becomes(config, specs, m, now, r) ==> r.identity != k
  }

  /** Every enabled spec before `stop` becomes a route; each key holds that of its
      last spec, and no other key is there. */
  ghost predicate LastSpecs(config: Config, specs: seq<RouteSpec>, stop: nat, now: real, table: Table)
    requires stop <= |specs|
  {
    && (forall n: nat :: n < stop && specs[n].source in config.enabled ==>
          exists r :: Becomes(config, specs, n, now, r) && r.identity in table)
    && (forall k :: k in table ==>
          exists n: nat :: n < stop && Becomes(config, specs, n, now, table[k]) && table[k].identity == k
                           && NoneLater(config, specs, n, stop, now, k))
  }

  /** ... up to the first enabled spec of class D or E, if there is one. */
  ghost predicate ImportsUpTo(config: Config, specs: seq<RouteSpec>, stop: nat, now: real, table: Table, ok: bool) {
    && stop <= |specs| && LastSpecs(config, specs, stop, now, table) && (ok <==> stop == |specs|)
    && (stop < |specs| ==>
          && specs[stop].source in config.enabled
          && Contains(ClassNetwork(0xE000_0000, 3), Prefix(specs[stop].prefix.address, 32)))
  }

  /** Redistribution in goes through the specs up to the first enabled one of
      class D or E, and of those with one key the last one stays. */
  lemma {:induction false} LastSpecStays(config: Config, specs: seq<RouteSpec>, now: real) returns (stop: nat)
    ensures ImportsUpTo(config, specs, stop, now, RedistributeIn(config, specs, now).0,
                        RedistributeIn(config, specs, now).1)
  {
    hide Contains;
    if specs == [] {
      stop := 0;
    } else {
      var last := |specs| - 1;
      var (t, ok) := RedistributeIn(config, specs[..last], now);
      stop := LastSpecStays(config, specs[..last], now);
      SameSpecs(config, specs, stop, now, t);
      ImportedRoute(config, specs[last], now);
      hide LastSpecs;
      hide Imported;
      if ok && (specs[last].source !in config.enabled || Imported(config, specs[last], now).Ok?) {
        OneSpecMore(config, specs, stop, now, t);
        stop := last + 1;
      }
    }
  }

  lemma SameSpecs(config: Config, specs: seq<RouteSpec>, stop: nat, now: real, t: Table)
    requires specs != [] && stop <= |specs| - 1 && LastSpecs(config, specs[..|specs| - 1], stop, now, t)
    ensures LastSpecs(config, specs, stop, now, t)
  {
    hide Imported;
    var init := specs[..|specs| - 1];
    assert forall n: nat, r :: n < stop ==> (Becomes(config, specs, n, now, r) <==> Becomes(config, init, n, now, r));
    forall n: nat | n < stop && specs[n].source in config.enabled
      ensures exists r :: Becomes(config, specs, n, now, r) && r.identity in t
    {
      var r :| Becomes(config, init, n, now, r) && r.identity in t;
      assert Becomes(config, specs, n, now, r);
    }
    forall k | k in t
      ensures exists n: nat :: n < stop && Becomes(config, specs, n, now, t[k]) && t[k].identity == k
                               && NoneLater(config, specs, n, stop, now, k)
    {
      var n: nat :| n < stop && Becomes(config, init, n, now, t[k]) && t[k].identity == k
                    && NoneLater(config, init, n, stop, now, k);
      assert NoneLater(config, specs, n, stop, now, k);
    }
  }

  /** One spec more displaces what its key held. */
  lemma OneSpecMore(config: Config, specs: seq<RouteSpec>, stop: nat, now: real, t: Table)
    requires stop < |specs| && LastSpecs(config, specs, stop, now, t)
    requires specs[stop].source in config.enabled ==> Imported(config, specs[stop], now).Ok?
    ensures specs[stop].source !in config.enabled ==> LastSpecs(config, specs, stop + 1, now, t)
    ensures specs[stop].source in config.enabled ==>
              var r := Imported(config, specs[stop], now).value;
              LastSpecs(config, specs, stop + 1, now, t[r.identity := r])
  {
    hide Imported;
    var enabled := specs[stop].source in config.enabled;
    var r := Imported(config, specs[stop], now);
    var t' := if enabled then t[r.value.identity := r.value] else t;
    forall n: nat | n < stop + 1 && specs[n].source in config.enabled
      ensures exists r :: Becomes(config, specs, n, now, r) && r.identity in t'
    {
      if n < stop {
        var q :| Becomes(config, specs, n, now, q) && q.identity in t;
      } else {
        assert Becomes(config, specs, n, now, r.value);
      }
    }
    forall k | k in t'
      ensures exists n: nat :: n < stop + 1 && Becomes(config, specs, n, now, t'[k]) && t'[k].identity == k
                               && NoneLater(config, specs, n, stop + 1, now, k)
    {
      if enabled && k == r.value.identity {
        assert Becomes(config, specs, stop, now, t'[k]) && NoneLater(config, specs, stop, stop + 1, now, k);
      } else {
        var n: nat :| n < stop && Becomes(config, specs, n, now, t[k]) && t[k].identity == k
                      && NoneLater(config, specs, n, stop, now, k);
        assert NoneLater(config, specs, n, stop + 1, now, k);
      }
    }
  }

  // ---- rebuilding the RIB ----------------------------------------------

  /** A route through `as_json` and back: what it shows is its key now, its metric
      and source are kept, its status and its age are not. */
  ghost predicate IsCopyOf(copy: RouteValue, r: RouteValue, now: real) {
    && copy.identity.prefix == r.identity.prefix && copy.identity.nextHop == r.nextHop == copy.nextHop
    && copy.metric == r.metric && copy.source == r.source
    && copy.status == UNKNOWN && copy.lastUpdated == now
  }

  /** A rebuilt RIB has a copy of each redistributed route, under its key; each
      learned route's shown key; and under a shown key that was not redistributed
      a copy of a learned route that shows it. */
  lemma RefreshedRib(redistributed: Table, learned: Table, rib: Table, now: real)
    requires IsRefresh(redistributed, learned, rib, now)
    ensures forall k :: k in redistributed ==> k in rib && IsCopyOf(rib[k], redistributed[k], now)
    ensures forall l :: l in learned ==> Key(learned[l].identity.prefix, learned[l].nextHop) in rib
    ensures forall k :: k in rib && k !in redistributed ==>
              exists l :: && l in learned && learned[l].identity.prefix == k.prefix && learned[l].nextHop == k.nextHop
                          && IsCopyOf(rib[k], learned[l], now)
  {
  }

  ghost function ShownKeys(learned: Table): set<Key> {
    set l | l in learned :: learned[l].Shown()
  }

  /** For each shown key, one learned route that shows it. */
  ghost predicate Picks(learned: Table, pick: map<Key, Key>) {
    forall k :: k in ShownKeys(learned) ==> k in pick && pick[k] in learned && learned[pick[k]].Shown() == k
  }

  ghost function PickedRib(redistributed: Table, learned: Table, pick: map<Key, Key>, at: real): Table
    requires Picks(learned, pick)
  {
    map k | k in redistributed.Keys + ShownKeys(learned) ::
      if k in redistributed then Copy(redistributed[k], at) else Copy(learned[pick[k]], at)
  }

  /** However learned routes are picked, a refresh may build that RIB. */
  lemma PickedIsRefresh(redistributed: Table, learned: Table, pick: map<Key, Key>, at: real)
    requires Picks(learned, pick)
    ensures IsRefresh(redistributed, learned, PickedRib(redistributed, learned, pick, at), at)
  {
    var rib := PickedRib(redistributed, learned, pick, at);
    forall l | l in learned
      ensures learned[l].Shown() in rib
    {
      assert learned[l].Shown() in ShownKeys(learned);
    }
    forall k | k in rib && k !in redistributed
      ensures exists l :: l in learned && learned[l].Shown() == k && rib[k] == Copy(learned[l], at)
    {
      assert pick[k] in learned;
    }
  }

  ghost function SomePick(learned: Table): (pick: map<Key, Key>)
    ensures Picks(learned, pick)
  {
    map k | k in ShownKeys(learned) :: var l :| l in learned && learned[l].Shown() == k; l
  }
}
