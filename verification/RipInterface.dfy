/** The RIPv1 instance as it is: three tables of route objects, some of which
    are changed in place (src/rp_rip1/main.py).  Each method is proved to do to
    the objects what `Rip` says of their values. */
module RipInterface {
  import opened Types
  import opened Addressing
  import opened Selection
  import opened Rip
  import opened RipProperties

  /** Which table an object is made for.  Tables never share objects. */
  datatype Home = RibTable | LearnedTable | RedistributedTable

  class RipRoute {
    ghost const home: Home
    const identity: Key
    var nextHop: Address
    var metric: nat
    const source: SourceCode
    var status: RouteStatus
    var lastUpdated: real

    constructor (prefix: Prefix, nextHop: Address, metric: nat, source: SourceCode, now: real, ghost home: Home)
      ensures Value() == RouteValue(Key(prefix, nextHop), nextHop, metric, source, UNKNOWN, now)
      ensures this.home == home
    {
      this.home := home;
      identity := Key(prefix, nextHop);
      this.nextHop, this.metric, this.source := nextHop, metric, source;
      status, lastUpdated := UNKNOWN, now;
    }

    function Value(): RouteValue
      reads this
    {
      RouteValue(identity, nextHop, metric, source, status, lastUpdated)
    }
  }

  type Objects = map<Key, RipRoute>

  ghost function Members(t: Objects): set<RipRoute> {
    set k | k in t :: t[k]
  }

  ghost function View(t: Objects): (v: Table)
    reads set k | k in t :: t[k]
    ensures v.Keys == t.Keys && forall k :: k in t ==> v[k] == t[k].Value()
  {
    map k | k in t :: t[k].Value()
  }

  function Values(routes: seq<RipRoute>): seq<RouteValue>
    reads routes
  {
    seq(|routes|, i requires 0 <= i < |routes| reads routes => routes[i].Value())
  }

  /** Objects are filed under their keys, in the table they were made for. */
  ghost predicate Filed(t: Objects, home: Home) {
    forall k :: k in t ==> t[k].identity == k && t[k].home == home
  }

  ghost predicate FiledAsShown(t: Objects, home: Home)
    reads set k | k in t :: t[k]
  {
    forall k :: k in t ==> t[k].identity == k && t[k].nextHop == k.nextHop && t[k].home == home
  }

  class RipInterface {
    const config: Config
    var rib: Objects
    var learned: Objects
    var redistributed: Objects

    ghost predicate Valid()
      reads this, (set k | k in rib :: rib[k]), (set k | k in redistributed :: redistributed[k])
    {
      && FiledAsShown(rib, RibTable) && Filed(learned, LearnedTable) && FiledAsShown(redistributed, RedistributedTable)
    }

    constructor (config: Config)
      ensures Valid() && this.config == config
      ensures View(rib) == View(learned) == View(redistributed) == map[]
    {
      this.config := config;
      rib, learned, redistributed := map[], map[], map[];
    }

    // ---- responses -----------------------------------------------------

    /** One route made from the wire: first with the next hop as received, which
        fixes its key, then poisoned or marked up, then pointed at the sender. */
    static method DecodeOne(e: Entry, sender: Address, now: real) returns (route: Option<RipRoute>)
      ensures route.Some? <==> DecodeEntry(e, sender, now).Some?
      ensures route.Some? ==> fresh(route.value) && route.value.home == LearnedTable
      ensures route.Some? ==> route.value.Value() == DecodeEntry(e, sender, now).value
    {
      var host := new RipRoute(Prefix(e.address, 32), e.nextHop, e.metric, RIP1, now, LearnedTable);
      var prefix := Classful(host.identity.prefix);
      if prefix.Err? {
        return None;
      }
      var classful := new RipRoute(prefix.value, host.nextHop, host.metric, host.source, now, LearnedTable);
      if classful.metric >= MAX_METRIC {
        classful.metric := MAX_METRIC;
        classful.status := DOWN;
      } else {
        classful.status := UP;
      }
      if classful.nextHop == 0 {
        classful.nextHop := sender;
      }
      return Some(classful);
    }

    /** `handle_response`. */
    static method DecodeResponse(entries: seq<Entry>, sender: Address, now: real) returns (routes: seq<RipRoute>)
      ensures Values(routes) == Decode(entries, sender, now)
      ensures forall r :: r in routes ==> fresh(r) && r.home == LearnedTable
    {
      hide OnWire;
      routes := [];
      for n := 0 to |entries|
        invariant forall r :: r in routes ==> fresh(r) && r.home == LearnedTable
        invariant Values(routes) == Decode(entries[..n], sender, now)
      {
        var route := DecodeOne(entries[n], sender, now);
        assert entries[..n + 1][..n] == entries[..n];
        if route.Some? {
          assert Values(routes + [route.value]) == Values(routes) + [route.value.Value()];
          routes := routes + [route.value];
        }
      }
      assert entries[..|entries|] == entries;
    }

    /** `RIP1_RIB.add` for each route in turn: it displaces whatever has its key. */
    static method AddAll(t: Objects, routes: seq<RipRoute>) returns (t': Objects)
      requires Filed(t, LearnedTable) && forall r :: r in routes ==> r.home == LearnedTable
      ensures Filed(t', LearnedTable) && View(t') == Learn(View(t), Values(routes))
    {
      t' := t;
      for n := 0 to |routes|
        invariant Filed(t', LearnedTable) && View(t') == Learn(View(t), Values(routes)[..n])
      {
        ghost var before := t';
        t' := t'[routes[n].identity := routes[n]];
        assert Values(routes)[..n + 1][..n] == Values(routes)[..n];
        assert View(t') == View(before)[routes[n].identity := routes[n].Value()];
      }
      assert Values(routes)[..|routes|] == Values(routes);
    }

    /** What `handle_udp_bytes` makes of a response, before it is stored. */
    method Merge(entries: seq<Entry>, sender: Address, now: real) returns (accepted: bool, merged: Objects)
      requires Filed(learned, LearnedTable)
      ensures Filed(merged, LearnedTable)
      ensures accepted <==> Decode(entries, sender, now) != []
      ensures View(merged) == Learn(View(learned), Decode(entries, sender, now))
    {
      hide Decode;
      hide Learn;
      hide View;
      var routes := DecodeResponse(entries, sender, now);
      accepted := routes != [];
      merged := AddAll(learned, routes);
    }

    /** `handle_udp_bytes` for a response, up to the refresh it awaits. */
    method HandleResponse(entries: seq<Entry>, sender: Address, own: bool, now: real) returns (accepted: bool)
      requires Valid()
      modifies this`learned
      ensures Valid()
      ensures accepted <==> !(own && config.rejectOwn) && Decode(entries, sender, now) != []
      ensures View(learned) ==
              if accepted then Learn(old(View(learned)), Decode(entries, sender, now)) else old(View(learned))
    {
      hide Decode;
      hide Learn;
      hide View;
      hide Filed;
      hide FiledAsShown;
      accepted := false;
      if !(own && config.rejectOwn) {
        var merged;
        accepted, merged := Merge(entries, sender, now);
        if accepted {
          learned := merged;
        }
      }
    }

    // ---- the RIB -------------------------------------------------------

    /** One route through `as_json` and back: a new object. */
    static method CopyOf(route: RipRoute, now: real) returns (copy: RipRoute)
      ensures fresh(copy) && copy.home == RibTable && copy.Value() == Copy(route.Value(), now)
    {
      copy := new RipRoute(route.identity.prefix, route.nextHop, route.metric, route.source, now, RibTable);
    }

    /** `import_routes` into an empty table. */
    static method CopyAll(t: Objects, now: real) returns (copies: Objects)
      requires FiledAsShown(t, RedistributedTable)
      ensures FiledAsShown(copies, RibTable) && copies.Keys == t.Keys
      ensures forall k :: k in copies ==> fresh(copies[k]) && copies[k].Value() == Copy(t[k].Value(), now)
    {
      copies := map[];
      var todo := t.Keys;
      while todo != {}
        invariant todo <= t.Keys && copies.Keys == t.Keys - todo && FiledAsShown(copies, RibTable)
        invariant forall k :: k in copies ==> fresh(copies[k]) && copies[k].Value() == Copy(t[k].Value(), now)
      {
        var k :| k in todo;
        var copy := CopyOf(t[k], now);
        copies := copies[k := copy];
        todo := todo - {k};
      }
    }

    /** `import_routes` into a table that already has routes, which stay. */
    static method CopyMissing(present: Objects, t: Objects, now: real) returns (all: Objects)
      requires FiledAsShown(present, RibTable)
      ensures FiledAsShown(all, RibTable)
      ensures forall k :: k in present ==> k in all && all[k] == present[k]
      ensures forall l :: l in t ==> t[l].Value().Shown() in all
      ensures forall k :: k in all && k !in present ==>
        fresh(all[k]) && exists l :: l in t && t[l].Value().Shown() == k && all[k].Value() == Copy(t[l].Value(), now)
    {
      all := present;
      var todo := t.Keys;
      while todo != {}
        invariant todo <= t.Keys && FiledAsShown(all, RibTable)
        invariant forall k :: k in present ==> k in all && all[k] == present[k]
        invariant forall l :: l in t && l !in todo ==> t[l].Value().Shown() in all
        invariant forall k :: k in all && k !in present ==>
          fresh(all[k]) && exists l :: l in t && t[l].Value().Shown() == k && all[k].Value() == Copy(t[l].Value(), now)
      {
        var l :| l in todo;
        var copy := CopyOf(t[l], now);
        if copy.identity !in all {
          all := all[copy.identity := copy];
        }
        todo := todo - {l};
      }
    }

    static lemma CopiesRefresh(redistributed: Objects, learned: Objects, imported: Objects, all: Objects, now: real)
      requires imported.Keys == redistributed.Keys
      requires forall k :: k in imported ==> k in all && all[k].Value() == Copy(redistributed[k].Value(), now)
      requires forall l :: l in learned ==> learned[l].Value().Shown() in all
      requires forall k :: k in all && k !in imported ==>
        exists l :: l in learned && learned[l].Value().Shown() == k && all[k].Value() == Copy(learned[l].Value(), now)
      ensures IsRefresh(View(redistributed), View(learned), View(all), now)
    {
      hide View;
      hide Copy;
      var rib := View(all);
      forall k | k in rib && k !in View(redistributed)
        ensures exists l :: l in View(learned) && View(learned)[l].Shown() == k && rib[k] == Copy(View(learned)[l], now)
      {
        var l :| l in learned && learned[l].Value().Shown() == k && all[k].Value() == Copy(learned[l].Value(), now);
        assert l in View(learned);
      }
    }

    /** The new RIB: redistributed routes first, then whatever they leave room for. */
    static method BuildRib(redistributed: Objects, learned: Objects, now: real) returns (all: Objects)
      requires FiledAsShown(redistributed, RedistributedTable)
      ensures FiledAsShown(all, RibTable) && forall k :: k in all ==> fresh(all[k])
      ensures IsRefresh(View(redistributed), View(learned), View(all), now)
    {
      hide IsRefresh;
      hide View;
      hide Copy;
      var imported := CopyAll(redistributed, now);
      all := CopyMissing(imported, learned, now);
      CopiesRefresh(redistributed, learned, imported, all, now);
    }

    /** `refresh_rib`: a RIB of new objects, so that ageing a learned route later
        cannot reach into it, nor building it reset a learned route's timer. */
    method RefreshRib(now: real)
      requires Valid()
      modifies this`rib
      ensures Valid() && forall k :: k in rib ==> fresh(rib[k])
      ensures IsRefresh(View(redistributed), View(learned), View(rib), now)
    {
      hide IsRefresh;
      hide View;
      hide Filed;
      hide FiledAsShown;
      rib := BuildRib(redistributed, learned, now);
    }

    // ---- housekeeping --------------------------------------------------

    /** One route of the pass: to be removed when expired, poisoned in place when
        overdue. */
    static method CheckRoute(route: RipRoute, at: Reading) returns (expired: bool, changed: bool)
      modifies route
      ensures expired <==> Expired(old(route.Value()), at)
      ensures !expired ==> route.Value() == Aged(old(route.Value()), at)
      ensures changed <==> Touched(old(route.Value()), at)
    {
      expired, changed := false, false;
      if route.lastUpdated + GARBAGE_TIMEOUT < at.first {
        expired, changed := true, true;
      } else if route.lastUpdated + ROUTE_TIMEOUT < at.second {
        if route.metric < MAX_METRIC {
          route.status := DOWN;
          route.metric := MAX_METRIC;
          changed := true;
        }
      }
    }

    /** The loop of `check_routes`, over a snapshot of the table in any order: the
        routes that stay are poisoned in place when overdue. */
    static method CheckEach(items: Objects, clock: Clock) returns (kept: Objects, changed: bool)
      requires Filed(items, LearnedTable)
      modifies Members(items)
      ensures Filed(kept, LearnedTable)
      ensures View(kept) == Sweep(old(View(items)), clock)
      ensures changed <==> exists k :: k in old(View(items)) && Touched(old(View(items))[k], clock(k))
    {
      hide Expired;
      hide Aged;
      hide Touched;
      hide View;
      hide Sweep;
      ghost var before := View(items);
      ghost var touched: Option<Key> := None;
      kept, changed := items, false;
      var todo := items.Keys;
      while todo != {}
        invariant todo <= items.Keys
        invariant forall k :: k in kept ==> k in items && kept[k] == items[k]
        invariant forall k :: k in items ==> (k in kept <==> k in todo || !Expired(before[k], clock(k)))
        invariant forall k :: k in todo ==> unchanged(items[k])
        invariant forall k :: k in kept && k !in todo ==> items[k].Value() == Aged(before[k], clock(k))
        invariant changed ==>
          touched.Some? && touched.value in items.Keys - todo && Touched(before[touched.value], clock(touched.value))
        invariant !changed ==> forall k :: k in items && k !in todo ==> !Touched(before[k], clock(k))
      {
        var k :| k in todo;
        var expired, here := CheckRoute(items[k], clock(k));
        if expired {
          kept := kept - {k};
        }
        if here {
          touched, changed := Some(k), true;
        }
        todo := todo - {k};
      }
      SweptView(before, kept, clock);
    }

    static lemma SweptView(before: Table, swept: Objects, clock: Clock)
      requires forall k :: k in swept ==> k in before && swept[k].Value() == Aged(before[k], clock(k))
      requires forall k :: k in before ==> (k in swept <==> !Expired(before[k], clock(k)))
      ensures View(swept) == Sweep(before, clock)
    {
    }

    /** The objects of the RIB and of the redistributed table are others than the
        learned ones, so ageing does not reach them. */
    static method CheckBeside(learned: Objects, ghost rib: Objects, ghost redistributed: Objects, clock: Clock)
        returns (kept: Objects, changed: bool)
      requires FiledAsShown(rib, RibTable) && Filed(learned, LearnedTable)
      requires FiledAsShown(redistributed, RedistributedTable)
      modifies Members(learned)
      ensures FiledAsShown(rib, RibTable) && Filed(kept, LearnedTable)
      ensures FiledAsShown(redistributed, RedistributedTable)
      ensures View(rib) == old(View(rib)) && View(redistributed) == old(View(redistributed))
      ensures View(kept) == Sweep(old(View(learned)), clock)
      ensures changed <==> View(kept) != old(View(learned))
    {
      hide Sweep;
      hide Touched;
      hide View;
      hide RipRoute.Value;
      ghost var before := View(learned);
      assert forall k :: k in rib ==> rib[k] !in Members(learned);
      assert forall k :: k in redistributed ==> redistributed[k] !in Members(learned);
      hide Members;
      kept, changed := CheckEach(learned, clock);
      SweepChangesWhatItTouches(before, clock);
    }

    /** One pass of `check_routes`. */
    method CheckRoutes(clock: Clock) returns (changed: bool)
      requires Valid()
      modifies this`learned, Members(learned)
      ensures Valid()
      ensures View(rib) == old(View(rib)) && View(redistributed) == old(View(redistributed))
      ensures View(learned) == Sweep(old(View(learned)), clock)
      ensures changed <==> View(learned) != old(View(learned))
    {
      hide Sweep;
      hide View;
      hide Filed;
      hide FiledAsShown;
      hide RipRoute.Value;
      hide Members;
      var kept;
      kept, changed := CheckBeside(learned, rib, redistributed, clock);
      learned := kept;
    }

    // ---- redistribution in ---------------------------------------------

    /** The route a spec of an enabled source becomes, or an exception. */
    method ImportOne(spec: RouteSpec, now: real) returns (route: Result<RipRoute>)
      ensures route.Ok? <==> Imported(config, spec, now).Ok?
      ensures route.Ok? ==> route.value.home == RedistributedTable
      ensures route.Ok? ==> route.value.nextHop == route.value.identity.nextHop
      ensures route.Ok? ==> route.value.Value() == Imported(config, spec, now).value
    {
      hide Classful;
      var metric := SpecMetric(config, spec);
      var plain := new RipRoute(spec.prefix, spec.nextHop, metric, spec.source, now, RedistributedTable);
      var prefix := Classful(plain.identity.prefix);
      if prefix.Err? {
        return Err;
      }
      var classful := new RipRoute(prefix.value, plain.nextHop, plain.metric, plain.source, now, RedistributedTable);
      return Ok(classful);
    }

    static lemma ViewAdds(t: Objects, r: RipRoute)
      ensures View(t[r.identity := r]) == View(t)[r.identity := r.Value()]
    {
      hide RipRoute.Value;
      var t' := t[r.identity := r];
      forall k | k in t'
        ensures View(t')[k] == View(t)[r.identity := r.Value()][k]
      {
        assert t'[k] == if k == r.identity then r else t[k];
      }
    }

    /** The loop of `redistribute_in`: a new table, filled in the order of the
        specs, up to the first one that raises. */
    method ImportAll(specs: seq<RouteSpec>, now: real) returns (table: Objects, ok: bool)
      ensures FiledAsShown(table, RedistributedTable)
      ensures (View(table), ok) == Rip.RedistributeIn(config, specs, now)
    {
      hide Imported;
      hide View;
      table, ok := map[], true;
      for n := 0 to |specs|
        invariant FiledAsShown(table, RedistributedTable)
        invariant ok && (View(table), true) == Rip.RedistributeIn(config, specs[..n], now)
      {
        assert specs[..n + 1][..n] == specs[..n];
        if specs[n].source in config.enabled {
          var route := ImportOne(specs[n], now);
          if route.Err? {
            ImportStops(config, specs, n, now);
            return table, false;
          }
          ViewAdds(table, route.value);
          table := table[route.value.identity := route.value];
        }
      }
      assert specs[..|specs|] == specs;
    }

    method RedistributeIn(specs: seq<RouteSpec>, now: real) returns (ok: bool)
      requires Valid()
      modifies this`redistributed
      ensures Valid()
      ensures (View(redistributed), ok) == Rip.RedistributeIn(config, specs, now)
      ensures exists stop: nat :: ImportsUpTo(config, specs, stop, now, View(redistributed), ok)
    {
      hide View;
      hide Filed;
      hide FiledAsShown;
      hide Rip.RedistributeIn;
      hide ImportsUpTo;
      var table;
      table, ok := ImportAll(specs, now);
      redistributed := table;
      ghost var stop := LastSpecStays(config, specs, now);
    }

    // ---- best routes ---------------------------------------------------

    /** `export_routes`: the RIB's routes in any order; a prefix's first route is
        kept until one of smaller metric comes. */
    method ExportRoutes() returns (best: map<Prefix, RouteValue>)
      requires Valid()
      ensures IsSelection(View(rib).Values, PrefixOf, MetricOf, best)
    {
      hide IsSelection;
      best := map[];
      EmptySelection<RouteValue>(PrefixOf, MetricOf);
      ghost var seen: set<RouteValue> := {};
      var todo := rib.Keys;
      while todo != {}
        invariant todo <= rib.Keys
        invariant seen == set k | k in rib && k !in todo :: rib[k].Value()
        invariant IsSelection(seen, PrefixOf, MetricOf, best)
      {
        var k :| k in todo;
        var route := rib[k].Value();
        ConsiderExtends(seen, PrefixOf, MetricOf, best, route);
        if route.identity.prefix !in best {
          best := best[route.identity.prefix := route];
        } else if route.metric < best[route.identity.prefix].metric {
          best := best[route.identity.prefix := route];
        }
        seen := seen + {route};
        todo := todo - {k};
      }
      assert seen == View(rib).Values;
    }

    /** `redistribute_out`: the same loop over the live routes only. */
    method RedistributeOut() returns (best: map<Prefix, RouteValue>)
      requires Valid()
      ensures IsRedistributeOut(View(rib), best)
      ensures forall k :: k in rib && rib[k].source == RIP1 && rib[k].metric < 16 ==>
        k.prefix in best && best[k.prefix].metric <= rib[k].metric
      ensures forall p :: p in best ==>
        exists k :: && k in rib && rib[k].Value() == best[p] && k.prefix == p
                    && rib[k].source == RIP1 && rib[k].metric < 16
    {
      hide IsSelection;
      best := map[];
      EmptySelection<RouteValue>(PrefixOf, MetricOf);
      ghost var seen: set<RouteValue> := {};
      var todo := rib.Keys;
      while todo != {}
        invariant todo <= rib.Keys
        invariant seen == set k | k in rib && k !in todo && Live(rib[k].Value()) :: rib[k].Value()
        invariant IsSelection(seen, PrefixOf, MetricOf, best)
      {
        var k :| k in todo;
        var route := rib[k].Value();
        if route.source == RIP1 && route.metric < MAX_METRIC {
          ConsiderExtends(seen, PrefixOf, MetricOf, best, route);
          if route.identity.prefix !in best {
            best := best[route.identity.prefix := route];
          } else if route.metric < best[route.identity.prefix].metric {
            best := best[route.identity.prefix := route];
          }
          seen := seen + {route};
        }
        todo := todo - {k};
      }
      assert seen == LiveRoutes(View(rib));
      GivesOutLeast(View(rib), best);
    }

    /** `send_response`: exactly one entry for each prefix of the RIB, from a route
        of least metric, with next hop zero. */
    method SendResponse() returns (entries: seq<Entry>)
      requires Valid()
      ensures IsMessage(View(rib), 0, entries)
    {
      hide IsSelection;
      hide View;
      var best := ExportRoutes();
      entries := [];
      ghost var prefixes: seq<Prefix> := [];
      var todo := best.Keys;
      while todo != {}
        invariant todo <= best.Keys && |prefixes| == |entries|
        invariant forall p :: p in prefixes <==> p in best && p !in todo
        invariant forall m, n :: 0 <= m < n < |prefixes| ==> prefixes[m] != prefixes[n]
        invariant forall n :: 0 <= n < |entries| ==> prefixes[n] in best && entries[n] == Encode(best[prefixes[n]], 0)
      {
        var p :| p in todo;
        assert p !in prefixes;
        entries := entries + [Encode(best[p], 0)];
        prefixes := prefixes + [p];
        todo := todo - {p};
      }
      hide Encode;
      forall p
        ensures p in prefixes <==> Offers(View(rib), p)
      {
        SelectionOffers(View(rib), best, p);
      }
      forall n | 0 <= n < |entries|
        ensures IsEntryOf(View(rib), 0, prefixes[n], entries[n])
      {
        SelectedIsOptimal(View(rib), best, prefixes[n]);
      }
      assert OneEntryEach(View(rib), 0, prefixes, entries);
    }
  }
}
