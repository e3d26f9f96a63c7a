/** The SLA protocol: configured routes whose next hops are probed, and whose
    status follows the last probe (src/rp_sla/main.py). */
module Sla {
  import opened Types
  import opened Addressing
  import opened Selection

  /** One probe of a next hop: when it began, when it was recorded, and the round
      trip in seconds, or none for a timeout. */
  datatype Probe = Probe(start: real, finish: real, roundTrip: Option<real>)

  datatype SlaValue = SlaValue(key: Key, priority: int, thresholdMs: real, source: SourceCode, status: RouteStatus)

  function PrefixOf(r: SlaValue): Prefix { r.key.prefix }

  /** The highest priority is the best score. */
  function ScoreOf(r: SlaValue): int { -r.priority }

  predicate Within(p: Probe, thresholdMs: real) {
    p.roundTrip.Some? && p.roundTrip.value * 1000.0 <= thresholdMs
  }

  /** Successive probes lie more than the interval apart. */
  ghost predicate Spaced(log: seq<Probe>, interval: real) {
    forall n :: 0 < n < |log| ==> log[n].start - log[n - 1].finish > interval
  }

  class SlaRoute {
    const key: Key
    const priority: int
    const thresholdMs: real
    const source: SourceCode
    var status: RouteStatus
    var lastUpdated: real
    /** Every probe of this route so far. */
    ghost var log: seq<Probe>

    constructor (key: Key, priority: int, thresholdMs: real, source: SourceCode, now: real)
      ensures this.key == key && this.priority == priority && this.thresholdMs == thresholdMs && this.source == source
      ensures status == UNKNOWN && lastUpdated == now && log == []
    {
      this.key, this.priority, this.thresholdMs, this.source := key, priority, thresholdMs, source;
      status, lastUpdated, log := UNKNOWN, now, [];
    }

    function Value(): SlaValue
      reads this
    {
      SlaValue(key, priority, thresholdMs, source, status)
    }

    /** The status is that of the last probe, the time stamp its end, and probes
        keep their distance. */
    ghost predicate Measured(interval: real)
      reads this
    {
      && Spaced(log, interval)
      && (log == [] ==> status == UNKNOWN)
      && (log != [] ==>
            && status == (if Within(log[|log| - 1], thresholdMs) then UP else DOWN)
            && lastUpdated == log[|log| - 1].finish)
    }

    /** `evaluate_route`: a route is measured when it never was, or when its last
        measurement ended longer ago than the interval; it is UP exactly when the
        round trip came back in time. */
    method Evaluate(probe: Probe, interval: real)
      requires Measured(interval)
      modifies this
      ensures Measured(interval)
      ensures log ==
        if old(log) == [] || probe.start - old(log)[|old(log)| - 1].finish > interval then old(log) + [probe]
        else old(log)
      ensures log == old(log) ==> status == old(status) && lastUpdated == old(lastUpdated)
      ensures log != old(log) ==>
        && lastUpdated == probe.finish
        && status == match probe.roundTrip
                     case None => DOWN
                     case Some(seconds) => if 1000.0 * seconds <= thresholdMs then UP else DOWN
    {
      if status == UNKNOWN || probe.start - lastUpdated > interval {
        if probe.roundTrip.Some? && probe.roundTrip.value * 1000.0 <= thresholdMs {
          status := UP;
        } else {
          status := DOWN;
        }
        lastUpdated := probe.finish;
        log := log + [probe];
      }
    }
  }

  class RpSla {
    const interval: real
    const adminDistance: int
    var configured: map<Key, SlaRoute>
    var rib: map<Key, SlaRoute>

    /** Both tables hold the very same route objects, each under its own key. */
    ghost predicate Valid()
      reads this, set k | k in rib :: rib[k]
    {
      && configured == rib
      && forall k :: k in rib ==> rib[k].key == k && rib[k].Measured(interval)
    }

    constructor (interval: real, adminDistance: int)
      ensures Valid() && rib == map[] && this.interval == interval && this.adminDistance == adminDistance
    {
      this.interval, this.adminDistance := interval, adminDistance;
      configured, rib := map[], map[];
    }

    /** A route equal to one that is configured already changes nothing: the one
        that is there keeps its status and its measurements. */
    method AddConfiguredRoute(route: SlaRoute)
      requires Valid() && route.Measured(interval)
      modifies this
      ensures Valid()
      ensures rib == if route.key in old(rib) then old(rib) else old(rib)[route.key := route]
    {
      if route.key !in configured {
        configured := configured[route.key := route];
      }
      if route.key !in rib {
        rib := rib[route.key := route];
      }
    }

    method RemoveConfiguredRoute(key: Key)
      requires Valid()
      modifies this
      ensures Valid() && rib == old(rib) - {key}
    {
      configured := configured - {key};
      rib := rib - {key};
    }

    /** `evaluate_routes`, whatever each probe finds and whenever it is made:
        exactly the routes never measured, or not for longer than the interval, get
        one more measurement. */
    method EvaluateRoutes(probe: Key -> Probe)
      requires Valid()
      modifies set k | k in rib :: rib[k]
      ensures Valid()
      ensures forall k :: k in rib ==>
        var log := old(rib[k].log);
        rib[k].log ==
          if log == [] || probe(k).start - log[|log| - 1].finish > interval then log + [probe(k)] else log
    {
      hide SlaRoute.Measured;
      var todo := rib.Keys;
      while todo != {}
        invariant todo <= rib.Keys
        invariant forall k :: k in rib ==> rib[k].Measured(interval)
        invariant forall k :: k in todo ==> unchanged(rib[k])
        invariant forall k :: k in rib && k !in todo ==>
          var log := old(rib[k].log);
          rib[k].log ==
            if log == [] || probe(k).start - log[|log| - 1].finish > interval then log + [probe(k)] else log
      {
        var k :| k in todo;
        rib[k].Evaluate(probe(k), interval);
        todo := todo - {k};
      }
    }

    /** The routes fit for redistribution. */
    ghost function UpRoutes(): set<SlaValue>
      reads this, set k | k in rib :: rib[k]
    {
      set k | k in rib && rib[k].status == UP && rib[k].source == SLA :: rib[k].Value()
    }

    /** `redistribute_out`: for each prefix an UP route of the highest priority. */
    method RedistributeOut() returns (best: map<Prefix, SlaValue>)
      requires Valid()
      ensures IsSelection(UpRoutes(), PrefixOf, ScoreOf, best)
      ensures forall k :: k in rib && rib[k].status == UP && rib[k].source == SLA ==>
        k.prefix in best && rib[k].priority <= best[k.prefix].priority
      ensures forall p :: p in best ==>
        exists k :: && k in rib && rib[k].Value() == best[p] && k.prefix == p
                    && rib[k].status == UP && rib[k].source == SLA
    {
      hide IsSelection;
      best := map[];
      EmptySelection<SlaValue>(PrefixOf, ScoreOf);
      ghost var seen: set<SlaValue> := {};
      var todo := rib.Keys;
      while todo != {}
        invariant todo <= rib.Keys
        invariant seen ==
          set k | k in rib && k !in todo && rib[k].status == UP && rib[k].source == SLA :: rib[k].Value()
        invariant IsSelection(seen, PrefixOf, ScoreOf, best)
      {
        var k :| k in todo;
        var route := rib[k].Value();
        if route.status == UP && route.source == SLA {
          ConsiderExtends(seen, PrefixOf, ScoreOf, best, route);
          if route.key.prefix !in best {
            best := best[route.key.prefix := route];
          } else if route.priority > best[route.key.prefix].priority {
            best := best[route.key.prefix := route];
          }
          seen := seen + {route};
        }
        todo := todo - {k};
      }
      assert seen == UpRoutes();
      HighestPriority(this, best);
    }
  }

  /** A selection has the highest priority of each prefix that has an UP route. */
  lemma HighestPriority(sla: RpSla, best: map<Prefix, SlaValue>)
    requires sla.Valid() && IsSelection(sla.UpRoutes(), PrefixOf, ScoreOf, best)
    ensures forall k :: k in sla.rib && sla.rib[k].status == UP && sla.rib[k].source == SLA ==>
              k.prefix in best && sla.rib[k].priority <= best[k.prefix].priority
    ensures forall p :: p in best ==>
              exists k :: && k in sla.rib && sla.rib[k].Value() == best[p] && k.prefix == p
                          && sla.rib[k].status == UP && sla.rib[k].source == SLA
  {
    hide SlaRoute.Measured;
    forall k | k in sla.rib && sla.rib[k].status == UP && sla.rib[k].source == SLA
      ensures k.prefix in best && sla.rib[k].priority <= best[k.prefix].priority
    {
      var r := sla.rib[k].Value();
      assert r in sla.UpRoutes() && PrefixOf(r) == k.prefix;
      assert ScoreOf(best[k.prefix]) <= ScoreOf(r);
    }
    forall p | p in best
      ensures exists k :: && k in sla.rib && sla.rib[k].Value() == best[p] && k.prefix == p
                          && sla.rib[k].status == UP && sla.rib[k].source == SLA
    {
      assert best[p] in sla.UpRoutes();
    }
  }

  /** A route is redistributed out only if its last completed measurement was
      within its threshold. */
  lemma OnlyMeasuredUpGoOut(sla: RpSla, best: map<Prefix, SlaValue>, p: Prefix)
    requires sla.Valid() && IsSelection(sla.UpRoutes(), PrefixOf, ScoreOf, best) && p in best
    ensures exists k :: k in sla.rib && sla.rib[k].Value() == best[p] && k.prefix == p
                        && sla.rib[k].log != []
                        && var last := sla.rib[k].log[|sla.rib[k].log| - 1];
                           last.roundTrip.Some? && 1000.0 * last.roundTrip.value <= sla.rib[k].thresholdMs
  {
    assert best[p] in sla.UpRoutes();
    var k :| k in sla.rib && sla.rib[k].status == UP && sla.rib[k].Value() == best[p];
  }
}
