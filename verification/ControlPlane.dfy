/** The control plane (src/control_plane/main.py, route.py, static.py), with the
    two protocols it talks to. */
module ControlPlane {
  import opened Types
  import opened Addressing
  import opened Selection
  import opened Redistribution
  import opened Feedback
  import Rip
  import opened RipProperties
  import R = RipInterface
  import Sla

  /** The RIB's static routes are those of the static table, at their distances
      and UP. */
  ghost predicate Mirrored(statics: StaticTable, rib: CpTable) {
    forall k {:trigger StaticKey(k)} ::
      && (StaticKey(k) in rib <==> k in statics)
      && (k in statics && StaticKey(k) in rib ==> rib[StaticKey(k)] == CpRoute(StaticKey(k), statics[k], UP))
  }

  lemma RebuiltStatic(statics: StaticTable, answers: Answers, k: Key)
    requires answers.Valid()
    ensures var rib, c := Rebuilt(statics, answers), StaticKey(k);
      (c in rib <==> k in statics) && (k in statics && c in rib ==> rib[c] == CpRoute(c, statics[k], UP))
  {
    var c := StaticKey(k);
    if k in statics { InRebuilt(statics, answers, c, CpRoute(c, statics[k], UP)); }
    if c in Rebuilt(statics, answers) { InRebuilt(statics, answers, c, Rebuilt(statics, answers)[c]); }
    hide Rebuilt;
  }

  /** A rebuilt RIB mirrors the static table. */
  lemma RebuiltMirrors(statics: StaticTable, answers: Answers)
    requires answers.Valid()
    ensures Mirrored(statics, Rebuilt(statics, answers))
  {
    hide Rebuilt;
    forall k: Key
      ensures var rib, c := Rebuilt(statics, answers), StaticKey(k);
        (c in rib <==> k in statics) && (k in statics && c in rib ==> rib[c] == CpRoute(c, statics[k], UP))
    {
      RebuiltStatic(statics, answers, k);
    }
  }

  /** The RIB's SLA routes: one at this distance, UP, for each prefix an UP SLA route
      has, through the next hop of one of highest priority -- and no other. */
  ghost predicate HoldsSla(rib: CpTable, slaUp: set<Sla.SlaValue>, distance: int) {
    && (forall r :: r in slaUp ==> exists k :: k in rib && k.source == SLA && k.prefix == r.key.prefix)
    && (forall k :: k in rib && k.source == SLA ==>
          rib[k].adminDistance == distance && rib[k].status == UP && HighestUp(slaUp, k.prefix, k.nextHop))
  }

  ghost predicate HighestUp(slaUp: set<Sla.SlaValue>, p: Prefix, nextHop: Address) {
    exists r :: && r in slaUp && r.key == Key(p, nextHop)
                && forall q :: q in slaUp && q.key.prefix == p ==> q.priority <= r.priority
  }

  /** Its RIP routes: one at this distance, UP, for each prefix a live RIP route has,
      through the next hop of one of least metric -- and no other. */
  ghost predicate HoldsRip(rib: CpTable, ripLive: set<Rip.RouteValue>, distance: int) {
    && (forall r :: r in ripLive ==> exists k :: k in rib && k.source == RIP1 && k.prefix == r.identity.prefix)
    && (forall k :: k in rib && k.source == RIP1 ==>
          rib[k].adminDistance == distance && rib[k].status == UP && LeastLive(ripLive, k.prefix, k.nextHop))
  }

  ghost predicate LeastLive(ripLive: set<Rip.RouteValue>, p: Prefix, nextHop: Address) {
    exists r :: && r in ripLive && r.identity.prefix == p && r.nextHop == nextHop
                && forall q :: q in ripLive && q.identity.prefix == p ==> r.metric <= q.metric
  }

  /** An entry of the rebuilt RIB comes from the static table or from an answer. */
  lemma RebuiltEntry(statics: StaticTable, answers: Answers, k: CpKey)
    requires answers.Valid() && k in Rebuilt(statics, answers)
    ensures var r := Rebuilt(statics, answers)[k];
      && k.source in {STATIC, SLA, RIP1}
      && (k.source == SLA ==>
            && k.prefix in answers.sla && k == SlaKey(answers.sla[k.prefix])
            && r.adminDistance == answers.slaDistance && r.status == UP)
      && (k.source == RIP1 ==>
            && k.prefix in answers.rip && k == RipKey(answers.rip[k.prefix])
            && r.adminDistance == answers.ripDistance && r.status == UP)
  {
    InRebuilt(statics, answers, k, Rebuilt(statics, answers)[k]);
    hide Rebuilt;
  }

  lemma SlaAnswer(slaUp: set<Sla.SlaValue>, best: map<Prefix, Sla.SlaValue>, p: Prefix)
    requires IsSelection(slaUp, Sla.PrefixOf, Sla.ScoreOf, best) && p in best
    ensures best[p] in slaUp && best[p].key.prefix == p && HighestUp(slaUp, p, best[p].key.nextHop)
  {
    assert Sla.PrefixOf(best[p]) == p;
    forall q | q in slaUp && q.key.prefix == p
      ensures q.priority <= best[p].priority
    {
      assert Sla.PrefixOf(q) == p;
      assert Sla.ScoreOf(best[p]) <= Sla.ScoreOf(q);
    }
  }

  lemma RipAnswer(ripLive: set<Rip.RouteValue>, best: map<Prefix, Rip.RouteValue>, p: Prefix)
    requires IsSelection(ripLive, Rip.PrefixOf, Rip.MetricOf, best) && p in best
    ensures best[p] in ripLive && best[p].identity.prefix == p && LeastLive(ripLive, p, best[p].nextHop)
  {
    assert Rip.PrefixOf(best[p]) == p;
    forall q | q in ripLive && q.identity.prefix == p
      ensures best[p].metric <= q.metric
    {
      assert Rip.PrefixOf(q) == p;
      assert Rip.MetricOf(best[p]) <= Rip.MetricOf(q);
    }
  }

  lemma SlaSupplied(statics: StaticTable, answers: Answers, p: Prefix) returns (k: CpKey)
    requires answers.Valid() && p in answers.sla
    ensures k in Rebuilt(statics, answers) && k.source == SLA && k.prefix == p
  {
    k := SlaKey(answers.sla[p]);
    InRebuilt(statics, answers, k, CpRoute(k, answers.slaDistance, UP));
    hide Rebuilt;
  }

  lemma RipSupplied(statics: StaticTable, answers: Answers, p: Prefix) returns (k: CpKey)
    requires answers.Valid() && p in answers.rip
    ensures k in Rebuilt(statics, answers) && k.source == RIP1 && k.prefix == p
  {
    k := RipKey(answers.rip[p]);
    InRebuilt(statics, answers, k, CpRoute(k, answers.ripDistance, UP));
    hide Rebuilt;
  }

  lemma RebuiltHoldsSla(statics: StaticTable, slaUp: set<Sla.SlaValue>, answers: Answers)
    requires answers.Valid() && IsSelection(slaUp, Sla.PrefixOf, Sla.ScoreOf, answers.sla)
    ensures HoldsSla(Rebuilt(statics, answers), slaUp, answers.slaDistance)
  {
    hide Rebuilt;
    hide Unbeaten;
    hide HighestUp;
    var rib := Rebuilt(statics, answers);
    forall r | r in slaUp
      ensures exists k :: k in rib && k.source == SLA && k.prefix == r.key.prefix
    {
      assert Sla.PrefixOf(r) in answers.sla;
      var k := SlaSupplied(statics, answers, r.key.prefix);
    }
    hide IsSelection;
    forall k | k in rib && k.source == SLA
      ensures rib[k].adminDistance == answers.slaDistance && rib[k].status == UP
      ensures HighestUp(slaUp, k.prefix, k.nextHop)
    {
      RebuiltEntry(statics, answers, k);
      SlaAnswer(slaUp, answers.sla, k.prefix);
    }
  }

  lemma RebuiltHoldsRip(statics: StaticTable, ripLive: set<Rip.RouteValue>, answers: Answers)
    requires answers.Valid() && IsSelection(ripLive, Rip.PrefixOf, Rip.MetricOf, answers.rip)
    ensures HoldsRip(Rebuilt(statics, answers), ripLive, answers.ripDistance)
  {
    hide Rebuilt;
    hide Unbeaten;
    hide LeastLive;
    var rib := Rebuilt(statics, answers);
    forall r | r in ripLive
      ensures exists k :: k in rib && k.source == RIP1 && k.prefix == r.identity.prefix
    {
      assert Rip.PrefixOf(r) in answers.rip;
      var k := RipSupplied(statics, answers, r.identity.prefix);
    }
    hide IsSelection;
    forall k | k in rib && k.source == RIP1
      ensures rib[k].adminDistance == answers.ripDistance && rib[k].status == UP
      ensures LeastLive(ripLive, k.prefix, k.nextHop)
    {
      RebuiltEntry(statics, answers, k);
      RipAnswer(ripLive, answers.rip, k.prefix);
    }
  }

  /** What `export_routes` makes of a RIB. */
  lemma ExportsLeast(rib: CpTable, best: map<Prefix, CpRoute>)
    requires IsSelection(UpRoutes(rib), PrefixOfCp, DistanceOf, best)
    ensures forall k :: k in rib && rib[k].status == UP ==>
              rib[k].key.prefix in best && best[rib[k].key.prefix].adminDistance <= rib[k].adminDistance
    ensures forall p :: p in best ==>
              exists k :: k in rib && rib[k] == best[p] && rib[k].key.prefix == p && rib[k].status == UP
  {
    forall k | k in rib && rib[k].status == UP
      ensures rib[k].key.prefix in best && best[rib[k].key.prefix].adminDistance <= rib[k].adminDistance
    {
      assert rib[k] in UpRoutes(rib) && PrefixOfCp(rib[k]) in best;
      assert DistanceOf(best[PrefixOfCp(rib[k])]) <= DistanceOf(rib[k]);
    }
    forall p | p in best
      ensures exists k :: k in rib && rib[k] == best[p] && rib[k].key.prefix == p && rib[k].status == UP
    {
      assert best[p] in UpRoutes(rib) && PrefixOfCp(best[p]) == p;
    }
  }

  class ControlPlane {
    const sla: Sla.RpSla?
    const rip: R.RipInterface?
    var statics: StaticTable
    var rib: CpTable

    constructor (sla: Sla.RpSla?, rip: R.RipInterface?)
      ensures this.sla == sla && this.rip == rip && statics == map[] && rib == map[]
    {
      this.sla, this.rip := sla, rip;
      statics, rib := map[], map[];
    }

    ghost predicate InStep()
      reads this
    {
      Mirrored(statics, rib)
    }

    /** Both tables keep a route they already have. */
    method AddStaticRoute(key: Key, adminDistance: int, ribSync: bool)
      modifies this
      ensures statics == if key in old(statics) then old(statics) else old(statics)[key := adminDistance]
      ensures rib.Keys == old(rib).Keys + if ribSync then {StaticKey(key)} else {}
      ensures forall k :: k in old(rib) ==> rib[k] == old(rib)[k]
      ensures ribSync && StaticKey(key) !in old(rib) ==>
        rib[StaticKey(key)] == CpRoute(StaticKey(key), adminDistance, UP)
      ensures old(InStep()) ==> (InStep() <==> ribSync || key in old(statics))
    {
      if key !in statics {
        statics := statics[key := adminDistance];
      }
      if ribSync {
        var k := StaticKey(key);
        if k !in rib {
          rib := rib[k := CpRoute(k, adminDistance, UP)];
        }
      }
      assert !ribSync && key !in old(statics) && old(InStep()) ==> StaticKey(key) !in rib;
    }

    method RemoveStaticRoute(key: Key, ribSync: bool)
      modifies this
      ensures statics == old(statics) - {key}
      ensures rib == if ribSync then old(rib) - {StaticKey(key)} else old(rib)
      ensures old(InStep()) ==> (InStep() <==> ribSync || key !in old(statics))
    {
      statics := statics - {key};
      if ribSync {
        rib := rib - {StaticKey(key)};
      }
      assert !ribSync && key in old(statics) && old(InStep()) ==> StaticKey(key) in rib;
    }

    /** `export_routes`: the RIB's UP routes in any order; a prefix's first route is
        kept until one of smaller admin distance comes. */
    method ExportRoutes() returns (best: map<Prefix, CpRoute>)
      ensures IsSelection(UpRoutes(rib), PrefixOfCp, DistanceOf, best)
      ensures forall k :: k in rib && rib[k].status == UP ==>
        rib[k].key.prefix in best && best[rib[k].key.prefix].adminDistance <= rib[k].adminDistance
      ensures forall p :: p in best ==>
        exists k :: k in rib && rib[k] == best[p] && rib[k].key.prefix == p && rib[k].status == UP
    {
      hide IsSelection;
      best := map[];
      EmptySelection<CpRoute>(PrefixOfCp, DistanceOf);
      ghost var seen: set<CpRoute> := {};
      var todo := rib.Keys;
      while todo != {}
        invariant todo <= rib.Keys
        invariant seen == set k | k in rib && k !in todo && rib[k].status == UP :: rib[k]
        invariant IsSelection(seen, PrefixOfCp, DistanceOf, best)
      {
        var k :| k in todo;
        var route := rib[k];
        if route.status == UP {
          ConsiderExtends(seen, PrefixOfCp, DistanceOf, best, route);
          if route.key.prefix !in best {
            best := best[route.key.prefix := route];
          } else if route.adminDistance < best[route.key.prefix].adminDistance {
            best := best[route.key.prefix := route];
          }
          seen := seen + {route};
        }
        todo := todo - {k};
      }
      assert seen == UpRoutes(rib);
      ExportsLeast(rib, best);
    }

    /** What the protocols answer; a protocol that is switched off answers
        nothing. */
    ghost function SlaUp(): set<Sla.SlaValue>
      reads sla, if sla != null then set k | k in sla.rib :: sla.rib[k] else {}
    {
      if sla == null then {} else sla.UpRoutes()
    }

    ghost function RipLive(): set<Rip.RouteValue>
      reads rip, if rip != null then set k | k in rip.rib :: rip.rib[k] else {}
    {
      if rip == null then {} else Rip.LiveRoutes(R.View(rip.rib))
    }

    ghost predicate Ready()
      reads sla, rip
      reads if sla != null then set k | k in sla.rib :: sla.rib[k] else {}
      reads if rip != null then set k | k in rip.rib :: rip.rib[k] else {}
      reads if rip != null then set k | k in rip.redistributed :: rip.redistributed[k] else {}
    {
      (sla != null ==> sla.Valid()) && (rip != null ==> rip.Valid())
    }

    /** The answers come at the distances the two protocols are configured with. */
    ghost predicate AtDistances(answers: Answers)
    {
      && (sla != null ==> answers.slaDistance == sla.adminDistance)
      && (rip != null ==> answers.ripDistance == rip.config.adminDistance)
    }

    method AskAll() returns (answers: Answers)
      requires Ready()
      ensures answers.Valid() && TrueAnswers(SlaUp(), RipLive(), answers)
      ensures AtDistances(answers)
    {
      var fromSla: map<Prefix, Sla.SlaValue>, fromRip: map<Prefix, Rip.RouteValue> := map[], map[];
      var slaDistance, ripDistance := 0, 0;
      if sla != null {
        fromSla := sla.RedistributeOut();
        slaDistance := sla.adminDistance;
      }
      if rip != null {
        fromRip := rip.RedistributeOut();
        ripDistance := rip.config.adminDistance;
      }
      answers := Answers(fromSla, slaDistance, fromRip, ripDistance);
      TrueAnswersValid(SlaUp(), RipLive(), answers);
    }

    /** The RIB as specs, in any order. */
    method ExportSpecs() returns (specs: seq<Rip.RouteSpec>)
      requires forall k :: k in rib ==> rib[k].key == k
      ensures Exported(rib, specs)
    {
      specs := [];
      var todo := rib.Keys;
      while todo != {}
        invariant todo <= rib.Keys
        invariant forall k :: k in rib && k !in todo ==> Rip.RouteSpec(k.prefix, k.nextHop, k.source, None) in specs
        invariant forall x :: x in specs ==> x.metric == None && CpKey(x.prefix, x.nextHop, x.source) in rib
      {
        var k :| k in todo;
        specs := specs + [Rip.RouteSpec(k.prefix, k.nextHop, k.source, None)];
        todo := todo - {k};
      }
    }

    /** RIP's side of a redistribution: the table is replaced, and, unless a spec
        raised, the RIB rebuilt. */
    static method GiveTo(rip: R.RipInterface, specs: seq<Rip.RouteSpec>, now: real) returns (ok: bool)
      requires rip.Valid()
      modifies rip`redistributed, rip`rib
      ensures rip.Valid()
      ensures R.View(rip.learned) == old(R.View(rip.learned))
      ensures (R.View(rip.redistributed), ok) == Rip.RedistributeIn(rip.config, specs, now)
      ensures ok ==> Rip.IsRefresh(R.View(rip.redistributed), R.View(rip.learned), R.View(rip.rib), now)
      ensures !ok ==> rip.rib == old(rip.rib)
    {
      hide R.View;
      hide R.Filed;
      hide R.FiledAsShown;
      hide Rip.IsRefresh;
      ok := rip.RedistributeIn(specs, now);
      if ok {
        rip.RefreshRib(now);
      }
    }

    /** Three imports into an empty RIB. */
    static method ImportThree(statics: StaticTable, answers: Answers) returns (rib: CpTable)
      requires answers.Valid()
      ensures rib == Rebuilt(statics, answers) && forall k :: k in rib ==> rib[k].key == k
    {
      hide FromStatic;
      hide FromSla;
      hide FromRip;
      hide Import;
      rib := map[];
      rib := Import(rib, FromStatic(statics));
      rib := Import(rib, FromSla(answers.sla, answers.slaDistance));
      rib := Import(rib, FromRip(answers.rip, answers.ripDistance));
      assert rib == Rebuilt(statics, answers);
      RebuiltKeyed(statics, answers);
    }

    /** The first half of `redistribute`: the RIB is rebuilt from the static table
        and the protocols' answers. */
    method Rebuild() returns (answers: Answers)
      requires Ready()
      modifies this`rib
      ensures Ready()
      ensures answers.Valid() && TrueAnswers(SlaUp(), RipLive(), answers) && AtDistances(answers)
      ensures rib == Rebuilt(statics, answers) && forall k :: k in rib ==> rib[k].key == k
      ensures forall k :: k in rib ==> k.source in {STATIC, SLA, RIP1}
      ensures if sla == null then forall k :: k in rib ==> k.source != SLA
              else HoldsSla(rib, SlaUp(), sla.adminDistance)
      ensures if rip == null then forall k :: k in rib ==> k.source != RIP1
              else HoldsRip(rib, RipLive(), rip.config.adminDistance)
    {
      hide SlaUp;
      hide RipLive;
      hide Rebuilt;
      answers := AskAll();
      rib := ImportThree(statics, answers);
      RebuiltHoldsSla(statics, SlaUp(), answers);
      RebuiltHoldsRip(statics, RipLive(), answers);
      forall k | k in rib
        ensures k.source in {STATIC, SLA, RIP1}
      {
        RebuiltEntry(statics, answers, k);
      }
      hide IsSelection;
      SwitchedOff();
    }

    /** A protocol that is switched off has no routes. */
    lemma SwitchedOff()
      ensures sla == null ==> SlaUp() == {}
      ensures rip == null ==> RipLive() == {}
    {
    }

    static lemma OneTurn(config: Rip.Config, statics: StaticTable, slaUp: set<Sla.SlaValue>, learned: Rip.Table,
                         answers: Answers, before: Loop, specs: seq<Rip.RouteSpec>, now: real, after: Loop)
      requires answers.Valid() && TrueAnswers(slaUp, Rip.LiveRoutes(before.rib), answers)
      requires Exported(Rebuilt(statics, answers), specs)
      requires (after.redistributed, true) == Rip.RedistributeIn(config, specs, now)
      requires Rip.IsRefresh(after.redistributed, learned, after.rib, now)
      ensures Redistributes(config, statics, slaUp, learned, answers, before, specs, now, after)
    {
      RedistributeInIsImport(config, specs, now);
    }

    /** Nothing raises exactly when every spec RIP would take is of class A to C. */
    static lemma RaisesIff(config: Rip.Config, statics: StaticTable, slaUp: set<Sla.SlaValue>, answers: Answers,
                           specs: seq<Rip.RouteSpec>, now: real)
      requires config.Valid() && answers.Valid() && Exported(Rebuilt(statics, answers), specs)
      requires IsSelection(slaUp, Sla.PrefixOf, Sla.ScoreOf, answers.sla)
      ensures Rip.RedistributeIn(config, specs, now).1 <==> Importable(config, statics, slaUp)
    {
      hide Rebuilt;
      hide Exported;
      hide Classful;
      hide IsSelection;
      if Importable(config, statics, slaUp) {
        forall x | x in specs && x.source in config.enabled
          ensures Classful(x.prefix).Ok?
        {
          SpecIsImportable(config, statics, slaUp, answers, specs, x);
        }
        NothingRaises(config, specs, now);
      }
      if Rip.RedistributeIn(config, specs, now).1 {
        RedistributeInIsImport(config, specs, now);
        TakenIsImportable(config, statics, slaUp, answers, specs, Rip.RedistributeIn(config, specs, now).0, now);
      }
    }

    static ghost function LoopOf(rip: R.RipInterface): Loop
      reads rip, (set k | k in rip.redistributed :: rip.redistributed[k]), (set k | k in rip.rib :: rip.rib[k])
    {
      Loop(R.View(rip.redistributed), R.View(rip.rib))
    }

    /** The other half: RIP gets the rebuilt RIB, and the two halves are one turn of
        the loop. */
    static method TakeTurn(rip: R.RipInterface, ghost statics: StaticTable, ghost slaUp: set<Sla.SlaValue>,
                           ghost answers: Answers, specs: seq<Rip.RouteSpec>, now: real) returns (ok: bool)
      requires rip.Valid() && answers.Valid() && TrueAnswers(slaUp, Rip.LiveRoutes(R.View(rip.rib)), answers)
      requires Exported(Rebuilt(statics, answers), specs)
      modifies rip`redistributed, rip`rib
      ensures rip.Valid()
      ensures (R.View(rip.redistributed), ok) == Rip.RedistributeIn(rip.config, specs, now)
      ensures rip.config.Valid() ==> (ok <==> Importable(rip.config, statics, slaUp))
      ensures ok ==>
        Redistributes(rip.config, statics, slaUp, R.View(rip.learned), answers,
                      old(LoopOf(rip)), specs, now, LoopOf(rip))
      ensures !ok ==> rip.rib == old(rip.rib)
    {
      hide R.View;
      hide R.Filed;
      hide R.FiledAsShown;
      hide Rebuilt;
      hide Redistributes;
      hide Rip.IsRefresh;
      hide Rip.LiveRoutes;
      hide Rip.RedistributeIn;
      hide Exported;
      hide IsSelection;
      hide Importable;
      ghost var before := LoopOf(rip);
      ok := GiveTo(rip, specs, now);
      if rip.config.Valid() {
        RaisesIff(rip.config, statics, slaUp, answers, specs, now);
      }
      if ok {
        OneTurn(rip.config, statics, slaUp, R.View(rip.learned), answers, before, specs, now, LoopOf(rip));
      }
    }

    /** `redistribute`, with RIP switched on or off. */
    method Redistribute(now: real) returns (answers: Answers, specs: seq<Rip.RouteSpec>, ok: bool)
      requires Ready()
      modifies this`rib, rip
      ensures Ready() && InStep()
      ensures answers.Valid() && TrueAnswers(old(SlaUp()), old(RipLive()), answers) && AtDistances(answers)
      ensures rib == Rebuilt(statics, answers)
      ensures forall k :: k in rib ==> k.source in {STATIC, SLA, RIP1}
      ensures if sla == null then forall k :: k in rib ==> k.source != SLA
              else HoldsSla(rib, old(SlaUp()), sla.adminDistance)
      ensures if rip == null then forall k :: k in rib ==> k.source != RIP1
              else HoldsRip(rib, old(RipLive()), rip.config.adminDistance)
      ensures rip != null ==> rip.learned == old(rip.learned) && Exported(rib, specs)
      ensures rip != null ==> (R.View(rip.redistributed), ok) == Rip.RedistributeIn(rip.config, specs, now)
      ensures rip != null && rip.config.Valid() ==> (ok <==> Importable(rip.config, statics, old(SlaUp())))
      ensures rip != null && ok ==>
        Redistributes(rip.config, statics, old(SlaUp()), R.View(rip.learned), answers,
                      old(LoopOf(rip)), specs, now, LoopOf(rip))
      ensures rip != null && !ok ==> rip.rib == old(rip.rib)
    {
      hide R.View;
      hide R.Filed;
      hide R.FiledAsShown;
      hide Rebuilt;
      hide Redistributes;
      hide Rip.LiveRoutes;
      hide Rip.RedistributeIn;
      hide TrueAnswers;
      hide Exported;
      hide Importable;
      hide Mirrored;
      hide HoldsSla;
      hide HoldsRip;
      hide Sla.RpSla.Valid;
      hide Sla.RpSla.UpRoutes;
      answers := Rebuild();
      RebuiltMirrors(statics, answers);
      specs, ok := [], true;
      if rip != null {
        specs := ExportSpecs();
        ok := TakeTurn(rip, statics, SlaUp(), answers, specs, now);
      }
    }
  }

  // ---- successive redistributions --------------------------------------

  lemma LoopExtends(config: Rip.Config, statics: StaticTable, slaUp: set<Sla.SlaValue>, learned: Rip.Table,
                   loops: seq<Loop>, answers: seq<Answers>, specs: seq<seq<Rip.RouteSpec>>, times: seq<real>,
                   answer: Answers, spec: seq<Rip.RouteSpec>, now: real, after: Loop)
    requires IsLoopRun(config, statics, slaUp, learned, loops, answers, specs, times)
    requires Redistributes(config, statics, slaUp, learned, answer, loops[|loops| - 1], spec, now, after)
    ensures IsLoopRun(config, statics, slaUp, learned,
                      loops + [after], answers + [answer], specs + [spec], times + [now])
  {
    hide Redistributes;
  }

  /** A control plane and its RIP instance, with a record of the redistributions
      made since nothing else changed. */
  class Turns {
    const cp: ControlPlane
    const rip: R.RipInterface
    ghost const statics: StaticTable
    ghost const slaUp: set<Sla.SlaValue>
    ghost const learned: Rip.Table
    ghost var loops: seq<Loop>
    ghost var answers: seq<Answers>
    ghost var specs: seq<seq<Rip.RouteSpec>>
    ghost var times: seq<real>

    /** The objects are as they were found, but for what a redistribution makes. */
    ghost predicate Still()
      reads cp, rip, (set k | k in rip.learned :: rip.learned[k])
      reads (set k | k in rip.rib :: rip.rib[k]), (set k | k in rip.redistributed :: rip.redistributed[k])
      reads cp.sla, if cp.sla != null then set k | k in cp.sla.rib :: cp.sla.rib[k] else {}
    {
      && cp.rip == rip && cp.Ready() && rip.config.Valid()
      && cp.statics == statics && cp.SlaUp() == slaUp && R.View(rip.learned) == learned
    }

    ghost predicate Valid()
      reads this, cp, rip, (set k | k in rip.learned :: rip.learned[k])
      reads (set k | k in rip.rib :: rip.rib[k]), (set k | k in rip.redistributed :: rip.redistributed[k])
      reads cp.sla, if cp.sla != null then set k | k in cp.sla.rib :: cp.sla.rib[k] else {}
    {
      && Still()
      && IsLoopRun(rip.config, statics, slaUp, learned, loops, answers, specs, times)
      && loops[|loops| - 1] == ControlPlane.LoopOf(rip)
      && forall answer :: answer in answers ==> cp.AtDistances(answer)
    }

    constructor (cp: ControlPlane, rip: R.RipInterface)
      requires cp.rip == rip && cp.Ready() && rip.config.Valid()
      ensures Valid() && this.cp == cp && this.rip == rip && answers == []
    {
      hide R.View;
      hide R.Filed;
      hide R.FiledAsShown;
      hide Sla.RpSla.Valid;
      hide Sla.RpSla.UpRoutes;
      hide Redistributes;
      this.cp, this.rip := cp, rip;
      statics, slaUp, learned := cp.statics, cp.SlaUp(), R.View(rip.learned);
      loops, answers, specs, times := [ControlPlane.LoopOf(rip)], [], [], [];
    }

    ghost method Record(answer: Answers, spec: seq<Rip.RouteSpec>, now: real)
      requires Still() && IsLoopRun(rip.config, statics, slaUp, learned, loops, answers, specs, times)
      requires cp.AtDistances(answer) && forall earlier :: earlier in answers ==> cp.AtDistances(earlier)
      requires Redistributes(rip.config, statics, slaUp, learned, answer,
                             loops[|loops| - 1], spec, now, ControlPlane.LoopOf(rip))
      modifies this
      ensures Valid() && times == old(times) + [now] && old(loops) < loops
    {
      hide Still;
      hide Redistributes;
      hide ControlPlane.LoopOf;
      hide ControlPlane.AtDistances;
      ghost var after := ControlPlane.LoopOf(rip);
      LoopExtends(rip.config, statics, slaUp, learned, loops, answers, specs, times, answer, spec, now, after);
      hide IsLoopRun;
      loops, answers, specs, times := loops + [after], answers + [answer], specs + [spec], times + [now];
    }

    /** One more redistribution: it ends unless something raises, and then the
        objects have taken one more turn of the loop. */
    method Turn(now: real) returns (ok: bool)
      requires Valid()
      modifies this, cp`rib, rip
      ensures ok <==> Importable(rip.config, statics, slaUp)
      ensures ok ==> Valid() && times == old(times) + [now] && old(loops) < loops
    {
      hide R.View;
      hide R.Filed;
      hide R.FiledAsShown;
      hide Sla.RpSla.Valid;
      hide Sla.RpSla.UpRoutes;
      hide Redistributes;
      hide IsLoopRun;
      hide Importable;
      hide Rebuilt;
      hide TrueAnswers;
      hide HoldsSla;
      hide HoldsRip;
      hide ControlPlane.AtDistances;
      hide Exported;
      hide Rip.RedistributeIn;
      var answer, spec;
      answer, spec, ok := cp.Redistribute(now);
      if ok {
        Record(answer, spec, now);
      }
    }
  }

  /** The two free choices do not matter, or they were made alike every time. */
  ghost predicate ChoicesHarmless(turns: Turns)
    reads turns
  {
    || (&& LearnedInvariant(turns.learned) && KeysFixed(turns.rip.config, turns.statics, turns.slaUp)
        && LeastFirm(GivenKeys(turns.rip.config, turns.statics, turns.slaUp), turns.learned))
    || exists best, pick :: SameChoices(turns.learned, best, pick, turns.loops, turns.answers, turns.times)
  }

  lemma RecordSettles(turns: Turns, t: nat)
    requires turns.Valid() && ChoicesHarmless(turns) && 1 <= t < |turns.loops|
    ensures |turns.loops| == |turns.answers| + 1 && SettledAt(turns.loops, turns.answers, t)
  {
    hide R.View;
    hide Redistributes;
    hide LeastFirm;
    hide KeysFixed;
    hide GivenKeys;
    hide LearnedInvariant;
    hide SameChoices;
    hide SettledAt;
    if best, pick :| SameChoices(turns.learned, best, pick, turns.loops, turns.answers, turns.times) {
      FixedChoicesSettle(turns.rip.config, turns.statics, turns.slaUp, turns.learned, best, pick,
                         turns.loops, turns.answers, turns.specs, turns.times, t);
    } else {
      LoopSettles(turns.rip.config, turns.statics, turns.slaUp, turns.learned,
                  turns.loops, turns.answers, turns.specs, turns.times, t);
    }
  }

  /** So the objects settle: after every turn but the first RIP holds the keys it
      held after the first, and its answers stay the same. */
  lemma ObjectsSettle(turns: Turns, t: nat)
    requires turns.Valid() && ChoicesHarmless(turns) && 1 <= t < |turns.loops|
    ensures |turns.loops| == |turns.answers| + 1 && SettledAt(turns.loops, turns.answers, t)
    ensures R.View(turns.rip.redistributed).Keys == turns.loops[1].redistributed.Keys
  {
    hide R.View;
    hide Redistributes;
    hide ChoicesHarmless;
    RecordSettles(turns, t);
    RecordSettles(turns, |turns.loops| - 1);
  }
}
