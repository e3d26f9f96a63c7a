/** The control plane's RIB as `ControlPlane.redistribute` rebuilds it, and what
    RIP takes back from it (src/control_plane/main.py:131-162,
    src/rp_rip1/main.py:469-490). */
module Redistribution {
  import opened Types
  import opened Addressing
  import opened Selection
  import opened Rip
  import Sla

  datatype CpKey = CpKey(prefix: Prefix, nextHop: Address, source: SourceCode)

  datatype CpRoute = CpRoute(key: CpKey, adminDistance: int, status: RouteStatus)

  type CpTable = map<CpKey, CpRoute>

  function PrefixOfCp(r: CpRoute): Prefix { r.key.prefix }

  function DistanceOf(r: CpRoute): int { r.adminDistance }

  /** Static routes by (prefix, next hop), with their admin distances. */
  type StaticTable = map<Key, int>

  /** `import_routes`: a set union, so what is there already stays. */
  function Import(t: CpTable, routes: CpTable): CpTable {
    routes + t
  }

  /** None of the three suppliers sends a status, so every route arrives UP. */
  function FromStatic(statics: StaticTable): CpTable {
    map k | k in statics ::
      CpKey(k.prefix, k.nextHop, STATIC) := CpRoute(CpKey(k.prefix, k.nextHop, STATIC), statics[k], UP)
  }

  /** A protocol's answer is filed by prefix: one route each. */
  ghost predicate ByPrefix<R>(best: map<Prefix, R>, prefix: R -> Prefix) {
    forall p :: p in best ==> prefix(best[p]) == p
  }

  function SlaKey(r: Sla.SlaValue): CpKey { CpKey(r.key.prefix, r.key.nextHop, SLA) }

  function RipKey(r: RouteValue): CpKey { CpKey(r.identity.prefix, r.nextHop, RIP1) }

  function FromSla(best: map<Prefix, Sla.SlaValue>, distance: int): CpTable
    requires ByPrefix(best, Sla.PrefixOf)
  {
    map p | p in best :: SlaKey(best[p]) := CpRoute(SlaKey(best[p]), distance, UP)
  }

  function FromRip(best: map<Prefix, RouteValue>, distance: int): CpTable
    requires ByPrefix(best, PrefixOf)
  {
    map p | p in best :: RipKey(best[p]) := CpRoute(RipKey(best[p]), distance, UP)
  }

  /** What the two protocols answered, and the distances they set. */
  datatype Answers = Answers(
    sla: map<Prefix, Sla.SlaValue>, slaDistance: int, rip: map<Prefix, RouteValue>, ripDistance: int)
  {
    ghost predicate Valid() {
      ByPrefix(sla, Sla.PrefixOf) && ByPrefix(rip, PrefixOf)
    }
  }

  /** The RIB after `redistribute`: built from nothing, so no earlier route
      survives unless it is supplied again. */
  function Rebuilt(statics: StaticTable, answers: Answers): CpTable
    requires answers.Valid()
  {
    Import(Import(Import(map[], FromStatic(statics)), FromSla(answers.sla, answers.slaDistance)),
           FromRip(answers.rip, answers.ripDistance))
  }

  // ---- conservation ----------------------------------------------------

  lemma {:induction false} KeySetSize<A, B>(s: set<A>, f: A -> B, image: set<B>)
    requires forall x, y :: x in s && y in s && f(x) == f(y) ==> x == y
    requires image == set x | x in s :: f(x)
    ensures |image| == |s|
    decreases |s|
  {
    if s != {} {
      var x :| x in s;
      var rest := set y | y in s - {x} :: f(y);
      KeySetSize(s - {x}, f, rest);
      assert image == rest + {f(x)};
    }
  }

  function StaticKey(k: Key): CpKey { CpKey(k.prefix, k.nextHop, STATIC) }

  lemma StaticSize(statics: StaticTable)
    ensures |FromStatic(statics)| == |statics|
  {
    var t := FromStatic(statics);
    KeySetSize(statics.Keys, StaticKey, t.Keys);
    assert |t.Keys| == |t| && |statics.Keys| == |statics|;
  }

  lemma SlaSize(best: map<Prefix, Sla.SlaValue>, distance: int)
    requires ByPrefix(best, Sla.PrefixOf)
    ensures |FromSla(best, distance)| == |best|
  {
    var t := FromSla(best, distance);
    var key := (p: Prefix) => if p in best then SlaKey(best[p]) else CpKey(p, 0, OSPF);
    KeySetSize(best.Keys, key, t.Keys);
    assert |t.Keys| == |t| && |best.Keys| == |best|;
  }

  lemma RipSize(best: map<Prefix, RouteValue>, distance: int)
    requires ByPrefix(best, PrefixOf)
    ensures |FromRip(best, distance)| == |best|
  {
    var t := FromRip(best, distance);
    var key := (p: Prefix) => if p in best then RipKey(best[p]) else CpKey(p, 0, OSPF);
    KeySetSize(best.Keys, key, t.Keys);
    assert |t.Keys| == |t| && |best.Keys| == |best|;
  }

  lemma DisjointImport(t: CpTable, routes: CpTable)
    requires t.Keys !! routes.Keys
    ensures |Import(t, routes)| == |t| + |routes|
    ensures Import(t, routes).Keys == t.Keys + routes.Keys
  {
    var u := Import(t, routes);
    assert u.Keys == t.Keys + routes.Keys;
    assert |u.Keys| == |u| && |t.Keys| == |t| && |routes.Keys| == |routes|;
  }

  lemma InStatic(statics: StaticTable, k: CpKey)
    ensures k in FromStatic(statics) <==> k.source == STATIC && Key(k.prefix, k.nextHop) in statics
    ensures k in FromStatic(statics) ==> FromStatic(statics)[k] == CpRoute(k, statics[Key(k.prefix, k.nextHop)], UP)
  {
    if k.source == STATIC && Key(k.prefix, k.nextHop) in statics {
      assert k == StaticKey(Key(k.prefix, k.nextHop));
    }
  }

  lemma InSla(best: map<Prefix, Sla.SlaValue>, distance: int, k: CpKey)
    requires ByPrefix(best, Sla.PrefixOf)
    ensures k in FromSla(best, distance) <==> k.prefix in best && k == SlaKey(best[k.prefix])
    ensures k in FromSla(best, distance) ==> FromSla(best, distance)[k] == CpRoute(k, distance, UP)
  {
  }

  lemma InRip(best: map<Prefix, RouteValue>, distance: int, k: CpKey)
    requires ByPrefix(best, PrefixOf)
    ensures k in FromRip(best, distance) <==> k.prefix in best && k == RipKey(best[k.prefix])
    ensures k in FromRip(best, distance) ==> FromRip(best, distance)[k] == CpRoute(k, distance, UP)
  {
  }

  /** What the rebuilt RIB holds, source by source. */
  ghost predicate Supplied(statics: StaticTable, answers: Answers, k: CpKey, r: CpRoute) {
    || (k.source == STATIC && Key(k.prefix, k.nextHop) in statics
        && r == CpRoute(k, statics[Key(k.prefix, k.nextHop)], UP))
    || (k.prefix in answers.sla && k == SlaKey(answers.sla[k.prefix]) && r == CpRoute(k, answers.slaDistance, UP))
    || (k.prefix in answers.rip && k == RipKey(answers.rip[k.prefix]) && r == CpRoute(k, answers.ripDistance, UP))
  }

  lemma InRebuilt(statics: StaticTable, answers: Answers, k: CpKey, r: CpRoute)
    requires answers.Valid()
    ensures k in Rebuilt(statics, answers) && Rebuilt(statics, answers)[k] == r <==> Supplied(statics, answers, k, r)
  {
    InStatic(statics, k);
    InSla(answers.sla, answers.slaDistance, k);
    InRip(answers.rip, answers.ripDistance, k);
    hide FromStatic;
    hide FromSla;
    hide FromRip;
  }

  lemma RebuiltKeyed(statics: StaticTable, answers: Answers)
    requires answers.Valid()
    ensures forall k :: k in Rebuilt(statics, answers) ==> Rebuilt(statics, answers)[k].key == k
  {
    hide Rebuilt;
    forall k | k in Rebuilt(statics, answers)
      ensures Rebuilt(statics, answers)[k].key == k
    {
      InRebuilt(statics, answers, k, Rebuilt(statics, answers)[k]);
    }
  }

  lemma SourcesApart(statics: StaticTable, answers: Answers, k: CpKey)
    requires answers.Valid()
    ensures k in FromStatic(statics) ==> k.source == STATIC
    ensures k in FromSla(answers.sla, answers.slaDistance) ==> k.source == SLA
    ensures k in FromRip(answers.rip, answers.ripDistance) ==> k.source == RIP1
  {
    InStatic(statics, k);
    InSla(answers.sla, answers.slaDistance, k);
    InRip(answers.rip, answers.ripDistance, k);
  }

  lemma ImportIntoEmpty(routes: CpTable)
    ensures Import(map[], routes) == routes
  {
    assert Import(map[], routes).Keys == routes.Keys;
  }

  lemma UnionSize(a: CpTable, b: CpTable, c: CpTable)
    requires a.Keys !! b.Keys && a.Keys + b.Keys !! c.Keys
    ensures |Import(Import(Import(map[], a), b), c)| == |a| + |b| + |c|
  {
    hide Import;
    ImportIntoEmpty(a);
    DisjointImport(a, b);
    DisjointImport(Import(a, b), c);
  }

  lemma PartsApart(statics: StaticTable, answers: Answers)
    requires answers.Valid()
    ensures var a, b := FromStatic(statics).Keys, FromSla(answers.sla, answers.slaDistance).Keys;
      a !! b && a + b !! FromRip(answers.rip, answers.ripDistance).Keys
  {
    hide FromStatic;
    hide FromSla;
    hide FromRip;
    forall k
      ensures k in FromStatic(statics) ==> k.source == STATIC
      ensures k in FromSla(answers.sla, answers.slaDistance) ==> k.source == SLA
      ensures k in FromRip(answers.rip, answers.ripDistance) ==> k.source == RIP1
    {
      SourcesApart(statics, answers, k);
    }
  }

  lemma RebuiltSize(statics: StaticTable, answers: Answers)
    requires answers.Valid()
    ensures |Rebuilt(statics, answers)| == |statics| + |answers.sla| + |answers.rip|
  {
    StaticSize(statics);
    SlaSize(answers.sla, answers.slaDistance);
    RipSize(answers.rip, answers.ripDistance);
    PartsApart(statics, answers);
    hide FromStatic;
    hide FromSla;
    hide FromRip;
    hide Import;
    UnionSize(FromStatic(statics), FromSla(answers.sla, answers.slaDistance),
              FromRip(answers.rip, answers.ripDistance));
  }

  lemma SuppliedOnce(statics: StaticTable, answers: Answers, k: CpKey, l: CpKey, r: CpRoute, q: CpRoute)
    requires Supplied(statics, answers, k, r) && Supplied(statics, answers, l, q)
    requires k.prefix == l.prefix && k.source == l.source
    ensures k.source == STATIC || k == l
  {
  }

  /** The rebuilt RIB is the disjoint union, by source, of the static table, the
      SLA answer and the RIP answer; nothing is lost and nothing is merged, and
      a prefix has at most one SLA and one RIP route. */
  lemma RebuiltConserves(statics: StaticTable, answers: Answers, k: CpKey, l: CpKey)
    requires answers.Valid()
    ensures var rib := Rebuilt(statics, answers);
      && |rib| == |statics| + |answers.sla| + |answers.rip|
      && (k in rib ==> Supplied(statics, answers, k, rib[k]))
      && (k in rib && l in rib && k.prefix == l.prefix && k.source == l.source ==> k.source == STATIC || k == l)
  {
    RebuiltSize(statics, answers);
    var rib := Rebuilt(statics, answers);
    hide Supplied;
    if k in rib { InRebuilt(statics, answers, k, rib[k]); }
    if l in rib { InRebuilt(statics, answers, l, rib[l]); }
    hide Rebuilt;
    if k in rib && l in rib && k.prefix == l.prefix && k.source == l.source {
      SuppliedOnce(statics, answers, k, l, rib[k], rib[l]);
    }
  }

  // ---- two-stage choice ------------------------------------------------

  /** Some supplier has a route for p at this admin distance. */
  ghost predicate Candidate(statics: StaticTable, slaUp: set<Sla.SlaValue>, ripLive: set<RouteValue>,
                            answers: Answers, p: Prefix, distance: int)
  {
    || (exists k :: k in statics && k.prefix == p && statics[k] == distance)
    || (distance == answers.slaDistance && exists r :: r in slaUp && Sla.PrefixOf(r) == p)
    || (distance == answers.ripDistance && exists r :: r in ripLive && PrefixOf(r) == p)
  }

  ghost predicate TrueAnswers(slaUp: set<Sla.SlaValue>, ripLive: set<RouteValue>, answers: Answers) {
    && IsSelection(slaUp, Sla.PrefixOf, Sla.ScoreOf, answers.sla)
    && IsSelection(ripLive, PrefixOf, MetricOf, answers.rip)
  }

  lemma TrueAnswersValid(slaUp: set<Sla.SlaValue>, ripLive: set<RouteValue>, answers: Answers)
    requires TrueAnswers(slaUp, ripLive, answers)
    ensures answers.Valid()
  {
  }

  /** The routes `export_routes` chooses among. */
  ghost function UpRoutes(rib: CpTable): set<CpRoute> {
    set k | k in rib && rib[k].status == UP :: rib[k]
  }

  /** Where a rebuilt route comes from. */
  lemma RebuiltMembers(statics: StaticTable, slaUp: set<Sla.SlaValue>, ripLive: set<RouteValue>, answers: Answers,
                       k: CpKey)
    requires TrueAnswers(slaUp, ripLive, answers) && answers.Valid() && k in Rebuilt(statics, answers)
    ensures var r := Rebuilt(statics, answers)[k];
      && r.key == k && r.status == UP
      && Candidate(statics, slaUp, ripLive, answers, k.prefix, r.adminDistance)
      && (k.source == SLA ==> k.prefix in answers.sla && k == SlaKey(answers.sla[k.prefix]))
      && (k.source == RIP1 ==> k.prefix in answers.rip && k == RipKey(answers.rip[k.prefix]))
  {
    var r := Rebuilt(statics, answers)[k];
    InRebuilt(statics, answers, k, r);
    hide Rebuilt;
    if k.source == SLA {
      assert answers.sla[k.prefix] in slaUp;
    } else if k.source == RIP1 {
      assert answers.rip[k.prefix] in ripLive;
    }
  }

  /** Every candidate has a rebuilt route of its prefix and distance. */
  lemma CandidateRebuilt(statics: StaticTable, slaUp: set<Sla.SlaValue>, ripLive: set<RouteValue>, answers: Answers,
                         p: Prefix, distance: int) returns (k: CpKey)
    requires TrueAnswers(slaUp, ripLive, answers) && answers.Valid()
    requires Candidate(statics, slaUp, ripLive, answers, p, distance)
    ensures k in Rebuilt(statics, answers) && k.prefix == p && Rebuilt(statics, answers)[k].adminDistance == distance
    ensures Rebuilt(statics, answers)[k] in UpRoutes(Rebuilt(statics, answers))
  {
    hide Rebuilt;
    if s :| s in statics && s.prefix == p && statics[s] == distance {
      k := StaticKey(s);
    } else if r :| distance == answers.slaDistance && r in slaUp && Sla.PrefixOf(r) == p {
      k := SlaKey(answers.sla[p]);
    } else {
      var r :| r in ripLive && PrefixOf(r) == p;
      k := RipKey(answers.rip[p]);
    }
    InRebuilt(statics, answers, k, CpRoute(k, distance, UP));
  }

  /** Choosing first inside each protocol and then by admin distance is choosing
      once among all candidates: a prefix is exported exactly when some candidate
      has it, at the least distance of all of them; a RIP choice has the least
      metric of the live routes, an SLA choice the highest priority of the UP
      ones. */
  lemma TwoStagesAreOne(statics: StaticTable, slaUp: set<Sla.SlaValue>, ripLive: set<RouteValue>, answers: Answers,
                        best: map<Prefix, CpRoute>, p: Prefix)
    requires TrueAnswers(slaUp, ripLive, answers) && answers.Valid()
    requires IsSelection(UpRoutes(Rebuilt(statics, answers)), PrefixOfCp, DistanceOf, best)
    ensures p in best <==> exists d :: Candidate(statics, slaUp, ripLive, answers, p, d)
    ensures p in best ==>
              && Candidate(statics, slaUp, ripLive, answers, p, best[p].adminDistance)
              && (forall d :: Candidate(statics, slaUp, ripLive, answers, p, d) ==> best[p].adminDistance <= d)
    ensures p in best && best[p].key.source == RIP1 ==>
              exists r :: r in ripLive && best[p].key == RipKey(r) && Unbeaten(ripLive, PrefixOf, MetricOf, r)
    ensures p in best && best[p].key.source == SLA ==>
              exists r :: r in slaUp && best[p].key == SlaKey(r) && Unbeaten(slaUp, Sla.PrefixOf, Sla.ScoreOf, r)
  {
    hide Candidate;
    var rib := Rebuilt(statics, answers);
    if p in best {
      assert best[p] in UpRoutes(rib);
      var k :| k in rib && rib[k] == best[p];
      RebuiltMembers(statics, slaUp, ripLive, answers, k);
      hide Rebuilt;
      if k.source == RIP1 { assert answers.rip[p] in ripLive; }
      if k.source == SLA { assert answers.sla[p] in slaUp; }
    }
    hide Rebuilt;
    forall d | Candidate(statics, slaUp, ripLive, answers, p, d)
      ensures p in best && best[p].adminDistance <= d
    {
      var k := CandidateRebuilt(statics, slaUp, ripLive, answers, p, d);
      RebuiltMembers(statics, slaUp, ripLive, answers, k);
      assert PrefixOfCp(rib[k]) == p && DistanceOf(rib[k]) == d;
    }
  }

  // ---- what RIP takes back ---------------------------------------------

  /** The specs RIP is sent, in some order: everything in the rebuilt RIB. */
  ghost predicate Exported(rib: CpTable, specs: seq<RouteSpec>) {
    && (forall k :: k in rib ==> RouteSpec(k.prefix, k.nextHop, k.source, None) in specs)
    && (forall x :: x in specs ==> x.metric == None && CpKey(x.prefix, x.nextHop, x.source) in rib)
  }

  /** The redistributed table: one route for each key an enabled spec has. */
  ghost predicate IsImport(config: Config, specs: seq<RouteSpec>, table: Table, now: real) {
    && (forall x :: x in specs && x.source in config.enabled ==>
          Imported(config, x, now).Ok? && Imported(config, x, now).value.identity in table)
    && (forall k :: k in table ==>
          exists x :: && x in specs && x.source in config.enabled
                      && Imported(config, x, now) == Ok(table[k]) && table[k].identity == k)
  }

  lemma {:induction false} RedistributeInIsImport(config: Config, specs: seq<RouteSpec>, now: real)
    requires RedistributeIn(config, specs, now).1
    ensures IsImport(config, specs, RedistributeIn(config, specs, now).0, now)
  {
    hide Imported;
    if specs != [] {
      var init, last := specs[..|specs| - 1], specs[|specs| - 1];
      assert specs == init + [last];
      RedistributeInIsImport(config, init, now);
    }
  }

  /** What the control plane sends carries no metric, so a redistributed route has
      the metric configured for its source, capped at 16. */
  lemma RedistributedMetric(config: Config, rib: CpTable, specs: seq<RouteSpec>, table: Table, now: real, k: Key)
    requires config.Valid() && Exported(rib, specs) && IsImport(config, specs, table, now) && k in table
    ensures || (table[k].source == STATIC && table[k].metric == Min(config.staticMetric, MAX_METRIC))
            || (table[k].source == SLA && table[k].metric == Min(config.slaMetric, MAX_METRIC))
    ensures table[k].nextHop == k.nextHop && Classful(k.prefix) == Ok(k.prefix)
    ensures exists c :: && c in rib && c.source == table[k].source && c.nextHop == k.nextHop
                        && Classful(c.prefix) == Ok(k.prefix)
  {
    var x :| && x in specs && x.source in config.enabled
             && Imported(config, x, now) == Ok(table[k]) && table[k].identity == k;
    ClassfulIdempotent(x.prefix);
    hide Classful;
    assert CpKey(x.prefix, x.nextHop, x.source) in rib;
  }
}
