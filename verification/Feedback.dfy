/** The loop the control plane closes with RIP: RIP answers from its RIB, the
    control plane's RIB is rebuilt from the answers, RIP takes the enabled routes
    back in and rebuilds its own (src/control_plane/main.py:131-162,
    src/rp_rip1/main.py:445-499).  When does it settle? */
module Feedback {
  import opened Types
  import opened Addressing
  import opened Selection
  import opened Rip
  import opened RipProperties
  import opened Redistribution
  import Sla

  datatype Loop = Loop(redistributed: Table, rib: Table)

  /** One `redistribute`. */
  ghost predicate Redistributes(config: Config, statics: StaticTable, slaUp: set<Sla.SlaValue>, learned: Table,
                                answers: Answers, before: Loop, specs: seq<RouteSpec>, now: real, after: Loop)
  {
    && answers.Valid()
    && TrueAnswers(slaUp, LiveRoutes(before.rib), answers)
    && Exported(Rebuilt(statics, answers), specs)
    && IsImport(config, specs, after.redistributed, now)
    && IsRefresh(after.redistributed, learned, after.rib, now)
  }

  lemma TurnAnswered(config: Config, statics: StaticTable, slaUp: set<Sla.SlaValue>, learned: Table, answers: Answers,
                     before: Loop, specs: seq<RouteSpec>, now: real, after: Loop)
    requires Redistributes(config, statics, slaUp, learned, answers, before, specs, now, after)
    ensures IsRedistributeOut(before.rib, answers.rip)
  {
    hide IsSelection;
    hide Rebuilt;
    hide Exported;
    hide IsImport;
    hide IsRefresh;
  }

  lemma TurnLeaves(config: Config, statics: StaticTable, slaUp: set<Sla.SlaValue>, learned: Table, answers: Answers,
                   before: Loop, specs: seq<RouteSpec>, now: real, after: Loop)
    requires Redistributes(config, statics, slaUp, learned, answers, before, specs, now, after)
    ensures IsRefresh(after.redistributed, learned, after.rib, now)
  {
    hide IsSelection;
    hide Rebuilt;
    hide Exported;
    hide IsImport;
    hide IsRefresh;
  }

  /** Successive redistributions while the static table, the SLA routes that are
      UP and the learned table stay the same.  The answers may differ. */
  ghost predicate IsLoopRun(config: Config, statics: StaticTable, slaUp: set<Sla.SlaValue>, learned: Table,
                            loops: seq<Loop>, answers: seq<Answers>, specs: seq<seq<RouteSpec>>, times: seq<real>)
  {
    && |loops| == |answers| + 1 && |answers| == |specs| == |times|
    && forall t :: 0 <= t < |answers| ==>
         Redistributes(config, statics, slaUp, learned, answers[t], loops[t], specs[t], times[t], loops[t + 1])
  }

  // ---- the keys RIP is given -------------------------------------------

  /** An SLA route that may be the answer for its prefix. */
  ghost predicate Top(slaUp: set<Sla.SlaValue>, r: Sla.SlaValue) {
    r in slaUp && Unbeaten(slaUp, Sla.PrefixOf, Sla.ScoreOf, r)
  }

  /** RIP files a route for `prefix` through `nextHop` under k. */
  predicate ImportsAs(prefix: Prefix, nextHop: Address, k: Key) {
    Classful(prefix) == Ok(k.prefix) && nextHop == k.nextHop
  }

  ghost predicate StaticGives(config: Config, statics: StaticTable, k: Key) {
    STATIC in config.enabled && exists s :: s in statics && ImportsAs(s.prefix, s.nextHop, k)
  }

  /** Some SLA answer brings k... */
  ghost predicate SlaMayGive(config: Config, slaUp: set<Sla.SlaValue>, k: Key) {
    SLA in config.enabled && exists r :: Top(slaUp, r) && ImportsAs(r.key.prefix, r.key.nextHop, k)
  }

  /** ... and this one does. */
  ghost predicate AnswerGives(config: Config, best: map<Prefix, Sla.SlaValue>, k: Key) {
    SLA in config.enabled && exists p :: p in best && ImportsAs(best[p].key.prefix, best[p].key.nextHop, k)
  }

  /** Every SLA answer brings k: all possible answers for some prefix do. */
  ghost predicate SlaMustGive(slaUp: set<Sla.SlaValue>, k: Key) {
    exists r :: Top(slaUp, r) && OnlyGives(slaUp, r.key.prefix, k)
  }

  ghost predicate OnlyGives(slaUp: set<Sla.SlaValue>, p: Prefix, k: Key) {
    forall r :: Top(slaUp, r) && r.key.prefix == p ==> ImportsAs(p, r.key.nextHop, k)
  }

  /** What RIP is given does not depend on which of several tied SLA routes is
      the answer. */
  ghost predicate KeysFixed(config: Config, statics: StaticTable, slaUp: set<Sla.SlaValue>) {
    forall k :: SlaMayGive(config, slaUp, k) ==> StaticGives(config, statics, k) || SlaMustGive(slaUp, k)
  }

  /** The keys RIP may be given. */
  ghost function GivenKeys(config: Config, statics: StaticTable, slaUp: set<Sla.SlaValue>): iset<Key> {
    iset k | StaticGives(config, statics, k) || SlaMayGive(config, slaUp, k)
  }

  /** What is taken back is what the static table and the SLA answer bring. */
  lemma TurnKeys(config: Config, statics: StaticTable, slaUp: set<Sla.SlaValue>, learned: Table, answers: Answers,
                 before: Loop, specs: seq<RouteSpec>, now: real, after: Loop, k: Key)
    requires config.Valid() && Redistributes(config, statics, slaUp, learned, answers, before, specs, now, after)
    ensures k in after.redistributed <==> StaticGives(config, statics, k) || AnswerGives(config, answers.sla, k)
    ensures k in after.redistributed ==> after.redistributed[k].source in config.enabled
  {
    hide Rebuilt;
    hide TrueAnswers;
    hide IsRefresh;
    hide Classful;
    if k in after.redistributed {
      TakenIsGiven(config, statics, answers, specs, after.redistributed, now, k);
    }
    if StaticGives(config, statics, k) {
      var s :| s in statics && ImportsAs(s.prefix, s.nextHop, k);
      GivenIsTaken(config, statics, answers, specs, after.redistributed, now, StaticKey(s), statics[s], k);
    }
    if AnswerGives(config, answers.sla, k) {
      var p :| p in answers.sla && ImportsAs(answers.sla[p].key.prefix, answers.sla[p].key.nextHop, k);
      GivenIsTaken(config, statics, answers, specs, after.redistributed, now,
                   SlaKey(answers.sla[p]), answers.slaDistance, k);
    }
  }

  lemma TakenIsGiven(config: Config, statics: StaticTable, answers: Answers, specs: seq<RouteSpec>, table: Table,
                     now: real, k: Key)
    requires config.Valid() && answers.Valid() && Exported(Rebuilt(statics, answers), specs)
    requires IsImport(config, specs, table, now) && k in table
    ensures StaticGives(config, statics, k) || AnswerGives(config, answers.sla, k)
    ensures table[k].source in config.enabled
  {
    hide Rebuilt;
    hide Classful;
    var x :| && x in specs && x.source in config.enabled
             && Imported(config, x, now) == Ok(table[k]) && table[k].identity == k;
    var c := CpKey(x.prefix, x.nextHop, x.source);
    InRebuilt(statics, answers, c, Rebuilt(statics, answers)[c]);
    assert ImportsAs(x.prefix, x.nextHop, k);
    if x.source == STATIC {
      assert Key(x.prefix, x.nextHop) in statics;
    }
  }

  lemma GivenIsTaken(config: Config, statics: StaticTable, answers: Answers, specs: seq<RouteSpec>, table: Table,
                     now: real, c: CpKey, distance: int, k: Key)
    requires answers.Valid() && Exported(Rebuilt(statics, answers), specs) && IsImport(config, specs, table, now)
    requires Supplied(statics, answers, c, CpRoute(c, distance, UP)) && c.source in config.enabled
    requires ImportsAs(c.prefix, c.nextHop, k)
    ensures k in table
  {
    InRebuilt(statics, answers, c, CpRoute(c, distance, UP));
    hide Rebuilt;
    hide Supplied;
    hide Classful;
    var x := RouteSpec(c.prefix, c.nextHop, c.source, None);
    assert x in specs;
    assert Imported(config, x, now).value.identity == k;
  }

  /** With fixed keys it makes no difference what the SLA answer is. */
  lemma FixedKeys(config: Config, statics: StaticTable, slaUp: set<Sla.SlaValue>, best: map<Prefix, Sla.SlaValue>,
                  k: Key)
    requires KeysFixed(config, statics, slaUp) && IsSelection(slaUp, Sla.PrefixOf, Sla.ScoreOf, best)
    ensures StaticGives(config, statics, k) || AnswerGives(config, best, k) <==> k in GivenKeys(config, statics, slaUp)
  {
    hide Classful;
    hide StaticGives;
    if AnswerGives(config, best, k) {
      var p :| p in best && ImportsAs(best[p].key.prefix, best[p].key.nextHop, k);
      assert Top(slaUp, best[p]);
    }
    if SlaMayGive(config, slaUp, k) && !StaticGives(config, statics, k) {
      var r :| Top(slaUp, r) && OnlyGives(slaUp, r.key.prefix, k);
      var p := Sla.PrefixOf(r);
      assert Top(slaUp, best[p]) && ImportsAs(p, best[p].key.nextHop, k);
    }
  }

  // ---- what raises -----------------------------------------------------

  /** Nothing RIP would take back is of class D or E, so nothing raises. */
  ghost predicate Importable(config: Config, statics: StaticTable, slaUp: set<Sla.SlaValue>) {
    && (STATIC in config.enabled ==> forall s :: s in statics ==> Classful(s.prefix).Ok?)
    && (SLA in config.enabled ==> forall r :: r in slaUp ==> Classful(r.key.prefix).Ok?)
  }

  /** Otherwise no redistribution ends. */
  lemma TakenIsImportable(config: Config, statics: StaticTable, slaUp: set<Sla.SlaValue>, answers: Answers,
                          specs: seq<RouteSpec>, table: Table, now: real)
    requires answers.Valid() && IsSelection(slaUp, Sla.PrefixOf, Sla.ScoreOf, answers.sla)
    requires Exported(Rebuilt(statics, answers), specs) && IsImport(config, specs, table, now)
    ensures Importable(config, statics, slaUp)
  {
    hide Rebuilt;
    hide Classful;
    if STATIC in config.enabled {
      forall s | s in statics
        ensures Classful(s.prefix).Ok?
      {
        SuppliedIsImportable(config, statics, answers, specs, table, now, StaticKey(s), statics[s]);
      }
    }
    if SLA in config.enabled {
      forall r | r in slaUp
        ensures Classful(r.key.prefix).Ok?
      {
        var p := Sla.PrefixOf(r);
        assert p in answers.sla;
        SuppliedIsImportable(config, statics, answers, specs, table, now, SlaKey(answers.sla[p]), answers.slaDistance);
      }
    }
  }

  lemma TurnIsImportable(config: Config, statics: StaticTable, slaUp: set<Sla.SlaValue>, learned: Table,
                         answers: Answers, before: Loop, specs: seq<RouteSpec>, now: real, after: Loop)
    requires Redistributes(config, statics, slaUp, learned, answers, before, specs, now, after)
    ensures Importable(config, statics, slaUp)
  {
    hide Importable;
    hide IsSelection;
    hide Exported;
    hide IsImport;
    hide IsRefresh;
    hide Rebuilt;
    TakenIsImportable(config, statics, slaUp, answers, specs, after.redistributed, now);
  }

  lemma SuppliedIsImportable(config: Config, statics: StaticTable, answers: Answers, specs: seq<RouteSpec>,
                             table: Table, now: real, c: CpKey, distance: int)
    requires answers.Valid() && Exported(Rebuilt(statics, answers), specs) && IsImport(config, specs, table, now)
    requires Supplied(statics, answers, c, CpRoute(c, distance, UP)) && c.source in config.enabled
    ensures Classful(c.prefix).Ok?
  {
    InRebuilt(statics, answers, c, CpRoute(c, distance, UP));
    hide Rebuilt;
    hide Supplied;
    hide Classful;
    var x := RouteSpec(c.prefix, c.nextHop, c.source, None);
    assert x in specs && Imported(config, x, now).Ok?;
  }

  /** A redistribute-in whose enabled specs are all of class A to C does not
      raise. */
  lemma {:induction false} NothingRaises(config: Config, specs: seq<RouteSpec>, now: real)
    requires forall x :: x in specs && x.source in config.enabled ==> Classful(x.prefix).Ok?
    ensures RedistributeIn(config, specs, now).1
  {
    hide Classful;
    if specs != [] {
      var init, last := specs[..|specs| - 1], specs[|specs| - 1];
      assert specs == init + [last];
      NothingRaises(config, init, now);
    }
  }

  lemma SpecIsImportable(config: Config, statics: StaticTable, slaUp: set<Sla.SlaValue>, answers: Answers,
                         specs: seq<RouteSpec>, x: RouteSpec)
    requires config.Valid() && Importable(config, statics, slaUp)
    requires IsSelection(slaUp, Sla.PrefixOf, Sla.ScoreOf, answers.sla) && answers.Valid()
    requires Exported(Rebuilt(statics, answers), specs) && x in specs && x.source in config.enabled
    ensures Classful(x.prefix).Ok?
  {
    hide Rebuilt;
    hide Classful;
    var c := CpKey(x.prefix, x.nextHop, x.source);
    InRebuilt(statics, answers, c, Rebuilt(statics, answers)[c]);
    if x.source == STATIC {
      assert Key(x.prefix, x.nextHop) in statics;
    } else {
      assert answers.sla[x.prefix] in slaUp;
    }
  }

  // ---- what RIP gives out ----------------------------------------------

  /** A live learned route whose shown key RIP is not given. */
  ghost predicate Visible(hidden: iset<Key>, learned: Table, l: Key, p: Prefix) {
    l in learned && l.prefix == p && learned[l].Shown() !in hidden && learned[l].metric < MAX_METRIC
  }

  /** Every learned route that shows what l shows has l's metric, so it does not
      matter which of them a refresh picks. */
  ghost predicate Firm(learned: Table, l: Key)
    requires l in learned
  {
    forall g :: g in learned && learned[g].Shown() == learned[l].Shown() ==> learned[g].metric == learned[l].metric
  }

  /** For each prefix some best visible route is firm. */
  ghost predicate LeastFirm(hidden: iset<Key>, learned: Table) {
    forall l, p {:trigger FirmAround(hidden, learned, l, p)} ::
      Visible(hidden, learned, l, p) ==> FirmAround(hidden, learned, l, p)
  }

  ghost predicate FirmAround(hidden: iset<Key>, learned: Table, l: Key, p: Prefix)
    requires Visible(hidden, learned, l, p)
  {
    exists f :: Visible(hidden, learned, f, p) && learned[f].metric <= learned[l].metric && Firm(learned, f)
  }

  /** Learned routes that show one key, if there are several, have one metric. */
  ghost predicate ShownAgree(learned: Table) {
    forall k, l :: k in learned && l in learned && learned[k].Shown() == learned[l].Shown() ==>
      learned[k].metric == learned[l].metric
  }

  lemma AgreeingIsFirm(hidden: iset<Key>, learned: Table)
    requires ShownAgree(learned)
    ensures LeastFirm(hidden, learned)
  {
    forall l, p | Visible(hidden, learned, l, p)
      ensures FirmAround(hidden, learned, l, p)
    {
      assert Firm(learned, l);
    }
  }

  ghost predicate Hides(redistributed: Table, hidden: iset<Key>, config: Config) {
    forall k ::
      && (k in redistributed <==> k in hidden)
      && (k in redistributed ==> redistributed[k].source in config.enabled)
  }

  lemma AnsweredIsVisible(config: Config, redistributed: Table, hidden: iset<Key>, learned: Table, rib: Table,
                          now: real, best: map<Prefix, RouteValue>, p: Prefix) returns (l: Key)
    requires config.Valid() && LearnedInvariant(learned) && Hides(redistributed, hidden, config)
    requires IsRefresh(redistributed, learned, rib, now) && IsRedistributeOut(rib, best) && p in best
    ensures Visible(hidden, learned, l, p) && learned[l].metric == best[p].metric
  {
    assert best[p] in LiveRoutes(rib) && PrefixOf(best[p]) == p;
    hide IsSelection;
    var k :| k in rib && Live(rib[k]) && rib[k] == best[p];
    assert k !in redistributed;
    l :| l in learned && learned[l].Shown() == k && rib[k] == Copy(learned[l], now);
  }

  lemma FirmIsAnswered(config: Config, redistributed: Table, hidden: iset<Key>, learned: Table, rib: Table, now: real,
                       best: map<Prefix, RouteValue>, f: Key, p: Prefix)
    requires LearnedInvariant(learned) && Hides(redistributed, hidden, config)
    requires Visible(hidden, learned, f, p) && Firm(learned, f)
    requires IsRefresh(redistributed, learned, rib, now) && IsRedistributeOut(rib, best)
    ensures p in best && best[p].metric <= learned[f].metric
  {
    assert learned[f].Shown() !in redistributed;
    hide Hides;
    var k := learned[f].Shown();
    var g :| g in learned && learned[g].Shown() == k && rib[k] == Copy(learned[g], now);
    assert rib[k] in LiveRoutes(rib) && PrefixOf(rib[k]) == p && MetricOf(rib[k]) == learned[f].metric;
  }

  /** RIP's answer, told from the tables the RIB was built from. */
  lemma AnswerFromTables(config: Config, redistributed: Table, hidden: iset<Key>, learned: Table, rib: Table, now: real,
                         best: map<Prefix, RouteValue>, p: Prefix)
    requires config.Valid() && LearnedInvariant(learned) && LeastFirm(hidden, learned)
    requires Hides(redistributed, hidden, config)
    requires IsRefresh(redistributed, learned, rib, now) && IsRedistributeOut(rib, best)
    ensures p in best ==> exists l :: Visible(hidden, learned, l, p) && learned[l].metric == best[p].metric
    ensures forall l :: Visible(hidden, learned, l, p) ==> p in best && best[p].metric <= learned[l].metric
  {
    if p in best {
      var l := AnsweredIsVisible(config, redistributed, hidden, learned, rib, now, best, p);
    }
    hide IsRedistributeOut;
    hide IsRefresh;
    hide LearnedInvariant;
    hide Firm;
    hide Visible;
    forall l | Visible(hidden, learned, l, p)
      ensures p in best && best[p].metric <= learned[l].metric
    {
      assert FirmAround(hidden, learned, l, p);
      var f :| Visible(hidden, learned, f, p) && learned[f].metric <= learned[l].metric && Firm(learned, f);
      FirmIsAnswered(config, redistributed, hidden, learned, rib, now, best, f, p);
    }
  }

  /** RIP gives out the same whatever the refreshes and the answers were. */
  ghost predicate SameAnswers(x: map<Prefix, RouteValue>, y: map<Prefix, RouteValue>) {
    x.Keys == y.Keys && forall p :: p in x && p in y ==> x[p].metric == y[p].metric
  }

  lemma SameHiddenSameAnswer(config: Config, hidden: iset<Key>, learned: Table, a: Table, b: Table, x: Table, y: Table,
                             u: real, v: real, xs: map<Prefix, RouteValue>, ys: map<Prefix, RouteValue>)
    requires config.Valid() && LearnedInvariant(learned) && LeastFirm(hidden, learned)
    requires Hides(a, hidden, config) && Hides(b, hidden, config)
    requires IsRefresh(a, learned, x, u) && IsRedistributeOut(x, xs)
    requires IsRefresh(b, learned, y, v) && IsRedistributeOut(y, ys)
    ensures SameAnswers(xs, ys)
  {
    hide LearnedInvariant;
    hide LeastFirm;
    hide Hides;
    hide IsRefresh;
    hide IsRedistributeOut;
    forall p
      ensures p in xs <==> p in ys
      ensures p in xs && p in ys ==> xs[p].metric == ys[p].metric
    {
      AnswerFromTables(config, a, hidden, learned, x, u, xs, p);
      AnswerFromTables(config, b, hidden, learned, y, v, ys, p);
    }
  }

  // ---- settling --------------------------------------------------------

  ghost predicate SettledAt(loops: seq<Loop>, answers: seq<Answers>, t: nat)
    requires |loops| == |answers| + 1 && 1 <= t < |loops|
  {
    && loops[t].redistributed.Keys == loops[1].redistributed.Keys
    && (t < |answers| ==> SameAnswers(answers[t].rip, answers[1].rip))
  }

  lemma TurnGives(config: Config, statics: StaticTable, slaUp: set<Sla.SlaValue>, learned: Table, answers: Answers,
                  before: Loop, specs: seq<RouteSpec>, now: real, after: Loop, k: Key)
    requires config.Valid() && KeysFixed(config, statics, slaUp)
    requires Redistributes(config, statics, slaUp, learned, answers, before, specs, now, after)
    ensures k in after.redistributed <==> k in GivenKeys(config, statics, slaUp)
    ensures k in after.redistributed ==> after.redistributed[k].source in config.enabled
  {
    hide KeysFixed;
    assert IsSelection(slaUp, Sla.PrefixOf, Sla.ScoreOf, answers.sla) by {
      hide IsSelection;
      hide Rebuilt;
      hide IsImport;
      hide IsRefresh;
    }
    hide IsSelection;
    hide Redistributes;
    hide StaticGives;
    hide AnswerGives;
    hide SlaMayGive;
    TurnKeys(config, statics, slaUp, learned, answers, before, specs, now, after, k);
    FixedKeys(config, statics, slaUp, answers.sla, k);
  }

  lemma TurnHides(config: Config, statics: StaticTable, slaUp: set<Sla.SlaValue>, learned: Table, answers: Answers,
                  before: Loop, specs: seq<RouteSpec>, now: real, after: Loop)
    requires config.Valid() && KeysFixed(config, statics, slaUp)
    requires Redistributes(config, statics, slaUp, learned, answers, before, specs, now, after)
    ensures Hides(after.redistributed, GivenKeys(config, statics, slaUp), config)
  {
    hide KeysFixed;
    hide Redistributes;
    hide GivenKeys;
    forall k
      ensures k in after.redistributed <==> k in GivenKeys(config, statics, slaUp)
      ensures k in after.redistributed ==> after.redistributed[k].source in config.enabled
    {
      TurnGives(config, statics, slaUp, learned, answers, before, specs, now, after, k);
    }
  }

  lemma TurnAt(config: Config, statics: StaticTable, slaUp: set<Sla.SlaValue>, learned: Table, loops: seq<Loop>,
             answers: seq<Answers>, specs: seq<seq<RouteSpec>>, times: seq<real>, t: nat)
    requires IsLoopRun(config, statics, slaUp, learned, loops, answers, specs, times) && t < |answers|
    ensures Redistributes(config, statics, slaUp, learned, answers[t], loops[t], specs[t], times[t], loops[t + 1])
  {
    hide Redistributes;
  }

  /** The loop settles: one redistribution fixes the keys RIP holds, and from the
      second on RIP gives the same prefixes out at the same metrics -- although
      redistributed keys hide learned routes, although tied SLA routes may answer
      in turn, and although a refresh picks among learned routes that show one
      key. */
  lemma LoopSettles(config: Config, statics: StaticTable, slaUp: set<Sla.SlaValue>, learned: Table, loops: seq<Loop>,
                    answers: seq<Answers>, specs: seq<seq<RouteSpec>>, times: seq<real>, t: nat)
    requires config.Valid() && IsLoopRun(config, statics, slaUp, learned, loops, answers, specs, times)
    requires LearnedInvariant(learned) && KeysFixed(config, statics, slaUp)
    requires LeastFirm(GivenKeys(config, statics, slaUp), learned)
    requires 1 <= t < |loops|
    ensures SettledAt(loops, answers, t)
  {
    hide Redistributes;
    hide KeysFixed;
    hide LeastFirm;
    hide GivenKeys;
    var hidden := GivenKeys(config, statics, slaUp);
    TurnAt(config, statics, slaUp, learned, loops, answers, specs, times, t - 1);
    TurnAt(config, statics, slaUp, learned, loops, answers, specs, times, 0);
    TurnHides(config, statics, slaUp, learned, answers[t - 1], loops[t - 1], specs[t - 1], times[t - 1], loops[t]);
    TurnHides(config, statics, slaUp, learned, answers[0], loops[0], specs[0], times[0], loops[1]);
    assert loops[t].redistributed.Keys == loops[1].redistributed.Keys by {
      forall k
        ensures k in loops[t].redistributed <==> k in loops[1].redistributed
      {
        assert k in loops[t].redistributed <==> k in hidden;
        assert k in loops[1].redistributed <==> k in hidden;
      }
    }
    hide Hides;
    if t < |answers| {
      LoopTables(config, statics, slaUp, learned, loops, answers, specs, times, t);
      LoopTables(config, statics, slaUp, learned, loops, answers, specs, times, 1);
      SameHiddenSameAnswer(config, hidden, learned, loops[t].redistributed, loops[1].redistributed,
                           loops[t].rib, loops[1].rib, times[t - 1], times[0], answers[t].rip, answers[1].rip);
    }
  }

  lemma LoopTables(config: Config, statics: StaticTable, slaUp: set<Sla.SlaValue>, learned: Table, loops: seq<Loop>,
                   answers: seq<Answers>, specs: seq<seq<RouteSpec>>, times: seq<real>, t: nat)
    requires IsLoopRun(config, statics, slaUp, learned, loops, answers, specs, times) && 1 <= t < |answers|
    ensures IsRefresh(loops[t].redistributed, learned, loops[t].rib, times[t - 1])
    ensures IsRedistributeOut(loops[t].rib, answers[t].rip)
  {
    hide Rebuilt;
    hide Exported;
    hide IsRefresh;
    hide IsImport;
    hide IsSelection;
    TurnAt(config, statics, slaUp, learned, loops, answers, specs, times, t - 1);
    TurnAt(config, statics, slaUp, learned, loops, answers, specs, times, t);
  }

  // ---- choices made alike every time -----------------------------------

  /** Each turn gets the same SLA answer and each refresh picks the same learned
      routes, as when sets that nobody touches are always met in the same
      order. */
  ghost predicate SameChoices(learned: Table, best: map<Prefix, Sla.SlaValue>, pick: map<Key, Key>, loops: seq<Loop>,
                              answers: seq<Answers>, times: seq<real>)
  {
    && Picks(learned, pick) && |loops| == |answers| + 1 && |times| == |answers|
    && forall t :: 0 <= t < |answers| ==>
         && answers[t].sla == best
         && loops[t + 1].rib == PickedRib(loops[t + 1].redistributed, learned, pick, times[t])
  }

  ghost predicate OnlyEnabled(config: Config, redistributed: Table) {
    forall k :: k in redistributed ==> redistributed[k].source in config.enabled
  }

  lemma TurnRefreshed(config: Config, statics: StaticTable, slaUp: set<Sla.SlaValue>, learned: Table, answers: Answers,
                      before: Loop, specs: seq<RouteSpec>, now: real, after: Loop)
    requires config.Valid() && Redistributes(config, statics, slaUp, learned, answers, before, specs, now, after)
    ensures IsRefresh(after.redistributed, learned, after.rib, now) && OnlyEnabled(config, after.redistributed)
  {
    hide Redistributes;
    forall k | k in after.redistributed
      ensures after.redistributed[k].source in config.enabled
    {
      TurnKeys(config, statics, slaUp, learned, answers, before, specs, now, after, k);
    }
    hide StaticGives;
    hide AnswerGives;
    TurnLeaves(config, statics, slaUp, learned, answers, before, specs, now, after);
  }

  /** What one RIB gives out, another that was picked alike gives out no worse. */
  lemma PickedAlike(config: Config, learned: Table, pick: map<Key, Key>, a: Table, b: Table, u: real, v: real,
                    xs: map<Prefix, RouteValue>, ys: map<Prefix, RouteValue>, p: Prefix)
    requires config.Valid() && Picks(learned, pick) && a.Keys == b.Keys && OnlyEnabled(config, a)
    requires IsRedistributeOut(PickedRib(a, learned, pick, u), xs)
    requires IsRedistributeOut(PickedRib(b, learned, pick, v), ys)
    requires p in xs
    ensures p in ys && ys[p].metric <= xs[p].metric
  {
    var x, y := PickedRib(a, learned, pick, u), PickedRib(b, learned, pick, v);
    assert xs[p] in LiveRoutes(x) && PrefixOf(xs[p]) == p;
    var k :| k in x && Live(x[k]) && x[k] == xs[p];
    assert k !in a && k in y;
    assert y[k] in LiveRoutes(y) && PrefixOf(y[k]) == p && MetricOf(y[k]) == xs[p].metric;
  }

  /** Then the loop settles with no condition on ties or on what was learned. */
  lemma FixedChoicesSettle(config: Config, statics: StaticTable, slaUp: set<Sla.SlaValue>, learned: Table,
                           best: map<Prefix, Sla.SlaValue>, pick: map<Key, Key>, loops: seq<Loop>,
                           answers: seq<Answers>, specs: seq<seq<RouteSpec>>, times: seq<real>, t: nat)
    requires config.Valid() && IsLoopRun(config, statics, slaUp, learned, loops, answers, specs, times)
    requires SameChoices(learned, best, pick, loops, answers, times)
    requires 1 <= t < |loops|
    ensures SettledAt(loops, answers, t)
  {
    hide Redistributes;
    hide IsRedistributeOut;
    hide PickedRib;
    hide Picks;
    SameKeys(config, statics, slaUp, learned, best, pick, loops, answers, specs, times, t);
    SameKeys(config, statics, slaUp, learned, best, pick, loops, answers, specs, times, 1);
    if t < |answers| {
      LoopTables(config, statics, slaUp, learned, loops, answers, specs, times, t);
      LoopTables(config, statics, slaUp, learned, loops, answers, specs, times, 1);
      hide IsRefresh;
      var xs, ys := answers[t].rip, answers[1].rip;
      forall p
        ensures p in xs ==> p in ys && ys[p].metric <= xs[p].metric
        ensures p in ys ==> p in xs && xs[p].metric <= ys[p].metric
      {
        var a, b := loops[t].redistributed, loops[1].redistributed;
        if p in xs { PickedAlike(config, learned, pick, a, b, times[t - 1], times[0], xs, ys, p); }
        if p in ys { PickedAlike(config, learned, pick, b, a, times[0], times[t - 1], ys, xs, p); }
      }
    }
  }

  lemma SameKeys(config: Config, statics: StaticTable, slaUp: set<Sla.SlaValue>, learned: Table,
                 best: map<Prefix, Sla.SlaValue>, pick: map<Key, Key>, loops: seq<Loop>,
                 answers: seq<Answers>, specs: seq<seq<RouteSpec>>, times: seq<real>, t: nat)
    requires config.Valid() && IsLoopRun(config, statics, slaUp, learned, loops, answers, specs, times)
    requires SameChoices(learned, best, pick, loops, answers, times)
    requires 1 <= t < |loops|
    ensures loops[t].redistributed.Keys == loops[1].redistributed.Keys && OnlyEnabled(config, loops[t].redistributed)
  {
    hide Redistributes;
    hide PickedRib;
    hide Picks;
    hide StaticGives;
    hide AnswerGives;
    TurnAt(config, statics, slaUp, learned, loops, answers, specs, times, t - 1);
    TurnAt(config, statics, slaUp, learned, loops, answers, specs, times, 0);
    hide IsLoopRun;
    forall k
      ensures k in loops[t].redistributed <==> k in loops[1].redistributed
      ensures k in loops[t].redistributed ==> loops[t].redistributed[k].source in config.enabled
    {
      TurnKeys(config, statics, slaUp, learned, answers[t - 1], loops[t - 1], specs[t - 1], times[t - 1], loops[t], k);
      TurnKeys(config, statics, slaUp, learned, answers[0], loops[0], specs[0], times[0], loops[1], k);
    }
  }
}
