/** Where each pass over a set may meet it in a new order, the loop between the
    control plane and RIP settles exactly when neither of its two free choices
    matters: which of several tied SLA routes is the answer, and which of several
    learned routes showing one key a refresh picks.  (For choices made alike every
    time see `FixedChoicesSettle`.) */
module Ambiguity {
  import opened Types
  import opened Addressing
  import opened Selection
  import opened Rip
  import opened RipProperties
  import opened Node
  import opened Identity
  import opened Redistribution
  import opened Feedback
  import Sla

  ghost predicate RunSettles(config: Config, statics: StaticTable, slaUp: set<Sla.SlaValue>, learned: Table,
                             loops: seq<Loop>, answers: seq<Answers>, specs: seq<seq<RouteSpec>>, times: seq<real>)
  {
    IsLoopRun(config, statics, slaUp, learned, loops, answers, specs, times) ==>
      forall t :: 1 <= t < |loops| ==> SettledAt(loops, answers, t)
  }

  ghost predicate AlwaysSettles(config: Config, statics: StaticTable, slaUp: set<Sla.SlaValue>, learned: Table) {
    forall loops: seq<Loop>, answers: seq<Answers>, specs: seq<seq<RouteSpec>>, times: seq<real> ::
      RunSettles(config, statics, slaUp, learned, loops, answers, specs, times)
  }

  // ---- any turn is possible --------------------------------------------

  lemma {:induction false} SomeSpecs(keys: set<CpKey>) returns (specs: seq<RouteSpec>)
    ensures forall k :: k in keys ==> RouteSpec(k.prefix, k.nextHop, k.source, None) in specs
    ensures forall x :: x in specs ==> x.metric == None && CpKey(x.prefix, x.nextHop, x.source) in keys
    decreases |keys|
  {
    if keys == {} {
      specs := [];
    } else {
      var k :| k in keys;
      var rest := SomeSpecs(keys - {k});
      specs := rest + [RouteSpec(k.prefix, k.nextHop, k.source, None)];
    }
  }

  /** Whatever the SLA answer and whatever the refresh picks, there is a turn. */
  lemma SomeTurn(config: Config, statics: StaticTable, slaUp: set<Sla.SlaValue>, learned: Table, before: Loop,
                 best: map<Prefix, Sla.SlaValue>, pick: map<Key, Key>)
      returns (answers: Answers, specs: seq<RouteSpec>, after: Loop)
    requires config.Valid() && Importable(config, statics, slaUp) && Picks(learned, pick)
    requires IsSelection(slaUp, Sla.PrefixOf, Sla.ScoreOf, best)
    ensures Redistributes(config, statics, slaUp, learned, answers, before, specs, 0.0, after)
    ensures answers.sla == best && after.rib == PickedRib(after.redistributed, learned, pick, 0.0)
  {
    var rip := SomeSelection(LiveRoutes(before.rib), PrefixOf, MetricOf);
    answers := Answers(best, 0, rip, 0);
    TrueAnswersValid(slaUp, LiveRoutes(before.rib), answers);
    specs := SomeSpecs(Rebuilt(statics, answers).Keys);
    assert Exported(Rebuilt(statics, answers), specs);
    hide Rebuilt;
    hide Exported;
    hide Importable;
    hide Classful;
    hide IsSelection;
    hide Picks;
    hide PickedRib;
    forall x | x in specs && x.source in config.enabled
      ensures Classful(x.prefix).Ok?
    {
      SpecIsImportable(config, statics, slaUp, answers, specs, x);
    }
    NothingRaises(config, specs, 0.0);
    RedistributeInIsImport(config, specs, 0.0);
    var table := RedistributeIn(config, specs, 0.0).0;
    PickedIsRefresh(table, learned, pick, 0.0);
    hide IsImport;
    hide IsRefresh;
    after := Loop(table, PickedRib(table, learned, pick, 0.0));
  }

  ghost predicate HasTurn(config: Config, statics: StaticTable, slaUp: set<Sla.SlaValue>, learned: Table,
                          before: Loop)
  {
    exists a, s, t, after :: Redistributes(config, statics, slaUp, learned, a, before, s, t, after)
  }

  lemma TurnExists(config: Config, statics: StaticTable, slaUp: set<Sla.SlaValue>, learned: Table, before: Loop)
    requires config.Valid() && Importable(config, statics, slaUp)
    ensures HasTurn(config, statics, slaUp, learned, before)
  {
    var best := SomeSelection(slaUp, Sla.PrefixOf, Sla.ScoreOf);
    hide Redistributes;
    hide Importable;
    var a, s, after := SomeTurn(config, statics, slaUp, learned, before, best, SomePick(learned));
  }

  // ---- tied SLA routes -------------------------------------------------

  /** An SLA answer with the given top route in it. */
  lemma AnswerWith(slaUp: set<Sla.SlaValue>, r: Sla.SlaValue) returns (best: map<Prefix, Sla.SlaValue>)
    requires Top(slaUp, r)
    ensures IsSelection(slaUp, Sla.PrefixOf, Sla.ScoreOf, best)
    ensures r.key.prefix in best && best[r.key.prefix] == r
  {
    var some := SomeSelection(slaUp, Sla.PrefixOf, Sla.ScoreOf);
    best := some[r.key.prefix := r];
  }

  ghost predicate Avoids(slaUp: set<Sla.SlaValue>, p: Prefix, k: Key, r: Sla.SlaValue) {
    Top(slaUp, r) && r.key.prefix == p && !ImportsAs(p, r.key.nextHop, k)
  }

  lemma SomeAvoids(slaUp: set<Sla.SlaValue>, k: Key, r: Sla.SlaValue) returns (other: Sla.SlaValue)
    requires !SlaMustGive(slaUp, k) && Top(slaUp, r)
    ensures Avoids(slaUp, r.key.prefix, k, other)
  {
    hide ImportsAs;
    hide Top;
    assert !OnlyGives(slaUp, r.key.prefix, k);
    other :| Top(slaUp, other) && other.key.prefix == r.key.prefix && !ImportsAs(r.key.prefix, other.key.nextHop, k);
  }

  /** Exchanging answers for other top routes of their prefixes leaves an
      answer. */
  lemma TopsAreSelection(slaUp: set<Sla.SlaValue>, some: map<Prefix, Sla.SlaValue>, best: map<Prefix, Sla.SlaValue>)
    requires IsSelection(slaUp, Sla.PrefixOf, Sla.ScoreOf, some) && best.Keys == some.Keys
    requires forall p :: p in best ==> Top(slaUp, best[p]) && best[p].key.prefix == p
    ensures IsSelection(slaUp, Sla.PrefixOf, Sla.ScoreOf, best)
  {
    hide Unbeaten;
  }

  /** An SLA answer that does not bring k. */
  lemma AnswerWithout(config: Config, slaUp: set<Sla.SlaValue>, k: Key) returns (best: map<Prefix, Sla.SlaValue>)
    requires !SlaMustGive(slaUp, k)
    ensures IsSelection(slaUp, Sla.PrefixOf, Sla.ScoreOf, best) && !AnswerGives(config, best, k)
  {
    var some := SomeSelection(slaUp, Sla.PrefixOf, Sla.ScoreOf);
    forall p | p in some
      ensures exists r :: Avoids(slaUp, p, k, r)
    {
      assert Top(slaUp, some[p]) && Sla.PrefixOf(some[p]) == p;
      var other := SomeAvoids(slaUp, k, some[p]);
    }
    hide SlaMustGive;
    hide ImportsAs;
    hide IsSelection;
    hide Top;
    best := map p | p in some :: var r :| Avoids(slaUp, p, k, r); r;
    TopsAreSelection(slaUp, some, best);
  }

  /** Two turns that leave RIP with different keys. */
  lemma TieUnsettles(config: Config, statics: StaticTable, slaUp: set<Sla.SlaValue>, learned: Table)
        returns (loops: seq<Loop>, answers: seq<Answers>, specs: seq<seq<RouteSpec>>, times: seq<real>)
    requires config.Valid() && Importable(config, statics, slaUp) && !KeysFixed(config, statics, slaUp)
    ensures IsLoopRun(config, statics, slaUp, learned, loops, answers, specs, times) && |loops| == 3
    ensures loops[0] == Loop(map[], map[]) && loops[2].redistributed.Keys != loops[1].redistributed.Keys
    ensures !AlwaysSettles(config, statics, slaUp, learned)
  {
    hide Importable;
    hide KeysFixed;
    hide Redistributes;
    hide IsLoopRun;
    hide AlwaysSettles;
    var x0 := Loop(map[], map[]);
    var a0, s0, x1, a1, s1, x2 := TieTurns(config, statics, slaUp, learned, x0);
    loops, answers, specs, times := TwoTurns(config, statics, slaUp, learned, a0, a1, s0, s1, x0, x1, x2);
  }

  lemma TieTurns(config: Config, statics: StaticTable, slaUp: set<Sla.SlaValue>, learned: Table, x0: Loop)
        returns (a0: Answers, s0: seq<RouteSpec>, x1: Loop, a1: Answers, s1: seq<RouteSpec>, x2: Loop)
    requires config.Valid() && Importable(config, statics, slaUp) && !KeysFixed(config, statics, slaUp)
    ensures Redistributes(config, statics, slaUp, learned, a0, x0, s0, 0.0, x1)
    ensures Redistributes(config, statics, slaUp, learned, a1, x1, s1, 0.0, x2)
    ensures x2.redistributed.Keys != x1.redistributed.Keys
  {
    hide Classful;
    hide Importable;
    hide StaticGives;
    var k :| SlaMayGive(config, slaUp, k) && !StaticGives(config, statics, k) && !SlaMustGive(slaUp, k);
    var r :| Top(slaUp, r) && ImportsAs(r.key.prefix, r.key.nextHop, k);
    var present := AnswerWith(slaUp, r);
    var absent := AnswerWithout(config, slaUp, k);
    assert AnswerGives(config, present, k);
    hide SlaMayGive;
    hide SlaMustGive;
    hide AnswerGives;
    hide ImportsAs;
    hide Top;
    hide IsSelection;
    hide Redistributes;
    hide PickedRib;
    a0, s0, x1 := SomeTurn(config, statics, slaUp, learned, x0, present, SomePick(learned));
    a1, s1, x2 := SomeTurn(config, statics, slaUp, learned, x1, absent, SomePick(learned));
    TurnKeys(config, statics, slaUp, learned, a0, x0, s0, 0.0, x1, k);
    TurnKeys(config, statics, slaUp, learned, a1, x1, s1, 0.0, x2, k);
  }

  lemma TwoTurns(config: Config, statics: StaticTable, slaUp: set<Sla.SlaValue>, learned: Table, a0: Answers,
                 a1: Answers, s0: seq<RouteSpec>, s1: seq<RouteSpec>, x0: Loop, x1: Loop, x2: Loop)
        returns (loops: seq<Loop>, answers: seq<Answers>, specs: seq<seq<RouteSpec>>, times: seq<real>)
    requires Redistributes(config, statics, slaUp, learned, a0, x0, s0, 0.0, x1)
    requires Redistributes(config, statics, slaUp, learned, a1, x1, s1, 0.0, x2)
    requires x2.redistributed.Keys != x1.redistributed.Keys
    ensures IsLoopRun(config, statics, slaUp, learned, loops, answers, specs, times) && loops == [x0, x1, x2]
    ensures !AlwaysSettles(config, statics, slaUp, learned)
  {
    hide Redistributes;
    loops, answers, specs, times := [x0, x1, x2], [a0, a1], [s0, s1], [0.0, 0.0];
    assert IsLoopRun(config, statics, slaUp, learned, loops, answers, specs, times);
    BadRun(config, statics, slaUp, learned, loops, answers, specs, times, 2);
  }

  lemma BadRun(config: Config, statics: StaticTable, slaUp: set<Sla.SlaValue>, learned: Table, loops: seq<Loop>,
               answers: seq<Answers>, specs: seq<seq<RouteSpec>>, times: seq<real>, t: nat)
    requires IsLoopRun(config, statics, slaUp, learned, loops, answers, specs, times)
    requires 1 <= t < |loops| && !SettledAt(loops, answers, t)
    ensures !AlwaysSettles(config, statics, slaUp, learned)
  {
    hide Redistributes;
    hide SettledAt;
    assert !RunSettles(config, statics, slaUp, learned, loops, answers, specs, times);
  }

  // ---- learned routes that show one key --------------------------------

  lemma {:induction false} LeastVisible(hidden: iset<Key>, learned: Table, l: Key, p: Prefix) returns (least: Key)
    requires Visible(hidden, learned, l, p)
    ensures Visible(hidden, learned, least, p) && learned[least].metric <= learned[l].metric
    ensures forall g :: Visible(hidden, learned, g, p) ==> learned[least].metric <= learned[g].metric
    decreases learned[l].metric
  {
    if g :| Visible(hidden, learned, g, p) && learned[g].metric < learned[l].metric {
      least := LeastVisible(hidden, learned, g, p);
    } else {
      least := l;
    }
  }

  ghost predicate IsWorst(learned: Table, l: Key, k: Key) {
    l in learned && learned[l].Shown() == k
    && forall g :: g in learned && learned[g].Shown() == k ==> learned[g].metric <= learned[l].metric
  }

  lemma {:induction false} SomeWorst(learned: Table, l: Key) returns (worst: Key)
    requires LearnedInvariant(learned) && l in learned
    ensures IsWorst(learned, worst, learned[l].Shown())
    decreases MAX_METRIC - learned[l].metric
  {
    if IsWorst(learned, l, learned[l].Shown()) {
      worst := l;
    } else {
      var g :| g in learned && learned[g].Shown() == learned[l].Shown() && learned[l].metric < learned[g].metric;
      assert LearnedRoute(learned[g]);
      worst := SomeWorst(learned, g);
    }
  }

  /** A refresh that picks a worst route for every key. */
  lemma WorstPick(learned: Table) returns (pick: map<Key, Key>)
    requires LearnedInvariant(learned)
    ensures Picks(learned, pick) && forall k :: k in ShownKeys(learned) ==> IsWorst(learned, pick[k], k)
  {
    forall k | k in ShownKeys(learned)
      ensures exists l :: IsWorst(learned, l, k)
    {
      var l :| l in learned && learned[l].Shown() == k;
      var worst := SomeWorst(learned, l);
    }
    pick := map k | k in ShownKeys(learned) :: var l :| IsWorst(learned, l, k); l;
  }

  /** After a refresh that picked l, RIP's answer is at least as good as l. */
  lemma PickedIsAnswered(config: Config, redistributed: Table, hidden: iset<Key>, learned: Table, pick: map<Key, Key>,
                         at: real, best: map<Prefix, RouteValue>, l: Key, p: Prefix)
    requires LearnedInvariant(learned) && Hides(redistributed, hidden, config) && Visible(hidden, learned, l, p)
    requires Picks(learned, pick) && l in learned && learned[l].Shown() in pick && pick[learned[l].Shown()] == l
    requires IsRedistributeOut(PickedRib(redistributed, learned, pick, at), best)
    ensures p in best && best[p].metric <= learned[l].metric
  {
    var rib, k := PickedRib(redistributed, learned, pick, at), learned[l].Shown();
    assert k in ShownKeys(learned) && k !in redistributed;
    assert rib[k] == Copy(learned[l], at);
    assert rib[k] in LiveRoutes(rib) && PrefixOf(rib[k]) == p && MetricOf(rib[k]) == learned[l].metric;
  }

  /** After a refresh that picked worst routes, RIP's answer is a worst route. */
  lemma WorstIsAnswered(config: Config, redistributed: Table, hidden: iset<Key>, learned: Table, pick: map<Key, Key>,
                        at: real, best: map<Prefix, RouteValue>, p: Prefix) returns (l: Key)
    requires config.Valid() && LearnedInvariant(learned) && Hides(redistributed, hidden, config)
    requires Picks(learned, pick) && forall k :: k in ShownKeys(learned) ==> IsWorst(learned, pick[k], k)
    requires IsRedistributeOut(PickedRib(redistributed, learned, pick, at), best) && p in best
    ensures Visible(hidden, learned, l, p) && learned[l].metric == best[p].metric
    ensures IsWorst(learned, l, learned[l].Shown())
  {
    var rib := PickedRib(redistributed, learned, pick, at);
    assert best[p] in LiveRoutes(rib) && PrefixOf(best[p]) == p;
    hide IsSelection;
    var k :| k in rib && Live(rib[k]) && rib[k] == best[p];
    assert k !in redistributed;
    l := pick[k];
    assert rib[k] == Copy(learned[l], at);
  }

  /** A least route that is worst for its key is firm. */
  lemma LeastAndWorstIsFirm(hidden: iset<Key>, learned: Table, least: Key, l: Key, p: Prefix)
    requires Visible(hidden, learned, least, p) && Visible(hidden, learned, l, p) && Keyed(learned)
    requires forall g :: Visible(hidden, learned, g, p) ==> learned[least].metric <= learned[g].metric
    requires IsWorst(learned, l, learned[l].Shown()) && learned[l].metric <= learned[least].metric
    ensures Firm(learned, l)
  {
    forall g | g in learned && learned[g].Shown() == learned[l].Shown()
      ensures learned[g].metric == learned[l].metric
    {
      assert Visible(hidden, learned, g, p);
    }
  }

  /** A pick that gets the best of p, and one that does not. */
  lemma TwoPicks(hidden: iset<Key>, learned: Table, l: Key, p: Prefix)
        returns (least: Key, good: map<Key, Key>, bad: map<Key, Key>)
    requires LearnedInvariant(learned) && Visible(hidden, learned, l, p) && !FirmAround(hidden, learned, l, p)
    ensures Visible(hidden, learned, least, p)
    ensures Picks(learned, good) && learned[least].Shown() in good && good[learned[least].Shown()] == least
    ensures Picks(learned, bad) && forall k :: k in ShownKeys(learned) ==> IsWorst(learned, bad[k], k)
    ensures forall g :: Visible(hidden, learned, g, p) && IsWorst(learned, g, learned[g].Shown()) ==>
              learned[least].metric < learned[g].metric
  {
    least := LeastVisible(hidden, learned, l, p);
    good := SomePick(learned)[learned[least].Shown() := least];
    bad := WorstPick(learned);
    forall g | Visible(hidden, learned, g, p) && IsWorst(learned, g, learned[g].Shown())
      ensures learned[least].metric < learned[g].metric
    {
      if learned[g].metric <= learned[least].metric {
        LeastAndWorstIsFirm(hidden, learned, least, g, p);
        assert false;
      }
    }
  }

  /** Three turns, the last two with different answers. */
  lemma AmbiguityUnsettles(config: Config, statics: StaticTable, slaUp: set<Sla.SlaValue>, learned: Table)
        returns (loops: seq<Loop>, answers: seq<Answers>, specs: seq<seq<RouteSpec>>, times: seq<real>)
    requires config.Valid() && Importable(config, statics, slaUp) && KeysFixed(config, statics, slaUp)
    requires LearnedInvariant(learned) && !LeastFirm(GivenKeys(config, statics, slaUp), learned)
    ensures IsLoopRun(config, statics, slaUp, learned, loops, answers, specs, times) && |answers| == 3
    ensures loops[0] == Loop(map[], map[]) && !SameAnswers(answers[2].rip, answers[1].rip)
    ensures !AlwaysSettles(config, statics, slaUp, learned)
  {
    hide Importable;
    hide KeysFixed;
    hide LearnedInvariant;
    hide LeastFirm;
    hide GivenKeys;
    hide Redistributes;
    hide IsLoopRun;
    hide AlwaysSettles;
    hide SameAnswers;
    var x0 := Loop(map[], map[]);
    var a0, s0, x1, a1, s1, x2, a2, s2, x3 := AmbiguityTurns(config, statics, slaUp, learned, x0);
    loops, answers, specs, times :=
      ThreeTurns(config, statics, slaUp, learned, a0, a1, a2, s0, s1, s2, x0, x1, x2, x3);
  }

  lemma AmbiguityTurns(config: Config, statics: StaticTable, slaUp: set<Sla.SlaValue>, learned: Table, x0: Loop)
        returns (a0: Answers, s0: seq<RouteSpec>, x1: Loop, a1: Answers, s1: seq<RouteSpec>, x2: Loop, a2: Answers,
                 s2: seq<RouteSpec>, x3: Loop)
    requires config.Valid() && Importable(config, statics, slaUp) && KeysFixed(config, statics, slaUp)
    requires LearnedInvariant(learned) && !LeastFirm(GivenKeys(config, statics, slaUp), learned)
    ensures Redistributes(config, statics, slaUp, learned, a0, x0, s0, 0.0, x1)
    ensures Redistributes(config, statics, slaUp, learned, a1, x1, s1, 0.0, x2)
    ensures Redistributes(config, statics, slaUp, learned, a2, x2, s2, 0.0, x3)
    ensures !SameAnswers(a2.rip, a1.rip)
  {
    var hidden := GivenKeys(config, statics, slaUp);
    hide GivenKeys;
    hide Importable;
    hide KeysFixed;
    hide LearnedInvariant;
    var l, p :| Visible(hidden, learned, l, p) && !FirmAround(hidden, learned, l, p);
    var least, good, bad := TwoPicks(hidden, learned, l, p);
    var best := SomeSelection(slaUp, Sla.PrefixOf, Sla.ScoreOf);
    hide Picks;
    hide IsWorst;
    hide IsSelection;
    hide PickedRib;
    hide Redistributes;
    hide ShownKeys;
    hide Hides;
    hide Visible;
    hide FirmAround;
    hide LeastFirm;
    a0, s0, x1 := SomeTurn(config, statics, slaUp, learned, x0, best, good);
    a1, s1, x2 := SomeTurn(config, statics, slaUp, learned, x1, best, bad);
    a2, s2, x3 := SomeTurn(config, statics, slaUp, learned, x2, best, good);
    TurnHides(config, statics, slaUp, learned, a0, x0, s0, 0.0, x1);
    TurnHides(config, statics, slaUp, learned, a1, x1, s1, 0.0, x2);
    TurnAnswered(config, statics, slaUp, learned, a1, x1, s1, 0.0, x2);
    TurnAnswered(config, statics, slaUp, learned, a2, x2, s2, 0.0, x3);
    AnswersDiffer(config, hidden, learned, good, bad, x1, x2, a1.rip, a2.rip, least, p);
  }

  lemma AnswersDiffer(config: Config, hidden: iset<Key>, learned: Table, good: map<Key, Key>, bad: map<Key, Key>,
                      x: Loop, y: Loop, xs: map<Prefix, RouteValue>, ys: map<Prefix, RouteValue>, least: Key,
                      p: Prefix)
    requires config.Valid() && LearnedInvariant(learned) && Visible(hidden, learned, least, p)
    requires Hides(x.redistributed, hidden, config) && Hides(y.redistributed, hidden, config)
    requires Picks(learned, good) && learned[least].Shown() in good && good[learned[least].Shown()] == least
    requires Picks(learned, bad) && forall k :: k in ShownKeys(learned) ==> IsWorst(learned, bad[k], k)
    requires forall g :: Visible(hidden, learned, g, p) && IsWorst(learned, g, learned[g].Shown()) ==>
               learned[least].metric < learned[g].metric
    requires x.rib == PickedRib(x.redistributed, learned, good, 0.0) && IsRedistributeOut(x.rib, xs)
    requires y.rib == PickedRib(y.redistributed, learned, bad, 0.0) && IsRedistributeOut(y.rib, ys)
    ensures !SameAnswers(ys, xs)
  {
    hide LearnedInvariant;
    hide IsRedistributeOut;
    hide PickedRib;
    hide Hides;
    hide IsWorst;
    PickedIsAnswered(config, x.redistributed, hidden, learned, good, 0.0, xs, least, p);
    if p in ys {
      var w := WorstIsAnswered(config, y.redistributed, hidden, learned, bad, 0.0, ys, p);
    }
  }

  lemma ThreeTurns(config: Config, statics: StaticTable, slaUp: set<Sla.SlaValue>, learned: Table,
                   a0: Answers, a1: Answers, a2: Answers, s0: seq<RouteSpec>, s1: seq<RouteSpec>, s2: seq<RouteSpec>,
                   x0: Loop, x1: Loop, x2: Loop, x3: Loop)
        returns (loops: seq<Loop>, answers: seq<Answers>, specs: seq<seq<RouteSpec>>, times: seq<real>)
    requires Redistributes(config, statics, slaUp, learned, a0, x0, s0, 0.0, x1)
    requires Redistributes(config, statics, slaUp, learned, a1, x1, s1, 0.0, x2)
    requires Redistributes(config, statics, slaUp, learned, a2, x2, s2, 0.0, x3)
    requires !SameAnswers(a2.rip, a1.rip)
    ensures IsLoopRun(config, statics, slaUp, learned, loops, answers, specs, times)
    ensures loops == [x0, x1, x2, x3] && answers == [a0, a1, a2]
    ensures !AlwaysSettles(config, statics, slaUp, learned)
  {
    hide Redistributes;
    hide SameAnswers;
    loops, answers, specs, times := [x0, x1, x2, x3], [a0, a1, a2], [s0, s1, s2], [0.0, 0.0, 0.0];
    assert IsLoopRun(config, statics, slaUp, learned, loops, answers, specs, times);
    BadRun(config, statics, slaUp, learned, loops, answers, specs, times, 2);
  }

  // ---- if and only if --------------------------------------------------

  lemma FirmRunSettles(config: Config, statics: StaticTable, slaUp: set<Sla.SlaValue>, learned: Table, loops: seq<Loop>,
                       answers: seq<Answers>, specs: seq<seq<RouteSpec>>, times: seq<real>)
    requires config.Valid() && LearnedInvariant(learned)
    requires Importable(config, statics, slaUp) ==>
               KeysFixed(config, statics, slaUp) && LeastFirm(GivenKeys(config, statics, slaUp), learned)
    ensures RunSettles(config, statics, slaUp, learned, loops, answers, specs, times)
  {
    hide LearnedInvariant;
    hide LeastFirm;
    hide KeysFixed;
    hide GivenKeys;
    hide Importable;
    hide Redistributes;
    hide SettledAt;
    if IsLoopRun(config, statics, slaUp, learned, loops, answers, specs, times) {
      forall t | 1 <= t < |loops|
        ensures SettledAt(loops, answers, t)
      {
        TurnAt(config, statics, slaUp, learned, loops, answers, specs, times, 0);
        TurnIsImportable(config, statics, slaUp, learned, answers[0], loops[0], specs[0], times[0], loops[1]);
        LoopSettles(config, statics, slaUp, learned, loops, answers, specs, times, t);
      }
    }
  }

  /** Unless something raises, every run of the loop settles if and only if no
      choice among tied SLA routes changes the keys RIP is given, and for each
      prefix some best route those keys leave visible is firm. */
  lemma SettlesIff(config: Config, statics: StaticTable, slaUp: set<Sla.SlaValue>, learned: Table)
    requires config.Valid() && LearnedInvariant(learned)
    ensures AlwaysSettles(config, statics, slaUp, learned) <==>
              (Importable(config, statics, slaUp) ==>
                 KeysFixed(config, statics, slaUp) && LeastFirm(GivenKeys(config, statics, slaUp), learned))
  {
    hide LearnedInvariant;
    hide LeastFirm;
    hide KeysFixed;
    hide GivenKeys;
    hide Importable;
    hide RunSettles;
    if !Importable(config, statics, slaUp)
       || (KeysFixed(config, statics, slaUp) && LeastFirm(GivenKeys(config, statics, slaUp), learned)) {
      forall loops: seq<Loop>, answers: seq<Answers>, specs: seq<seq<RouteSpec>>, times: seq<real>
        ensures RunSettles(config, statics, slaUp, learned, loops, answers, specs, times)
      {
        FirmRunSettles(config, statics, slaUp, learned, loops, answers, specs, times);
      }
    } else if !KeysFixed(config, statics, slaUp) {
      hide AlwaysSettles;
      var loops, answers, specs, times := TieUnsettles(config, statics, slaUp, learned);
    } else {
      hide AlwaysSettles;
      var loops, answers, specs, times := AmbiguityUnsettles(config, statics, slaUp, learned);
    }
  }

  /** With zero fields only, as RFC 1058 prescribes and this implementation
      sends, a refresh has no choice: over every run, only tied SLA routes
      matter. */
  lemma ZeroFieldsSettleIff(config: Config, statics: StaticTable, slaUp: set<Sla.SlaValue>, nodes: seq<Node>,
                            events: seq<Event>, senders: set<Address>, t: nat)
    requires config.Valid() && IsRun(config, nodes, events) && t < |nodes|
    requires forall u :: 0 <= u < |events| ==> Conforms(events[u], senders, {0})
    ensures AlwaysSettles(config, statics, slaUp, nodes[t].learned) <==>
              (Importable(config, statics, slaUp) ==> KeysFixed(config, statics, slaUp))
  {
    hide Conforms;
    hide AlwaysSettles;
    hide Importable;
    hide KeysFixed;
    hide GivenKeys;
    hide LeastFirm;
    EveryRunKeepsInvariant(config, nodes, events, t);
    var learned := nodes[t].learned;
    forall k, l | k in learned && l in learned && learned[k].Shown() == learned[l].Shown()
      ensures learned[k].metric == learned[l].metric
    {
      OneRoutePerPrefix(config, nodes, events, senders, t, k, l);
    }
    AgreeingIsFirm(GivenKeys(config, statics, slaUp), learned);
    SettlesIff(config, statics, slaUp, learned);
  }

  /** Without ties between different next hops the keys are fixed. */
  lemma NoTieIsFixed(config: Config, statics: StaticTable, slaUp: set<Sla.SlaValue>)
    requires forall r, s :: Top(slaUp, r) && Top(slaUp, s) && r.key.prefix == s.key.prefix ==>
               r.key.nextHop == s.key.nextHop
    ensures KeysFixed(config, statics, slaUp)
  {
    hide Classful;
    forall k | SlaMayGive(config, slaUp, k)
      ensures SlaMustGive(slaUp, k)
    {
      var r :| Top(slaUp, r) && ImportsAs(r.key.prefix, r.key.nextHop, k);
      assert OnlyGives(slaUp, r.key.prefix, k);
    }
  }

  // ---- inputs that unsettle it -----------------------------------------

  ghost function Tied(p: Prefix, x: Address): Sla.SlaValue {
    Sla.SlaValue(Key(p, x), 0, 0.0, SLA, UP)
  }

  /** Two SLA routes of one prefix and priority, both UP, and nothing else:
      whatever was learned, the loop need not settle if they are met now in one
      order, now in the other. */
  lemma TwoTiedRoutes(config: Config, p: Prefix, x: Address, y: Address, learned: Table)
    requires config.Valid() && SLA in config.enabled && Classful(p).Ok? && x != y
    ensures !AlwaysSettles(config, map[], {Tied(p, x), Tied(p, y)}, learned)
  {
    var slaUp := {Tied(p, x), Tied(p, y)};
    var k := Key(Classful(p).value, x);
    assert ImportsAs(p, x, k) && !ImportsAs(p, y, k);
    hide Classful;
    hide AlwaysSettles;
    assert Top(slaUp, Tied(p, x)) && Top(slaUp, Tied(p, y));
    assert SlaMayGive(config, slaUp, k) && !OnlyGives(slaUp, p, k);
    assert !SlaMustGive(slaUp, k) && !StaticGives(config, map[], k);
    var loops, answers, specs, times := TieUnsettles(config, map[], slaUp, learned);
  }

  /** One response that names a prefix at metric 1 with a zero next hop and at
      metric 2 with the sender's own address: with no static and no SLA route
      the loop need not settle if the two are met in changing order. */
  lemma OneResponseUnsettles(config: Config, a: Address) returns (nodes: seq<Node>, events: seq<Event>)
    requires config.Valid() && a != 0
    ensures IsRun(config, nodes, events) && events == [Receive(Twice(a, 2), a, false, 0.0)]
    ensures !AlwaysSettles(config, map[], {}, nodes[1].learned)
  {
    hide AlwaysSettles;
    var e := Receive(Twice(a, 2), a, false, 0.0);
    var p, first, second := TwiceLearned(a, 2);
    hide Decode;
    hide Learn;
    hide Twice;
    nodes, events := [START, Receiving(config, START, e)], [e];
    var learned := nodes[1].learned;
    EveryRunKeepsInvariant(config, nodes, events, 1);
    NothingFirm(config, learned, p, a, first, second);
    SettlesIff(config, map[], {}, learned);
  }

  lemma NothingGiven(config: Config)
    ensures KeysFixed(config, map[], {}) && Importable(config, map[], {})
    ensures GivenKeys(config, map[], {}) == iset{}
  {
    hide Classful;
  }

  lemma NothingFirm(config: Config, learned: Table, p: Prefix, a: Address, first: RouteValue, second: RouteValue)
    requires learned == map[first.identity := first, second.identity := second] && first.identity != second.identity
    requires first.Shown() == second.Shown() && first.metric < second.metric && first.metric < MAX_METRIC
    ensures KeysFixed(config, map[], {}) && Importable(config, map[], {})
    ensures !LeastFirm(GivenKeys(config, map[], {}), learned)
  {
    NothingGiven(config);
    hide KeysFixed;
    hide Importable;
    var hidden := GivenKeys(config, map[], {});
    hide GivenKeys;
    var k, l := first.identity, second.identity;
    forall f | f in learned
      ensures !Firm(learned, f)
    {
      assert learned[k].Shown() == learned[f].Shown() == learned[l].Shown();
    }
    hide Firm;
    assert Visible(hidden, learned, k, k.prefix) && !FirmAround(hidden, learned, k, k.prefix);
  }
}
