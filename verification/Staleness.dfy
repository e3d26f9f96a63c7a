/** Housekeeping does not rebuild the RIB (src/rp_rip1/main.py:544 calls
    `refresh_rib` without awaiting it), so dead routes can still be given out. */
module Staleness {
  import opened Types
  import opened Addressing
  import opened Rip
  import opened Node
  import opened Redistribution
  import opened Feedback
  import opened Ambiguity
  import Sla

  /** Rule 4 of the redistribution rules, for RIP: every route it would give out
      is, now, a learned route of that finite metric. */
  ghost predicate GivesOutOnlyLive(n: Node) {
    forall k :: k in n.rib && Live(n.rib[k]) ==> StillLearned(n.learned, k, n.rib[k].metric)
  }

  ghost predicate StillLearned(learned: Table, k: Key, m: nat) {
    exists l :: l in learned && learned[l].Shown() == k && learned[l].metric == m
  }

  /** A fresh RIB gives out only live routes. */
  lemma FreshGivesOutOnlyLive(config: Config, n: Node)
    requires config.Valid() && RedistributedInvariant(config, n.redistributed)
    requires IsRefresh(n.redistributed, n.learned, n.rib, n.refreshedAt)
    ensures GivesOutOnlyLive(n)
  {
    forall k | k in n.rib && Live(n.rib[k])
      ensures StillLearned(n.learned, k, n.rib[k].metric)
    {
      assert k !in n.redistributed;
    }
  }

  /** Some learned route that shows k at this metric is in time when the pass
      looks at it. */
  ghost predicate ShownInTime(learned: Table, clock: Clock, k: Key, m: nat) {
    exists l :: && l in learned && learned[l].Shown() == k && learned[l].metric == m
                && !Expired(learned[l], clock(l)) && !Overdue(learned[l], clock(l))
  }

  lemma InTimeStays(learned: Table, clock: Clock, k: Key, m: nat)
    requires m < MAX_METRIC
    ensures StillLearned(Sweep(learned, clock), k, m) <==> ShownInTime(learned, clock, k, m)
  {
    var swept := Sweep(learned, clock);
    if l :| l in swept && swept[l].Shown() == k && swept[l].metric == m {
      assert swept[l] == Aged(learned[l], clock(l));
    }
    if l :| && l in learned && learned[l].Shown() == k && learned[l].metric == m
            && !Expired(learned[l], clock(l)) && !Overdue(learned[l], clock(l)) {
      assert l in swept && swept[l] == learned[l];
    }
  }

  /** A housekeeping pass leaves Rule 4 true exactly when every live route of the
      RIB is shown, at its metric, by a learned route that is in time: what is
      overdue is poisoned or removed from the learned table, and still given
      out. */
  lemma SweepKeepsRuleFourIff(config: Config, n: Node, clock: Clock)
    ensures GivesOutOnlyLive(Sweeping(config, n, clock)) <==>
              forall k :: k in n.rib && Live(n.rib[k]) ==> ShownInTime(n.learned, clock, k, n.rib[k].metric)
  {
    var n' := Sweeping(config, n, clock);
    assert n'.learned == Sweep(n.learned, clock) && n'.rib == n.rib;
    hide Sweeping;
    hide Sweep;
    hide StillLearned;
    hide ShownInTime;
    forall k | k in n.rib && Live(n.rib[k])
      ensures StillLearned(n'.learned, k, n.rib[k].metric) <==> ShownInTime(n.learned, clock, k, n.rib[k].metric)
    {
      InTimeStays(n.learned, clock, k, n.rib[k].metric);
    }
  }

  // ---- a run that gives out a dead route -------------------------------

  ghost function OneRoute(a: Address): seq<Entry> {
    [Entry(TEN, 0, 1)]
  }

  lemma OneRouteLearned(a: Address) returns (r: RouteValue)
    ensures Decode(OneRoute(a), a, 0.0) == [r] && Learn(map[], [r]) == map[r.identity := r]
    ensures r.metric == 1 && r.source == RIP1 && r.lastUpdated == 0.0
  {
    var e := OneRoute(a)[0];
    var p := TenIsClassful();
    hide OnWire;
    hide Classful;
    r := DecodeEntry(e, a, 0.0).value;
    assert OneRoute(a)[..0] == [] && [r][..0] == [];
  }

  /** The node once that response is processed. */
  ghost function Answered(config: Config, a: Address): Node {
    Receiving(config, START, Receive(OneRoute(a), a, false, 0.0))
  }

  lemma AnsweredHolds(config: Config, a: Address) returns (r: RouteValue)
    ensures r.metric == 1 && r.source == RIP1 && r.lastUpdated == 0.0
    ensures Answered(config, a) == START.(learned := map[r.identity := r], afterResponse := 1, accepted := 1)
  {
    r := OneRouteLearned(a);
    hide Decode;
    hide Learn;
  }

  lemma OneCopy(r: RouteValue, at: real)
    ensures IsRefresh(map[], map[r.identity := r], map[r.Shown() := Copy(r, at)], at)
  {
    var learned: Table := map[r.identity := r];
    assert r.identity in learned;
  }

  lemma OverdueAlone(config: Config, n: Node, r: RouteValue, clock: Clock)
    requires r.source == RIP1 && r.metric < MAX_METRIC && Overdue(r, clock(r.identity))
    requires n.learned == map[r.identity := r] && n.rib == map[r.Shown() := Copy(r, 1.0)]
    ensures !GivesOutOnlyLive(Sweeping(config, n, clock))
    ensures var learned := Sweeping(config, n, clock).learned;
      forall k :: k in learned ==> learned[k].metric == MAX_METRIC
  {
    SweepKeepsRuleFourIff(config, n, clock);
    hide GivesOutOnlyLive;
    assert Live(n.rib[r.Shown()]);
    assert !ShownInTime(n.learned, clock, r.Shown(), r.metric);
    hide ShownInTime;
    assert Sweeping(config, n, clock).learned == Sweep(n.learned, clock);
  }

  function LateClock(): (clock: Clock)
    ensures forall k :: clock(k) == Reading(200.0, 200.0)
  {
    _ => Reading(200.0, 200.0)
  }

  /** One response, the refresh it awaits, and a pass 200 seconds later: whatever
      the configuration, the RIB still gives the route out. */
  lemma DeadRouteIsGivenOut(config: Config, a: Address) returns (nodes: seq<Node>, events: seq<Event>, r: RouteValue)
    ensures IsRun(config, nodes, events) && |events| == 3
    ensures events[0] == Receive(OneRoute(a), a, false, 0.0)
    ensures events[1] == Refresh(AfterResponse, nodes[2].rib, 1.0) && events[2] == Housekeeping(LateClock())
    ensures !GivesOutOnlyLive(nodes[3])
    ensures r.source == RIP1 && r.metric == 1 && nodes[3].rib == map[r.Shown() := Copy(r, 1.0)]
    ensures forall k :: k in nodes[3].learned ==> nodes[3].learned[k].metric == MAX_METRIC
  {
    hide IsRefresh;
    hide GivesOutOnlyLive;
    hide OneRoute;
    r := AnsweredHolds(config, a);
    var clock := LateClock();
    var rib: Table := map[r.Shown() := Copy(r, 1.0)];
    OneCopy(r, 1.0);
    var n1 := Answered(config, a);
    var n2 := Refreshing(config, n1, AfterResponse, rib, 1.0);
    OverdueAlone(config, n2, r, clock);
    PassLeavesRib(config, n2, clock);
    nodes := [START, n1, n2, Sweeping(config, n2, clock)];
    events := [Receive(OneRoute(a), a, false, 0.0), Refresh(AfterResponse, rib, 1.0), Housekeeping(clock)];
    hide Receiving;
    hide Sweeping;
    ThreeSteps(config, nodes[1], nodes[2], nodes[3], events[0], events[1], events[2]);
  }

  lemma ThreeSteps(config: Config, a: Node, b: Node, c: Node, x: Event, y: Event, z: Event)
    requires Step(config, START, x, a) && Step(config, a, y, b) && Step(config, b, z, c)
    ensures IsRun(config, [START, a, b, c], [x, y, z])
  {
    hide Step;
  }

  // ---- and is taken once more ------------------------------------------

  function LoopAt(n: Node): Loop {
    Loop(n.redistributed, n.rib)
  }

  /** What the control plane takes from RIP is, now, a learned route of that
      finite metric. */
  ghost predicate TakesOnlyLive(learned: Table, best: map<Prefix, RouteValue>) {
    forall p :: p in best ==>
      StillLearned(learned, Key(p, best[p].nextHop), best[p].metric) && best[p].metric < MAX_METRIC
  }

  /** The redistribution that a changing pass starts asks RIP before RIP's RIB is
      rebuilt, so it takes what the RIB held before the pass, dead or not; only
      from the next one on does the control plane take live routes only. */
  lemma TurnAfterPass(config: Config, n: Node, clock: Clock, statics: StaticTable, slaUp: set<Sla.SlaValue>,
                      a0: Answers, a1: Answers, s0: seq<RouteSpec>, s1: seq<RouteSpec>, t0: real, t1: real,
                      x1: Loop, x2: Loop)
    requires config.Valid()
    requires var n' := Sweeping(config, n, clock);
      Redistributes(config, statics, slaUp, n'.learned, a0, LoopAt(n'), s0, t0, x1)
    requires Redistributes(config, statics, slaUp, Sweeping(config, n, clock).learned, a1, x1, s1, t1, x2)
    ensures IsRedistributeOut(n.rib, a0.rip)
    ensures TakesOnlyLive(Sweeping(config, n, clock).learned, a1.rip)
  {
    hide Redistributes;
    hide IsRefresh;
    hide IsRedistributeOut;
    hide TakesOnlyLive;
    hide OnlyEnabled;
    var n' := Sweeping(config, n, clock);
    PassLeavesRib(config, n, clock);
    hide Sweeping;
    TurnAnswered(config, statics, slaUp, n'.learned, a0, LoopAt(n'), s0, t0, x1);
    TurnAnswered(config, statics, slaUp, n'.learned, a1, x1, s1, t1, x2);
    TurnRefreshed(config, statics, slaUp, n'.learned, a0, LoopAt(n'), s0, t0, x1);
    RefreshedTakesLive(config, n'.learned, x1.redistributed, x1.rib, t0, a1.rip);
  }

  lemma PassLeavesRib(config: Config, n: Node, clock: Clock)
    ensures Sweeping(config, n, clock).rib == n.rib
  {
    hide Sweep;
  }

  lemma RefreshedTakesLive(config: Config, learned: Table, redistributed: Table, rib: Table, at: real,
                           best: map<Prefix, RouteValue>)
    requires config.Valid() && OnlyEnabled(config, redistributed)
    requires IsRefresh(redistributed, learned, rib, at) && IsRedistributeOut(rib, best)
    ensures TakesOnlyLive(learned, best)
  {
    forall p | p in best
      ensures StillLearned(learned, Key(p, best[p].nextHop), best[p].metric) && best[p].metric < MAX_METRIC
    {
      assert best[p] in LiveRoutes(rib) && PrefixOf(best[p]) == p;
      var k :| k in rib && Live(rib[k]) && rib[k] == best[p];
      assert k !in redistributed;
      var l :| l in learned && learned[l].Shown() == k && rib[k] == Copy(learned[l], at);
    }
  }

  /** Whatever true answers the control plane gets, RIP's names p, and the rebuilt
      RIB has it. */
  ghost predicate TakesFor(statics: StaticTable, slaUp: set<Sla.SlaValue>, rib: Table, p: Prefix) {
    forall a0: Answers :: TrueAnswers(slaUp, LiveRoutes(rib), a0) ==> TakenFrom(statics, a0, p)
  }

  ghost predicate TakenFrom(statics: StaticTable, a0: Answers, p: Prefix) {
    a0.Valid() && p in a0.rip && RipKey(a0.rip[p]) in Rebuilt(statics, a0)
  }

  /** After any turn RIP answers with nothing. */
  ghost predicate NothingNext(config: Config, statics: StaticTable, slaUp: set<Sla.SlaValue>, learned: Table,
                              before: Loop)
  {
    forall a0, s0, t0, x1, a1, s1, t1, x2 ::
      Redistributes(config, statics, slaUp, learned, a0, before, s0, t0, x1) &&
      Redistributes(config, statics, slaUp, learned, a1, x1, s1, t1, x2) ==>
        a1.rip == map[]
  }

  /** So in the run above the control plane is given the dead route once more, in
      whatever state it and the SLA protocol are, and has it in its RIB before RIP
      is given anything back.  When nothing raises there is a turn, and another;
      RIP's answer in the second is empty. */
  lemma DeadRouteIsTakenOnce(config: Config, a: Address, statics: StaticTable, slaUp: set<Sla.SlaValue>)
      returns (nodes: seq<Node>, events: seq<Event>, p: Prefix)
    requires config.Valid()
    ensures IsRun(config, nodes, events) && |events| == 3 && events[2] == Housekeeping(LateClock())
    ensures forall k :: k in nodes[3].learned ==> nodes[3].learned[k].metric == MAX_METRIC
    ensures TakesFor(statics, slaUp, nodes[3].rib, p)
    ensures NothingNext(config, statics, slaUp, nodes[3].learned, LoopAt(nodes[3]))
    ensures Importable(config, statics, slaUp) ==>
              forall x: Loop :: HasTurn(config, statics, slaUp, nodes[3].learned, x)
  {
    var r;
    nodes, events, r := DeadRouteIsGivenOut(config, a);
    p := r.identity.prefix;
    hide IsRun;
    hide Redistributes;
    var rib, learned := nodes[3].rib, nodes[3].learned;
    forall a0: Answers | TrueAnswers(slaUp, LiveRoutes(rib), a0)
      ensures TakenFrom(statics, a0, p)
    {
      TrueAnswersValid(slaUp, LiveRoutes(rib), a0);
      OnlyAnswer(rib, r, a0.rip);
      InRebuiltRip(statics, a0, p);
    }
    hide TakenFrom;
    forall a0, s0, t0, x1, a1, s1, t1, x2 |
      Redistributes(config, statics, slaUp, learned, a0, LoopAt(nodes[3]), s0, t0, x1)
      && Redistributes(config, statics, slaUp, learned, a1, x1, s1, t1, x2)
      ensures a1.rip == map[]
    {
      TurnRefreshed(config, statics, slaUp, learned, a0, LoopAt(nodes[3]), s0, t0, x1);
      NothingLater(config, statics, slaUp, learned, x1, t0, a1, s1, t1, x2);
    }
    if Importable(config, statics, slaUp) {
      forall x: Loop
        ensures HasTurn(config, statics, slaUp, learned, x)
      {
        TurnExists(config, statics, slaUp, learned, x);
      }
    }
  }

  lemma OnlyAnswer(rib: Table, r: RouteValue, best: map<Prefix, RouteValue>)
    requires r.source == RIP1 && r.metric == 1 && rib == map[r.Shown() := Copy(r, 1.0)] && IsRedistributeOut(rib, best)
    ensures r.identity.prefix in best
  {
    var k := r.Shown();
    assert k in rib && Live(rib[k]) && rib[k] in LiveRoutes(rib) && PrefixOf(rib[k]) == r.identity.prefix;
  }

  lemma InRebuiltRip(statics: StaticTable, answers: Answers, p: Prefix)
    requires answers.Valid() && p in answers.rip
    ensures RipKey(answers.rip[p]) in Rebuilt(statics, answers)
  {
    var k := RipKey(answers.rip[p]);
    InRebuilt(statics, answers, k, CpRoute(k, answers.ripDistance, UP));
    hide Rebuilt;
  }

  lemma NothingLater(config: Config, statics: StaticTable, slaUp: set<Sla.SlaValue>, learned: Table, x1: Loop,
                     at: real, a1: Answers, s1: seq<RouteSpec>, t1: real, x2: Loop)
    requires config.Valid() && OnlyEnabled(config, x1.redistributed)
    requires IsRefresh(x1.redistributed, learned, x1.rib, at)
    requires forall k :: k in learned ==> learned[k].metric == MAX_METRIC
    requires Redistributes(config, statics, slaUp, learned, a1, x1, s1, t1, x2)
    ensures a1.rip == map[]
  {
    hide IsRefresh;
    hide Redistributes;
    TurnAnswered(config, statics, slaUp, learned, a1, x1, s1, t1, x2);
    RefreshedTakesLive(config, learned, x1.redistributed, x1.rib, at, a1.rip);
    assert forall p :: p !in a1.rip;
  }
}
