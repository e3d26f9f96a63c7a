/** Redistributions in the middle of a run: what a router gives to the network
    changes, others still have what it gave before, and the network finds its way
    to the new distances -- as long as the router goes on offering the prefix, if
    only because it has its own route back from a neighbour. */
module Withdrawal {
  import opened Types
  import opened Addressing
  import opened Rip
  import opened Node
  import opened Network
  import opened Rounds
  import opened Convergence
  import opened QuietPaths
  import opened Asynchrony
  import opened Renewal
  import opened FairRecovery

  /** At the start nothing has been learned, so everything learned is renewed. */
  lemma StartsRecoverable(topology: Topology, configs: seq<Config>, given: seq<Table>, s: System, p: Prefix)
    requires topology.Valid() && StartsAt(topology, s)
    ensures Recoverable(topology, configs, given, s, p, true)
  {
    hide NetOk;
    hide RouteRecoverable;
    hide BuiltRecoverable;
    forall i | 0 <= i < |s.nodes|
      ensures RouterRecoverable(topology, configs, given, s, i, p, true)
    {
      assert Snaps(s)[i].learned == map[];
    }
  }

  /** What is renewed is so whatever anyone was given. */
  lemma AnyGiven(topology: Topology, configs: seq<Config>, given: seq<Table>, given': seq<Table>, s: System,
                 p: Prefix, strict: bool)
    requires topology.Valid() && Recoverable(topology, configs, given, s, p, true)
    ensures Recoverable(topology, configs, given', s, p, strict)
  {
    hide Renewing;
    hide HearsAny;
    hide NotNearer;
    hide EntriesNotNearer;
    hide OffersNow;
    hide Names;
    forall i | 0 <= i < |s.nodes|
      ensures RouterRecoverable(topology, configs, given', s, i, p, strict)
    {
      assert RouterRecoverable(topology, configs, given, s, i, p, true);
    }
    forall packet | packet in s.sent
      ensures PacketRecoverable(topology, given', s, packet, p, strict)
    {
      assert PacketRecoverable(topology, given, s, packet, p, true);
    }
  }

  // ---- one router is given something else ------------------------------

  /** Router i is given new routes and rebuilds its RIB. */
  ghost predicate Redistributed(topology: Topology, configs: seq<Config>, s: System, i: nat, specs: seq<RouteSpec>,
                                at: real, s': System)
  {
    && topology.Valid() && |configs| == |s.nodes| == |s'.nodes| == |topology.hears| && i < |s.nodes|
    && exists between: System, e: Event ::
         && |between.nodes| == |s.nodes| && e.Refresh?
         && Moves(topology, configs, s, Act(i, RedistributeInto(specs, at)), between)
         && Moves(topology, configs, between, Act(i, e), s')
  }

  lemma GivenMoves(topology: Topology, configs: seq<Config>, s: System, i: nat, specs: seq<RouteSpec>, at: real,
                   s': System)
    requires topology.Valid() && |configs| == |s.nodes| == |topology.hears| && i < |s.nodes|
    requires Moves(topology, configs, s, Act(i, RedistributeInto(specs, at)), s')
    ensures s'.sent == s.sent && |s'.nodes| == |s.nodes| && s'.nodes == s.nodes[i := s'.nodes[i]]
    ensures s'.nodes[i].learned == s.nodes[i].learned
    ensures s'.nodes[i].redistributed == RedistributeIn(configs[i], specs, at).0
  {
    hide RedistributeIn;
  }

  lemma RefreshedMoves(topology: Topology, configs: seq<Config>, s: System, i: nat, e: Event, s': System)
    requires topology.Valid() && |configs| == |s.nodes| == |topology.hears| && i < |s.nodes| && e.Refresh?
    requires Moves(topology, configs, s, Act(i, e), s')
    ensures s'.sent == s.sent && |s'.nodes| == |s.nodes| && s'.nodes == s.nodes[i := s'.nodes[i]]
    ensures var n, n' := s.nodes[i], s'.nodes[i];
      && n'.learned == n.learned && n'.learnedAtRefresh == n.learned && n'.redistributed == n.redistributed
      && IsRefresh(n.redistributed, n.learned, n'.rib, e.at)
  {
    hide IsRefresh;
  }

  /** Its tables after that; nobody else's change. */
  lemma AfterRedistributed(topology: Topology, configs: seq<Config>, s: System, i: nat, specs: seq<RouteSpec>,
                           at: real, s': System)
    requires Redistributed(topology, configs, s, i, specs, at, s')
    ensures s'.sent == s.sent && s'.nodes == s.nodes[i := s'.nodes[i]]
    ensures var n, n' := s.nodes[i], s'.nodes[i];
      && n'.learned == n.learned && n'.learnedAtRefresh == n.learned
      && n'.redistributed == RedistributeIn(configs[i], specs, at).0
      && exists now :: IsRefresh(n'.redistributed, n.learned, n'.rib, now)
  {
    hide IsRefresh;
    hide RedistributeIn;
    hide Moves;
    var between: System, e: Event :|
      && |between.nodes| == |s.nodes| && e.Refresh?
      && Moves(topology, configs, s, Act(i, RedistributeInto(specs, at)), between)
      && Moves(topology, configs, between, Act(i, e), s');
    GivenMoves(topology, configs, s, i, specs, at, between);
    RefreshedMoves(topology, configs, between, i, e, s');
  }

  lemma RedistributedFormed(topology: Topology, configs: seq<Config>, given: seq<Table>, s: System, i: nat,
                            specs: seq<RouteSpec>, at: real, s': System)
    requires Formed(topology, given, s) && Redistributed(topology, configs, s, i, specs, at, s')
    ensures Given(Snaps(s')) == given[i := RedistributeIn(configs[i], specs, at).0]
    ensures Formed(topology, Given(Snaps(s')), s')
  {
    AfterRedistributed(topology, configs, s, i, specs, at, s');
    FormedNet(topology, given, s);
    hide Redistributed;
    hide RedistributeIn;
    hide AllHeard;
    hide PacketFormed;
    hide IsRefresh;
    var given' := given[i := RedistributeIn(configs[i], specs, at).0];
    assert Given(Snaps(s')) == given';
    RedistributeInKeeps(configs[i], specs, at);
    hide Classful;
    forall h | 0 <= h < |s'.nodes|
      ensures RouterFormed(topology, given', h, s'.nodes[h])
    {
      assert RouterFormed(topology, given, h, s.nodes[h]);
      if h == i {
        assert AllHeard(topology, i, s.nodes[i].learned);
      }
    }
  }

  /** Router i still has p: it is given it again, or it has learned it -- from
      someone who may well have learned it from router i. */
  ghost predicate StillHas(config: Config, n: Node, specs: seq<RouteSpec>, at: real, p: Prefix) {
    || OffersOnWire(RedistributeIn(config, specs, at).0, p)
    || Offers(n.learned, p)
  }

  /** Then, and only then, it goes on offering it. */
  lemma OffersIffStillHas(topology: Topology, configs: seq<Config>, given: seq<Table>, s: System, i: nat,
                          specs: seq<RouteSpec>, at: real, s': System, p: Prefix)
    requires Formed(topology, given, s) && Redistributed(topology, configs, s, i, specs, at, s')
    requires OnWire(p.address) == Ok(p)
    ensures OffersNow(s', i, p) <==> StillHas(configs[i], s.nodes[i], specs, at, p)
  {
    RedistributedFormed(topology, configs, given, s, i, specs, at, s');
    AfterRedistributed(topology, configs, s, i, specs, at, s');
    assert RouterFormed(topology, Given(Snaps(s')), i, s'.nodes[i]);
    hide Redistributed;
    hide RedistributeIn;
    hide IsRefresh;
    hide Formed;
    hide AllHeard;
    hide SpeakerOk;
    BuiltOffers(topology, i, Snap(s'.nodes[i]), p);
  }

  /** A RIB offers p exactly when the tables it was built from do. */
  lemma BuiltOffers(topology: Topology, i: nat, s: Speaker, p: Prefix)
    requires topology.Valid() && i < |topology.hears| && SpeakerOk(topology, i, s) && OnWire(p.address) == Ok(p)
    ensures OffersOnWire(s.rib, p) <==> OffersOnWire(s.redistributed, p) || Offers(s.learned, p)
  {
    hide OnWire;
    hide Classful;
    hide LeastFrom;
    hide IsRefresh;
    if b :| b in s.rib && OnWire(b.prefix.address) == Ok(p) {
      RibHoldsOnly(topology, i, s, b);
      if b !in s.redistributed {
        var l :| l in s.learned && l.prefix == b.prefix;
        var j := LearnedIsPlain(topology, i, s.learned, l);
        PlainOnWire(l.prefix);
      }
    }
    if b :| b in s.redistributed && OnWire(b.prefix.address) == Ok(p) {
      RibOffersRedistributed(topology, i, s, b);
    }
    if l :| l in s.learned && l.prefix == p {
      RibOffersLearned(topology, i, s, l);
    }
  }

  /** Everything renewed before is renewed after, if router i still offers p. */
  lemma RedistributedRecoverable(topology: Topology, configs: seq<Config>, given: seq<Table>, s: System, i: nat,
                                 specs: seq<RouteSpec>, at: real, s': System, p: Prefix)
    requires Redistributed(topology, configs, s, i, specs, at, s')
    requires Recoverable(topology, configs, given, s, p, true)
    requires OffersNow(s, i, p) ==> OffersNow(s', i, p)
    ensures Recoverable(topology, configs, given, s', p, true)
  {
    AfterRedistributed(topology, configs, s, i, specs, at, s');
    hide Redistributed;
    hide RedistributeIn;
    hide IsRefresh;
    hide OffersOnWire;
    hide Names;
    hide NotNearer;
    hide EntriesNotNearer;
    hide HearsAny;
    hide Renewing;
    forall j: nat | OffersNow(s, j, p)
      ensures OffersNow(s', j, p)
    {
    }
    assert OffersOn(s, s', p);
    hide OffersNow;
    forall h | 0 <= h < |s'.nodes|
      ensures RouterRecoverable(topology, configs, given, s', h, p, true)
    {
      RouterRedistributed(topology, configs, given, s, s', h, p);
    }
    forall packet | packet in s'.sent
      ensures PacketRecoverable(topology, given, s', packet, p, true)
    {
      assert PacketRecoverable(topology, given, s, packet, p, true);
      assert OffersNow(s, packet.sender, p) ==> OffersNow(s', packet.sender, p);
    }
  }

  lemma RouterRedistributed(topology: Topology, configs: seq<Config>, given: seq<Table>, s: System, s': System, h: nat,
                            p: Prefix)
    requires topology.Valid() && h < |s.nodes| && h < |s'.nodes| && OffersOn(s, s', p)
    requires RouterRecoverable(topology, configs, given, s, h, p, true)
    requires s'.nodes[h].learned == s.nodes[h].learned
    requires || s'.nodes[h].learnedAtRefresh == s.nodes[h].learnedAtRefresh
             || s'.nodes[h].learnedAtRefresh == s.nodes[h].learned
    ensures RouterRecoverable(topology, configs, given, s', h, p, true)
  {
    hide Renewing;
    hide HearsAny;
    hide OffersOn;
    hide NotNearer;
    var n, n' := s.nodes[h], s'.nodes[h];
    forall k | k in n.learned && k.prefix == p
      ensures Renewing(topology, configs, s', h, k) && HearsAny(topology, configs, h)
    {
      assert RouteRecoverable(topology, configs, given, s, h, k, n.learned[k], true);
      RenewingStays(topology, configs, s, s', h, k);
      RenewingHears(topology, configs, s, h, k);
    }
  }

  // ---- what comes of it ------------------------------------------------

  ghost predicate QuietMove(topology: Topology, configs: seq<Config>, s: System, s': System) {
    && topology.Valid() && |configs| == |s.nodes| == |s'.nodes| == |topology.hears|
    && exists a :: Moves(topology, configs, s, a, s') && Quiet(s, a, s')
  }

  /** Some router is given new routes, and still has p if it offered it. */
  ghost predicate Change(topology: Topology, configs: seq<Config>, s: System, s': System, p: Prefix) {
    exists i: nat, specs, at ::
      && i < |configs| && i < |s.nodes| && Redistributed(topology, configs, s, i, specs, at, s')
      && (OffersNow(s, i, p) ==> StillHas(configs[i], s.nodes[i], specs, at, p))
  }

  /** From the start, with redistributions now and then. */
  ghost predicate IsLivePath(topology: Topology, configs: seq<Config>, run: seq<System>, p: Prefix) {
    && topology.Valid() && run != [] && StartsAt(topology, run[0])
    && forall t :: 0 <= t < |run| - 1 ==>
         || QuietMove(topology, configs, run[t], run[t + 1])
         || Change(topology, configs, run[t], run[t + 1], p)
  }

  ghost predicate AllRenewed(topology: Topology, configs: seq<Config>, s: System, p: Prefix)
    requires topology.Valid()
  {
    Formed(topology, Given(Snaps(s)), s) && Recoverable(topology, configs, Given(Snaps(s)), s, p, true)
  }

  lemma QuietKeepsRenewed(topology: Topology, configs: seq<Config>, s: System, s': System, p: Prefix)
    requires topology.Valid() && QuietMove(topology, configs, s, s') && AllRenewed(topology, configs, s, p)
    ensures AllRenewed(topology, configs, s', p)
  {
    hide Formed;
    hide Recoverable;
    hide Moves;
    hide Quiet;
    var given := Given(Snaps(s));
    var a :| Moves(topology, configs, s, a, s') && Quiet(s, a, s');
    MoveKeepsFormed(topology, configs, given, s, a, s');
    MoveKeepsRecoverable(topology, configs, given, s, a, s', p, true);
    FormedNet(topology, given, s');
  }

  lemma OfferedOnWire(s: System, i: nat, p: Prefix)
    requires OffersNow(s, i, p)
    ensures OnWire(p.address) == Ok(p)
  {
    var k :| k in s.nodes[i].rib && OnWire(k.prefix.address) == Ok(p);
    WireIdempotent(k.prefix.address);
  }

  lemma ChangeKeepsRenewed(topology: Topology, configs: seq<Config>, s: System, s': System, p: Prefix)
    requires topology.Valid() && Change(topology, configs, s, s', p) && AllRenewed(topology, configs, s, p)
    ensures AllRenewed(topology, configs, s', p)
  {
    hide Formed;
    hide Recoverable;
    hide RedistributeIn;
    hide OffersNow;
    hide StillHas;
    hide OnWire;
    hide Redistributed;
    var given := Given(Snaps(s));
    var i: nat, specs, at :|
      && i < |configs| && i < |s.nodes| && Redistributed(topology, configs, s, i, specs, at, s')
      && (OffersNow(s, i, p) ==> StillHas(configs[i], s.nodes[i], specs, at, p));
    FormedLength(topology, given, s);
    RedistributedFormed(topology, configs, given, s, i, specs, at, s');
    if OffersNow(s, i, p) {
      OfferedOnWire(s, i, p);
      OffersIffStillHas(topology, configs, given, s, i, specs, at, s', p);
    }
    RedistributedRecoverable(topology, configs, given, s, i, specs, at, s', p);
    AnyGiven(topology, configs, given, Given(Snaps(s')), s', p, true);
  }

  lemma {:induction false} AlwaysRenewed(topology: Topology, configs: seq<Config>, run: seq<System>, p: Prefix, t: nat)
    requires IsLivePath(topology, configs, run, p) && t < |run|
    ensures AllRenewed(topology, configs, run[t], p)
  {
    hide QuietMove;
    hide Change;
    hide StartsAt;
    hide AllRenewed;
    if t == 0 {
      StartsRenewed(topology, configs, run[0], p);
    } else {
      AlwaysRenewed(topology, configs, run, p, t - 1);
      if QuietMove(topology, configs, run[t - 1], run[t]) {
        QuietKeepsRenewed(topology, configs, run[t - 1], run[t], p);
      } else {
        ChangeKeepsRenewed(topology, configs, run[t - 1], run[t], p);
      }
    }
  }

  lemma StartsRenewed(topology: Topology, configs: seq<Config>, s: System, p: Prefix)
    requires topology.Valid() && StartsAt(topology, s)
    ensures AllRenewed(topology, configs, s, p)
  {
    hide StartsAt;
    hide Formed;
    hide Recoverable;
    StartFormed(topology, s);
    StartsRecoverable(topology, configs, Given(Snaps(s)), s, p);
  }

  /** Whatever was redistributed where and when, as long as no router lost what it
      offered: from the last state on every fair run ends at the distances over
      what the routers were given in the end. */
  lemma RedistributionsRecover(topology: Topology, configs: seq<Config>, before: seq<System>, run: seq<System>,
                               actions: seq<Action>, marks: seq<nat>, s: nat, i: nat, p: Prefix)
    requires IsLivePath(topology, configs, before, p) && run != [] && run[0] == before[|before| - 1]
    requires IsQuietPath(topology, configs, run, actions) && DistinctWires(topology)
    requires Fair(topology, actions, marks) && OwnServed(topology, configs, actions, marks)
    requires HeardClear(topology, Given(Snaps(run[0])), p)
    requires 32 < |marks| && marks[32] <= s < |run| && i < |topology.hears|
    ensures i < |run[s].nodes| && BestMetric(run[s].nodes[i].rib, p) == Distance(topology, Given(Snaps(run[0])), i, p)
  {
    AlwaysRenewed(topology, configs, before, p, |before| - 1);
    AnyGiven(topology, configs, Given(Snaps(run[0])), Given(Snaps(run[0])), run[0], p, false);
    assert Recovering(topology, configs, run, actions, p);
    hide Recovering;
    hide Recoverable;
    hide IsQuietPath;
    hide IsLivePath;
    hide Fair;
    hide OwnServed;
    hide HeardClear;
    hide DistinctWires;
    hide BestMetric;
    hide Distance;
    FairRunsRecover(topology, configs, run, actions, marks, s, i, p);
  }
}
