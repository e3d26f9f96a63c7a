/** A poisoned route makes its receiver answer at once
    (src/rp_rip1/main.py:310-316).  In a line of three these answers need never
    end: a live route stays lost although no message is. */
module Storm {
  import opened Types
  import opened Addressing
  import opened Rip
  import opened RipProperties
  import opened Node
  import opened Network
  import opened Rounds
  import opened Runs
  import opened Convergence
  import opened Counting
  import opened Following
  import opened QuietPaths
  import opened Asynchrony
  import opened FairRuns

  // ---- exact metrics ---------------------------------------------------

  /** Every entry is for p, at metric m, and there is one -- or, for none, there is
      no entry at all. */
  ghost predicate Says(entries: seq<Entry>, p: Prefix, m: Option<nat>) {
    && (forall e :: e in entries ==> OnWire(e.address) == Ok(p) && m == Some(e.metric))
    && (m.Some? <==> entries != [])
  }

  /** The table has nothing but p, best at m. */
  ghost predicate Only(t: Table, p: Prefix, m: Option<nat>) {
    && (forall k :: k in t ==> k.prefix == p)
    && (m.None? ==> t == map[])
    && (m.Some? ==> t != map[] && BestMetric(t, p) == m.value)
  }

  function More(m: Option<nat>): Option<nat> {
    match m
    case None => None
    case Some(b) => Some(OneMore(b))
  }

  /** What a router has at each moment: its learned table and its RIB. */
  ghost predicate Has(n: Node, p: Prefix, learned: Option<nat>, rib: Option<nat>) {
    Only(n.learned, p, learned) && Only(n.rib, p, rib)
  }

  lemma ResponseSays(topology: Topology, j: nat, s: Speaker, entries: seq<Entry>, p: Prefix, m: Option<nat>)
    requires topology.Valid() && j < |topology.hears| && SpeakerOk(topology, j, s) && OnWire(p.address) == Ok(p)
    requires IsResponse(s.rib, topology.wire[j], entries) && Only(s.rib, p, m)
    ensures Says(entries, p, More(m))
  {
    hide SpeakerOk;
    hide OnWire;
    hide LeastFrom;
    forall e | e in entries
      ensures OnWire(e.address) == Ok(p) && More(m) == Some(e.metric)
    {
      var k :| Optimal(s.rib, k) && e == Encode(s.rib[k], topology.wire[j]);
      RibOnWire(topology, j, s, k);
      OptimalIsBest(s.rib, k);
    }
    if entries != [] {
      assert entries[0] in entries;
    }
    if m.Some? {
      var k :| k in s.rib;
      assert Offers(s.rib, p);
      assert Mentions(s.rib, topology.wire[j], entries, p);
    }
  }

  /** What a message says is what is learned. */
  lemma DeliveryOnly(topology: Topology, j: nat, entries: seq<Entry>, p: Prefix, m: Option<nat>, t: Table,
                     before: Option<nat>, at: real)
    requires topology.Valid() && j < |topology.hears| && AllFrom(topology, j, entries) && topology.wire[j] == 0
    requires Says(entries, p, m) && (m.Some? ==> m.value <= MAX_METRIC) && Only(t, p, before)
    requires forall k :: k in t ==> k == Key(p, 0)
    ensures var t' := Learn(t, Decode(entries, topology.address[j], at));
      && Only(t', p, if m.Some? then m else before) && (forall k :: k in t' ==> k == Key(p, 0))
      && (m.None? ==> t' == t && Decode(entries, topology.address[j], at) == [])
      && (m.Some? ==> Decode(entries, topology.address[j], at) != [])
  {
    var sender := topology.address[j];
    var routes := Decode(entries, sender, at);
    var t' := Learn(t, routes);
    if m.Some? {
      DecodeMembers(entries, sender, at);
      var e := entries[0];
      assert e in entries && DecodeEntry(e, sender, at).Some?;
      hide OnWire;
      hide Decode;
      hide Learn;
      forall r | r in routes
        ensures r.identity == Key(p, 0) && r.metric == m.value
      {
        var o :| o in entries && DecodeEntry(o, sender, at) == Some(r);
      }
      assert DecodeEntry(e, sender, at).value in routes;
      LearnedAt(t, routes, Key(p, 0));
      forall k | k in t'
        ensures k == Key(p, 0)
      {
        LearnedAt(t, routes, k);
      }
      OneKeyBest(t', p, m.value);
    }
  }

  lemma OneKeyBest(t: Table, p: Prefix, m: nat)
    requires Key(p, 0) in t && (forall k :: k in t ==> k == Key(p, 0)) && t[Key(p, 0)].metric == m <= MAX_METRIC
    ensures Only(t, p, Some(m))
  {
    hide LeastFrom;
  }

  // ---- one step --------------------------------------------------------

  /** What a router has of p: learned, and in its RIB. */
  datatype Holding = Holding(learned: Option<nat>, rib: Option<nat>)

  ghost predicate Holds(n: Node, p: Prefix, v: Holding) {
    Has(n, p, v.learned, v.rib) && (v.learned.Some? ==> v.learned.value <= MAX_METRIC)
    && forall k :: k in n.learned ==> k == Key(p, 0)
  }

  /** The example: p at router 0, at metric 1. */
  ghost function Source(p: Prefix): seq<Table> {
    [NewSpeaker(p, Some(1)).redistributed, map[], map[]]
  }

  ghost predicate Stands(topology: Topology, s: System, p: Prefix, v: seq<Holding>) {
    && IsLine(topology) && OnWire(p.address) == Ok(p) && Formed(topology, Source(p), s) && |v| == |s.nodes| == 3
    && forall i :: 0 <= i < 3 ==> Holds(s.nodes[i], p, v[i])
  }

  ghost predicate IsStep(topology: Topology, configs: seq<Config>, s: System, a: Action, s': System) {
    && topology.Valid() && |configs| == |topology.hears| == |s.nodes| == |s'.nodes|
    && Moves(topology, configs, s, a, s') && Quiet(s, a, s')
  }

  lemma DoSend(topology: Topology, configs: seq<Config>, s: System, p: Prefix, v: seq<Holding>, i: nat)
      returns (s': System, entries: seq<Entry>)
    requires Stands(topology, s, p, v) && |configs| == 3 && i < 3
    ensures IsStep(topology, configs, s, Send(i, entries), s') && Stands(topology, s', p, v)
    ensures s'.sent == s.sent + {Packet(i, entries)} && s'.nodes == s.nodes && Says(entries, p, More(v[i].rib))
  {
    StandsThree(topology, s, p, v);
    hide OnWire;
    hide Only;
    hide Holds;
    hide IsLine;
    hide Source;
    var rib, wire, none := s.nodes[i].rib, topology.wire[i], Prefix(0, 0);
    entries := Message(rib, wire, none);
    OneEntryEachIsResponse(rib, wire, ListLast(rib, none), entries);
    hide IsResponse;
    hide Message;
    hide OneEntryEach;
    assert RouterFormed(topology, Source(p), i, s.nodes[i]);
    hide RouterFormed;
    ResponseSays(topology, i, Snap(s.nodes[i]), entries, p, v[i].rib);
    s' := s.(sent := s.sent + {Packet(i, entries)});
    MoveKeepsFormed(topology, configs, Source(p), s, Send(i, entries), s');
    hide Formed;
  }

  lemma OneChanges(topology: Topology, s: System, s': System, p: Prefix, v: seq<Holding>, i: nat, view: Holding)
    requires Stands(topology, s, p, v) && i < 3 && Formed(topology, Source(p), s')
    requires s'.nodes == s.nodes[i := s'.nodes[i]] && Holds(s'.nodes[i], p, view)
    ensures Stands(topology, s', p, v[i := view])
  {
    hide Formed;
    hide Holds;
    hide OnWire;
    hide IsLine;
  }

  lemma TakenOne(topology: Topology, config: Config, n: Node, p: Prefix, v: Holding, j: nat, entries: seq<Entry>,
                 m: Option<nat>)
    requires topology.Valid() && j < |topology.hears| && AllFrom(topology, j, entries) && topology.wire[j] == 0
    requires Holds(n, p, v) && Says(entries, p, m) && (m.Some? ==> m.value <= MAX_METRIC)
    ensures var n' := Receiving(config, n, Receive(entries, topology.address[j], false, 0.0));
      Holds(n', p, Holding(if m.Some? then m else v.learned, v.rib)) && n'.rib == n.rib
  {
    DeliveryOnly(topology, j, entries, p, m, n.learned, v.learned, 0.0);
    hide Only;
    hide Says;
    hide Decode;
    hide Learn;
  }

  lemma DeliverMoves(topology: Topology, configs: seq<Config>, s: System, j: nat, i: nat, entries: seq<Entry>)
      returns (s': System)
    requires topology.Valid() && |configs| == |topology.hears| == |s.nodes| && i < |s.nodes|
    requires j in topology.hears[i] && j != i && Packet(j, entries) in s.sent
    ensures IsStep(topology, configs, s, Deliver(i, Packet(j, entries), 0.0), s') && s'.sent == s.sent
    ensures var e := Receive(entries, topology.address[j], false, 0.0);
      s'.nodes == s.nodes[i := Receiving(configs[i], s.nodes[i], e)]
  {
    hide Receiving;
    var e := Receive(entries, topology.address[j], false, 0.0);
    s' := s.(nodes := s.nodes[i := Receiving(configs[i], s.nodes[i], e)]);
  }

  lemma DoDeliver(topology: Topology, configs: seq<Config>, s: System, p: Prefix, v: seq<Holding>, j: nat, i: nat,
                  entries: seq<Entry>, m: Option<nat>) returns (s': System)
    requires Stands(topology, s, p, v) && |configs| == 3 && i < 3 && j in topology.hears[i] && j != i
    requires Packet(j, entries) in s.sent && Says(entries, p, m) && (m.Some? ==> m.value <= MAX_METRIC)
    ensures IsStep(topology, configs, s, Deliver(i, Packet(j, entries), 0.0), s') && s'.sent == s.sent
    ensures Stands(topology, s', p, v[i := Holding(if m.Some? then m else v[i].learned, v[i].rib)])
    ensures forall h :: 0 <= h < 3 ==> s'.nodes[h].rib == s.nodes[h].rib
  {
    hide OnWire;
    hide Holds;
    hide Says;
    hide AllFrom;
    hide Formed;
    hide IsStep;
    hide Receiving;
    PacketsComeFrom(topology, Source(p), s, Packet(j, entries));
    assert Holds(s.nodes[i], p, v[i]) && |topology.hears| == 3 && topology.wire[j] == 0;
    TakenOne(topology, configs[i], s.nodes[i], p, v[i], j, entries, m);
    s' := DeliverMoves(topology, configs, s, j, i, entries);
    hide IsLine;
    StepKeepsFormed(topology, configs, s, Deliver(i, Packet(j, entries), 0.0), s', p);
    OneChanges(topology, s, s', p, v, i, Holding(if m.Some? then m else v[i].learned, v[i].rib));
  }

  lemma StepKeepsFormed(topology: Topology, configs: seq<Config>, s: System, a: Action, s': System, p: Prefix)
    requires IsStep(topology, configs, s, a, s') && Formed(topology, Source(p), s)
    ensures Formed(topology, Source(p), s')
  {
    hide Formed;
    hide Moves;
    hide Quiet;
    MoveKeepsFormed(topology, configs, Source(p), s, a, s');
  }

  /** The better of what was given and what was learned. */
  function Better(g: Option<nat>, l: Option<nat>): Option<nat> {
    if g.None? then l else if l.None? then g else Some(Min(g.value, l.value))
  }

  ghost function GivenAt(i: nat): Option<nat> {
    if i == 0 then Some(1) else None
  }

  /** A rebuilt RIB has the better of both. */
  lemma RibOnly(topology: Topology, net: seq<Speaker>, p: Prefix, i: nat, learned: Option<nat>)
    requires ZeroWires(topology) && NetOk(topology, net) && |net| == 3 && i < 3 && Given(net) == Source(p)
    requires Only(net[i].learned, p, learned) && (learned.Some? ==> learned.value <= MAX_METRIC)
    requires forall k :: k in net[i].learned ==> k == Key(p, 0)
    ensures Only(net[i].rib, p, Better(GivenAt(i), learned))
  {
    hide SpeakerOk;
    hide BestMetric;
    hide Source;
    hide OnWire;
    hide ZeroWires;
    assert net[i].redistributed == Given(net)[i];
    hide Given;
    SourceBest(p, i);
    var m := if learned.Some? then learned.value else MAX_METRIC;
    if k :| k in net[i].learned {
      ShownApart(topology, net, p, i, k);
      RibOffersLearned(topology, i, net[i], k);
      OneKey(net[i].learned, p, k);
    }
    BestOfTables(topology, net, i, p, m);
    RibPrefixes(topology, net, i, p);
  }

  lemma RebuiltOnly(topology: Topology, s: System, p: Prefix, i: nat, learned: Option<nat>)
    requires IsLine(topology) && Formed(topology, Source(p), s) && |s.nodes| == 3 && i < 3
    requires s.nodes[i].learnedAtRefresh == s.nodes[i].learned && Only(s.nodes[i].learned, p, learned)
    requires learned.Some? ==> learned.value <= MAX_METRIC
    requires forall k :: k in s.nodes[i].learned ==> k == Key(p, 0)
    ensures Only(s.nodes[i].rib, p, Better(GivenAt(i), learned))
  {
    assert ZeroWires(topology);
    hide IsLine;
    hide Source;
    hide Only;
    hide Better;
    hide GivenAt;
    FormedNet(topology, Source(p), s);
    hide Formed;
    hide NetOk;
    RibOnly(topology, Snaps(s), p, i, learned);
  }

  lemma OneKey(t: Table, p: Prefix, k: Key)
    requires k in t && forall l :: l in t ==> l == Key(p, 0)
    ensures k == Key(p, 0) && t[k].metric >= BestMetric(t, p)
    ensures BestMetric(t, p) == Min(t[k].metric, MAX_METRIC)
  {
    hide LeastFrom;
  }

  lemma SourceBest(p: Prefix, i: nat)
    requires i < 3
    ensures BestMetric(Source(p)[i], p) == (if i == 0 then 1 else MAX_METRIC)
    ensures forall k :: k in Source(p)[i] ==> k == Key(p, 0) && i == 0
    ensures i == 0 ==> Key(p, 0) in Source(p)[0]
  {
    hide LeastFrom;
    if i == 0 {
      var k := Key(p, 0);
      assert k in Source(p)[0] && Source(p)[0][k].metric == 1;
    }
  }

  lemma ShownApart(topology: Topology, net: seq<Speaker>, p: Prefix, i: nat, k: Key)
    requires NetOk(topology, net) && |net| == 3 && i < 3 && Given(net) == Source(p) && k in net[i].learned
    ensures net[i].learned[k].Shown() !in net[i].redistributed
  {
    hide SpeakerOk;
    SpeakerHears(topology, i, net[i]);
    var j := LearnedIsPlain(topology, i, net[i].learned, k);
    SourceBest(p, i);
    assert net[i].redistributed == Given(net)[i];
    hide Plain;
    hide BestMetric;
  }

  lemma RibPrefixes(topology: Topology, net: seq<Speaker>, i: nat, p: Prefix)
    requires NetOk(topology, net) && |net| == 3 && i < 3 && Given(net) == Source(p)
    requires forall k :: k in net[i].learned ==> k == Key(p, 0)
    ensures forall k :: k in net[i].rib ==> k.prefix == p
    ensures net[i].rib == map[] <==> net[i].learned == map[] && i != 0
  {
    hide SpeakerOk;
    hide BestMetric;
    SourceBest(p, i);
    assert net[i].redistributed == Given(net)[i];
    forall k | k in net[i].rib
      ensures k.prefix == p && (net[i].learned != map[] || i == 0)
    {
      RibHoldsOnly(topology, i, net[i], k);
    }
    if k :| k in net[i].learned {
      RibOffersLearned(topology, i, net[i], k);
    }
    if i == 0 {
      RibOffersRedistributed(topology, i, net[i], Key(p, 0));
    }
  }

  lemma RebuildMoves(topology: Topology, configs: seq<Config>, s: System, i: nat) returns (s': System, a: Action)
    requires topology.Valid() && |configs| == |topology.hears| == |s.nodes| && i < |s.nodes|
    ensures IsStep(topology, configs, s, a, s') && IsRebuild(a, i) && s'.sent == s.sent
    ensures s'.nodes == s.nodes[i := s'.nodes[i]] && s'.nodes[i].learned == s.nodes[i].learned
    ensures s'.nodes[i].learnedAtRefresh == s.nodes[i].learned
  {
    var n := s.nodes[i];
    var rib := SomeRib(n.redistributed, n.learned, 0.0);
    hide SomeRib;
    hide IsRefresh;
    var cause := if 0 < n.afterResponse then AfterResponse else OnRequest;
    a := Act(i, Refresh(cause, rib, 0.0));
    s' := s.(nodes := s.nodes[i := Refreshing(configs[i], n, cause, rib, 0.0)]);
  }

  lemma DoRebuild(topology: Topology, configs: seq<Config>, s: System, p: Prefix, v: seq<Holding>, i: nat)
      returns (s': System, a: Action)
    requires Stands(topology, s, p, v) && |configs| == 3 && i < 3
    ensures IsStep(topology, configs, s, a, s') && IsRebuild(a, i) && s'.sent == s.sent
    ensures Stands(topology, s', p, v[i := Holding(v[i].learned, Better(GivenAt(i), v[i].learned))])
    ensures forall h :: 0 <= h < 3 && h != i ==> s'.nodes[h].rib == s.nodes[h].rib
  {
    hide OnWire;
    hide Only;
    hide Formed;
    hide IsStep;
    hide Better;
    assert Holds(s.nodes[i], p, v[i]) && |topology.hears| == 3;
    s', a := RebuildMoves(topology, configs, s, i);
    StepKeepsFormed(topology, configs, s, a, s', p);
    RebuiltOnly(topology, s', p, i, v[i].learned);
    hide IsLine;
    var view := Holding(v[i].learned, Better(GivenAt(i), v[i].learned));
    assert Holds(s'.nodes[i], p, view);
    hide Holds;
    OneChanges(topology, s, s', p, v, i, view);
  }

  // ---- one cycle -------------------------------------------------------

  /** Eleven actions: 0 sends, 1 takes it; 2 sends, 1 takes it; 1 sends, 0 and 2
      take it -- and whoever takes something rebuilds its RIB at once. */
  ghost predicate IsCycle(c: seq<Action>) {
    && |c| == 11
    && (c[0].Send? && c[0].i == 0)
    && (Takes(c[1], 1, c[0]) && IsRebuild(c[2], 1))
    && (c[3].Send? && c[3].i == 2)
    && (Takes(c[4], 1, c[3]) && IsRebuild(c[5], 1))
    && (c[6].Send? && c[6].i == 1)
    && (Takes(c[7], 0, c[6]) && IsRebuild(c[8], 0))
    && (Takes(c[9], 2, c[6]) && IsRebuild(c[10], 2))
  }

  ghost predicate Takes(a: Action, i: nat, sent: Action) {
    a.Deliver? && a.i == i && IsSend(sent, a.packet)
  }

  ghost predicate IsStretch(topology: Topology, configs: seq<Config>, states: seq<System>, c: seq<Action>) {
    |states| == |c| + 1 && forall t :: 0 <= t < |c| ==> IsStep(topology, configs, states[t], c[t], states[t + 1])
  }

  /** What router 2 has makes its way to router 1 and, one hop more, back. */
  function Echo(b: Option<nat>): Option<nat> {
    if b.None? then Some(2) else More(b)
  }

  /** The state between two cycles, router 2 having b. */
  ghost predicate Between(topology: Topology, s: System, p: Prefix, b: Option<nat>) {
    exists v: seq<Holding> :: Stands(topology, s, p, v) && |v| == 3 && v[0].rib == Some(1) && v[2].rib == b
  }

  /** While a cycle runs router 2's RIB has b until its end, and router 1 sends
      when its own has the echo of b; router 0 says 2, and they say one more than
      what they have. */
  ghost predicate CycleShows(states: seq<System>, c: seq<Action>, p: Prefix, b: Option<nat>)
    requires |states| == 12 && |c| == 11
  {
    && (forall t :: 0 <= t < 11 ==> |states[t].nodes| == 3 && Only(states[t].nodes[2].rib, p, b))
    && |states[11].nodes| == 3 && Only(states[11].nodes[2].rib, p, More(Echo(b)))
    && Only(states[6].nodes[1].rib, p, Echo(b))
    && c[1].Deliver? && Says(c[1].packet.entries, p, Some(2))
    && c[3].Send? && Says(c[3].entries, p, More(b))
    && c[6].Send? && Says(c[6].entries, p, More(Echo(b)))
  }

  /** One stretch after another: the state between them is counted once. */
  ghost function Join(x: seq<System>, y: seq<System>): (z: seq<System>)
    requires y != []
    ensures |z| == |x| + |y| - 1
    ensures forall t :: 0 <= t < |x| ==> z[t] == x[t]
    ensures forall t :: |x| <= t < |z| ==> z[t] == y[t - |x| + 1]
  {
    x + y[1..]
  }

  lemma Joined(topology: Topology, configs: seq<Config>, x: seq<System>, a: seq<Action>, y: seq<System>, b: seq<Action>)
    requires IsStretch(topology, configs, x, a) && IsStretch(topology, configs, y, b)
    requires |x| == |a| + 1 && |y| == |b| + 1 && y[0] == x[|a|]
    ensures IsStretch(topology, configs, Join(x, y), a + b)
  {
    hide IsStep;
    hide Join;
    var states, actions := Join(x, y), a + b;
    forall t | 0 <= t < |actions|
      ensures IsStep(topology, configs, states[t], actions[t], states[t + 1])
    {
      if t < |a| {
        assert states[t] == x[t] && states[t + 1] == x[t + 1];
      } else {
        assert states[t] == y[t - |a|] && states[t + 1] == y[t - |a| + 1] && actions[t] == b[t - |a|];
      }
    }
  }

  lemma StandsThree(topology: Topology, s: System, p: Prefix, v: seq<Holding>)
    requires Stands(topology, s, p, v)
    ensures IsLine(topology) && |v| == |s.nodes| == 3 && forall i :: 0 <= i < 3 ==> Only(s.nodes[i].rib, p, v[i].rib)
  {
    hide Only;
  }

  /** Router i takes a message and rebuilds its RIB. */
  lemma TakeIn(topology: Topology, configs: seq<Config>, s: System, p: Prefix, v: seq<Holding>, j: nat, i: nat,
               entries: seq<Entry>, m: Option<nat>) returns (states: seq<System>, c: seq<Action>, w: seq<Holding>)
    requires Stands(topology, s, p, v) && |configs| == 3 && i < 3 && j in topology.hears[i] && j != i
    requires Packet(j, entries) in s.sent && Says(entries, p, m) && (m.Some? ==> m.value <= MAX_METRIC)
    ensures |c| == 2 && |states| == 3 && IsStretch(topology, configs, states, c) && states[0] == s
    ensures Stands(topology, states[2], p, w)
    ensures c[0] == Deliver(i, Packet(j, entries), 0.0) && IsRebuild(c[1], i) && states[2].sent == s.sent
    ensures var learned := if m.Some? then m else v[i].learned;
      w == v[i := Holding(learned, Better(GivenAt(i), learned))]
    ensures |states[1].nodes| == |states[2].nodes| == |s.nodes| == 3 && states[1].nodes[2].rib == s.nodes[2].rib
    ensures i != 2 ==> states[2].nodes[2].rib == s.nodes[2].rib
  {
    hide Says;
    hide IsStep;
    hide Better;
    hide IsRebuild;
    hide Stands;
    StandsThree(topology, s, p, v);
    var s1 := DoDeliver(topology, configs, s, p, v, j, i, entries, m);
    var v1 := v[i := Holding(if m.Some? then m else v[i].learned, v[i].rib)];
    StandsThree(topology, s1, p, v1);
    var s2, a := DoRebuild(topology, configs, s1, p, v1, i);
    w := v1[i := Holding(v1[i].learned, Better(GivenAt(i), v1[i].learned))];
    StandsThree(topology, s2, p, w);
    states, c := [s, s1, s2], [Deliver(i, Packet(j, entries), 0.0), a];
  }

  /** Router j sends, and router i takes it. */
  lemma SendTake(topology: Topology, configs: seq<Config>, s: System, p: Prefix, v: seq<Holding>, j: nat, i: nat)
      returns (states: seq<System>, c: seq<Action>, entries: seq<Entry>, w: seq<Holding>)
    requires Stands(topology, s, p, v) && |configs| == 3 && i < 3 && j < 3 && j in topology.hears[i] && j != i
    ensures |c| == 3 && |states| == 4 && IsStretch(topology, configs, states, c) && states[0] == s
    ensures Stands(topology, states[3], p, w)
    ensures c[0] == Send(j, entries) && c[1] == Deliver(i, Packet(j, entries), 0.0) && IsRebuild(c[2], i)
    ensures Says(entries, p, More(v[j].rib)) && Packet(j, entries) in states[3].sent
    ensures var m := More(v[j].rib); var learned := if m.Some? then m else v[i].learned;
      w == v[i := Holding(learned, Better(GivenAt(i), learned))]
    ensures forall t :: 0 <= t <= 2 ==> |states[t].nodes| == 3 && states[t].nodes[2].rib == s.nodes[2].rib
    ensures |states[3].nodes| == |s.nodes| == 3 && (i != 2 ==> states[3].nodes[2].rib == s.nodes[2].rib)
  {
    hide Says;
    hide Stands;
    hide IsStep;
    hide IsRebuild;
    hide IsStretch;
    StandsThree(topology, s, p, v);
    var s1;
    s1, entries := DoSend(topology, configs, s, p, v, j);
    var rest, d;
    rest, d, w := TakeIn(topology, configs, s1, p, v, j, i, entries, More(v[j].rib));
    states, c := [s] + rest, [Send(j, entries)] + d;
    Prepended(topology, configs, s, Send(j, entries), rest, d);
  }

  lemma Prepended(topology: Topology, configs: seq<Config>, s: System, a: Action, rest: seq<System>, c: seq<Action>)
    requires IsStretch(topology, configs, rest, c) && |rest| == |c| + 1 && IsStep(topology, configs, s, a, rest[0])
    ensures IsStretch(topology, configs, [s] + rest, [a] + c)
  {
    hide IsStep;
    forall t | 0 <= t < |c| + 1
      ensures IsStep(topology, configs, ([s] + rest)[t], ([a] + c)[t], ([s] + rest)[t + 1])
    {
      if t > 0 { assert ([s] + rest)[t] == rest[t - 1]; }
    }
  }

  lemma Neighbours(topology: Topology)
    requires IsLine(topology)
    ensures |topology.hears| == 3 && 0 in topology.hears[1] && 2 in topology.hears[1]
    ensures 1 in topology.hears[0] && 1 in topology.hears[2]
  {
  }

  lemma FirstHalf(topology: Topology, configs: seq<Config>, s: System, p: Prefix, v: seq<Holding>, b: Option<nat>)
      returns (states: seq<System>, c: seq<Action>, w: seq<Holding>)
    requires Stands(topology, s, p, v) && |configs| == 3 && v[0].rib == Some(1) && v[2].rib == b
    ensures |c| == 6 && |states| == 7 && IsStretch(topology, configs, states, c) && states[0] == s
    ensures Stands(topology, states[6], p, w)
    ensures |w| == 3 && w[0].rib == Some(1) && w[1].rib == Echo(b) && w[2].rib == b
    ensures c[0].Send? && c[0].i == 0 && Takes(c[1], 1, c[0]) && IsRebuild(c[2], 1)
    ensures c[3].Send? && c[3].i == 2 && Takes(c[4], 1, c[3]) && IsRebuild(c[5], 1)
    ensures forall t :: 0 <= t <= 6 ==> |states[t].nodes| == 3 && states[t].nodes[2].rib == s.nodes[2].rib
    ensures |s.nodes| == 3 && Says(c[1].packet.entries, p, Some(2)) && Says(c[3].entries, p, More(b))
  {
    hide Stands;
    hide Says;
    hide Only;
    hide IsRebuild;
    hide IsStretch;
    hide Join;
    hide IsLine;
    StandsThree(topology, s, p, v);
    Neighbours(topology);
    var x, a, m0, u := SendTake(topology, configs, s, p, v, 0, 1);
    StandsThree(topology, x[3], p, u);
    var y, d, m2;
    y, d, m2, w := SendTake(topology, configs, x[3], p, u, 2, 1);
    StandsThree(topology, y[3], p, w);
    Joined(topology, configs, x, a, y, d);
    states, c := Join(x, y), a + d;
  }

  lemma SecondHalf(topology: Topology, configs: seq<Config>, s: System, p: Prefix, v: seq<Holding>, x: Option<nat>)
      returns (states: seq<System>, c: seq<Action>, w: seq<Holding>)
    requires Stands(topology, s, p, v) && |configs| == 3 && v[0].rib == Some(1) && v[1].rib == x && x.Some?
    ensures |c| == 5 && |states| == 6 && IsStretch(topology, configs, states, c) && states[0] == s
    ensures Stands(topology, states[5], p, w)
    ensures |w| == 3 && w[0].rib == Some(1) && w[2].rib == More(x)
    ensures c[0].Send? && c[0].i == 1 && Says(c[0].entries, p, More(x)) && Takes(c[1], 0, c[0]) && IsRebuild(c[2], 0)
    ensures Takes(c[3], 2, c[0]) && IsRebuild(c[4], 2)
    ensures forall t :: 0 <= t <= 4 ==> |states[t].nodes| == 3 && states[t].nodes[2].rib == s.nodes[2].rib
    ensures |states[5].nodes| == |s.nodes| == 3
  {
    hide Stands;
    hide Says;
    hide Only;
    hide IsRebuild;
    hide IsStretch;
    hide Join;
    hide IsLine;
    StandsThree(topology, s, p, v);
    Neighbours(topology);
    var early, a, m1, u := SendTake(topology, configs, s, p, v, 1, 0);
    StandsThree(topology, early[3], p, u);
    var late, d;
    late, d, w := TakeIn(topology, configs, early[3], p, u, 1, 2, m1, More(x));
    StandsThree(topology, late[2], p, w);
    Joined(topology, configs, early, a, late, d);
    states, c := Join(early, late), a + d;
  }

  lemma OneCycle(topology: Topology, configs: seq<Config>, s: System, p: Prefix, b: Option<nat>)
      returns (states: seq<System>, c: seq<Action>)
    requires Between(topology, s, p, b) && |configs| == 3
    ensures |c| == 11 && |states| == 12 && IsStretch(topology, configs, states, c) && IsCycle(c) && states[0] == s
    ensures CycleShows(states, c, p, b) && Between(topology, states[11], p, More(Echo(b)))
  {
    hide Says;
    hide Only;
    hide IsRebuild;
    hide IsSend;
    hide IsStretch;
    hide Join;
    hide Stands;
    var v: seq<Holding> :| Stands(topology, s, p, v) && |v| == 3 && v[0].rib == Some(1) && v[2].rib == b;
    StandsThree(topology, s, p, v);
    var early, x, u := FirstHalf(topology, configs, s, p, v, b);
    StandsThree(topology, early[6], p, u);
    var late, y, w := SecondHalf(topology, configs, early[6], p, u, Echo(b));
    StandsThree(topology, late[5], p, w);
    Joined(topology, configs, early, x, late, y);
    states, c := Join(early, late), x + y;
  }

  // ---- cycle after cycle -----------------------------------------------

  /** What router 2 has after n cycles: 3, 5, 7, ... and 16 from the eighth on. */
  function Level(n: nat): Option<nat> {
    if n == 0 then None else More(Echo(Level(n - 1)))
  }

  lemma {:induction false} LevelRises(n: nat)
    requires 8 <= n
    ensures Level(n) == Some(MAX_METRIC)
  {
    if n == 8 {
      assert Level(1) == Some(3) && Level(2) == Some(5);
      assert Level(3) == Some(7) && Level(4) == Some(9);
      assert Level(5) == Some(11) && Level(6) == Some(13);
      assert Level(7) == Some(15);
    } else {
      LevelRises(n - 1);
    }
  }

  /** The k-th cycle of a run. */
  ghost predicate CycleAt(run: seq<System>, actions: seq<Action>, p: Prefix, k: nat)
    requires |run| == |actions| + 1
  {
    && 11 * k + 11 <= |actions|
    && IsCycle(actions[11 * k..11 * k + 11])
    && CycleShows(run[11 * k..11 * k + 12], actions[11 * k..11 * k + 11], p, Level(k))
  }

  lemma StretchExtends(topology: Topology, configs: seq<Config>, run: seq<System>, actions: seq<Action>,
                       states: seq<System>, c: seq<Action>)
    requires IsQuietRun(topology, configs, run, actions) && IsStretch(topology, configs, states, c)
    requires |states| == |c| + 1 && |run| == |actions| + 1 && states[0] == run[|actions|]
    ensures IsQuietRun(topology, configs, Join(run, states), actions + c)
  {
    hide Join;
    hide Moves;
    hide Quiet;
    hide StartsAt;
    var longer, all := Join(run, states), actions + c;
    forall t | 0 <= t < |all|
      ensures |longer[t].nodes| == |configs| && Moves(topology, configs, longer[t], all[t], longer[t + 1])
      ensures Quiet(longer[t], all[t], longer[t + 1])
    {
      if |actions| <= t {
        assert longer[t] == states[t - |actions|] && longer[t + 1] == states[t - |actions| + 1];
        assert IsStep(topology, configs, states[t - |actions|], c[t - |actions|], states[t - |actions| + 1]);
      }
    }
  }

  lemma LineSource(topology: Topology, p: Prefix)
    requires IsLine(topology) && Plain(p)
    ensures var net := NewNet(p, [Some(1), None, None]);
      Start(topology, net) && |net| == 3 && Given(net) == Source(p)
  {
    NewNetStarts(topology, p, [Some(1), None, None]);
    hide Start;
    hide Plain;
    var net := NewNet(p, [Some(1), None, None]);
    assert |Given(net)| == |Source(p)|;
    assert forall i :: 0 <= i < 3 ==> Given(net)[i] == Source(p)[i];
  }

  lemma StandsAtFirst(topology: Topology, s: System, p: Prefix, v: seq<Holding>)
    requires IsLine(topology) && OnWire(p.address) == Ok(p) && Formed(topology, Source(p), s) && |s.nodes| == 3
    requires v == [Holding(None, Some(1)), Holding(None, None), Holding(None, None)]
    requires forall i :: 0 <= i < 3 ==> Holds(s.nodes[i], p, v[i])
    ensures Between(topology, s, p, None)
  {
    hide IsLine;
    hide OnWire;
    hide Formed;
    hide Holds;
    assert Stands(topology, s, p, v);
    hide Stands;
  }

  lemma LineBegins(topology: Topology, p: Prefix)
    requires IsLine(topology) && Plain(p)
    ensures var s := At(NewNet(p, [Some(1), None, None]));
      && StartsAt(topology, s) && Formed(topology, Given(Snaps(s)), s) && Given(Snaps(s)) == Source(p)
      && Between(topology, s, p, None)
  {
    assert topology.Valid();
    hide Plain;
    hide Formed;
    hide StartsAt;
    hide OnWire;
    hide Holds;
    hide NewNet;
    hide Start;
    hide At;
    hide Source;
    hide IsLine;
    hide Between;
    hide Given;
    hide Snaps;
    PlainOnWire(p);
    var net := NewNet(p, [Some(1), None, None]);
    LineSource(topology, p);
    AtStarts(topology, net);
    var s := At(net);
    StartFormed(topology, s);
    LineHolds(p);
    var v := [Holding(None, Some(1)), Holding(None, None), Holding(None, None)];
    StandsAtFirst(topology, s, p, v);
  }

  lemma LineHolds(p: Prefix)
    ensures var s := At(NewNet(p, [Some(1), None, None]));
      && |s.nodes| == 3 && Holds(s.nodes[0], p, Holding(None, Some(1)))
      && Holds(s.nodes[1], p, Holding(None, None)) && Holds(s.nodes[2], p, Holding(None, None))
  {
    hide LeastFrom;
    var s := At(NewNet(p, [Some(1), None, None]));
    var k := Key(p, 0);
    assert k in s.nodes[0].rib && s.nodes[0].rib[k].metric == 1;
  }

  lemma {:induction false} StormRun(topology: Topology, configs: seq<Config>, p: Prefix, n: nat)
      returns (run: seq<System>, actions: seq<Action>)
    requires IsLine(topology) && Plain(p) && |configs| == 3
    ensures IsQuietRun(topology, configs, run, actions) && |actions| == 11 * n && |run| == 11 * n + 1
    ensures run[0] == At(NewNet(p, [Some(1), None, None]))
    ensures Between(topology, run[11 * n], p, Level(n))
    ensures forall k: nat :: k < n ==> CycleAt(run, actions, p, k)
  {
    hide Plain;
    hide Between;
    hide Level;
    hide StartsAt;
    hide Formed;
    hide Moves;
    hide Quiet;
    hide At;
    if n == 0 {
      LineBegins(topology, p);
      LevelZero();
      run, actions := [At(NewNet(p, [Some(1), None, None]))], [];
      AtThree(p);
      assert |topology.hears| == 3;
    } else {
      hide IsQuietRun;
      var before, earlier := StormRun(topology, configs, p, n - 1);
      var states, c := OneCycle(topology, configs, before[11 * (n - 1)], p, Level(n - 1));
      LevelNext(n);
      StretchExtends(topology, configs, before, earlier, states, c);
      run, actions := Join(before, states), earlier + c;
      hide IsStretch;
      hide IsLine;
      forall k: nat | k < n
        ensures CycleAt(run, actions, p, k)
      {
        CycleKept(before, earlier, states, c, p, n, k);
      }
    }
  }

  lemma LevelZero()
    ensures Level(0) == None
  {
  }

  lemma LevelNext(n: nat)
    requires 0 < n
    ensures Level(n) == More(Echo(Level(n - 1)))
  {
  }

  lemma AtThree(p: Prefix)
    ensures |At(NewNet(p, [Some(1), None, None])).nodes| == 3
  {
  }

  lemma CycleKept(run: seq<System>, actions: seq<Action>, states: seq<System>, c: seq<Action>, p: Prefix, n: nat,
                  k: nat)
    requires 0 < n && k < n && |actions| == 11 * (n - 1) && |run| == |actions| + 1 && |states| == 12 && |c| == 11
    requires states[0] == run[|actions|] && IsCycle(c) && CycleShows(states, c, p, Level(n - 1))
    requires k < n - 1 ==> CycleAt(run, actions, p, k)
    ensures CycleAt(Join(run, states), actions + c, p, k)
  {
    hide IsCycle;
    hide CycleShows;
    hide Level;
    hide Join;
    var longer, all, lo := Join(run, states), actions + c, 11 * k;
    if k < n - 1 {
      assert lo + 11 <= |actions|;
      assert longer[lo..lo + 12] == run[lo..lo + 12];
      assert all[lo..lo + 11] == actions[lo..lo + 11];
    } else {
      assert longer[lo..lo + 12] == states;
      assert all[lo..lo + 11] == c;
    }
  }

  // ---- every poison is answered, and nothing is lost -------------------

  ghost function RouterOf(a: Action): nat {
    match a
    case Send(i, _) => i
    case Deliver(i, _, _) => i
    case Act(i, _) => i
  }

  /** What router i does next after t is u. */
  ghost predicate NextOf(actions: seq<Action>, i: nat, t: nat, u: nat) {
    t < u < |actions| && RouterOf(actions[u]) == i && forall w :: t < w < u ==> RouterOf(actions[w]) != i
  }

  /** After what it took at t, router i rebuilds its RIB and then sends. */
  ghost predicate AnswersPoison(actions: seq<Action>, t: nat, i: nat) {
    exists r: nat, u: nat ::
      NextOf(actions, i, t, r) && IsRebuild(actions[r], i) && NextOf(actions, i, r, u) && actions[u].Send?
  }

  ghost predicate Poisons(entries: seq<Entry>) {
    exists e :: e in entries && MAX_METRIC <= e.metric
  }

  /** Whoever takes a poisoned route answers it at once. */
  ghost predicate Obeys(actions: seq<Action>) {
    forall t :: 0 <= t < |actions| - 11 && actions[t].Deliver? && Poisons(actions[t].packet.entries) ==>
      AnswersPoison(actions, t, actions[t].i)
  }

  /** Router i takes what is sent at t before its sender sends again. */
  ghost predicate Arrives(actions: seq<Action>, t: nat, i: nat) {
    exists u :: && t < u < |actions| && Takes(actions[u], i, actions[t])
                && forall w :: t < w < u ==> !(actions[w].Send? && actions[w].i == RouterOf(actions[t]))
  }

  ghost predicate LosesNothing(topology: Topology, actions: seq<Action>) {
    forall t, i :: 0 <= t < |actions| && actions[t].Send? && Listens(topology, actions[t].i, i) ==>
      Arrives(actions, t, i)
  }

  ghost predicate Cycles(actions: seq<Action>, p: Prefix, n: nat) {
    |actions| == 11 * n && forall k: nat :: k < n ==> GoodCycle(actions, p, k)
  }

  ghost predicate GoodCycle(actions: seq<Action>, p: Prefix, k: nat) {
    && 11 * k + 11 <= |actions| && IsCycle(actions[11 * k..11 * k + 11])
    && actions[11 * k + 1].Deliver? && Says(actions[11 * k + 1].packet.entries, p, Some(2))
    && actions[11 * k + 3].Send? && Says(actions[11 * k + 3].entries, p, More(Level(k)))
    && actions[11 * k + 6].Send? && Says(actions[11 * k + 6].entries, p, More(Echo(Level(k))))
  }

  /** One cycle that starts at o, action by action. */
  ghost predicate Spelled(actions: seq<Action>, o: nat) {
    && o + 11 <= |actions|
    && actions[o].Send? && actions[o].i == 0 && Takes(actions[o + 1], 1, actions[o]) && IsRebuild(actions[o + 2], 1)
    && actions[o + 3].Send? && actions[o + 3].i == 2 && Takes(actions[o + 4], 1, actions[o + 3])
    && IsRebuild(actions[o + 5], 1) && actions[o + 6].Send? && actions[o + 6].i == 1
    && Takes(actions[o + 7], 0, actions[o + 6]) && IsRebuild(actions[o + 8], 0)
    && Takes(actions[o + 9], 2, actions[o + 6]) && IsRebuild(actions[o + 10], 2)
  }

  lemma CycleSpelled(actions: seq<Action>, p: Prefix, k: nat)
    requires GoodCycle(actions, p, k)
    ensures Spelled(actions, 11 * k)
  {
    hide Says;
    hide Level;
    hide Echo;
    var o, c := 11 * k, actions[11 * k..11 * k + 11];
    assert forall r :: 0 <= r < 11 ==> c[r] == actions[o + r];
  }

  lemma MildMessage(entries: seq<Entry>, p: Prefix)
    requires Says(entries, p, Some(2))
    ensures !Poisons(entries)
  {
    hide OnWire;
  }

  /** Two cycles: the poisoned routes of the first are answered in it or in the
      second. */
  lemma SpelledObeys(actions: seq<Action>, o: nat, r: nat)
    requires Spelled(actions, o) && Spelled(actions, o + 11) && (r == 4 || r == 7 || r == 9)
    ensures AnswersPoison(actions, o + r, actions[o + r].i)
  {
    hide IsSend;
    if r == 4 {
      assert NextOf(actions, 1, o + 4, o + 5) && NextOf(actions, 1, o + 5, o + 6);
    } else if r == 7 {
      assert NextOf(actions, 0, o + 7, o + 8) && NextOf(actions, 0, o + 8, o + 11);
    } else {
      assert NextOf(actions, 2, o + 9, o + 10) && NextOf(actions, 2, o + 10, o + 14);
    }
  }

  lemma SpelledTakes(actions: seq<Action>, o: nat, r: nat)
    requires Spelled(actions, o) && r < 11 && actions[o + r].Deliver?
    ensures r == 1 || r == 4 || r == 7 || r == 9
  {
    hide IsSend;
  }

  lemma CycleObeys(actions: seq<Action>, p: Prefix, k: nat, r: nat)
    requires GoodCycle(actions, p, k) && GoodCycle(actions, p, k + 1) && r < 11 && 11 * k + 11 <= |actions|
    requires actions[11 * k + r].Deliver? && Poisons(actions[11 * k + r].packet.entries)
    ensures AnswersPoison(actions, 11 * k + r, actions[11 * k + r].i)
  {
    hide GoodCycle;
    hide Poisons;
    hide Spelled;
    hide AnswersPoison;
    CycleSpelled(actions, p, k);
    CycleSpelled(actions, p, k + 1);
    CycleMild(actions, p, k);
    SpelledTakes(actions, 11 * k, r);
    SpelledObeys(actions, 11 * k, r);
  }

  lemma CycleMild(actions: seq<Action>, p: Prefix, k: nat)
    requires GoodCycle(actions, p, k)
    ensures 11 * k + 1 < |actions| && actions[11 * k + 1].Deliver? && !Poisons(actions[11 * k + 1].packet.entries)
  {
    hide IsCycle;
    hide Level;
    hide Says;
    MildMessage(actions[11 * k + 1].packet.entries, p);
  }

  lemma CyclesObey(actions: seq<Action>, p: Prefix, n: nat)
    requires Cycles(actions, p, n)
    ensures Obeys(actions)
  {
    hide Cycles;
    hide Poisons;
    hide AnswersPoison;
    forall t | 0 <= t < |actions| - 11 && actions[t].Deliver? && Poisons(actions[t].packet.entries)
      ensures AnswersPoison(actions, t, actions[t].i)
    {
      CyclesLength(actions, p, n);
      hide GoodCycle;
      var k, r := t / 11, t % 11;
      assert t == 11 * k + r && k + 1 < n;
      CycleObeys(actions, p, k, r);
    }
  }

  lemma CyclesLength(actions: seq<Action>, p: Prefix, n: nat)
    requires Cycles(actions, p, n)
    ensures |actions| == 11 * n && forall k: nat :: k < n ==> GoodCycle(actions, p, k)
  {
    hide GoodCycle;
  }

  lemma LineHears(topology: Topology, j: nat, i: nat)
    requires IsLine(topology) && i < 3 && i < |topology.hears| && j in topology.hears[i]
    ensures i == 1 ==> j == 0 || j == 2
    ensures i != 1 ==> j == 1
  {
  }

  lemma SpelledArrives(actions: seq<Action>, o: nat, r: nat, i: nat)
    requires Spelled(actions, o) && ((r == 0 && i == 1) || (r == 3 && i == 1) || (r == 6 && (i == 0 || i == 2)))
    ensures Arrives(actions, o + r, i)
  {
    hide IsSend;
    if r == 0 {
      assert Takes(actions[o + 1], i, actions[o]);
    } else if r == 3 {
      assert Takes(actions[o + 4], i, actions[o + 3]);
    } else if i == 0 {
      assert Takes(actions[o + 7], i, actions[o + 6]);
    } else {
      assert Takes(actions[o + 9], i, actions[o + 6]);
    }
  }

  lemma CycleLosesNothing(topology: Topology, actions: seq<Action>, p: Prefix, k: nat, r: nat, i: nat)
    requires IsLine(topology) && GoodCycle(actions, p, k) && r < 11 && i < 3 && 11 * k + 11 <= |actions|
    requires actions[11 * k + r].Send? && Listens(topology, actions[11 * k + r].i, i)
    ensures Arrives(actions, 11 * k + r, i)
  {
    LineHears(topology, actions[11 * k + r].i, i);
    hide IsLine;
    hide GoodCycle;
    hide Spelled;
    hide Arrives;
    CycleSpelled(actions, p, k);
    SpelledSends(actions, 11 * k, r);
    SpelledArrives(actions, 11 * k, r, i);
  }

  lemma CyclesLoseNothing(topology: Topology, actions: seq<Action>, p: Prefix, n: nat)
    requires IsLine(topology) && Cycles(actions, p, n)
    ensures LosesNothing(topology, actions)
  {
    CyclesLength(actions, p, n);
    assert |topology.hears| == 3;
    hide Cycles;
    hide GoodCycle;
    hide Arrives;
    hide IsLine;
    forall t, i | 0 <= t < |actions| && actions[t].Send? && Listens(topology, actions[t].i, i)
      ensures Arrives(actions, t, i)
    {
      var k, r := t / 11, t % 11;
      assert t == 11 * k + r;
      CycleLosesNothing(topology, actions, p, k, r, i);
    }
  }

  // ---- every message is an answer --------------------------------------

  /** What is sent at s answers a poisoned route: it is the last thing its sender
      took, and since then the sender did nothing but rebuild its RIB. */
  ghost predicate IsAnswer(actions: seq<Action>, s: nat)
    requires s < |actions|
  {
    exists t: nat :: t < s && AnswersTo(actions, t, s)
  }

  ghost predicate AnswersTo(actions: seq<Action>, t: nat, s: nat)
    requires t < s < |actions|
  {
    var i := RouterOf(actions[s]);
    && actions[s].Send? && actions[t].Deliver? && actions[t].i == i && Poisons(actions[t].packet.entries)
    && forall u :: t < u < s && RouterOf(actions[u]) == i ==> IsRebuild(actions[u], i)
  }

  lemma WorstMessage(entries: seq<Entry>, p: Prefix)
    requires Says(entries, p, Some(MAX_METRIC))
    ensures Poisons(entries)
  {
    hide OnWire;
    assert entries[0] in entries;
  }

  /** From the ninth cycle on what routers 2 and 1 send is poisoned. */
  lemma CyclePoisons(actions: seq<Action>, p: Prefix, k: nat)
    requires GoodCycle(actions, p, k) && 8 <= k
    ensures var o := 11 * k;
      && o + 11 <= |actions| && actions[o + 3].Send? && Poisons(actions[o + 3].entries)
      && actions[o + 6].Send? && Poisons(actions[o + 6].entries)
      && actions[o + 4].Deliver? && Poisons(actions[o + 4].packet.entries)
      && actions[o + 7].Deliver? && Poisons(actions[o + 7].packet.entries)
      && actions[o + 9].Deliver? && Poisons(actions[o + 9].packet.entries)
  {
    CycleSpelled(actions, p, k);
    hide IsCycle;
    hide Says;
    hide Poisons;
    hide IsRebuild;
    LevelRises(k);
    hide Level;
    WorstMessage(actions[11 * k + 3].entries, p);
    WorstMessage(actions[11 * k + 6].entries, p);
  }

  lemma SpelledSends(actions: seq<Action>, o: nat, r: nat)
    requires Spelled(actions, o) && r < 11 && actions[o + r].Send?
    ensures r == 0 || r == 3 || r == 6
    ensures actions[o + r].i == (if r == 0 then 0 else if r == 3 then 2 else 1)
  {
    hide IsSend;
  }

  lemma SpelledAnswers(actions: seq<Action>, o: nat, r: nat)
    requires Spelled(actions, o) && Spelled(actions, o + 11) && (r == 0 || r == 3 || r == 6)
    requires Poisons(actions[o + 7].packet.entries) && Poisons(actions[o + 9].packet.entries)
    requires Poisons(actions[o + 15].packet.entries)
    ensures IsAnswer(actions, o + 11 + r)
  {
    hide Poisons;
    hide IsSend;
    if r == 0 {
      assert AnswersTo(actions, o + 7, o + 11);
    } else if r == 3 {
      assert AnswersTo(actions, o + 9, o + 14);
    } else {
      assert AnswersTo(actions, o + 15, o + 17);
    }
  }

  lemma CyclePoisoned(actions: seq<Action>, p: Prefix, k: nat, r: nat)
    requires GoodCycle(actions, p, k) && 8 <= k && r < 11 && 11 * k + 11 <= |actions| && actions[11 * k + r].Send?
    ensures actions[11 * k + r].i != 0 ==> Poisons(actions[11 * k + r].entries)
  {
    hide GoodCycle;
    hide Spelled;
    hide Poisons;
    CycleSpelled(actions, p, k);
    CyclePoisons(actions, p, k);
    SpelledSends(actions, 11 * k, r);
  }

  lemma CycleAnswers(actions: seq<Action>, p: Prefix, k: nat, r: nat)
    requires GoodCycle(actions, p, k) && GoodCycle(actions, p, k + 1) && 8 <= k && r < 11
    requires 11 * k + 22 <= |actions| && actions[11 * k + 11 + r].Send?
    ensures IsAnswer(actions, 11 * k + 11 + r)
  {
    hide GoodCycle;
    hide Spelled;
    hide Poisons;
    hide IsAnswer;
    CycleSpelled(actions, p, k);
    CycleSpelled(actions, p, k + 1);
    CyclePoisons(actions, p, k);
    CyclePoisons(actions, p, k + 1);
    SpelledSends(actions, 11 * k + 11, r);
    SpelledAnswers(actions, 11 * k, r);
  }

  lemma StormAnswers(actions: seq<Action>, p: Prefix, n: nat, s: nat)
    requires Cycles(actions, p, n) && 88 <= s < |actions| && actions[s].Send?
    ensures actions[s].i != 0 ==> Poisons(actions[s].entries)
    ensures 99 <= s ==> IsAnswer(actions, s)
  {
    hide Cycles;
    hide GoodCycle;
    hide Poisons;
    hide IsAnswer;
    CyclesLength(actions, p, n);
    var k, r := s / 11, s % 11;
    assert s == 11 * k + r && 8 <= k < n;
    CyclePoisoned(actions, p, k, r);
    if 99 <= s {
      assert GoodCycle(actions, p, k - 1);
      CycleAnswers(actions, p, k - 1, r);
    }
  }

  // ---- what is seen ----------------------------------------------------

  /** From the ninth cycle on router 2 has p at 16 in every state. */
  lemma FarNeverRecovers(run: seq<System>, actions: seq<Action>, p: Prefix, n: nat, s: nat)
    requires |actions| == 11 * n && |run| == |actions| + 1 && forall k: nat :: k < n ==> CycleAt(run, actions, p, k)
    requires 88 <= s < |actions|
    ensures |run[s].nodes| == 3 && BestMetric(run[s].nodes[2].rib, p) == MAX_METRIC
    ensures actions[s].Send? && actions[s].i == 1 ==> BestMetric(run[s].nodes[1].rib, p) == MAX_METRIC
  {
    hide LeastFrom;
    hide Says;
    hide Only;
    hide IsCycle;
    hide CycleShows;
    hide Level;
    var k, r := s / 11, s % 11;
    assert s == 11 * k + r && 8 <= k < n;
    assert CycleAt(run, actions, p, k);
    LevelRises(k);
    var states, c := run[11 * k..11 * k + 12], actions[11 * k..11 * k + 11];
    assert states[r] == run[s] && c[r] == actions[s];
    hide CycleAt;
    CycleSeen(states, c, p, r);
  }

  lemma CycleSeen(states: seq<System>, c: seq<Action>, p: Prefix, r: nat)
    requires |states| == 12 && |c| == 11 && IsCycle(c) && CycleShows(states, c, p, Some(MAX_METRIC)) && r < 11
    ensures |states[r].nodes| == 3 && BestMetric(states[r].nodes[2].rib, p) == MAX_METRIC
    ensures c[r].Send? && c[r].i == 1 ==> BestMetric(states[r].nodes[1].rib, p) == MAX_METRIC
  {
    hide BestMetric;
    hide Says;
    if c[r].Send? && c[r].i == 1 {
      SixthSends(c, r);
    }
    hide IsCycle;
  }

  lemma SixthSends(c: seq<Action>, r: nat)
    requires IsCycle(c) && r < 11 && c[r].Send? && c[r].i == 1
    ensures r == 6
  {
    hide IsSend;
  }

  /** In every line, from the start: a run of as many cycles of eleven actions as
      wanted, in which no message is lost and every poisoned route is answered at
      once.  From the ninth cycle on all that routers 1 and 2 send is poisoned; from
      the tenth on every message there is -- three in each cycle -- answers a
      poisoned route.  The route is two hops from router 2 all along, and router 2
      never has it again, nor does router 1 whenever it sends. */
  lemma AnswersNeverEnd(topology: Topology, configs: seq<Config>, n: nat)
      returns (run: seq<System>, actions: seq<Action>, p: Prefix)
    requires IsLine(topology) && |configs| == 3
    ensures IsQuietRun(topology, configs, run, actions) && |actions| == 11 * n && |run| == |actions| + 1
    ensures forall k: nat :: k < n ==> CycleAt(run, actions, p, k)
    ensures Obeys(actions) && LosesNothing(topology, actions)
    ensures forall s :: 88 <= s < |actions| && actions[s].Send? && actions[s].i != 0 ==> Poisons(actions[s].entries)
    ensures forall s :: 99 <= s < |actions| && actions[s].Send? ==> IsAnswer(actions, s)
    ensures OpenBacked(topology, Given(Snaps(run[0])), 2, p, 3, 2)
    ensures forall s :: 88 <= s < |actions| ==> |run[s].nodes| == 3 && BestMetric(run[s].nodes[2].rib, p) == MAX_METRIC
    ensures forall s :: 88 <= s < |actions| && actions[s].Send? && actions[s].i == 1 ==>
              |run[s].nodes| == 3 && BestMetric(run[s].nodes[1].rib, p) == MAX_METRIC
  {
    p := SomePlainPrefix();
    run, actions := StormRun(topology, configs, p, n);
    LineBegins(topology, p);
    FarReached(topology, p);
    hide Plain;
    hide IsQuietRun;
    hide OpenBacked;
    hide BestMetric;
    assert Cycles(actions, p, n) by {
      forall k: nat | k < n
        ensures GoodCycle(actions, p, k)
      {
        assert CycleAt(run, actions, p, k);
        CycleGood(run, actions, p, k);
      }
      hide GoodCycle;
    }
    CyclesObey(actions, p, n);
    CyclesLoseNothing(topology, actions, p, n);
    hide Obeys;
    hide LosesNothing;
    hide CycleAt;
    hide IsLine;
    hide IsAnswer;
    hide Poisons;
    forall s | 88 <= s < |actions| && actions[s].Send?
      ensures actions[s].i != 0 ==> Poisons(actions[s].entries)
      ensures 99 <= s ==> IsAnswer(actions, s)
    {
      StormAnswers(actions, p, n, s);
    }
    hide Cycles;
    forall s | 88 <= s < |actions|
      ensures |run[s].nodes| == 3 && BestMetric(run[s].nodes[2].rib, p) == MAX_METRIC
      ensures actions[s].Send? && actions[s].i == 1 ==> BestMetric(run[s].nodes[1].rib, p) == MAX_METRIC
    {
      FarNeverRecovers(run, actions, p, n, s);
    }
  }

  lemma CycleGood(run: seq<System>, actions: seq<Action>, p: Prefix, k: nat)
    requires |run| == |actions| + 1 && CycleAt(run, actions, p, k)
    ensures GoodCycle(actions, p, k)
  {
    hide Says;
    hide Only;
    hide IsCycle;
    hide Level;
    hide Echo;
    var c := actions[11 * k..11 * k + 11];
    assert c[1] == actions[11 * k + 1] && c[3] == actions[11 * k + 3] && c[6] == actions[11 * k + 6];
  }

  lemma FarReached(topology: Topology, p: Prefix)
    requires IsLine(topology) && Plain(p)
    ensures OpenBacked(topology, Source(p), 2, p, 3, 2)
  {
    PlainOnWire(p);
    hide Plain;
    hide OnWire;
    hide OpenBacked;
    Neighbours(topology);
    var k := Key(p, 0);
    assert k in Source(p)[0] && Source(p)[0][k].metric == 1;
    OriginOpen(topology, Source(p), 0, k, 0);
    OpenOneHopOn(topology, Source(p), 0, p, 1, 0, 1, p);
    OpenOneHopOn(topology, Source(p), 1, p, 2, 1, 2, p);
  }
}
