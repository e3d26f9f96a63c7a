/** Fair runs exist, of any number of phases, from every state: everyone sends,
    everyone processes everything it hears, everyone rebuilds its RIB, again and
    again. */
module FairRuns {
  import opened Addressing
  import opened Rip
  import opened RipProperties
  import opened Node
  import opened Network
  import opened Rounds
  import opened Runs
  import Convergence
  import opened QuietPaths
  import opened Asynchrony

  ghost function Last(run: seq<System>): System
    requires run != []
  {
    run[|run| - 1]
  }

  lemma QuietRunGrows(topology: Topology, configs: seq<Config>, run: seq<System>, actions: seq<Action>, a: Action,
                      s: System)
    requires IsQuietPath(topology, configs, run, actions)
    requires |Last(run).nodes| == |configs| && Moves(topology, configs, Last(run), a, s) && Quiet(Last(run), a, s)
    ensures IsQuietPath(topology, configs, run + [s], actions + [a])
  {
    hide Moves;
    hide Quiet;
    hide Formed;
  }

  lemma LastLength(topology: Topology, configs: seq<Config>, run: seq<System>, actions: seq<Action>)
    requires IsQuietPath(topology, configs, run, actions)
    ensures run != [] && |Last(run).nodes| == |configs| == |topology.hears|
  {
    AlwaysFormed(topology, configs, run, actions, |actions|);
    hide Moves;
    hide Quiet;
    hide Formed;
    FormedLength(topology, Convergence.Given(Snaps(run[0])), Last(run));
  }

  // ---- one phase -------------------------------------------------------

  /** In the phase that began at `from`, whatever is delivered was sent in it. */
  ghost predicate OnlyNews(actions: seq<Action>, from: nat) {
    forall v :: from <= v < |actions| && actions[v].Deliver? ==> SentSince(actions, from, v, actions[v].packet)
  }

  lemma NewsGrows(actions: seq<Action>, from: nat, a: Action)
    requires OnlyNews(actions, from) && (a.Deliver? ==> SentSince(actions, from, |actions|, a.packet))
    ensures OnlyNews(actions + [a], from)
  {
    forall v | from <= v < |actions + [a]| && (actions + [a])[v].Deliver?
      ensures SentSince(actions + [a], from, v, (actions + [a])[v].packet)
    {
      SinceGrows(actions, from, v, (actions + [a])[v].packet, a);
    }
  }

  lemma SinceGrows(actions: seq<Action>, u: nat, v: nat, packet: Packet, a: Action)
    requires SentSince(actions, u, v, packet)
    ensures SentSince(actions + [a], u, v, packet)
  {
    var w :| u <= w < v && w < |actions| && IsSend(actions[w], packet);
    assert (actions + [a])[w] == actions[w];
  }

  lemma SinceLater(actions: seq<Action>, u: nat, v: nat, v': nat, packet: Packet)
    requires SentSince(actions, u, v, packet) && v <= v'
    ensures SentSince(actions, u, v', packet)
  {
  }

  lemma ServedGrows(actions: seq<Action>, u: nat, v: nat, j: nat, i: nat, a: Action)
    requires Served(actions, u, v, j, i)
    ensures Served(actions + [a], u, v + 1, j, i)
  {
    var x, y :| u <= x < y < v && y < |actions| && IsDelivery(actions[x], j, i) && IsRebuild(actions[y], i);
    assert (actions + [a])[x] == actions[x] && (actions + [a])[y] == actions[y];
  }

  /** The packets of routers below `count` were sent in this phase. */
  ghost predicate Out(topology: Topology, run: seq<System>, actions: seq<Action>, from: nat, packets: seq<Packet>,
                      count: nat)
    requires run != []
  {
    && count <= |packets| && |packets| == |topology.hears|
    && forall j :: 0 <= j < count ==>
         packets[j].sender == j && packets[j] in Last(run).sent && SentSince(actions, from, |actions|, packets[j])
  }

  /** A run with a phase begun. */
  ghost predicate Going(topology: Topology, configs: seq<Config>, run: seq<System>, actions: seq<Action>, from: nat) {
    IsQuietPath(topology, configs, run, actions) && from <= |actions| && OnlyNews(actions, from)
  }

  lemma OutGrows(topology: Topology, run: seq<System>, actions: seq<Action>, from: nat, packets: seq<Packet>,
                 count: nat, a: Action, s: System)
    requires run != [] && Out(topology, run, actions, from, packets, count) && Last(run).sent <= s.sent
    ensures Out(topology, run + [s], actions + [a], from, packets, count)
  {
    forall j | 0 <= j < count
      ensures SentSince(actions + [a], from, |actions| + 1, packets[j])
    {
      SinceGrows(actions, from, |actions|, packets[j], a);
      SinceLater(actions + [a], from, |actions|, |actions| + 1, packets[j]);
    }
    hide SentSince;
  }

  lemma {:induction false} EveryoneBroadcasts(topology: Topology, configs: seq<Config>, run: seq<System>,
                                              actions: seq<Action>, from: nat, count: nat)
        returns (run': seq<System>, actions': seq<Action>, packets: seq<Packet>)
    requires Going(topology, configs, run, actions, from) && count <= |topology.hears|
    ensures Going(topology, configs, run', actions', from) && actions <= actions' && run != [] && run' != []
    ensures run[0] == run'[0]
    ensures Out(topology, run', actions', from, packets, count)
  {
    hide IsQuietPath;
    hide OnlyNews;
    hide Out;
    if count == 0 {
      run', actions', packets := run, actions, seq(|topology.hears|, j requires 0 <= j => Packet(j, []));
      NoneOut(topology, configs, run, actions, from, packets);
    } else {
      var j := count - 1;
      var mid, done, before := EveryoneBroadcasts(topology, configs, run, actions, from, j);
      run', actions', packets := OneSends(topology, configs, mid, done, from, before, j);
    }
  }

  lemma NoneOut(topology: Topology, configs: seq<Config>, run: seq<System>, actions: seq<Action>, from: nat,
                packets: seq<Packet>)
    requires IsQuietPath(topology, configs, run, actions) && |packets| == |topology.hears|
    ensures run != [] && Out(topology, run, actions, from, packets, 0)
  {
    hide Moves;
    hide Quiet;
    hide Formed;
  }

  lemma OneSends(topology: Topology, configs: seq<Config>, run: seq<System>, actions: seq<Action>, from: nat,
                 packets: seq<Packet>, j: nat)
      returns (run': seq<System>, actions': seq<Action>, packets': seq<Packet>)
    requires Going(topology, configs, run, actions, from) && j < |topology.hears| && run != []
    requires Out(topology, run, actions, from, packets, j)
    ensures Going(topology, configs, run', actions', from) && actions <= actions' && run' != [] && run[0] == run'[0]
    ensures Out(topology, run', actions', from, packets', j + 1)
  {
    LastLength(topology, configs, run, actions);
    assert topology.Valid();
    hide IsQuietPath;
    var s := Last(run);
    var rib, wire := s.nodes[j].rib, topology.wire[j];
    var some := Prefix(0, 0);
    var entries := Message(rib, wire, some);
    OneEntryEachIsResponse(rib, wire, ListLast(rib, some), entries);
    hide IsResponse;
    hide Message;
    hide OneEntryEach;
    var a, packet := Send(j, entries), Packet(j, entries);
    var s' := s.(sent := s.sent + {packet});
    QuietRunGrows(topology, configs, run, actions, a, s');
    NewsGrows(actions, from, a);
    OutGrows(topology, run, actions, from, packets, j, a, s');
    hide OnlyNews;
    run', actions', packets' := run + [s'], actions + [a], packets[j := packet];
    assert IsSend(actions'[|actions|], packet);
    assert SentSince(actions', from, |actions'|, packet);
    hide SentSince;
  }

  /** Routers below `count` have processed everything and rebuilt their RIBs. */
  ghost predicate Done(topology: Topology, actions: seq<Action>, from: nat, count: nat) {
    forall i, j :: 0 <= i < count && i < |topology.hears| && j in topology.hears[i] ==>
      Served(actions, from, |actions|, j, i)
  }

  lemma DoneGrows(topology: Topology, actions: seq<Action>, from: nat, count: nat, a: Action)
    requires Done(topology, actions, from, count)
    ensures Done(topology, actions + [a], from, count)
  {
    forall i, j | 0 <= i < count && i < |topology.hears| && j in topology.hears[i]
      ensures Served(actions + [a], from, |actions| + 1, j, i)
    {
      ServedGrows(actions, from, |actions|, j, i, a);
    }
  }

  /** Router i has processed the messages of these routers. */
  ghost predicate AllTaken(actions: seq<Action>, from: nat, i: nat, senders: seq<nat>) {
    forall j :: j in senders ==> WasDelivered(actions, from, j, i)
  }

  ghost predicate WasDelivered(actions: seq<Action>, from: nat, j: nat, i: nat) {
    exists x :: from <= x < |actions| && IsDelivery(actions[x], j, i)
  }

  lemma DeliveredGrows(actions: seq<Action>, from: nat, j: nat, i: nat, a: Action)
    requires WasDelivered(actions, from, j, i)
    ensures WasDelivered(actions + [a], from, j, i)
  {
    var x :| from <= x < |actions| && IsDelivery(actions[x], j, i);
    assert (actions + [a])[x] == actions[x];
  }

  lemma {:induction false} RouterTakesAll(topology: Topology, configs: seq<Config>, run: seq<System>,
                                          actions: seq<Action>, from: nat, packets: seq<Packet>, i: nat,
                                          senders: seq<nat>) returns (run': seq<System>, actions': seq<Action>)
    requires Going(topology, configs, run, actions, from) && run != [] && i < |topology.hears|
    requires Out(topology, run, actions, from, packets, |topology.hears|) && Done(topology, actions, from, i)
    requires forall j :: j in senders ==> j in topology.hears[i]
    ensures Going(topology, configs, run', actions', from) && actions <= actions' && run' != [] && run[0] == run'[0]
    ensures Out(topology, run', actions', from, packets, |topology.hears|) && Done(topology, actions', from, i)
    ensures AllTaken(actions', from, i, senders)
  {
    hide IsQuietPath;
    hide OnlyNews;
    hide Out;
    hide Done;
    if senders == [] {
      run', actions' := run, actions;
    } else {
      var j := senders[|senders| - 1];
      var mid, done := RouterTakesAll(topology, configs, run, actions, from, packets, i, senders[..|senders| - 1]);
      run', actions' := OneDelivery(topology, configs, mid, done, from, packets, i, j);
      forall h | h in senders
        ensures WasDelivered(actions', from, h, i)
      {
        if h in senders[..|senders| - 1] {
          DeliveredGrows(done, from, h, i, actions'[|done|]);
        }
      }
    }
  }

  lemma OneDelivery(topology: Topology, configs: seq<Config>, run: seq<System>, actions: seq<Action>, from: nat,
                    packets: seq<Packet>, i: nat, j: nat) returns (run': seq<System>, actions': seq<Action>)
    requires Going(topology, configs, run, actions, from) && run != [] && i < |topology.hears| && j in topology.hears[i]
    requires Out(topology, run, actions, from, packets, |topology.hears|) && Done(topology, actions, from, i)
    ensures Going(topology, configs, run', actions', from) && run' != [] && run[0] == run'[0]
    ensures |actions'| == |actions| + 1 && actions' == actions + [actions'[|actions|]]
    ensures Out(topology, run', actions', from, packets, |topology.hears|) && Done(topology, actions', from, i)
    ensures WasDelivered(actions', from, j, i)
  {
    LastLength(topology, configs, run, actions);
    assert topology.Valid();
    hide IsQuietPath;
    hide Done;
    var s, packet := Last(run), packets[j];
    assert packet.sender == j && packet in s.sent && SentSince(actions, from, |actions|, packet);
    var a := Deliver(i, packet, 0.0);
    var e := Receive(packet.entries, topology.address[j], j == i, 0.0);
    var s' := s.(nodes := s.nodes[i := Receiving(configs[i], s.nodes[i], e)]);
    hide Receiving;
    QuietRunGrows(topology, configs, run, actions, a, s');
    NewsGrows(actions, from, a);
    OutGrows(topology, run, actions, from, packets, |topology.hears|, a, s');
    DoneGrows(topology, actions, from, i, a);
    hide OnlyNews;
    hide Out;
    run', actions' := run + [s'], actions + [a];
    assert IsDelivery(actions'[|actions|], j, i);
  }

  lemma OneRebuild(topology: Topology, configs: seq<Config>, run: seq<System>, actions: seq<Action>, from: nat,
                   packets: seq<Packet>, i: nat) returns (run': seq<System>, actions': seq<Action>)
    requires Going(topology, configs, run, actions, from) && run != [] && i < |topology.hears|
    requires Out(topology, run, actions, from, packets, |topology.hears|) && Done(topology, actions, from, i)
    requires forall j :: j in topology.hears[i] ==> WasDelivered(actions, from, j, i)
    ensures Going(topology, configs, run', actions', from) && actions <= actions' && run' != [] && run[0] == run'[0]
    ensures Out(topology, run', actions', from, packets, |topology.hears|) && Done(topology, actions', from, i + 1)
  {
    LastLength(topology, configs, run, actions);
    assert topology.Valid();
    hide IsQuietPath;
    var s := Last(run);
    var n := s.nodes[i];
    var rib := SomeRib(n.redistributed, n.learned, 0.0);
    hide IsRefresh;
    hide SomeRib;
    var a := Act(i, Refresh(OnRequest, rib, 0.0));
    var s' := s.(nodes := s.nodes[i := Refreshing(configs[i], n, OnRequest, rib, 0.0)]);
    QuietRunGrows(topology, configs, run, actions, a, s');
    NewsGrows(actions, from, a);
    OutGrows(topology, run, actions, from, packets, |topology.hears|, a, s');
    DoneGrows(topology, actions, from, i, a);
    hide OnlyNews;
    hide Out;
    run', actions' := run + [s'], actions + [a];
    forall j | j in topology.hears[i]
      ensures Served(actions', from, |actions'|, j, i)
    {
      var x :| from <= x < |actions| && IsDelivery(actions[x], j, i);
      assert IsDelivery(actions'[x], j, i) && IsRebuild(actions'[|actions|], i);
    }
    hide Served;
  }

  lemma {:induction false} EveryoneProcesses(topology: Topology, configs: seq<Config>, run: seq<System>,
                                             actions: seq<Action>, from: nat, packets: seq<Packet>, count: nat)
        returns (run': seq<System>, actions': seq<Action>)
    requires Going(topology, configs, run, actions, from) && run != [] && count <= |topology.hears|
    requires Out(topology, run, actions, from, packets, |topology.hears|)
    ensures Going(topology, configs, run', actions', from) && actions <= actions' && run' != [] && run[0] == run'[0]
    ensures Out(topology, run', actions', from, packets, |topology.hears|) && Done(topology, actions', from, count)
  {
    hide IsQuietPath;
    hide OnlyNews;
    hide Out;
    if count == 0 {
      run', actions' := run, actions;
    } else {
      var i := count - 1;
      var mid, done := EveryoneProcesses(topology, configs, run, actions, from, packets, i);
      var senders := Enumerate(topology.hears[i]);
      var processed, taken := RouterTakesAll(topology, configs, mid, done, from, packets, i, senders);
      hide Done;
      run', actions' := OneRebuild(topology, configs, processed, taken, from, packets, i);
    }
  }

  // ---- many phases -----------------------------------------------------

  lemma OnePhase(topology: Topology, configs: seq<Config>, run: seq<System>, actions: seq<Action>)
      returns (run': seq<System>, actions': seq<Action>)
    requires IsQuietPath(topology, configs, run, actions)
    ensures IsQuietPath(topology, configs, run', actions') && actions <= actions' && run' != [] && run != []
    ensures run[0] == run'[0]
    ensures OnlyNews(actions', |actions|) && Done(topology, actions', |actions|, |topology.hears|)
  {
    LastLength(topology, configs, run, actions);
    hide IsQuietPath;
    hide Done;
    hide Out;
    assert OnlyNews(actions, |actions|);
    hide OnlyNews;
    var mid, sent, packets := EveryoneBroadcasts(topology, configs, run, actions, |actions|, |topology.hears|);
    run', actions' := EveryoneProcesses(topology, configs, mid, sent, |actions|, packets, |topology.hears|);
  }

  ghost function At(net: seq<Speaker>): System {
    var nodes := seq(|net|, i requires 0 <= i < |net| =>
      START.(redistributed := net[i].redistributed, rib := net[i].rib));
    System(nodes, {}, {})
  }

  lemma AtStarts(topology: Topology, net: seq<Speaker>)
    requires Start(topology, net)
    ensures StartsAt(topology, At(net)) && Snaps(At(net)) == net && |At(net).nodes| == |net|
  {
    hide NetOk;
    assert Snaps(At(net)) == net;
  }

  lemma OwnServedGrows(topology: Topology, configs: seq<Config>, actions: seq<Action>, marks: seq<nat>,
                       actions': seq<Action>)
    requires OwnServed(topology, configs, actions, marks) && actions <= actions'
    requires marks != [] && marks[|marks| - 1] == |actions|
    requires Done(topology, actions', |actions|, |topology.hears|)
    ensures OwnServed(topology, configs, actions', marks + [|actions'|])
  {
    var marks' := marks + [|actions'|];
    forall t, i: nat | 0 < t < |marks'| && TakesOwn(topology, configs, i)
      ensures Served(actions', marks'[t - 1], marks'[t], i, i)
    {
      if t < |marks| {
        assert marks'[t] == marks[t] && marks'[t - 1] == marks[t - 1];
        ServedLonger(actions, actions', marks[t - 1], marks[t], i, i);
      }
    }
  }

  /** One more phase at the end of a fair run. */
  lemma FairGrows(topology: Topology, actions: seq<Action>, marks: seq<nat>, actions': seq<Action>)
    requires Fair(topology, actions, marks) && actions <= actions' && marks[|marks| - 1] == |actions|
    requires OnlyNews(actions', |actions|) && Done(topology, actions', |actions|, |topology.hears|)
    ensures Fair(topology, actions', marks + [|actions'|])
  {
    var marks', n := marks + [|actions'|], |actions|;
    forall t, v | 0 < t < |marks'| && marks'[t] <= v < |actions'| && actions'[v].Deliver?
      ensures SentSince(actions', marks'[t - 1], v, actions'[v].packet)
    {
      if v < n {
        assert t < |marks| && marks'[t] == marks[t] && marks'[t - 1] == marks[t - 1] && actions'[v] == actions[v];
        SinceLonger(actions, actions', marks[t - 1], v, actions[v].packet);
      } else {
        MarksInOrder(topology, actions, marks, t - 1, |marks| - 1);
        SinceEarlier(actions', marks'[t - 1], n, v, actions'[v].packet);
      }
    }
    forall t, i, j | 0 < t < |marks'| && 0 <= i < |topology.hears| && j in topology.hears[i] && j != i
      ensures Served(actions', marks'[t - 1], marks'[t], j, i)
    {
      if t < |marks| {
        assert marks'[t] == marks[t] && marks'[t - 1] == marks[t - 1];
        ServedLonger(actions, actions', marks[t - 1], marks[t], j, i);
      }
    }
  }

  lemma SinceLonger(actions: seq<Action>, actions': seq<Action>, u: nat, v: nat, packet: Packet)
    requires SentSince(actions, u, v, packet) && actions <= actions'
    ensures SentSince(actions', u, v, packet)
  {
    var w :| u <= w < v && w < |actions| && IsSend(actions[w], packet);
    assert actions'[w] == actions[w];
  }

  lemma SinceEarlier(actions: seq<Action>, u: nat, u': nat, v: nat, packet: Packet)
    requires SentSince(actions, u', v, packet) && u <= u'
    ensures SentSince(actions, u, v, packet)
  {
  }

  lemma ServedLonger(actions: seq<Action>, actions': seq<Action>, u: nat, v: nat, j: nat, i: nat)
    requires Served(actions, u, v, j, i) && actions <= actions'
    ensures Served(actions', u, v, j, i)
  {
    var x, y :| u <= x < y < v && y < |actions| && IsDelivery(actions[x], j, i) && IsRebuild(actions[y], i);
    assert actions'[x] == actions[x] && actions'[y] == actions[y];
  }

  /** From every state there are fair runs of any number of phases. */
  lemma {:induction false} SomeFairRun(topology: Topology, configs: seq<Config>, s: System, phases: nat)
      returns (run: seq<System>, actions: seq<Action>, marks: seq<nat>)
    requires topology.Valid() && |configs| == |topology.hears|
    requires Formed(topology, Convergence.Given(Snaps(s)), s)
    ensures IsQuietPath(topology, configs, run, actions) && run[0] == s
    ensures Fair(topology, actions, marks) && OwnServed(topology, configs, actions, marks)
    ensures |marks| == phases + 1 && marks[phases] == |actions|
  {
    if phases == 0 {
      hide Formed;
      run, actions, marks := [s], [], [0];
    } else {
      var before, earlier, past := SomeFairRun(topology, configs, s, phases - 1);
      hide IsQuietPath;
      hide Fair;
      hide OwnServed;
      run, actions := OnePhase(topology, configs, before, earlier);
      hide OnlyNews;
      hide Done;
      FairGrows(topology, earlier, past, actions);
      OwnServedGrows(topology, configs, earlier, past, actions);
      marks := past + [|actions|];
    }
  }
}
