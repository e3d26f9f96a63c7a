/** A lossless synchronous round is one schedule of the asynchronous machine:
    everyone sends, everyone processes what it hears in its order, everyone's
    RIB is rebuilt. */
module Schedules {
  import opened Rip
  import opened RipProperties
  import opened Node
  import opened Network
  import opened Rounds

  /** A stretch of a run, from its first to its last state. */
  ghost predicate IsPath(topology: Topology, configs: seq<Config>, states: seq<System>, actions: seq<Action>)
    requires topology.Valid() && |configs| == |topology.hears|
  {
    && |states| == |actions| + 1
    && (forall t :: 0 <= t < |states| ==> |states[t].nodes| == |configs|)
    && forall t :: 0 <= t < |actions| ==> Moves(topology, configs, states[t], actions[t], states[t + 1])
  }

  ghost predicate Reaches(topology: Topology, configs: seq<Config>, s: System, s': System)
    requires topology.Valid() && |configs| == |topology.hears|
  {
    exists states, actions :: IsPath(topology, configs, states, actions) && states[0] == s && states[|states| - 1] == s'
  }

  lemma ReachesItself(topology: Topology, configs: seq<Config>, s: System)
    requires topology.Valid() && |configs| == |topology.hears| == |s.nodes|
    ensures Reaches(topology, configs, s, s)
  {
    assert IsPath(topology, configs, [s], []);
  }

  lemma ReachesNext(topology: Topology, configs: seq<Config>, s: System, s': System, a: Action, s'': System)
    requires topology.Valid() && |configs| == |topology.hears| && Reaches(topology, configs, s, s')
    requires |s'.nodes| == |s''.nodes| == |configs| && Moves(topology, configs, s', a, s'')
    ensures Reaches(topology, configs, s, s'')
  {
    hide Moves;
    var states, actions :| IsPath(topology, configs, states, actions) && states[0] == s && states[|states| - 1] == s';
    var states', actions' := states + [s''], actions + [a];
    assert IsPath(topology, configs, states', actions');
  }

  ghost function SpeakerOf(n: Node): Speaker {
    Speaker(n.redistributed, n.learned, n.rib)
  }

  ghost predicate Shows(s: System, net: seq<Speaker>) {
    |s.nodes| == |net| && forall i :: 0 <= i < |net| ==> SpeakerOf(s.nodes[i]) == net[i]
  }

  /** A router that hears itself processes its own messages. */
  ghost predicate HearsOwn(topology: Topology, configs: seq<Config>) {
    |configs| == |topology.hears| && forall i :: 0 <= i < |configs| && i in topology.hears[i] ==> !configs[i].rejectOwn
  }

  ghost predicate AllSent(s: System, messages: seq<seq<Entry>>, count: nat) {
    forall j :: 0 <= j < count && j < |messages| ==> Packet(j, messages[j]) in s.sent
  }

  lemma {:induction false} EveryoneSends(topology: Topology, configs: seq<Config>, s: System,
                                         messages: seq<seq<Entry>>, count: nat) returns (s': System)
    requires topology.Valid() && |configs| == |topology.hears| == |s.nodes| == |messages| && count <= |messages|
    requires forall j :: 0 <= j < |messages| ==> IsResponse(s.nodes[j].rib, topology.wire[j], messages[j])
    ensures Reaches(topology, configs, s, s') && s'.nodes == s.nodes && AllSent(s', messages, count)
  {
    hide IsResponse;
    hide Reaches;
    if count == 0 {
      s' := s;
      ReachesItself(topology, configs, s);
    } else {
      var before := EveryoneSends(topology, configs, s, messages, count - 1);
      var i := count - 1;
      s' := before.(sent := before.sent + {Packet(i, messages[i])});
      ReachesNext(topology, configs, s, before, Send(i, messages[i]), s');
    }
  }

  /** Router i processes the first `count` messages of its order. */
  lemma {:induction false} RouterProcesses(topology: Topology, configs: seq<Config>, start: System, s: System,
                                           schedule: Schedule, i: nat, count: nat) returns (s': System)
    requires Shaped(topology, schedule) && HearsOwn(topology, configs) && |s.nodes| == |topology.hears|
    requires i < |topology.hears| && count <= |schedule.orders[i]|
    requires Reaches(topology, configs, start, s) && AllSent(s, schedule.messages, |topology.hears|)
    ensures Reaches(topology, configs, start, s') && s'.sent == s.sent && |s'.nodes| == |s.nodes|
    ensures forall j :: 0 <= j < |s.nodes| && j != i ==> s'.nodes[j] == s.nodes[j]
    ensures s'.nodes[i].redistributed == s.nodes[i].redistributed && s'.nodes[i].rib == s.nodes[i].rib
    ensures s'.nodes[i].learned == Process(topology, schedule, s.nodes[i].learned, schedule.orders[i][..count])
  {
    hide Reaches;
    if count == 0 {
      s' := s;
    } else {
      var order := schedule.orders[i];
      var before := RouterProcesses(topology, configs, start, s, schedule, i, count - 1);
      var j := order[count - 1];
      assert j in order;
      var packet := Packet(j, schedule.messages[j]);
      var e := Receive(packet.entries, topology.address[j], j == i, schedule.at);
      s' := before.(nodes := before.nodes[i := Receiving(configs[i], before.nodes[i], e)]);
      ReachesNext(topology, configs, start, before, Deliver(i, packet, schedule.at), s');
      assert order[..count][..count - 1] == order[..count - 1];
    }
  }

  /** Refreshing once replaces the RIB by any refresh of the tables. */
  lemma RouterRefreshes(topology: Topology, configs: seq<Config>, start: System, s: System, i: nat, rib: Table,
                        at: real) returns (s': System)
    requires topology.Valid() && |configs| == |topology.hears| == |s.nodes| && i < |s.nodes|
    requires Reaches(topology, configs, start, s)
    requires IsRefresh(s.nodes[i].redistributed, s.nodes[i].learned, rib, at)
    ensures Reaches(topology, configs, start, s') && s'.sent == s.sent && |s'.nodes| == |s.nodes|
    ensures forall j :: 0 <= j < |s.nodes| && j != i ==> s'.nodes[j] == s.nodes[j]
    ensures SpeakerOf(s'.nodes[i]) == SpeakerOf(s.nodes[i]).(rib := rib)
  {
    hide Reaches;
    hide IsRefresh;
    var cause := if 0 < s.nodes[i].afterResponse then AfterResponse else OnRequest;
    var n := Refreshing(configs[i], s.nodes[i], cause, rib, at);
    s' := s.(nodes := s.nodes[i := n]);
    ReachesNext(topology, configs, start, s, Act(i, Refresh(cause, rib, at)), s');
  }

  /** Routers below `count` have finished the round, the others not begun. */
  ghost predicate Halfway(s: System, net: seq<Speaker>, net': seq<Speaker>, count: nat) {
    && |s.nodes| == |net| == |net'|
    && (forall i :: 0 <= i < count && i < |net'| ==> SpeakerOf(s.nodes[i]) == net'[i])
    && (forall i :: count <= i < |net| ==> SpeakerOf(s.nodes[i]) == net[i])
  }

  lemma {:induction false} RoutersFinish(topology: Topology, configs: seq<Config>, start: System, s: System,
                                         net: seq<Speaker>, schedule: Schedule, net': seq<Speaker>, count: nat)
        returns (s': System)
    requires Round(topology, net, schedule, net') && HearsOwn(topology, configs) && count <= |net|
    requires Shows(s, net) && Reaches(topology, configs, start, s) && AllSent(s, schedule.messages, |net|)
    ensures Reaches(topology, configs, start, s') && s'.sent == s.sent && Halfway(s', net, net', count)
  {
    hide Reaches;
    hide IsRefresh;
    hide IsResponse;
    if count == 0 {
      s' := s;
    } else {
      var i := count - 1;
      var before := RoutersFinish(topology, configs, start, s, net, schedule, net', i);
      assert RoundAt(topology, schedule, i, net[i], net'[i]);
      var order := schedule.orders[i];
      var processed := RouterProcesses(topology, configs, start, before, schedule, i, |order|);
      assert order[..|order|] == order;
      s' := RouterRefreshes(topology, configs, start, processed, i, net'[i].rib, schedule.at);
    }
  }

  /** Every round is a run of the asynchronous machine, so whatever holds of all
      its runs holds of rounds, and rounds show what its runs can do. */
  lemma RoundIsSchedule(topology: Topology, configs: seq<Config>, s: System, net: seq<Speaker>,
                        schedule: Schedule, net': seq<Speaker>) returns (s': System)
    requires Round(topology, net, schedule, net') && HearsOwn(topology, configs) && Shows(s, net)
    ensures Reaches(topology, configs, s, s') && Shows(s', net')
  {
    hide Reaches;
    hide IsResponse;
    forall j | 0 <= j < |net|
      ensures IsResponse(s.nodes[j].rib, topology.wire[j], schedule.messages[j])
    {
      assert RoundAt(topology, schedule, j, net[j], net'[j]);
      var prefixes :| OneEntryEach(net[j].rib, topology.wire[j], prefixes, schedule.messages[j]);
      OneEntryEachIsResponse(net[j].rib, topology.wire[j], prefixes, schedule.messages[j]);
    }
    var sent := EveryoneSends(topology, configs, s, schedule.messages, |net|);
    s' := RoutersFinish(topology, configs, s, sent, net, schedule, net', |net|);
  }
}
