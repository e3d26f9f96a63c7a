/** Rounds are never stuck: from every network, and for every order in which
    messages are processed, there are runs of any length. */
module Runs {
  import opened Types
  import opened Addressing
  import opened Rip
  import opened RipProperties
  import opened Network
  import opened Rounds

  ghost function Enumerate<T(!new)>(s: set<T>): (order: seq<T>)
    ensures forall x :: x in order <==> x in s
    ensures forall m, n :: 0 <= m < n < |order| ==> order[m] != order[n]
  {
    if s == {} then []
    else
      var x :| x in s;
      [x] + Enumerate(s - {x})
  }

  // ---- some refresh ----------------------------------------------------

  ghost function SomeRib(redistributed: Table, learned: Table, at: real): (rib: Table)
    ensures IsRefresh(redistributed, learned, rib, at)
  {
    PickedIsRefresh(redistributed, learned, SomePick(learned), at);
    PickedRib(redistributed, learned, SomePick(learned), at)
  }

  // ---- some message ----------------------------------------------------

  lemma {:induction false} SomeOptimal(rib: Table, k: Key) returns (best: Key)
    requires k in rib
    ensures Optimal(rib, best) && best.prefix == k.prefix
    decreases rib[k].metric
  {
    if Optimal(rib, k) {
      best := k;
    } else {
      var l :| l in rib && l.prefix == k.prefix && rib[l].metric < rib[k].metric;
      best := SomeOptimal(rib, l);
    }
  }

  ghost function BestKey(rib: Table, p: Prefix): (k: Key)
    requires Offers(rib, p)
    ensures Optimal(rib, k) && k.prefix == p
  {
    assert exists k :: Optimal(rib, k) && k.prefix == p by {
      var o :| o in rib && o.prefix == p;
      var k := SomeOptimal(rib, o);
    }
    var k :| Optimal(rib, k) && k.prefix == p; k
  }

  /** Each prefix of the RIB once, `last` at the end if it is one of them. */
  ghost function ListLast(rib: Table, last: Prefix): (prefixes: seq<Prefix>)
    ensures forall p :: p in prefixes <==> Offers(rib, p)
    ensures forall m, n :: 0 <= m < n < |prefixes| ==> prefixes[m] != prefixes[n]
    ensures Offers(rib, last) ==> prefixes != [] && prefixes[|prefixes| - 1] == last
  {
    var all := set k | k in rib :: k.prefix;
    assert forall p :: p in all <==> Offers(rib, p);
    var rest := Enumerate(all - {last});
    if last in all then rest + [last] else rest
  }

  ghost function Message(rib: Table, wire: Address, last: Prefix): (entries: seq<Entry>)
    ensures OneEntryEach(rib, wire, ListLast(rib, last), entries)
  {
    var prefixes := ListLast(rib, last);
    var entries := seq(|prefixes|, n requires 0 <= n < |prefixes| =>
      assert prefixes[n] in prefixes; Encode(rib[BestKey(rib, prefixes[n])], wire));
    assert forall n :: 0 <= n < |entries| ==> IsEntryOf(rib, wire, prefixes[n], entries[n]);
    entries
  }

  /** The message ends with the entry for p, if it has one. */
  ghost predicate EndsWith(rib: Table, wire: Address, entries: seq<Entry>, p: Prefix) {
    Offers(rib, p) ==> entries != [] && IsEntryOf(rib, wire, p, entries[|entries| - 1])
  }

  // ---- some round, some run --------------------------------------------

  ghost predicate IsOrders(topology: Topology, orders: seq<seq<nat>>) {
    && topology.Valid() && |orders| == |topology.hears|
    && forall i :: 0 <= i < |orders| ==> forall j :: j in orders[i] <==> j in topology.hears[i]
  }

  ghost function Broadcasting(topology: Topology, net: seq<Speaker>, orders: seq<seq<nat>>, last: Prefix)
        : (schedule: Schedule)
    requires topology.Valid() && |net| == |topology.hears|
    ensures schedule.orders == orders && schedule.at == 0.0 && |schedule.messages| == |net|
    ensures forall i :: 0 <= i < |net| ==> schedule.messages[i] == Message(net[i].rib, topology.wire[i], last)
  {
    Schedule(seq(|net|, i requires 0 <= i < |net| => Message(net[i].rib, topology.wire[i], last)), orders, 0.0)
  }

  ghost function After(topology: Topology, net: seq<Speaker>, schedule: Schedule): seq<Speaker>
    requires Shaped(topology, schedule) && |net| == |topology.hears|
  {
    seq(|net|, i requires 0 <= i < |net| =>
      var learned := Process(topology, schedule, net[i].learned, schedule.orders[i]);
      Speaker(net[i].redistributed, learned, SomeRib(net[i].redistributed, learned, schedule.at)))
  }

  lemma OrdersShaped(topology: Topology, net: seq<Speaker>, orders: seq<seq<nat>>, last: Prefix)
    requires IsOrders(topology, orders) && |net| == |topology.hears|
    ensures Shaped(topology, Broadcasting(topology, net, orders, last))
  {
    hide Message;
    forall i | 0 <= i < |orders|
      ensures InRange(topology, orders[i])
    {
      forall t | 0 <= t < |orders[i]|
        ensures orders[i][t] < |topology.hears|
      {
        assert orders[i][t] in orders[i];
      }
    }
  }

  /** Every router's message ends with its entry for `last`. */
  ghost predicate AllEndWith(topology: Topology, net: seq<Speaker>, schedule: Schedule, last: Prefix) {
    && |net| == |schedule.messages| == |topology.wire|
    && forall i :: 0 <= i < |net| ==> EndsWith(net[i].rib, topology.wire[i], schedule.messages[i], last)
  }

  lemma SomeRound(topology: Topology, net: seq<Speaker>, orders: seq<seq<nat>>, last: Prefix)
      returns (schedule: Schedule, net': seq<Speaker>)
    requires IsOrders(topology, orders) && |net| == |topology.hears|
    ensures Round(topology, net, schedule, net') && schedule.orders == orders
    ensures AllEndWith(topology, net, schedule, last)
  {
    hide OneEntryEach;
    hide IsRefresh;
    hide Message;
    hide SomeRib;
    OrdersShaped(topology, net, orders, last);
    schedule := Broadcasting(topology, net, orders, last);
    hide Shaped;
    net' := After(topology, net, schedule);
    forall i | 0 <= i < |net|
      ensures RoundAt(topology, schedule, i, net[i], net'[i])
      ensures EndsWith(net[i].rib, topology.wire[i], schedule.messages[i], last)
    {
      MessageEnds(net[i].rib, topology.wire[i], last);
    }
  }

  lemma MessageEnds(rib: Table, wire: Address, last: Prefix)
    ensures IsMessage(rib, wire, Message(rib, wire, last)) && EndsWith(rib, wire, Message(rib, wire, last), last)
  {
    var prefixes, entries := ListLast(rib, last), Message(rib, wire, last);
    assert OneEntryEach(rib, wire, prefixes, entries);
    hide ListLast;
    hide Message;
  }

  lemma {:induction false} SomeRun(topology: Topology, net: seq<Speaker>, orders: seq<seq<nat>>, last: Prefix,
                                   rounds: nat) returns (nets: seq<seq<Speaker>>, schedules: seq<Schedule>)
    requires IsOrders(topology, orders) && |net| == |topology.hears|
    ensures IsRounds(topology, nets, schedules) && |schedules| == rounds && nets[0] == net
    ensures forall s :: 0 <= s < rounds ==>
              schedules[s].orders == orders && AllEndWith(topology, nets[s], schedules[s], last)
    ensures |nets[rounds]| == |net|
  {
    hide AllEndWith;
    if rounds == 0 {
      nets, schedules := [net], [];
    } else {
      var before, earlier := SomeRun(topology, net, orders, last, rounds - 1);
      var schedule, net' := SomeRound(topology, before[rounds - 1], orders, last);
      hide RoundAt;
      hide Shaped;
      hide IsOrders;
      nets, schedules := before + [net'], earlier + [schedule];
    }
  }

  // ---- networks to start from ------------------------------------------

  /** A router that redistributed p in at some metric, or nothing. */
  ghost function NewSpeaker(p: Prefix, metric: Option<nat>): Speaker {
    match metric
    case None => Speaker(map[], map[], map[])
    case Some(m) =>
      var k := Key(p, 0);
      var r := RouteValue(k, 0, m, STATIC, UNKNOWN, 0.0);
      Speaker(map[k := r], map[], map[k := Copy(r, 0.0)])
  }

  lemma NewSpeakerIsOk(topology: Topology, i: nat, p: Prefix, metric: Option<nat>)
    requires topology.Valid() && i < |topology.hears| && Plain(p)
    ensures SpeakerOk(topology, i, NewSpeaker(p, metric))
  {
    hide Classful;
    var s := NewSpeaker(p, metric);
    assert IsRefresh(s.redistributed, s.learned, s.rib, 0.0);
  }

  /** Router j was given p at metrics[j], if at all. */
  ghost function NewNet(p: Prefix, metrics: seq<Option<nat>>): seq<Speaker> {
    seq(|metrics|, j requires 0 <= j < |metrics| => NewSpeaker(p, metrics[j]))
  }

  lemma NewNetStarts(topology: Topology, p: Prefix, metrics: seq<Option<nat>>)
    requires topology.Valid() && Plain(p) && |metrics| == |topology.hears|
    ensures Start(topology, NewNet(p, metrics))
  {
    hide Plain;
    hide SpeakerOk;
    forall i | 0 <= i < |metrics|
      ensures SpeakerOk(topology, i, NewSpeaker(p, metrics[i])) && NewSpeaker(p, metrics[i]).learned == map[]
    {
      NewSpeakerIsOk(topology, i, p, metrics[i]);
    }
  }

  lemma SomePlainPrefix() returns (p: Prefix)
    ensures Plain(p)
  {
    p := TenIsClassful();
  }
}
