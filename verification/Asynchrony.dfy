/** No rounds at all: routers send, receive and refresh when they like, and
    whatever else is sent between -- responses to poisoned routes, repeated or
    reordered packets -- the distances come out, as long as news is not for ever
    old. */
module Asynchrony {
  import opened Types
  import opened Addressing
  import opened Rip
  import opened RipProperties
  import opened Node
  import opened Network
  import opened Rounds
  import opened Convergence
  import opened QuietPaths

  // ---- good news arrives -----------------------------------------------

  /** The message offers p, at no more than m. */
  ghost predicate Brings(entries: seq<Entry>, p: Prefix, m: nat) {
    && (exists e :: e in entries && OnWire(e.address) == Ok(p))
    && forall e :: e in entries && OnWire(e.address) == Ok(p) ==> e.metric <= m
  }

  lemma SendBrings(topology: Topology, j: nat, s: Speaker, entries: seq<Entry>, p: Prefix, m: nat)
    requires topology.Valid() && j < |topology.hears| && SpeakerOk(topology, j, s) && Clear(s.redistributed, p)
    requires IsResponse(s.rib, topology.wire[j], entries) && BestMetric(s.rib, p) <= m < MAX_METRIC
    requires OnWire(p.address) == Ok(p)
    ensures Brings(entries, p, m + 1)
  {
    hide SpeakerOk;
    hide LeastFrom;
    hide OnWire;
    hide Clear;
    var o :| o in s.rib && o.prefix == p;
    assert Offers(s.rib, p);
    var b :| Optimal(s.rib, b) && b.prefix == p && Encode(s.rib[b], topology.wire[j]) in entries;
    RibOnWire(topology, j, s, b);
    forall e | e in entries && OnWire(e.address) == Ok(p)
      ensures e.metric <= m + 1
    {
      var k :| Optimal(s.rib, k) && e == Encode(s.rib[k], topology.wire[j]);
      RibOnWire(topology, j, s, k);
      OnlyItself(topology, j, s, k, p);
    }
  }

  /** Router i learned p from j at no more than m. */
  ghost predicate HasFrom(topology: Topology, j: nat, p: Prefix, m: nat, learned: Table)
    requires topology.Valid() && j < |topology.hears|
  {
    var k := Key(p, topology.wire[j]);
    k in learned && learned[k].metric <= m && learned[k].identity == k && learned[k].nextHop == topology.address[j]
  }

  lemma DeliveryBrings(topology: Topology, j: nat, entries: seq<Entry>, p: Prefix, m: nat, t: Table, at: real)
    requires topology.Valid() && j < |topology.hears| && AllFrom(topology, j, entries) && Brings(entries, p, m)
    ensures HasFrom(topology, j, p, m, Learn(t, Decode(entries, topology.address[j], at)))
  {
    var sender, k := topology.address[j], Key(p, topology.wire[j]);
    var routes := Decode(entries, sender, at);
    DecodeMembers(entries, sender, at);
    LearnedAt(t, routes, k);
    var o :| o in entries && OnWire(o.address) == Ok(p);
    assert DecodeEntry(o, sender, at).Some? && DecodeEntry(o, sender, at).value.identity == k;
    hide OnWire;
    hide DecodeEntry;
    hide Decode;
    hide Learn;
    var r := Learn(t, routes)[k];
    var e :| e in entries && DecodeEntry(e, sender, at) == Some(r);
    DecodedFrom(e, sender, at, r);
  }

  /** What others send does not touch it, if their fields differ. */
  lemma DeliveryLeaves(topology: Topology, j: nat, h: nat, entries: seq<Entry>, p: Prefix, m: nat, t: Table, at: real)
    requires topology.Valid() && j < |topology.hears| && h < |topology.hears| && AllFrom(topology, h, entries)
    requires topology.wire[j] != topology.wire[h] && HasFrom(topology, j, p, m, t)
    ensures HasFrom(topology, j, p, m, Learn(t, Decode(entries, topology.address[h], at)))
  {
    var sender, k := topology.address[h], Key(p, topology.wire[j]);
    var routes := Decode(entries, sender, at);
    DecodeMembers(entries, sender, at);
    LearnedAt(t, routes, k);
    hide Decode;
    hide Learn;
    forall r | r in routes
      ensures r.identity != k
    {
      var e :| e in entries && DecodeEntry(e, sender, at) == Some(r);
      DecodedFrom(e, sender, at, r);
    }
  }

  /** A RIB built while router i holds that is as good. */
  lemma RefreshUses(topology: Topology, i: nat, j: nat, s: Speaker, p: Prefix, m: nat)
    requires topology.Valid() && i < |topology.hears| && j < |topology.hears| && SpeakerOk(topology, i, s)
    requires HasFrom(topology, j, p, m, s.learned) && Key(p, topology.address[j]) !in s.redistributed
    ensures BestMetric(s.rib, p) <= m
  {
    hide SpeakerOk;
    hide LeastFrom;
    RibOffersLearned(topology, i, s, Key(p, topology.wire[j]));
  }

  // ---- fairness --------------------------------------------------------

  ghost predicate IsSend(a: Action, packet: Packet) {
    a.Send? && Packet(a.i, a.entries) == packet
  }

  /** What is delivered at v was sent no earlier than u. */
  ghost predicate SentSince(actions: seq<Action>, u: nat, v: nat, packet: Packet) {
    exists w :: u <= w < v && w < |actions| && IsSend(actions[w], packet)
  }

  ghost predicate IsDelivery(a: Action, j: nat, i: nat) {
    a.Deliver? && a.i == i && a.packet.sender == j
  }

  ghost predicate IsRebuild(a: Action, i: nat) {
    a.Act? && a.i == i && a.event.Refresh?
  }

  /** Between u and v, router i processes a message of router j and rebuilds its
      RIB after that. */
  ghost predicate Served(actions: seq<Action>, u: nat, v: nat, j: nat, i: nat) {
    exists x, y :: u <= x < y < v && y < |actions| && IsDelivery(actions[x], j, i) && IsRebuild(actions[y], i)
  }

  /** The run falls into phases: in each of them every router hears from all whom
      it hears, and from the second on nothing is delivered that was sent before
      the phase before. */
  ghost predicate Fair(topology: Topology, actions: seq<Action>, marks: seq<nat>) {
    && marks != [] && (forall t :: 0 <= t < |marks| ==> marks[t] <= |actions|)
    && (forall t :: 0 < t < |marks| ==> marks[t - 1] <= marks[t])
    && (forall t, v :: 0 < t < |marks| && marks[t] <= v < |actions| && actions[v].Deliver? ==>
          SentSince(actions, marks[t - 1], v, actions[v].packet))
    && (forall t, i, j :: 0 < t < |marks| && 0 <= i < |topology.hears| && j in topology.hears[i] && j != i ==>
          Served(actions, marks[t - 1], marks[t], j, i))
  }

  /** Router i hears itself and does not reject what it sent. */
  ghost predicate TakesOwn(topology: Topology, configs: seq<Config>, i: nat) {
    i < |topology.hears| && i < |configs| && i in topology.hears[i] && !configs[i].rejectOwn
  }

  /** ... and hears from itself in each phase. */
  ghost predicate OwnServed(topology: Topology, configs: seq<Config>, actions: seq<Action>, marks: seq<nat>) {
    && (forall t :: 0 <= t < |marks| ==> marks[t] <= |actions|)
    && forall t, i: nat :: 0 < t < |marks| && TakesOwn(topology, configs, i) ==>
         Served(actions, marks[t - 1], marks[t], i, i)
  }

  // ---- one hop, two phases ---------------------------------------------

  /** From state t on, router i has p at no more than m. */
  ghost predicate GoodFrom(run: seq<System>, t: nat, i: nat, p: Prefix, m: nat) {
    forall s :: t <= s < |run| ==> i < |run[s].nodes| && BestMetric(run[s].nodes[i].rib, p) <= m
  }

  /** The last hop of a walk: sender j, receiver i. */
  ghost predicate IsHop(topology: Topology, configs: seq<Config>, run: seq<System>, actions: seq<Action>, j: nat,
                        i: nat, p: Prefix, m: nat)
  {
    && IsQuietPath(topology, configs, run, actions) && DistinctWires(topology)
    && i < |topology.hears| && j in topology.hears[i] && j != i
    && HeardClear(topology, Given(Snaps(run[0])), p) && OnWire(p.address) == Ok(p) && m < MAX_METRIC
  }

  /** What j sends once it is good brings the good metric. */
  lemma SentIsGood(topology: Topology, configs: seq<Config>, run: seq<System>, actions: seq<Action>, j: nat, i: nat,
                   p: Prefix, m: nat, w: nat)
    requires IsHop(topology, configs, run, actions, j, i, p, m) && w < |actions| && actions[w].Send?
    requires actions[w].i == j
    requires j < |run[w].nodes| && BestMetric(run[w].nodes[j].rib, p) <= m
    ensures Brings(actions[w].entries, p, m + 1)
  {
    hide LeastFrom;
    hide OnWire;
    hide Quiet;
    hide DistinctWires;
    hide IsResponse;
    AlwaysFormed(topology, configs, run, actions, w);
    assert Moves(topology, configs, run[w], actions[w], run[w + 1]);
    var given := Given(Snaps(run[0]));
    assert RouterFormed(topology, given, j, run[w].nodes[j]);
    hide SpeakerOk;
    hide AllHeard;
    hide Clear;
    hide PacketFormed;
    assert Clear(given[j], p);
    SendBrings(topology, j, Snap(run[w].nodes[j]), actions[w].entries, p, m);
  }

  lemma DeliveredIsGood(topology: Topology, configs: seq<Config>, run: seq<System>, actions: seq<Action>, j: nat,
                        i: nat, p: Prefix, m: nat, a: nat, v: nat)
    requires IsHop(topology, configs, run, actions, j, i, p, m) && GoodFrom(run, a, j, p, m)
    requires v < |actions| && IsDelivery(actions[v], j, i) && SentSince(actions, a, v, actions[v].packet)
    ensures Brings(actions[v].packet.entries, p, m + 1)
  {
    hide BestMetric;
    hide OnWire;
    hide Formed;
    hide Moves;
    hide Quiet;
    hide DistinctWires;
    hide HeardClear;
    hide Brings;
    var w :| a <= w < v && w < |actions| && IsSend(actions[w], actions[v].packet);
    SentIsGood(topology, configs, run, actions, j, i, p, m, w);
  }

  /** Whatever happens, router i keeps what it has from j as good, as long as what
      else it gets from j is as good. */
  lemma StepKeepsHas(topology: Topology, configs: seq<Config>, given: seq<Table>, s: System, a: Action, s': System,
                     j: nat, i: nat, p: Prefix, m: nat)
    requires Formed(topology, given, s) && |configs| == |s.nodes| == |s'.nodes| && DistinctWires(topology)
    requires Moves(topology, configs, s, a, s') && Quiet(s, a, s')
    requires i < |s.nodes| && j in topology.hears[i] && HasFrom(topology, j, p, m, s.nodes[i].learned)
    requires IsDelivery(a, j, i) ==> Brings(a.packet.entries, p, m)
    ensures HasFrom(topology, j, p, m, s'.nodes[i].learned)
  {
    hide HasFrom;
    hide Brings;
    hide IsResponse;
    hide Learn;
    hide Decode;
    hide RouterFormed;
    hide Sweep;
    hide IsRefresh;
    hide Rip.RedistributeIn;
    match a
    case Send(_, _) =>
    case Act(_, _) =>
    case Deliver(h, packet, at) =>
      PacketsComeFrom(topology, given, s, packet);
      hide Formed;
      hide AllFrom;
      if h == i {
        if packet.sender == j {
          DeliveryBrings(topology, j, packet.entries, p, m, s.nodes[i].learned, at);
        } else {
          DeliveryLeaves(topology, j, packet.sender, packet.entries, p, m, s.nodes[i].learned, at);
        }
      }
  }

  lemma SomethingDecodes(entries: seq<Entry>, sender: Address, at: real, p: Prefix, m: nat)
    requires Brings(entries, p, m)
    ensures Decode(entries, sender, at) != []
  {
    hide OnWire;
    DecodeMembers(entries, sender, at);
    var e :| e in entries && OnWire(e.address) == Ok(p);
    assert DecodeEntry(e, sender, at).Some?;
  }

  lemma DeliveryGives(topology: Topology, configs: seq<Config>, given: seq<Table>, s: System, a: Action, s': System,
                      j: nat, i: nat, p: Prefix, m: nat)
    requires Formed(topology, given, s) && |configs| == |s.nodes| == |s'.nodes| && Moves(topology, configs, s, a, s')
    requires i < |s.nodes| && j < |topology.hears| && j != i && IsDelivery(a, j, i) && Brings(a.packet.entries, p, m)
    ensures HasFrom(topology, j, p, m, s'.nodes[i].learned)
  {
    hide HasFrom;
    hide Learn;
    hide Decode;
    hide RouterFormed;
    PacketsComeFrom(topology, given, s, a.packet);
    hide Formed;
    hide AllFrom;
    SomethingDecodes(a.packet.entries, topology.address[j], a.at, p, m);
    hide Brings;
    DeliveryBrings(topology, j, a.packet.entries, p, m, s.nodes[i].learned, a.at);
  }

  /** From the delivery at x on, when all later ones are as good. */
  lemma {:induction false} HasStays(topology: Topology, configs: seq<Config>, run: seq<System>, actions: seq<Action>,
                                    j: nat, i: nat, p: Prefix, m: nat, a: nat, x: nat, s: nat)
    requires IsHop(topology, configs, run, actions, j, i, p, m) && GoodFrom(run, a, j, p, m)
    requires |run| == |actions| + 1 && x < s < |run| && IsDelivery(actions[x], j, i)
    requires forall v :: x <= v < |actions| && actions[v].Deliver? ==> SentSince(actions, a, v, actions[v].packet)
    ensures i < |run[s].nodes| && HasFrom(topology, j, p, m + 1, run[s].nodes[i].learned)
  {
    hide IsQuietPath;
    hide Moves;
    hide Quiet;
    hide Formed;
    hide DistinctWires;
    hide HeardClear;
    hide OnWire;
    hide Brings;
    hide HasFrom;
    hide GoodFrom;
    hide SentSince;
    var given := Given(Snaps(run[0]));
    QuietStep(topology, configs, run, actions, s - 1);
    if IsDelivery(actions[s - 1], j, i) {
      DeliveredIsGood(topology, configs, run, actions, j, i, p, m, a, s - 1);
    }
    if s - 1 == x {
      DeliveryGives(topology, configs, given, run[x], actions[x], run[s], j, i, p, m + 1);
    } else {
      HasStays(topology, configs, run, actions, j, i, p, m, a, x, s - 1);
      StepKeepsHas(topology, configs, given, run[s - 1], actions[s - 1], run[s], j, i, p, m + 1);
    }
  }

  /** Rebuilding a RIB while router i has p from j. */
  lemma RebuildUses(topology: Topology, configs: seq<Config>, given: seq<Table>, s: System, a: Action, s': System,
                    j: nat, i: nat, p: Prefix, m: nat)
    requires Formed(topology, given, s) && Formed(topology, given, s') && |configs| == |s.nodes| == |s'.nodes|
    requires Moves(topology, configs, s, a, s') && i < |s.nodes| && j < |topology.hears| && IsRebuild(a, i)
    requires HasFrom(topology, j, p, m, s.nodes[i].learned) && !Hidden(topology, given, j, i, p)
    ensures BestMetric(s'.nodes[i].rib, p) <= m
  {
    hide HasFrom;
    hide BestMetric;
    hide IsRefresh;
    hide SpeakerOk;
    hide AllHeard;
    hide PacketFormed;
    var snap := Snap(s'.nodes[i]);
    assert RouterFormed(topology, given, i, s'.nodes[i]);
    assert snap.learned == s.nodes[i].learned;
    RefreshUses(topology, i, j, snap, p, m);
  }

  lemma RibStays(topology: Topology, configs: seq<Config>, s: System, a: Action, s': System, i: nat)
    requires topology.Valid() && |configs| == |s.nodes| == |s'.nodes| == |topology.hears|
    requires Moves(topology, configs, s, a, s') && Quiet(s, a, s') && i < |s.nodes| && !IsRebuild(a, i)
    ensures s'.nodes[i].rib == s.nodes[i].rib
  {
    hide IsResponse;
    hide Learn;
    hide Decode;
    hide IsRefresh;
    hide Sweep;
    hide Rip.RedistributeIn;
  }

  lemma {:induction false} GoodStays(topology: Topology, configs: seq<Config>, run: seq<System>, actions: seq<Action>,
                                     j: nat, i: nat, p: Prefix, m: nat, a: nat, x: nat, y: nat, s: nat)
    requires IsHop(topology, configs, run, actions, j, i, p, m) && GoodFrom(run, a, j, p, m)
    requires |run| == |actions| + 1 && x < y < s < |run| && IsDelivery(actions[x], j, i) && IsRebuild(actions[y], i)
    requires forall v :: x <= v < |actions| && actions[v].Deliver? ==> SentSince(actions, a, v, actions[v].packet)
    requires !Hidden(topology, Given(Snaps(run[0])), j, i, p)
    ensures i < |run[s].nodes| && BestMetric(run[s].nodes[i].rib, p) <= m + 1
  {
    hide IsQuietPath;
    hide Moves;
    hide Quiet;
    hide Formed;
    hide DistinctWires;
    hide HeardClear;
    hide OnWire;
    hide HasFrom;
    hide GoodFrom;
    hide SentSince;
    hide BestMetric;
    hide Hidden;
    var given := Given(Snaps(run[0]));
    QuietStep(topology, configs, run, actions, s - 1);
    if IsRebuild(actions[s - 1], i) {
      HasStays(topology, configs, run, actions, j, i, p, m, a, x, s - 1);
      RebuildUses(topology, configs, given, run[s - 1], actions[s - 1], run[s], j, i, p, m + 1);
    } else {
      GoodStays(topology, configs, run, actions, j, i, p, m, a, x, y, s - 1);
      RibStays(topology, configs, run[s - 1], actions[s - 1], run[s], i);
    }
  }

  /** One hop: what j has from state a on, i has from state c on. */
  lemma HopArrives(topology: Topology, configs: seq<Config>, run: seq<System>, actions: seq<Action>, j: nat, i: nat,
                   p: Prefix, m: nat, a: nat, b: nat, c: nat)
    requires IsHop(topology, configs, run, actions, j, i, p, m) && GoodFrom(run, a, j, p, m)
    requires forall v :: b <= v < |actions| && actions[v].Deliver? ==> SentSince(actions, a, v, actions[v].packet)
    requires Served(actions, b, c, j, i) && !Hidden(topology, Given(Snaps(run[0])), j, i, p)
    ensures GoodFrom(run, c, i, p, m + 1)
  {
    assert |run| == |actions| + 1;
    hide IsHop;
    hide SentSince;
    hide BestMetric;
    hide Hidden;
    var x, y :| b <= x < y < c && y < |actions| && IsDelivery(actions[x], j, i) && IsRebuild(actions[y], i);
    forall s | c <= s < |run|
      ensures i < |run[s].nodes| && BestMetric(run[s].nodes[i].rib, p) <= m + 1
    {
      GoodStays(topology, configs, run, actions, j, i, p, m, a, x, y, s);
    }
  }

  // ---- walks -----------------------------------------------------------

  lemma OriginIsGood(topology: Topology, configs: seq<Config>, run: seq<System>, actions: seq<Action>, o: Origin)
    requires IsQuietPath(topology, configs, run, actions) && o in AllOrigins(Given(Snaps(run[0])))
    ensures GoodFrom(run, 0, o.router, o.prefix, o.metric)
  {
    hide Formed;
    hide Moves;
    hide Quiet;
    hide BestMetric;
    var given := Given(Snaps(run[0]));
    forall s | 0 <= s < |run|
      ensures o.router < |run[s].nodes| && BestMetric(run[s].nodes[o.router].rib, o.prefix) <= o.metric
    {
      AlwaysFormed(topology, configs, run, actions, s);
      FormedNet(topology, given, run[s]);
      hide Formed;
      OriginArrives(topology, Snaps(run[s]), o);
    }
  }

  lemma {:induction false} MarksInOrder(topology: Topology, actions: seq<Action>, marks: seq<nat>, t: nat, u: nat)
    requires Fair(topology, actions, marks) && t <= u < |marks|
    ensures marks[t] <= marks[u] <= |actions|
    decreases u
  {
    hide SentSince;
    hide Served;
    if t < u {
      MarksInOrder(topology, actions, marks, t, u - 1);
    }
  }

  lemma GoodLater(run: seq<System>, t: nat, u: nat, i: nat, p: Prefix, m: nat, n: nat)
    requires GoodFrom(run, t, i, p, m) && t <= u && m <= n
    ensures GoodFrom(run, u, i, p, n)
  {
    hide BestMetric;
  }

  /** After two phases for each hop, the metric at the end of an open walk is at
      least as good as the walk's. */
  lemma {:induction false} WalkComes(topology: Topology, configs: seq<Config>, run: seq<System>, actions: seq<Action>,
                                     marks: seq<nat>, w: seq<nat>, o: Origin, i: nat, p: Prefix, m: nat)
    requires IsQuietPath(topology, configs, run, actions) && DistinctWires(topology) && Fair(topology, actions, marks)
    requires HeardClear(topology, Given(Snaps(run[0])), p) && o in AllOrigins(Given(Snaps(run[0])))
    requires Carries(topology, w, o, i, p, m) && Open(topology, Given(Snaps(run[0])), w, p)
    requires 2 * (|w| - 1) < |marks| && m < MAX_METRIC
    ensures GoodFrom(run, marks[2 * (|w| - 1)], i, p, m)
    decreases |w|
  {
    hide Formed;
    hide Moves;
    hide Quiet;
    hide BestMetric;
    hide OnWire;
    hide DistinctWires;
    hide HeardClear;
    hide Hidden;
    hide AllOrigins;
    hide Served;
    hide SentSince;
    var given := Given(Snaps(run[0]));
    FiledPlainly(topology, configs, run, actions, w, o, i, p, m);
    if |w| == 1 {
      OriginIsGood(topology, configs, run, actions, o);
      GoodLater(run, 0, marks[0], i, p, m, m);
    } else {
      LastHop(topology, given, w, o, i, p, m);
      var j, h := w[|w| - 2], 2 * (|w| - 1);
      hide Carries;
      hide Open;
      WalkComes(topology, configs, run, actions, marks, w[..|w| - 1], o, j, p, m - 1);
      if j == i {
        MarksInOrder(topology, actions, marks, h - 2, h);
        GoodLater(run, marks[h - 2], marks[h], i, p, m - 1, m);
      } else {
        FairHop(topology, actions, marks, h, j, i);
        HopArrives(topology, configs, run, actions, j, i, p, m - 1, marks[h - 2], marks[h - 1], marks[h]);
      }
    }
  }

  lemma FairHop(topology: Topology, actions: seq<Action>, marks: seq<nat>, h: nat, j: nat, i: nat)
    requires Fair(topology, actions, marks) && 2 <= h < |marks| && i < |topology.hears| && j in topology.hears[i]
    requires j != i
    ensures forall v :: marks[h - 1] <= v < |actions| && actions[v].Deliver? ==>
              SentSince(actions, marks[h - 2], v, actions[v].packet)
    ensures Served(actions, marks[h - 1], marks[h], j, i)
  {
    hide Served;
    hide SentSince;
    var t := h - 1;
    assert 0 < t < |marks| && marks[t - 1] == marks[h - 2];
  }

  lemma FiledPlainly(topology: Topology, configs: seq<Config>, run: seq<System>, actions: seq<Action>,
                     w: seq<nat>, o: Origin, i: nat, p: Prefix, m: nat)
    requires IsQuietPath(topology, configs, run, actions) && HeardClear(topology, Given(Snaps(run[0])), p)
    requires o in AllOrigins(Given(Snaps(run[0]))) && Carries(topology, w, o, i, p, m)
    ensures p == o.prefix && (1 < |w| ==> OnWire(p.address) == Ok(p))
  {
    hide Moves;
    hide Quiet;
    hide HeardClear;
    hide OnWire;
    hide Carries;
    AlwaysFormed(topology, configs, run, actions, 0);
    FormedNet(topology, Given(Snaps(run[0])), run[0]);
    hide Formed;
    PlainFiled(topology, Snaps(run[0]), w, o, i, p, m);
  }

  // ---- settling --------------------------------------------------------

  /** With distinct wires every fair path settles from any state that shows
      nothing nearer than it is. */
  lemma FairPathsSettle(topology: Topology, configs: seq<Config>, run: seq<System>, actions: seq<Action>,
                        marks: seq<nat>, s: nat, i: nat, p: Prefix)
    requires IsQuietPath(topology, configs, run, actions) && DistinctWires(topology) && Fair(topology, actions, marks)
    requires HeardClear(topology, Given(Snaps(run[0])), p)
    requires NothingNearer(topology, Given(Snaps(run[0])), run[0], p, MAX_METRIC)
    requires 30 < |marks| && marks[30] <= s < |run| && i < |topology.hears|
    ensures i < |run[s].nodes| && BestMetric(run[s].nodes[i].rib, p) == Distance(topology, Given(Snaps(run[0])), i, p)
  {
    hide IsQuietPath;
    hide BestMetric;
    hide DistinctWires;
    hide HeardClear;
    hide Fair;
    hide NothingNearer;
    hide TableNotNearer;
    hide Distance;
    var given := Given(Snaps(run[0]));
    AlwaysFar(topology, configs, run, actions, p, MAX_METRIC, s);
    AlwaysFormed(topology, configs, run, actions, s);
    FormedLength(topology, given, run[s]);
    NothingNearerAt(topology, given, run[s], i, p, MAX_METRIC);
    FormedNet(topology, given, run[s]);
    hide Formed;
    RibNotNearer(topology, Snaps(run[s]), i, p, MAX_METRIC);
    AtMostInfinity(topology, given, i, p);
    ComesAtLast(topology, configs, run, actions, marks, s, i, p);
  }

  lemma NothingNearerAt(topology: Topology, given: seq<Table>, s: System, i: nat, p: Prefix, low: nat)
    requires NothingNearer(topology, given, s, p, low) && i < |s.nodes|
    ensures TableNotNearer(topology, given, i, s.nodes[i].learnedAtRefresh, p, low)
  {
    hide TableNotNearer;
    hide EntriesNotNearer;
    assert NodeNotNearer(topology, given, i, s.nodes[i], p, low);
  }

  /** After thirty phases no best metric is more than the distance, whatever the
      state was to begin with. */
  lemma ComesAtLast(topology: Topology, configs: seq<Config>, run: seq<System>, actions: seq<Action>, marks: seq<nat>,
                    s: nat, i: nat, p: Prefix)
    requires IsQuietPath(topology, configs, run, actions) && DistinctWires(topology) && Fair(topology, actions, marks)
    requires HeardClear(topology, Given(Snaps(run[0])), p) && 30 < |marks| && marks[30] <= s < |run|
    requires i < |run[s].nodes|
    ensures BestMetric(run[s].nodes[i].rib, p) <= Distance(topology, Given(Snaps(run[0])), i, p)
  {
    hide IsQuietPath;
    hide LeastFrom;
    hide DistinctWires;
    hide HeardClear;
    hide Fair;
    hide Open;
    hide AllOrigins;
    var given := Given(Snaps(run[0]));
    var d := Distance(topology, given, i, p);
    assert IsOpenDistance(topology, given, i, p, MAX_METRIC, d);
    hide Distance;
    if d < MAX_METRIC {
      var w, o :| && o in AllOrigins(given) && |w| <= MAX_METRIC + 1
                  && Carries(topology, w, o, i, p, d) && Open(topology, given, w, p);
      assert 0 < |w| <= d + 1;
      var h := 2 * (|w| - 1);
      WalkComes(topology, configs, run, actions, marks, w, o, i, p, d);
      MarksInOrder(topology, actions, marks, h, 30);
    }
  }

  /** From the start, that is: after thirty phases each best metric is the distance
      over open walks of any length, and stays it -- whatever else is sent,
      repeated or reordered meanwhile. */
  lemma FairRunsSettle(topology: Topology, configs: seq<Config>, run: seq<System>, actions: seq<Action>,
                       marks: seq<nat>, s: nat, i: nat, p: Prefix, hops: nat)
    requires IsQuietRun(topology, configs, run, actions) && DistinctWires(topology) && Fair(topology, actions, marks)
    requires HeardClear(topology, Given(Snaps(run[0])), p)
    requires 30 < |marks| && marks[30] <= s < |run| && i < |topology.hears| && 15 <= hops
    ensures i < |run[s].nodes|
    ensures IsOpenDistance(topology, Given(Snaps(run[0])), i, p, hops, BestMetric(run[s].nodes[i].rib, p))
  {
    assert IsQuietPath(topology, configs, run, actions) && topology.Valid();
    hide IsQuietPath;
    hide StartsAt;
    hide BestMetric;
    hide DistinctWires;
    hide HeardClear;
    hide Fair;
    hide NothingNearer;
    hide IsOpenDistance;
    var given := Given(Snaps(run[0]));
    StartsFar(topology, given, run[0], p, MAX_METRIC);
    FairPathsSettle(topology, configs, run, actions, marks, s, i, p);
    DistanceIs(topology, given, i, p, hops);
  }
}
