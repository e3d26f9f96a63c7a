/** Fair runs from a state with stale routes and packets: as long as each of them
    is renewed, or shows nothing nearer than it is, the network finds its way back
    to the distances. */
module FairRecovery {
  import opened Types
  import opened Addressing
  import opened Rip
  import opened RipProperties
  import opened Node
  import opened Network
  import opened Rounds
  import opened Convergence
  import opened QuietPaths
  import opened Asynchrony
  import opened Renewal

  // ---- two phases raise by one -----------------------------------------

  /** From state u on no RIB is built from a route that shows p nearer than it is,
      or than `low`. */
  ghost predicate LowFrom(topology: Topology, given: seq<Table>, run: seq<System>, u: nat, p: Prefix, low: nat) {
    forall s, i :: u <= s < |run| && 0 <= i < |run[s].nodes| ==>
      TableNotNearer(topology, given, i, run[s].nodes[i].learnedAtRefresh, p, low)
  }

  /** So no message sent since does, one hop on. */
  lemma SentFar(topology: Topology, configs: seq<Config>, run: seq<System>, actions: seq<Action>, p: Prefix, u: nat,
                low: nat, w: nat, i: nat)
    requires Recovering(topology, configs, run, actions, p) && LowFrom(topology, Given(Snaps(run[0])), run, u, p, low)
    requires u <= w < |actions| && actions[w].Send? && Listens(topology, actions[w].i, i)
    ensures EntriesNotNearer(topology, Given(Snaps(run[0])), actions[w].i, actions[w].entries, p, low + 1)
  {
    hide IsQuietPath;
    hide HeardClear;
    hide Recoverable;
    hide Moves;
    hide Quiet;
    hide Formed;
    hide TableNotNearer;
    hide IsResponse;
    QuietPathLength(topology, configs, run, actions);
    var given := Given(Snaps(run[0]));
    QuietStep(topology, configs, run, actions, w);
    FormedLength(topology, given, run[w]);
    DeliveredWasSent(topology, configs, run[w], actions[w], run[w + 1]);
    MessageNotNearer(topology, given, run[w], actions[w].i, i, actions[w].entries, p, low);
  }

  lemma DeliveredFar(topology: Topology, configs: seq<Config>, run: seq<System>, actions: seq<Action>, p: Prefix,
                     u: nat, low: nat, v: nat, i: nat)
    requires Recovering(topology, configs, run, actions, p) && LowFrom(topology, Given(Snaps(run[0])), run, u, p, low)
    requires v < |actions| && actions[v].Deliver? && SentSince(actions, u, v, actions[v].packet)
    requires Listens(topology, actions[v].packet.sender, i)
    ensures EntriesNotNearer(topology, Given(Snaps(run[0])), actions[v].packet.sender, actions[v].packet.entries, p,
                             low + 1)
  {
    hide Recovering;
    hide LowFrom;
    hide EntriesNotNearer;
    var w :| u <= w < v && w < |actions| && IsSend(actions[w], actions[v].packet);
    SentFar(topology, configs, run, actions, p, u, low, w, i);
  }

  /** ... nor what such a message teaches. */
  lemma TaughtFar(topology: Topology, configs: seq<Config>, run: seq<System>, actions: seq<Action>, u: nat, low: nat,
                  v: nat, i: nat, k: Key, r: RouteValue)
    requires Recovering(topology, configs, run, actions, k.prefix) && low < MAX_METRIC
    requires LowFrom(topology, Given(Snaps(run[0])), run, u, k.prefix, low)
    requires topology.Valid() && v < |actions| && i < |topology.hears| && Taught(topology, configs, actions[v], i, k, r)
    requires SentSince(actions, u, v, actions[v].packet)
    ensures NotNearer(topology, Given(Snaps(run[0])), i, k.prefix, r, low + 1)
  {
    hide LowFrom;
    hide EntriesNotNearer;
    hide NotNearer;
    hide SentSince;
    hide Moves;
    hide Quiet;
    hide Formed;
    hide HeardClear;
    hide Recoverable;
    hide Decode;
    hide AllFrom;
    var given, packet := Given(Snaps(run[0])), actions[v].packet;
    DeliveredFar(topology, configs, run, actions, k.prefix, u, low, v, i);
    QuietStep(topology, configs, run, actions, v);
    FormedLength(topology, given, run[v]);
    hide IsQuietPath;
    DeliveredWasSent(topology, configs, run[v], actions[v], run[v + 1]);
    PacketsComeFrom(topology, given, run[v], packet);
    LearnedNotNearer(topology, given, packet.sender, i, packet.entries, k.prefix, low + 1, actions[v].at, r);
  }

  /** From state u on the route under k, if there is one, does not. */
  ghost predicate KeyFarFrom(topology: Topology, given: seq<Table>, run: seq<System>, u: nat, i: nat, k: Key,
                             low: nat)
  {
    forall s :: u <= s < |run| ==> KeyFar(topology, given, run[s], i, k, low)
  }

  ghost predicate KeyFar(topology: Topology, given: seq<Table>, s: System, i: nat, k: Key, low: nat) {
    i < |s.nodes| && (k in s.nodes[i].learned ==> NotNearer(topology, given, i, k.prefix, s.nodes[i].learned[k], low))
  }

  /** A step keeps that, unless it teaches something nearer. */
  lemma KeyStaysFar(topology: Topology, configs: seq<Config>, given: seq<Table>, s: System, a: Action, s': System,
                    i: nat, k: Key, low: nat)
    requires Formed(topology, given, s) && |configs| == |s.nodes| == |s'.nodes| && i < |s.nodes|
    requires Moves(topology, configs, s, a, s') && Quiet(s, a, s') && KeyFar(topology, given, s, i, k, low)
    requires forall r :: Taught(topology, configs, a, i, k, r) ==> NotNearer(topology, given, i, k.prefix, r, low)
    ensures KeyFar(topology, given, s', i, k, low)
  {
    hide Formed;
    hide Moves;
    hide Quiet;
    hide Taught;
    hide NotNearer;
    KeyMoves(topology, configs, given, s, a, s', i, k);
  }

  /** All that is delivered from v on was sent since u. */
  ghost predicate NewsFrom(actions: seq<Action>, u: nat, v: nat) {
    forall x :: v <= x < |actions| && actions[x].Deliver? ==> SentSince(actions, u, x, actions[x].packet)
  }

  lemma {:induction false} FarOn(topology: Topology, configs: seq<Config>, run: seq<System>, actions: seq<Action>,
                                 u: nat, low: nat, v: nat, i: nat, k: Key, s: nat)
    requires Recovering(topology, configs, run, actions, k.prefix) && low < MAX_METRIC
    requires LowFrom(topology, Given(Snaps(run[0])), run, u, k.prefix, low) && NewsFrom(actions, u, v)
    requires v <= s < |run| && KeyFar(topology, Given(Snaps(run[0])), run[v], i, k, low + 1)
    ensures KeyFar(topology, Given(Snaps(run[0])), run[s], i, k, low + 1)
    decreases s
  {
    hide LowFrom;
    hide KeyFar;
    hide NotNearer;
    hide Recoverable;
    hide HeardClear;
    hide Moves;
    hide Quiet;
    hide Formed;
    hide SentSince;
    if v < s {
      var given, a := Given(Snaps(run[0])), actions[s - 1];
      FarOn(topology, configs, run, actions, u, low, v, i, k, s - 1);
      QuietPathLength(topology, configs, run, actions);
      QuietStep(topology, configs, run, actions, s - 1);
      assert i < |topology.hears| by { KeyFarIn(topology, given, run[s - 1], i, k, low + 1); }
      hide IsQuietPath;
      forall r | Taught(topology, configs, a, i, k, r)
        ensures NotNearer(topology, given, i, k.prefix, r, low + 1)
      {
        TaughtFar(topology, configs, run, actions, u, low, s - 1, i, k, r);
      }
      KeyStaysFar(topology, configs, given, run[s - 1], actions[s - 1], run[s], i, k, low + 1);
    }
  }

  lemma KeyFarIn(topology: Topology, given: seq<Table>, s: System, i: nat, k: Key, low: nat)
    requires KeyFar(topology, given, s, i, k, low)
    ensures i < |s.nodes|
  {
    hide NotNearer;
  }

  // ---- a route that is renewed -----------------------------------------

  lemma SentNames(topology: Topology, given: seq<Table>, s: System, j: nat, entries: seq<Entry>, p: Prefix)
    requires Formed(topology, given, s) && OffersNow(s, j, p) && j < |topology.hears|
    requires IsResponse(s.nodes[j].rib, topology.wire[j], entries)
    ensures Names(entries, p)
  {
    assert RouterFormed(topology, given, j, s.nodes[j]);
    hide Formed;
    hide SpeakerOk;
    hide OnWire;
    var rib := s.nodes[j].rib;
    var b :| b in rib && OnWire(b.prefix.address) == Ok(p);
    assert Offers(rib, b.prefix);
    var k :| Optimal(rib, k) && k.prefix == b.prefix && Encode(rib[k], topology.wire[j]) in entries;
    RibOnWire(topology, j, Snap(s.nodes[j]), k);
  }

  lemma DeliveryTeachesIt(topology: Topology, configs: seq<Config>, a: Action, n: Node, k: Key)
    requires topology.Valid() && a.Deliver? && a.i < |topology.hears| == |configs|
    requires Accepts(topology, configs, a.packet.sender, a.i) && AllFrom(topology, a.packet.sender, a.packet.entries)
    requires Names(a.packet.entries, k.prefix) && topology.wire[a.packet.sender] == k.nextHop
    ensures var j := a.packet.sender;
      var n' := Receiving(configs[a.i], n, Receive(a.packet.entries, topology.address[j], j == a.i, a.at));
      k in n'.learned && Taught(topology, configs, a, a.i, k, n'.learned[k])
  {
    hide OnWire;
    var j := a.packet.sender;
    var routes := Decode(a.packet.entries, topology.address[j], a.at);
    DecodeMembers(a.packet.entries, topology.address[j], a.at);
    var e :| e in a.packet.entries && OnWire(e.address) == Ok(k.prefix);
    var r := DecodeEntry(e, topology.address[j], a.at).value;
    assert r in routes && r.identity == k;
    hide DecodeEntry;
    hide Decode;
    hide Learn;
    LearnedAt(n.learned, routes, k);
  }

  /** Once a router that offered the key since u was heard, what is held under it
      is far. */
  lemma RenewedIsFar(topology: Topology, configs: seq<Config>, run: seq<System>, actions: seq<Action>, u: nat,
                     low: nat, x: nat, j: nat, i: nat, k: Key)
    requires Recovering(topology, configs, run, actions, k.prefix) && low < MAX_METRIC
    requires LowFrom(topology, Given(Snaps(run[0])), run, u, k.prefix, low)
    requires topology.Valid() && Accepts(topology, configs, j, i) && topology.wire[j] == k.nextHop
    requires u < |run| && OffersNow(run[u], j, k.prefix)
    requires x < |actions| && IsDelivery(actions[x], j, i) && SentSince(actions, u, x, actions[x].packet)
    ensures x + 1 < |run| && KeyFar(topology, Given(Snaps(run[0])), run[x + 1], i, k, low + 1)
  {
    hide LowFrom;
    hide NotNearer;
    hide Recoverable;
    hide HeardClear;
    hide Moves;
    hide Quiet;
    hide Formed;
    hide OffersNow;
    hide Names;
    hide IsResponse;
    hide TakesOwn;
    var given, packet := Given(Snaps(run[0])), actions[x].packet;
    QuietPathLength(topology, configs, run, actions);
    var w :| u <= w < x && w < |actions| && IsSend(actions[w], packet);
    OffersLater(topology, configs, run, actions, k.prefix, j, u, w);
    QuietStep(topology, configs, run, actions, w);
    QuietStep(topology, configs, run, actions, x);
    hide IsQuietPath;
    DeliveredWasSent(topology, configs, run[w], actions[w], run[w + 1]);
    DeliveredWasSent(topology, configs, run[x], actions[x], run[x + 1]);
    SentNames(topology, given, run[w], j, packet.entries, k.prefix);
    DeliveredTeaches(topology, configs, given, run[x], actions[x], run[x + 1], k);
    TaughtFar(topology, configs, run, actions, u, low, x, i, k, run[x + 1].nodes[i].learned[k]);
  }

  lemma DeliveredTeaches(topology: Topology, configs: seq<Config>, given: seq<Table>, s: System, a: Action, s': System,
                         k: Key)
    requires Formed(topology, given, s) && |configs| == |s.nodes| == |s'.nodes|
    requires Moves(topology, configs, s, a, s') && a.Deliver? && Accepts(topology, configs, a.packet.sender, a.i)
    requires Names(a.packet.entries, k.prefix) && topology.wire[a.packet.sender] == k.nextHop
    ensures a.i < |s'.nodes| && k in s'.nodes[a.i].learned
    ensures Taught(topology, configs, a, a.i, k, s'.nodes[a.i].learned[k])
  {
    FormedLength(topology, given, s);
    PacketsComeFrom(topology, given, s, a.packet);
    hide Formed;
    hide AllFrom;
    hide Names;
    hide Taught;
    hide Receiving;
    DeliveryTeachesIt(topology, configs, a, s.nodes[a.i], k);
  }

  // ---- a route that is not ---------------------------------------------

  lemma {:induction false} SentBefore(topology: Topology, configs: seq<Config>, run: seq<System>,
                                      actions: seq<Action>, u: nat, v: nat, packet: Packet)
    requires IsQuietPath(topology, configs, run, actions) && u <= v < |run| && packet in run[v].sent
    ensures packet in run[u].sent || SentSince(actions, u, v, packet)
    decreases v
  {
    hide IsQuietPath;
    hide Formed;
    hide Moves;
    hide Quiet;
    if u < v {
      QuietPathLength(topology, configs, run, actions);
      QuietStep(topology, configs, run, actions, v - 1);
      DeliveredWasSent(topology, configs, run[v - 1], actions[v - 1], run[v]);
      if packet in run[v - 1].sent {
        SentBefore(topology, configs, run, actions, u, v - 1, packet);
      } else {
        assert IsSend(actions[v - 1], packet);
      }
    }
  }

  lemma FarAtAll(topology: Topology, given: seq<Table>, i: nat, p: Prefix, r: RouteValue, low: nat)
    requires NotNearer(topology, given, i, p, r, MAX_METRIC)
    ensures NotNearer(topology, given, i, p, r, low)
  {
    AtMostInfinity(topology, given, i, p);
    hide Distance;
  }

  /** What is taught from u on, when nobody offered the key at u. */
  lemma TaughtUnrenewed(topology: Topology, configs: seq<Config>, run: seq<System>, actions: seq<Action>, u: nat,
                        low: nat, v: nat, i: nat, k: Key, r: RouteValue)
    requires Recovering(topology, configs, run, actions, k.prefix) && low < MAX_METRIC
    requires LowFrom(topology, Given(Snaps(run[0])), run, u, k.prefix, low)
    requires topology.Valid() && u <= v < |actions| && i < |topology.hears|
    requires Taught(topology, configs, actions[v], i, k, r)
    requires u < |run| && !Renewing(topology, configs, run[u], i, k)
    ensures NotNearer(topology, Given(Snaps(run[0])), i, k.prefix, r, low + 1)
  {
    hide Taught;
    hide LowFrom;
    hide NotNearer;
    hide Renewing;
    hide HeardClear;
    hide Moves;
    hide Quiet;
    hide Formed;
    hide RouterRecoverable;
    hide PacketRecoverable;
    hide SentSince;
    var given, a := Given(Snaps(run[0])), actions[v];
    QuietPathLength(topology, configs, run, actions);
    AlwaysRecoverable(topology, configs, run, actions, k.prefix, u, false);
    QuietStep(topology, configs, run, actions, v);
    QuietStep(topology, configs, run, actions, u);
    FormedLength(topology, given, run[v]);
    assert a.Deliver? by { TaughtIsDelivered(topology, configs, a, i, k, r); }
    DeliveredWasSent(topology, configs, run[v], a, run[v + 1]);
    SentBefore(topology, configs, run, actions, u, v, a.packet);
    hide IsQuietPath;
    if SentSince(actions, u, v, a.packet) {
      TaughtFar(topology, configs, run, actions, u, low, v, i, k, r);
    } else {
      TaughtRecoverable(topology, configs, given, run[u], a, i, k, r, false);
      FarAtAll(topology, given, i, k.prefix, r, low + 1);
    }
  }

  lemma TaughtIsDelivered(topology: Topology, configs: seq<Config>, a: Action, i: nat, k: Key, r: RouteValue)
    requires topology.Valid() && Taught(topology, configs, a, i, k, r)
    ensures a.Deliver?
  {
    hide Decode;
  }

  lemma UnrenewedAtFirst(topology: Topology, configs: seq<Config>, run: seq<System>, actions: seq<Action>, u: nat,
                         low: nat, i: nat, k: Key)
    requires Recovering(topology, configs, run, actions, k.prefix) && topology.Valid() && i < |topology.hears|
    requires u < |run| && !Renewing(topology, configs, run[u], i, k)
    ensures KeyFar(topology, Given(Snaps(run[0])), run[u], i, k, low)
  {
    hide NotNearer;
    hide Renewing;
    hide HeardClear;
    hide Moves;
    hide Quiet;
    hide Formed;
    hide PacketRecoverable;
    hide BuiltRecoverable;
    var given := Given(Snaps(run[0]));
    AlwaysFormed(topology, configs, run, actions, u);
    FormedLength(topology, given, run[u]);
    AlwaysRecoverable(topology, configs, run, actions, k.prefix, u, false);
    assert RouterRecoverable(topology, configs, given, run[u], i, k.prefix, false);
    if k in run[u].nodes[i].learned {
      FarAtAll(topology, given, i, k.prefix, run[u].nodes[i].learned[k], low);
    }
  }

  lemma {:induction false} UnrenewedIsFar(topology: Topology, configs: seq<Config>, run: seq<System>,
                                          actions: seq<Action>, u: nat, low: nat, i: nat, k: Key, s: nat)
    requires Recovering(topology, configs, run, actions, k.prefix) && low < MAX_METRIC
    requires LowFrom(topology, Given(Snaps(run[0])), run, u, k.prefix, low) && i < |topology.hears|
    requires topology.Valid() && u <= s < |run| && !Renewing(topology, configs, run[u], i, k)
    ensures KeyFar(topology, Given(Snaps(run[0])), run[s], i, k, low + 1)
    decreases s
  {
    hide LowFrom;
    hide NotNearer;
    hide Renewing;
    hide HeardClear;
    hide Moves;
    hide Quiet;
    hide Formed;
    hide KeyFar;
    hide Recoverable;
    if s == u {
      UnrenewedAtFirst(topology, configs, run, actions, u, low + 1, i, k);
    } else {
      var given := Given(Snaps(run[0]));
      QuietPathLength(topology, configs, run, actions);
      UnrenewedIsFar(topology, configs, run, actions, u, low, i, k, s - 1);
      QuietStep(topology, configs, run, actions, s - 1);
      hide IsQuietPath;
      var a := actions[s - 1];
      forall r | Taught(topology, configs, a, i, k, r)
        ensures NotNearer(topology, given, i, k.prefix, r, low + 1)
      {
        TaughtUnrenewed(topology, configs, run, actions, u, low, s - 1, i, k, r);
      }
      KeyStaysFar(topology, configs, given, run[s - 1], a, run[s], i, k, low + 1);
    }
  }

  // ---- two phases ------------------------------------------------------

  ghost predicate RefreshFar(topology: Topology, given: seq<Table>, s: System, i: nat, k: Key, low: nat) {
    && i < |s.nodes|
    && var t := s.nodes[i].learnedAtRefresh; k in t ==> NotNearer(topology, given, i, k.prefix, t[k], low)
  }

  lemma {:induction false} RebuiltFar(topology: Topology, configs: seq<Config>, run: seq<System>, actions: seq<Action>,
                                      u: nat, i: nat, k: Key, low: nat, y: nat, s: nat)
    requires IsQuietPath(topology, configs, run, actions) && i < |topology.hears|
    requires KeyFarFrom(topology, Given(Snaps(run[0])), run, u, i, k, low)
    requires u <= y < s < |run| && y < |actions| && IsRebuild(actions[y], i)
    ensures RefreshFar(topology, Given(Snaps(run[0])), run[s], i, k, low)
    decreases s
  {
    hide IsQuietPath;
    hide Formed;
    hide Moves;
    hide Quiet;
    hide NotNearer;
    QuietPathLength(topology, configs, run, actions);
    QuietStep(topology, configs, run, actions, s - 1);
    RefreshMoves(topology, configs, run[s - 1], actions[s - 1], run[s], i);
    if IsRebuild(actions[s - 1], i) {
      assert KeyFar(topology, Given(Snaps(run[0])), run[s - 1], i, k, low);
    } else {
      RebuiltFar(topology, configs, run, actions, u, i, k, low, y, s - 1);
    }
  }

  /** Each router is heard by all that take from it, and rebuilds, in each phase. */
  ghost predicate ServedAll(topology: Topology, configs: seq<Config>, actions: seq<Action>, b: nat, c: nat) {
    forall j: nat, i: nat :: Accepts(topology, configs, j, i) ==> Served(actions, b, c, j, i)
  }

  lemma PhaseServes(topology: Topology, configs: seq<Config>, actions: seq<Action>, marks: seq<nat>, t: nat)
    requires Fair(topology, actions, marks) && OwnServed(topology, configs, actions, marks) && 0 < t < |marks|
    ensures marks[t - 1] <= marks[t] <= |actions| && ServedAll(topology, configs, actions, marks[t - 1], marks[t])
    ensures NewsFrom(actions, marks[t - 1], marks[t])
  {
    hide Served;
    hide SentSince;
    hide TakesOwn;
  }

  /** What is renewed is far once it was heard in the second phase, all else all
      along; and then the RIB is rebuilt. */
  lemma KeyRaised(topology: Topology, configs: seq<Config>, run: seq<System>, actions: seq<Action>, a: nat, b: nat,
                  c: nat, low: nat, i: nat, k: Key, s: nat)
    requires Recovering(topology, configs, run, actions, k.prefix) && low < MAX_METRIC
    requires LowFrom(topology, Given(Snaps(run[0])), run, a, k.prefix, low) && NewsFrom(actions, a, b)
    requires ServedAll(topology, configs, actions, b, c) && a <= b <= c <= s < |run| && i < |topology.hears|
    ensures RefreshFar(topology, Given(Snaps(run[0])), run[s], i, k, low + 1)
  {
    hide LowFrom;
    hide NotNearer;
    hide Renewing;
    hide HeardClear;
    hide Moves;
    hide Quiet;
    hide Formed;
    hide PacketRecoverable;
    hide NewsFrom;
    hide ServedAll;
    hide Accepts;
    hide OffersNow;
    var given := Given(Snaps(run[0]));
    QuietPathLength(topology, configs, run, actions);
    AlwaysFormed(topology, configs, run, actions, s);
    FormedLength(topology, given, run[s]);
    AlwaysRecoverable(topology, configs, run, actions, k.prefix, s, false);
    assert RouterRecoverable(topology, configs, given, run[s], i, k.prefix, false);
    hide Recoverable;
    if k in run[s].nodes[i].learnedAtRefresh {
      if Renewing(topology, configs, run[a], i, k) {
        RenewedRaised(topology, configs, run, actions, a, b, c, low, i, k, s);
      } else if HearsAny(topology, configs, i) {
        UnrenewedRaised(topology, configs, run, actions, a, b, c, low, i, k, s);
      } else {
        FarAtAll(topology, given, i, k.prefix, run[s].nodes[i].learnedAtRefresh[k], low + 1);
      }
    }
  }

  lemma RenewedRaised(topology: Topology, configs: seq<Config>, run: seq<System>, actions: seq<Action>, a: nat, b: nat,
                      c: nat, low: nat, i: nat, k: Key, s: nat)
    requires Recovering(topology, configs, run, actions, k.prefix) && low < MAX_METRIC && topology.Valid()
    requires LowFrom(topology, Given(Snaps(run[0])), run, a, k.prefix, low) && NewsFrom(actions, a, b)
    requires ServedAll(topology, configs, actions, b, c) && a <= b <= c <= s < |run| && i < |topology.hears|
    requires Renewing(topology, configs, run[a], i, k)
    ensures RefreshFar(topology, Given(Snaps(run[0])), run[s], i, k, low + 1)
  {
    hide LowFrom;
    hide KeyFar;
    hide RefreshFar;
    hide HeardClear;
    hide Moves;
    hide Quiet;
    hide Formed;
    hide Recoverable;
    hide TakesOwn;
    hide OffersNow;
    hide SentSince;
    var given := Given(Snaps(run[0]));
    QuietPathLength(topology, configs, run, actions);
    var j: nat :| && Accepts(topology, configs, j, i) && topology.wire[j] == k.nextHop
                  && OffersNow(run[a], j, k.prefix);
    assert Served(actions, b, c, j, i);
    var x, y :| b <= x < y < c && y < |actions| && IsDelivery(actions[x], j, i) && IsRebuild(actions[y], i);
    assert SentSince(actions, a, x, actions[x].packet);
    hide IsQuietPath;
    RenewedIsFar(topology, configs, run, actions, a, low, x, j, i, k);
    LaterNews(actions, a, b, x + 1);
    hide NewsFrom;
    forall t | x + 1 <= t < |run|
      ensures KeyFar(topology, given, run[t], i, k, low + 1)
    {
      FarOn(topology, configs, run, actions, a, low, x + 1, i, k, t);
    }
    RebuiltFar(topology, configs, run, actions, x + 1, i, k, low + 1, y, s);
  }

  lemma LaterNews(actions: seq<Action>, u: nat, v: nat, v': nat)
    requires NewsFrom(actions, u, v) && v <= v'
    ensures NewsFrom(actions, u, v')
  {
    hide SentSince;
  }

  lemma UnrenewedRaised(topology: Topology, configs: seq<Config>, run: seq<System>, actions: seq<Action>, a: nat,
                        b: nat, c: nat, low: nat, i: nat, k: Key, s: nat)
    requires Recovering(topology, configs, run, actions, k.prefix) && low < MAX_METRIC && topology.Valid()
    requires LowFrom(topology, Given(Snaps(run[0])), run, a, k.prefix, low)
    requires ServedAll(topology, configs, actions, b, c) && a <= b <= c <= s < |run| && i < |topology.hears|
    requires !Renewing(topology, configs, run[a], i, k) && HearsAny(topology, configs, i)
    ensures RefreshFar(topology, Given(Snaps(run[0])), run[s], i, k, low + 1)
  {
    hide LowFrom;
    hide KeyFar;
    hide RefreshFar;
    hide HeardClear;
    hide Moves;
    hide Quiet;
    hide Formed;
    hide Recoverable;
    hide Accepts;
    hide Renewing;
    var given := Given(Snaps(run[0]));
    QuietPathLength(topology, configs, run, actions);
    var j: nat :| Accepts(topology, configs, j, i);
    assert Served(actions, b, c, j, i);
    var x, y :| b <= x < y < c && y < |actions| && IsDelivery(actions[x], j, i) && IsRebuild(actions[y], i);
    hide IsQuietPath;
    forall t | a <= t < |run|
      ensures KeyFar(topology, given, run[t], i, k, low + 1)
    {
      UnrenewedIsFar(topology, configs, run, actions, a, low, i, k, t);
    }
    RebuiltFar(topology, configs, run, actions, a, i, k, low + 1, y, s);
  }

  /** Two phases raise what RIBs are built from by one. */
  lemma PhasesRaise(topology: Topology, configs: seq<Config>, run: seq<System>, actions: seq<Action>, a: nat, b: nat,
                    c: nat, p: Prefix, low: nat)
    requires Recovering(topology, configs, run, actions, p) && low < MAX_METRIC
    requires LowFrom(topology, Given(Snaps(run[0])), run, a, p, low) && NewsFrom(actions, a, b)
    requires ServedAll(topology, configs, actions, b, c) && a <= b <= c
    ensures LowFrom(topology, Given(Snaps(run[0])), run, c, p, low + 1)
  {
    var given := Given(Snaps(run[0]));
    forall s, i | c <= s < |run| && 0 <= i < |run[s].nodes|
      ensures TableNotNearer(topology, given, i, run[s].nodes[i].learnedAtRefresh, p, low + 1)
    {
      hide Recoverable;
      hide HeardClear;
      hide Moves;
      hide Quiet;
      hide Formed;
      hide LowFrom;
      hide NewsFrom;
      hide ServedAll;
      hide NotNearer;
      AlwaysFormed(topology, configs, run, actions, s);
      FormedLength(topology, given, run[s]);
      var t := run[s].nodes[i].learnedAtRefresh;
      forall k | k in t && k.prefix == p
        ensures NotNearer(topology, given, i, p, t[k], low + 1)
      {
        KeyRaised(topology, configs, run, actions, a, b, c, low, i, k, s);
      }
    }
  }

  lemma {:induction false} PhasesRaiseAll(topology: Topology, configs: seq<Config>, run: seq<System>,
                                          actions: seq<Action>, marks: seq<nat>, p: Prefix, low: nat)
    requires Recovering(topology, configs, run, actions, p) && low <= MAX_METRIC && 2 * low < |marks|
    requires Fair(topology, actions, marks) && OwnServed(topology, configs, actions, marks)
    ensures LowFrom(topology, Given(Snaps(run[0])), run, marks[2 * low], p, low)
  {
    hide Recovering;
    hide Fair;
    hide OwnServed;
    if low == 0 {
      hide Distance;
      AlwaysInNet(topology, configs, run, actions, p);
    } else {
      hide LowFrom;
      hide ServedAll;
      hide NewsFrom;
      PhasesRaiseAll(topology, configs, run, actions, marks, p, low - 1);
      PhaseServes(topology, configs, actions, marks, 2 * low - 1);
      PhaseServes(topology, configs, actions, marks, 2 * low);
      PhasesRaise(topology, configs, run, actions, marks[2 * low - 2], marks[2 * low - 1], marks[2 * low], p, low - 1);
    }
  }

  lemma AlwaysInNet(topology: Topology, configs: seq<Config>, run: seq<System>, actions: seq<Action>, p: Prefix)
    requires Recovering(topology, configs, run, actions, p)
    ensures forall s :: 0 <= s < |run| ==> |run[s].nodes| == |Given(Snaps(run[0]))|
  {
    hide Recoverable;
    hide HeardClear;
    hide Moves;
    hide Quiet;
    hide Formed;
    forall s | 0 <= s < |run|
      ensures |run[s].nodes| == |Given(Snaps(run[0]))|
    {
      AlwaysFormed(topology, configs, run, actions, s);
      FormedLength(topology, Given(Snaps(run[0])), run[s]);
    }
  }

  // ---- recovery --------------------------------------------------------

  /** Counting to infinity is bounded without rounds as well, whatever the wires:
      after 2n phases every best metric is at least the least of n and the
      distance. */
  lemma FairCountingIsBounded(topology: Topology, configs: seq<Config>, run: seq<System>, actions: seq<Action>,
                              marks: seq<nat>, n: nat, s: nat, i: nat, p: Prefix)
    requires Recovering(topology, configs, run, actions, p) && n <= MAX_METRIC && 2 * n < |marks|
    requires Fair(topology, actions, marks) && OwnServed(topology, configs, actions, marks)
    requires marks[2 * n] <= s < |run| && i < |topology.hears|
    ensures i < |run[s].nodes|
    ensures Min(n, Distance(topology, Given(Snaps(run[0])), i, p)) <= BestMetric(run[s].nodes[i].rib, p)
  {
    hide Fair;
    hide OwnServed;
    hide Recoverable;
    hide HeardClear;
    hide Moves;
    hide Quiet;
    hide BestMetric;
    hide Distance;
    var given := Given(Snaps(run[0]));
    PhasesRaiseAll(topology, configs, run, actions, marks, p, n);
    AlwaysFormed(topology, configs, run, actions, s);
    FormedLength(topology, given, run[s]);
    FormedNet(topology, given, run[s]);
    hide Formed;
    hide TableNotNearer;
    RibNotNearer(topology, Snaps(run[s]), i, p, n);
  }

  /** With distinct wires a recoverable network recovers: after thirty-two phases
      every best metric is the distance, and stays it, whatever was learned or in
      flight before. */
  lemma FairRunsRecover(topology: Topology, configs: seq<Config>, run: seq<System>, actions: seq<Action>,
                        marks: seq<nat>, s: nat, i: nat, p: Prefix)
    requires Recovering(topology, configs, run, actions, p) && DistinctWires(topology)
    requires Fair(topology, actions, marks) && OwnServed(topology, configs, actions, marks)
    requires 32 < |marks| && marks[32] <= s < |run| && i < |topology.hears|
    ensures i < |run[s].nodes| && BestMetric(run[s].nodes[i].rib, p) == Distance(topology, Given(Snaps(run[0])), i, p)
  {
    FairCountingIsBounded(topology, configs, run, actions, marks, MAX_METRIC, s, i, p);
    AtMostInfinity(topology, Given(Snaps(run[0])), i, p);
    MarksInOrder(topology, actions, marks, 30, 32);
    hide IsQuietPath;
    hide Recoverable;
    hide HeardClear;
    hide DistinctWires;
    hide Fair;
    hide OwnServed;
    hide BestMetric;
    hide Distance;
    ComesAtLast(topology, configs, run, actions, marks, s, i, p);
  }

  lemma SomeOrigin(topology: Topology, given: seq<Table>, i: nat, p: Prefix) returns (o: Origin)
    requires Distance(topology, given, i, p) < MAX_METRIC
    ensures o in AllOrigins(given) && (o.prefix == p || OnWire(o.prefix.address) == Ok(p))
  {
    hide LeastFrom;
    hide AllOrigins;
    hide OnWire;
    hide Open;
    var d := Distance(topology, given, i, p);
    assert IsOpenDistance(topology, given, i, p, MAX_METRIC, d);
    hide Distance;
    var w, some :| && some in AllOrigins(given) && |w| <= MAX_METRIC + 1
                   && Carries(topology, w, some, i, p, d) && Open(topology, given, w, p);
    o := some;
  }

  /** A prefix that nobody has been given any more is gone by then, whatever the
      wires. */
  lemma FairRunsForget(topology: Topology, configs: seq<Config>, run: seq<System>, actions: seq<Action>,
                       marks: seq<nat>, s: nat, i: nat, p: Prefix)
    requires Recovering(topology, configs, run, actions, p)
    requires Fair(topology, actions, marks) && OwnServed(topology, configs, actions, marks)
    requires 32 < |marks| && marks[32] <= s < |run| && i < |topology.hears|
    requires forall o :: o in AllOrigins(Given(Snaps(run[0]))) ==> o.prefix != p && OnWire(o.prefix.address) != Ok(p)
    ensures i < |run[s].nodes| && BestMetric(run[s].nodes[i].rib, p) == MAX_METRIC
  {
    FairCountingIsBounded(topology, configs, run, actions, marks, MAX_METRIC, s, i, p);
    hide Recovering;
    hide LeastFrom;
    hide AllOrigins;
    hide OnWire;
    hide Distance;
    if Distance(topology, Given(Snaps(run[0])), i, p) < MAX_METRIC {
      var o := SomeOrigin(topology, Given(Snaps(run[0])), i, p);
    }
  }
}
