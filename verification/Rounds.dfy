/** Lossless synchronous rounds: every router broadcasts its response, every
    router processes what it hears in some order, and every RIB is rebuilt. */
module Rounds {
  import opened Types
  import opened Addressing
  import opened Rip
  import opened RipProperties
  import opened Network

  datatype Speaker = Speaker(redistributed: Table, learned: Table, rib: Table)

  /** One round's schedule: the responses broadcast, and for each router the
      order in which it processes the senders it hears. */
  datatype Schedule = Schedule(messages: seq<seq<Entry>>, orders: seq<seq<nat>>, at: real)

  ghost predicate Shaped(topology: Topology, schedule: Schedule) {
    && topology.Valid()
    && |schedule.messages| == |schedule.orders| == |topology.hears|
    && forall i :: 0 <= i < |topology.hears| ==>
         InRange(topology, schedule.orders[i]) && forall j :: j in schedule.orders[i] <==> j in topology.hears[i]
  }

  ghost predicate InRange(topology: Topology, order: seq<nat>) {
    forall t :: 0 <= t < |order| ==> order[t] < |topology.hears|
  }

  /** The learned table after the messages of `order` were processed in turn. */
  ghost function Process(topology: Topology, schedule: Schedule, t: Table, order: seq<nat>): Table
    requires Shaped(topology, schedule) && InRange(topology, order)
  {
    if order == [] then t
    else
      var j := order[|order| - 1];
      Learn(Process(topology, schedule, t, order[..|order| - 1]),
            Decode(schedule.messages[j], topology.address[j], schedule.at))
  }

  ghost predicate RoundAt(topology: Topology, schedule: Schedule, i: nat, s: Speaker, s': Speaker)
    requires Shaped(topology, schedule) && i < |topology.hears|
  {
    && IsMessage(s.rib, topology.wire[i], schedule.messages[i])
    && s'.redistributed == s.redistributed
    && s'.learned == Process(topology, schedule, s.learned, schedule.orders[i])
    && IsRefresh(s'.redistributed, s'.learned, s'.rib, schedule.at)
  }

  ghost predicate Round(topology: Topology, net: seq<Speaker>, schedule: Schedule, net': seq<Speaker>) {
    && Shaped(topology, schedule) && |net| == |net'| == |topology.hears|
    && forall i :: 0 <= i < |net| ==> RoundAt(topology, schedule, i, net[i], net'[i])
  }

  ghost predicate IsRounds(topology: Topology, nets: seq<seq<Speaker>>, schedules: seq<Schedule>) {
    && |nets| == |schedules| + 1
    && forall t :: 0 <= t < |schedules| ==> Round(topology, nets[t], schedules[t], nets[t + 1])
  }

  // ---- well-formed networks --------------------------------------------

  ghost predicate Plain(p: Prefix) {
    Classful(p) == Ok(p) && p.length != 0
  }

  /** A redistributed table, as `redistribute_in` leaves it. */
  ghost predicate ClassfulOrigins(redistributed: Table) {
    ShownAsFiled(redistributed) && forall k :: k in redistributed ==> Classful(k.prefix) == Ok(k.prefix)
  }

  /** A learned route came from a router that is heard: its key holds that
      router's wire field and it points at that router. */
  ghost predicate HeardFrom(topology: Topology, i: nat, j: nat, k: Key, r: RouteValue)
    requires topology.Valid() && i < |topology.hears|
  {
    j in topology.hears[i] && r.identity == k && Plain(k.prefix)
    && k.nextHop == topology.wire[j] && r.nextHop == topology.address[j]
  }

  ghost predicate AllHeard(topology: Topology, i: nat, learned: Table)
    requires topology.Valid() && i < |topology.hears|
  {
    forall k :: k in learned ==> exists j: nat :: HeardFrom(topology, i, j, k, learned[k])
  }

  ghost predicate SpeakerOk(topology: Topology, i: nat, s: Speaker)
    requires topology.Valid() && i < |topology.hears|
  {
    && ClassfulOrigins(s.redistributed)
    && AllHeard(topology, i, s.learned)
    && exists at :: IsRefresh(s.redistributed, s.learned, s.rib, at)
  }

  ghost predicate NetOk(topology: Topology, net: seq<Speaker>) {
    && topology.Valid() && |net| == |topology.hears|
    && forall i :: 0 <= i < |net| ==> SpeakerOk(topology, i, net[i])
  }

  /** Nothing has been learned yet. */
  ghost predicate Start(topology: Topology, net: seq<Speaker>) {
    NetOk(topology, net) && forall i :: 0 <= i < |net| ==> net[i].learned == map[]
  }

  lemma PlainOnWire(p: Prefix)
    requires Plain(p)
    ensures OnWire(p.address) == Ok(p)
  {
    SurvivesWire(p);
  }

  // ---- what a rebuilt RIB offers ---------------------------------------

  lemma ShownUnique(topology: Topology, i: nat, learned: Table, k: Key, l: Key)
    requires topology.Valid() && i < |topology.hears| && AllHeard(topology, i, learned)
    requires k in learned && l in learned && learned[k].Shown() == learned[l].Shown()
    ensures k == l
  {
    hide Classful;
    var j: nat :| HeardFrom(topology, i, j, k, learned[k]);
    var j': nat :| HeardFrom(topology, i, j', l, learned[l]);
    assert topology.address[j] == topology.address[j'];
  }

  lemma LearnedIsPlain(topology: Topology, i: nat, learned: Table, k: Key) returns (j: nat)
    requires topology.Valid() && i < |topology.hears| && AllHeard(topology, i, learned) && k in learned
    ensures HeardFrom(topology, i, j, k, learned[k])
    ensures learned[k].Shown() == Key(k.prefix, topology.address[j]) && Plain(k.prefix)
  {
    hide Classful;
    j :| HeardFrom(topology, i, j, k, learned[k]);
  }

  lemma LearnedIsCopied(topology: Topology, i: nat, s: Speaker, k: Key)
    requires topology.Valid() && i < |topology.hears| && SpeakerOk(topology, i, s) && k in s.learned
    requires s.learned[k].identity == k
    ensures var shown := s.learned[k].Shown();
      && shown in s.rib && shown.prefix == k.prefix
      && (shown !in s.redistributed ==> s.rib[shown].metric == s.learned[k].metric)
  {
    hide AllHeard;
    hide ClassfulOrigins;
    var at :| IsRefresh(s.redistributed, s.learned, s.rib, at);
    var shown := s.learned[k].Shown();
    if shown !in s.redistributed {
      var l :| l in s.learned && s.learned[l].Shown() == shown && s.rib[shown] == Copy(s.learned[l], at);
      ShownUnique(topology, i, s.learned, k, l);
    }
  }

  /** The RIB has every learned prefix, and every learned route that nothing
      redistributed hides... */
  lemma RibOffersLearned(topology: Topology, i: nat, s: Speaker, k: Key)
    requires topology.Valid() && i < |topology.hears| && SpeakerOk(topology, i, s) && k in s.learned
    ensures Offers(s.rib, k.prefix)
    ensures s.learned[k].Shown() !in s.redistributed ==> BestMetric(s.rib, k.prefix) <= s.learned[k].metric
  {
    hide LeastFrom;
    hide Classful;
    hide IsRefresh;
    var j := LearnedIsPlain(topology, i, s.learned, k);
    hide SpeakerOk;
    LearnedIsCopied(topology, i, s, k);
  }

  /** ... and each redistributed route... */
  lemma RibOffersRedistributed(topology: Topology, i: nat, s: Speaker, k: Key)
    requires topology.Valid() && i < |topology.hears| && SpeakerOk(topology, i, s) && k in s.redistributed
    ensures Offers(s.rib, k.prefix) && BestMetric(s.rib, k.prefix) <= s.redistributed[k].metric
  {
    hide Classful;
    hide LeastFrom;
    hide AllHeard;
    var at :| IsRefresh(s.redistributed, s.learned, s.rib, at);
    assert s.rib[k] == Copy(s.redistributed[k], at);
  }

  /** ... and nothing else: each RIB entry is a redistributed route, or a learned
      one that nothing hides. */
  lemma RibHoldsOnly(topology: Topology, i: nat, s: Speaker, k: Key)
    requires topology.Valid() && i < |topology.hears| && SpeakerOk(topology, i, s) && k in s.rib
    ensures s.rib[k].identity == k && Classful(k.prefix) == Ok(k.prefix)
    ensures || (k in s.redistributed && s.redistributed[k].metric == s.rib[k].metric)
            || exists l :: && l in s.learned && l.prefix == k.prefix && s.learned[l].Shown() == k
                           && k !in s.redistributed && s.learned[l].metric == s.rib[k].metric
  {
    hide Classful;
    hide AllHeard;
    var at :| IsRefresh(s.redistributed, s.learned, s.rib, at);
    if k in s.redistributed {
      assert s.rib[k] == Copy(s.redistributed[k], at);
    } else {
      var l :| l in s.learned && s.learned[l].Shown() == k && s.rib[k] == Copy(s.learned[l], at);
      var j := LearnedIsPlain(topology, i, s.learned, l);
    }
  }

  // ---- what one message brings -----------------------------------------

  function OneMore(m: nat): (more: nat) {
    Min(m + 1, MAX_METRIC)
  }

  /** The RIB has a route that a receiver files under p: one for p itself, or the
      default route when p is 0.0.0.0/8. */
  ghost predicate OffersOnWire(rib: Table, p: Prefix) {
    exists k :: k in rib && OnWire(k.prefix.address) == Ok(p)
  }

  ghost predicate IsOfferOf(topology: Topology, j: nat, s: Speaker, k: Key, r: RouteValue)
    requires topology.Valid() && j < |topology.hears|
  {
    && Optimal(s.rib, k) && OnWire(k.prefix.address) == Ok(PrefixOf(r)) && Plain(PrefixOf(r))
    && r.identity.nextHop == topology.wire[j] && r.nextHop == topology.address[j]
    && r.metric == OneMore(s.rib[k].metric)
  }

  /** An offer of router j, as whoever hears it files it: one hop beyond a route
      of least metric. */
  ghost predicate IsOffer(topology: Topology, j: nat, s: Speaker, r: RouteValue)
    requires topology.Valid() && j < |topology.hears|
  {
    exists k :: IsOfferOf(topology, j, s, k, r)
  }

  /** Only the default route can be mistaken on the wire, for 0.0.0.0/8. */
  ghost predicate Clear(redistributed: Table, p: Prefix) {
    p.address == 0 && p.length == 8 ==> forall k :: k in redistributed ==> k.prefix.length != 0
  }

  lemma OptimalIsBest(rib: Table, k: Key)
    requires Optimal(rib, k)
    ensures OneMore(rib[k].metric) == OneMore(BestMetric(rib, k.prefix))
  {
  }

  /** Nothing learned is the default route. */
  lemma DefaultIsRedistributed(topology: Topology, j: nat, s: Speaker, k: Key)
    requires topology.Valid() && j < |topology.hears| && SpeakerOk(topology, j, s)
    requires k in s.rib && k.prefix.length == 0
    ensures k in s.redistributed
  {
    hide Classful;
    hide IsRefresh;
    RibHoldsOnly(topology, j, s, k);
    forall l | l in s.learned
      ensures l.prefix != k.prefix
    {
      var h := LearnedIsPlain(topology, j, s.learned, l);
    }
  }

  /** A RIB route that is filed under p at the next router is one for p. */
  lemma OnlyItself(topology: Topology, j: nat, s: Speaker, k: Key, p: Prefix)
    requires topology.Valid() && j < |topology.hears| && SpeakerOk(topology, j, s) && Clear(s.redistributed, p)
    requires k in s.rib && OnWire(k.prefix.address) == Ok(p)
    ensures k.prefix == p
  {
    RibHoldsOnly(topology, j, s, k);
    if k.prefix.length == 0 {
      DefaultRouteBecomesNetworkZero(k.prefix);
      DefaultIsRedistributed(topology, j, s, k);
    } else {
      PlainOnWire(k.prefix);
    }
  }

  /** So an offer for p is one hop beyond the best metric. */
  lemma OfferIsBest(topology: Topology, j: nat, s: Speaker, r: RouteValue)
    requires topology.Valid() && j < |topology.hears| && SpeakerOk(topology, j, s)
    requires Clear(s.redistributed, PrefixOf(r))
    requires IsOffer(topology, j, s, r)
    ensures Offers(s.rib, PrefixOf(r)) && r.metric == OneMore(BestMetric(s.rib, PrefixOf(r)))
  {
    hide OnWire;
    hide SpeakerOk;
    hide LeastFrom;
    hide Plain;
    hide Clear;
    var k :| IsOfferOf(topology, j, s, k, r);
    OnlyItself(topology, j, s, k, PrefixOf(r));
    OptimalIsBest(s.rib, k);
  }

  lemma DecodedIsOffer(topology: Topology, j: nat, s: Speaker, k: Key, at: real)
    requires topology.Valid() && j < |topology.hears| && Optimal(s.rib, k) && s.rib[k].identity == k
    requires OnWire(k.prefix.address).Ok?
    ensures var d := DecodeEntry(Encode(s.rib[k], topology.wire[j]), topology.address[j], at);
      && d.Some? && IsOfferOf(topology, j, s, k, d.value)
      && PrefixOf(d.value) == OnWire(k.prefix.address).value
  {
    WireIdempotent(k.prefix.address);
    hide OnWire;
    hide Classful;
  }

  lemma RibOnWire(topology: Topology, j: nat, s: Speaker, k: Key)
    requires topology.Valid() && j < |topology.hears| && SpeakerOk(topology, j, s) && k in s.rib
    ensures s.rib[k].identity == k && OnWire(k.prefix.address).Ok?
  {
    RibHoldsOnly(topology, j, s, k);
    hide SpeakerOk;
    ClassfulForm(k.prefix);
    ClassfulForm(Prefix(k.prefix.address, 32));
  }

  /** A response decodes to exactly the sender's offers. */
  lemma MessageIsOffers(topology: Topology, j: nat, s: Speaker, message: seq<Entry>, at: real)
    requires topology.Valid() && j < |topology.hears| && SpeakerOk(topology, j, s)
    requires IsResponse(s.rib, topology.wire[j], message)
    ensures forall r :: r in Decode(message, topology.address[j], at) ==> IsOffer(topology, j, s, r)
    ensures forall p :: OffersOnWire(s.rib, p) ==>
              exists r :: r in Decode(message, topology.address[j], at) && r.identity == Key(p, topology.wire[j])
  {
    hide OnWire;
    hide Classful;
    hide DecodeEntry;
    hide SpeakerOk;
    DecodeMembers(message, topology.address[j], at);
    forall r | r in Decode(message, topology.address[j], at)
      ensures IsOffer(topology, j, s, r)
    {
      var e :| e in message && DecodeEntry(e, topology.address[j], at) == Some(r);
      var k :| Optimal(s.rib, k) && e == Encode(s.rib[k], topology.wire[j]);
      RibOnWire(topology, j, s, k);
      DecodedIsOffer(topology, j, s, k, at);
    }
    forall p | OffersOnWire(s.rib, p)
      ensures exists r :: r in Decode(message, topology.address[j], at) && r.identity == Key(p, topology.wire[j])
    {
      var o :| o in s.rib && OnWire(o.prefix.address) == Ok(p);
      assert Offers(s.rib, o.prefix);
      assert Mentions(s.rib, topology.wire[j], message, o.prefix);
      var k :| Optimal(s.rib, k) && k.prefix == o.prefix && Encode(s.rib[k], topology.wire[j]) in message;
      RibOnWire(topology, j, s, k);
      DecodedIsOffer(topology, j, s, k, at);
      var d := DecodeEntry(Encode(s.rib[k], topology.wire[j]), topology.address[j], at);
      assert d.value in Decode(message, topology.address[j], at);
    }
  }

  // ---- what one round does to a learned table --------------------------

  /** Router j offers key k to whoever hears it. */
  ghost predicate OffersKey(topology: Topology, net: seq<Speaker>, j: nat, k: Key)
    requires NetOk(topology, net) && j < |net|
  {
    topology.wire[j] == k.nextHop && OffersOnWire(net[j].rib, k.prefix)
  }

  /** The route under k is an offer of router j. */
  ghost predicate OfferedBy(topology: Topology, net: seq<Speaker>, j: nat, k: Key, r: RouteValue)
    requires NetOk(topology, net) && j < |net|
  {
    r.identity == k && IsOffer(topology, j, net[j], r)
  }

  ghost predicate Broadcast(topology: Topology, net: seq<Speaker>, schedule: Schedule)
    requires NetOk(topology, net) && Shaped(topology, schedule)
  {
    forall j :: 0 <= j < |net| ==> IsResponse(net[j].rib, topology.wire[j], schedule.messages[j])
  }

  /** Processing messages in turn: a key holds the offer of a router that was
      processed and offers it -- and, when the last one processed does, its
      offer.  A key nobody processed offers is left alone. */
  lemma {:induction false} Processed(topology: Topology, net: seq<Speaker>, schedule: Schedule, t: Table,
                                     order: seq<nat>, k: Key)
    requires NetOk(topology, net) && Shaped(topology, schedule) && Broadcast(topology, net, schedule)
    requires InRange(topology, order)
    ensures var t' := Process(topology, schedule, t, order);
      if exists u :: 0 <= u < |order| && OffersKey(topology, net, order[u], k)
      then k in t' && exists u :: 0 <= u < |order| && OfferedBy(topology, net, order[u], k, t'[k])
      else (k in t' <==> k in t) && (k in t ==> t'[k] == t[k])
    ensures order != [] && OffersKey(topology, net, order[|order| - 1], k) ==>
              && k in Process(topology, schedule, t, order)
              && OfferedBy(topology, net, order[|order| - 1], k, Process(topology, schedule, t, order)[k])
  {
    hide IsOffer;
    hide SpeakerOk;
    hide IsResponse;
    hide IsMessage;
    hide OffersOnWire;
    if order != [] {
      var last, init := order[|order| - 1], order[..|order| - 1];
      Processed(topology, net, schedule, t, init, k);
      var before := Process(topology, schedule, t, init);
      var routes := Decode(schedule.messages[last], topology.address[last], schedule.at);
      OneMessage(topology, net, schedule, before, last, k);
      var t' := Process(topology, schedule, t, order);
      assert t' == Learn(before, routes);
      if OffersKey(topology, net, last, k) {
        assert OfferedBy(topology, net, order[|order| - 1], k, t'[k]);
      } else if u :| 0 <= u < |order| && OffersKey(topology, net, order[u], k) {
        assert init[u] == order[u];
        var v :| 0 <= v < |init| && OfferedBy(topology, net, init[v], k, before[k]);
        assert OfferedBy(topology, net, order[v], k, t'[k]);
      }
    }
  }

  lemma OneMessage(topology: Topology, net: seq<Speaker>, schedule: Schedule, t: Table, j: nat, k: Key)
    requires NetOk(topology, net) && Shaped(topology, schedule) && Broadcast(topology, net, schedule) && j < |net|
    ensures var t' := Learn(t, Decode(schedule.messages[j], topology.address[j], schedule.at));
      if OffersKey(topology, net, j, k) then k in t' && OfferedBy(topology, net, j, k, t'[k])
      else (k in t' <==> k in t) && (k in t ==> t'[k] == t[k])
  {
    var routes := Decode(schedule.messages[j], topology.address[j], schedule.at);
    MessageIsOffers(topology, j, net[j], schedule.messages[j], schedule.at);
    LearnedAt(t, routes, k);
  }

  /** Some router that i hears offers key k. */
  ghost predicate Heard(topology: Topology, net: seq<Speaker>, i: nat, k: Key)
    requires NetOk(topology, net) && i < |net|
  {
    exists j: nat :: j in topology.hears[i] && OffersKey(topology, net, j, k)
  }

  ghost predicate HeardOffer(topology: Topology, net: seq<Speaker>, i: nat, k: Key, r: RouteValue)
    requires NetOk(topology, net) && i < |net|
  {
    exists j: nat :: j in topology.hears[i] && OfferedBy(topology, net, j, k, r)
  }

  lemma Broadcasts(topology: Topology, net: seq<Speaker>, schedule: Schedule, net': seq<Speaker>)
    requires NetOk(topology, net) && Round(topology, net, schedule, net')
    ensures Broadcast(topology, net, schedule)
  {
    hide SpeakerOk;
    hide IsResponse;
    hide OneEntryEach;
    hide IsRefresh;
    forall j | 0 <= j < |net|
      ensures IsResponse(net[j].rib, topology.wire[j], schedule.messages[j])
    {
      assert RoundAt(topology, schedule, j, net[j], net'[j]);
      var prefixes :| OneEntryEach(net[j].rib, topology.wire[j], prefixes, schedule.messages[j]);
      OneEntryEachIsResponse(net[j].rib, topology.wire[j], prefixes, schedule.messages[j]);
    }
  }

  /** One round at one router: a key that is offered holds an offer, any other
      key is left alone. */
  lemma RoundLearned(topology: Topology, net: seq<Speaker>, schedule: Schedule, net': seq<Speaker>, i: nat, k: Key)
    requires NetOk(topology, net) && Round(topology, net, schedule, net') && i < |net|
    ensures var t, t' := net[i].learned, net'[i].learned;
      if Heard(topology, net, i, k) then k in t' && HeardOffer(topology, net, i, k, t'[k])
      else (k in t' <==> k in t) && (k in t ==> t'[k] == t[k])
  {
    hide SpeakerOk;
    hide IsOffer;
    hide IsResponse;
    hide IsMessage;
    hide IsRefresh;
    hide OffersKey;
    var order := schedule.orders[i];
    assert RoundAt(topology, schedule, i, net[i], net'[i]);
    Broadcasts(topology, net, schedule, net');
    Processed(topology, net, schedule, net[i].learned, order, k);
    if Heard(topology, net, i, k) {
      var j: nat :| j in topology.hears[i] && OffersKey(topology, net, j, k);
      assert j in order;
      var u :| 0 <= u < |order| && order[u] == j;
      var v :| 0 <= v < |order| && OfferedBy(topology, net, order[v], k, net'[i].learned[k]);
      assert order[v] in topology.hears[i];
    } else {
      forall u | 0 <= u < |order|
        ensures !OffersKey(topology, net, order[u], k)
      {
        assert order[u] in topology.hears[i];
      }
    }
  }

  /** The offer of the router processed last stands, better or worse. */
  lemma LastOfferStands(topology: Topology, net: seq<Speaker>, schedule: Schedule, net': seq<Speaker>, i: nat, k: Key)
    requires NetOk(topology, net) && Round(topology, net, schedule, net') && i < |net| && schedule.orders[i] != []
    ensures var order := schedule.orders[i];
      var last := order[|order| - 1];
      && last in topology.hears[i]
      && (OffersKey(topology, net, last, k) ==>
            k in net'[i].learned && OfferedBy(topology, net, last, k, net'[i].learned[k]))
  {
    hide SpeakerOk;
    hide IsOffer;
    hide IsResponse;
    hide IsMessage;
    hide IsRefresh;
    hide OffersKey;
    var order := schedule.orders[i];
    assert RoundAt(topology, schedule, i, net[i], net'[i]);
    Broadcasts(topology, net, schedule, net');
    Processed(topology, net, schedule, net[i].learned, order, k);
    assert order[|order| - 1] in order;
  }

  /** Rounds keep networks well formed, and never touch what was redistributed. */
  lemma RoundKeepsOk(topology: Topology, net: seq<Speaker>, schedule: Schedule, net': seq<Speaker>)
    requires NetOk(topology, net) && Round(topology, net, schedule, net')
    ensures NetOk(topology, net')
    ensures forall i :: 0 <= i < |net| ==> net'[i].redistributed == net[i].redistributed
  {
    forall i | 0 <= i < |net|
      ensures SpeakerOk(topology, i, net'[i]) && net'[i].redistributed == net[i].redistributed
    {
      RoundKeepsSpeaker(topology, net, schedule, net', i);
    }
  }

  lemma RoundKeepsSpeaker(topology: Topology, net: seq<Speaker>, schedule: Schedule, net': seq<Speaker>, i: nat)
    requires NetOk(topology, net) && Round(topology, net, schedule, net') && i < |net|
    ensures SpeakerOk(topology, i, net'[i]) && net'[i].redistributed == net[i].redistributed
  {
    hide IsRefresh;
    hide IsResponse;
    hide IsMessage;
    hide Classful;
    hide OffersOnWire;
    hide OnWire;
    assert RoundAt(topology, schedule, i, net[i], net'[i]);
    assert SpeakerOk(topology, i, net[i]);
    forall k | k in net'[i].learned
      ensures exists j: nat :: HeardFrom(topology, i, j, k, net'[i].learned[k])
    {
      RoundLearned(topology, net, schedule, net', i, k);
      if Heard(topology, net, i, k) {
        var j: nat :| j in topology.hears[i] && OfferedBy(topology, net, j, k, net'[i].learned[k]);
        assert HeardFrom(topology, i, j, k, net'[i].learned[k]);
      }
    }
  }

  lemma {:induction false} RoundsKeepOk(topology: Topology, nets: seq<seq<Speaker>>, schedules: seq<Schedule>, t: nat)
    requires IsRounds(topology, nets, schedules) && t < |nets| && NetOk(topology, nets[0])
    ensures NetOk(topology, nets[t])
    ensures forall i :: 0 <= i < |nets[0]| ==> nets[t][i].redistributed == nets[0][i].redistributed
  {
    hide Round;
    hide SpeakerOk;
    if t != 0 {
      RoundsKeepOk(topology, nets, schedules, t - 1);
      RoundKeepsOk(topology, nets[t - 1], schedules[t - 1], nets[t]);
    }
  }

  /** What is left of a run after n rounds is a run. */
  lemma RoundsGoOn(topology: Topology, nets: seq<seq<Speaker>>, schedules: seq<Schedule>, n: nat)
    requires IsRounds(topology, nets, schedules) && n <= |schedules|
    ensures IsRounds(topology, nets[n..], schedules[n..])
  {
    hide Round;
    forall t | 0 <= t < |schedules| - n
      ensures Round(topology, nets[n..][t], schedules[n..][t], nets[n..][t + 1])
    {
      assert Round(topology, nets[t + n], schedules[t + n], nets[t + n + 1]);
    }
  }
}
