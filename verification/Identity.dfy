/** Which learned routes displace which.  A learned route's key is made from the
    next-hop field as it was on the wire, before a zero there is replaced by the
    sender (src/rp_rip1/main.py:83, 255-270). */
module Identity {
  import opened Types
  import opened Addressing
  import opened Rip
  import opened RipProperties
  import opened Node

  /** No two learned routes show the same prefix and next hop. */
  ghost predicate UniqueShown(t: Table) {
    forall k, l :: k in t && l in t && t[k].Shown() == t[l].Shown() ==> k == l
  }

  /** Responses come only from these senders, with only these next-hop fields. */
  ghost predicate Conforms(e: Event, senders: set<Address>, wires: set<Address>) {
    e.Receive? ==> e.sender in senders && forall x :: x in e.entries ==> x.nextHop in wires
  }

  ghost predicate UniqueThroughout(config: Config, nodes: seq<Node>, events: seq<Event>, senders: set<Address>,
                                   wires: set<Address>)
  {
    IsRun(config, nodes, events) && (forall t :: 0 <= t < |events| ==> Conforms(events[t], senders, wires)) ==>
      forall t :: 0 <= t < |nodes| ==> UniqueShown(nodes[t].learned)
  }

  ghost predicate AlwaysUnique(config: Config, senders: set<Address>, wires: set<Address>) {
    forall nodes: seq<Node>, events: seq<Event> :: UniqueThroughout(config, nodes, events, senders, wires)
  }

  /** A route's key and next hop, as the wire can have made them. */
  ghost predicate FromWire(senders: set<Address>, wires: set<Address>, k: Key, r: RouteValue) {
    && r.identity == k && k.nextHop in wires
    && (if k.nextHop == 0 then r.nextHop in senders else r.nextHop == k.nextHop)
  }

  ghost predicate AllFromWire(senders: set<Address>, wires: set<Address>, t: Table) {
    forall k :: k in t ==> FromWire(senders, wires, k, t[k])
  }

  lemma LearnKeepsWire(senders: set<Address>, wires: set<Address>, t: Table, entries: seq<Entry>, sender: Address,
                        now: real)
    requires AllFromWire(senders, wires, t) && sender in senders && forall x :: x in entries ==> x.nextHop in wires
    ensures AllFromWire(senders, wires, Learn(t, Decode(entries, sender, now)))
  {
    hide OnWire;
    var routes := Decode(entries, sender, now);
    DecodeMembers(entries, sender, now);
    forall k | k in Learn(t, routes)
      ensures FromWire(senders, wires, k, Learn(t, routes)[k])
    {
      LearnedAt(t, routes, k);
    }
  }

  lemma {:induction false} RunKeepsWire(config: Config, nodes: seq<Node>, events: seq<Event>, senders: set<Address>,
                                         wires: set<Address>, t: nat)
    requires IsRun(config, nodes, events) && t < |nodes|
    requires forall u :: 0 <= u < |events| ==> Conforms(events[u], senders, wires)
    ensures AllFromWire(senders, wires, nodes[t].learned)
  {
    if t != 0 {
      RunKeepsWire(config, nodes, events, senders, wires, t - 1);
      var n, e := nodes[t - 1], events[t - 1];
      assert Step(config, n, e, nodes[t]) && Conforms(e, senders, wires);
      match e
      case Receive(entries, sender, own, now) => LearnKeepsWire(senders, wires, n.learned, entries, sender, now);
      case Housekeeping(clock) =>
      case RedistributeInto(specs, now) => RedistributionKeepsLearned(config, n, specs, now);
      case Refresh(_, _, _) =>
    }
  }

  lemma RedistributionKeepsLearned(config: Config, n: Node, specs: seq<RouteSpec>, now: real)
    ensures Redistributing(config, n, specs, now).learned == n.learned
  {
  }

  /** A response that names a prefix twice, once with a zero next hop and once
      with the sender's own address. */
  ghost function Twice(a: Address, m: nat): seq<Entry> {
    [Entry(TEN, 0, 1), Entry(TEN, a, m)]
  }

  lemma TwiceDecodes(a: Address, m: nat) returns (p: Prefix, first: RouteValue, second: RouteValue)
    ensures Decode(Twice(a, m), a, 0.0) == [first, second]
    ensures first.identity == Key(p, 0) && first.nextHop == a && first.metric == 1
    ensures second.identity == Key(p, a) && second.nextHop == a && second.metric == Min(m, MAX_METRIC)
  {
    var x, y := Twice(a, m)[0], Twice(a, m)[1];
    p := TenIsClassful();
    hide OnWire;
    hide Classful;
    first, second := DecodeEntry(x, a, 0.0).value, DecodeEntry(y, a, 0.0).value;
    assert Twice(a, m)[..1] == [x] && [x][..0] == [];
    assert Decode([x], a, 0.0) == [first];
  }

  lemma TwiceLearned(a: Address, m: nat) returns (p: Prefix, first: RouteValue, second: RouteValue)
    requires a != 0
    ensures Decode(Twice(a, m), a, 0.0) != []
    ensures first.identity == Key(p, 0) && first.nextHop == a && first.metric == 1
    ensures second.identity == Key(p, a) && second.nextHop == a && second.metric == Min(m, MAX_METRIC)
    ensures Learn(map[], Decode(Twice(a, m), a, 0.0)) == map[first.identity := first, second.identity := second]
  {
    p, first, second := TwiceDecodes(a, m);
    hide Twice;
    hide Decode;
    assert [first, second][..1] == [first] && [first][..0] == [];
    assert Learn(map[], [first]) == map[first.identity := first];
  }

  lemma TwiceShownTwice(config: Config, a: Address, senders: set<Address>, wires: set<Address>)
    requires a != 0 && a in senders && a in wires && 0 in wires
    ensures !AlwaysUnique(config, senders, wires)
  {
    var e := Receive(Twice(a, 1), a, false, 0.0);
    var p, first, second := TwiceLearned(a, 1);
    assert Conforms(e, senders, wires);
    hide Decode;
    hide Learn;
    hide Twice;
    var learned := Receiving(config, START, e).learned;
    assert learned[first.identity].Shown() == learned[second.identity].Shown();
    assert !UniqueShown(learned);
    hide UniqueShown;
    OneBadEvent(config, e, Receiving(config, START, e), senders, wires);
  }

  lemma OneBadEvent(config: Config, e: Event, n: Node, senders: set<Address>, wires: set<Address>)
    requires Step(config, START, e, n) && Conforms(e, senders, wires) && !UniqueShown(n.learned)
    ensures !AlwaysUnique(config, senders, wires)
  {
    hide Step;
    hide Conforms;
    hide UniqueShown;
    var nodes, events := [START, n], [e];
    assert IsRun(config, nodes, events);
    assert !UniqueShown(nodes[1].learned);
    assert !UniqueThroughout(config, nodes, events, senders, wires);
  }

  /** The learned table shows every (prefix, next hop) at most once, over all
      runs, exactly when no sender may appear as a next hop in messages that may
      also leave the field zero. */
  lemma UniqueIffFieldsDisjoint(config: Config, senders: set<Address>, wires: set<Address>)
    ensures AlwaysUnique(config, senders, wires) <==> 0 !in wires || forall a :: a in senders && a in wires ==> a == 0
  {
    if 0 !in wires || forall a :: a in senders && a in wires ==> a == 0 {
      forall nodes: seq<Node>, events: seq<Event>
        ensures UniqueThroughout(config, nodes, events, senders, wires)
      {
        if IsRun(config, nodes, events) && forall t :: 0 <= t < |events| ==> Conforms(events[t], senders, wires) {
          forall t | 0 <= t < |nodes|
            ensures UniqueShown(nodes[t].learned)
          {
            RunKeepsWire(config, nodes, events, senders, wires, t);
          }
        }
      }
    } else {
      var a :| a in senders && a in wires && a != 0;
      TwiceShownTwice(config, a, senders, wires);
    }
  }

  /** With zero fields only, as RFC 1058 prescribes and this implementation
      sends, there is one learned route for each prefix. */
  lemma OneRoutePerPrefix(config: Config, nodes: seq<Node>, events: seq<Event>, senders: set<Address>, t: nat, k: Key,
                          l: Key)
    requires IsRun(config, nodes, events) && t < |nodes|
    requires forall u :: 0 <= u < |events| ==> Conforms(events[u], senders, {0})
    requires k in nodes[t].learned && l in nodes[t].learned && k.prefix == l.prefix
    ensures k == l
  {
    RunKeepsWire(config, nodes, events, senders, {0}, t);
  }

  ghost predicate NamesPrefix(entries: seq<Entry>, p: Prefix) {
    exists e :: e in entries && e.nextHop == 0 && OnWire(e.address) == Ok(p)
  }

  /** So the last response to mention a prefix decides its route: a second
      neighbour's offer displaces the first's, however much worse it is. */
  lemma LastMentionDecides(t: Table, first: seq<Entry>, a: Address, second: seq<Entry>, b: Address, p: Prefix,
                           now: real)
    requires NamesPrefix(second, p)
    ensures var t' := Learn(Learn(t, Decode(first, a, now)), Decode(second, b, now));
      Key(p, 0) in t' && t'[Key(p, 0)].nextHop == b
  {
    var e :| e in second && e.nextHop == 0 && OnWire(e.address) == Ok(p);
    hide OnWire;
    var routes := Decode(second, b, now);
    DecodeMembers(second, b, now);
    assert DecodeEntry(e, b, now).value in routes;
    LearnedAt(Learn(t, Decode(first, a, now)), routes, Key(p, 0));
  }
}
