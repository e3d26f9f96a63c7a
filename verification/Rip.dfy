/** RIPv1 as a transformation of values (src/rp_rip1/main.py): the route tables,
    what goes on the wire, what comes off it, housekeeping, redistribution and
    the rebuilding of the RIB.  `RipInterface` is proved to perform exactly
    these steps on its objects. */
module Rip {
  import opened Types
  import opened Addressing
  import opened Selection

  const MAX_METRIC: nat := 16
  const ROUTE_TIMEOUT: real := 180.0
  const GARBAGE_TIMEOUT: real := 300.0

  /** Two routes are equal, and displace each other in a set, when their keys
      are.  A route's key is fixed when the route object is made. */
  datatype RouteValue = RouteValue(
    identity: Key, nextHop: Address, metric: nat, source: SourceCode, status: RouteStatus, lastUpdated: real)
  {
    /** The key a copy of this route gets, made from the current next hop. */
    function Shown(): Key {
      Key(identity.prefix, nextHop)
    }
  }

  function PrefixOf(r: RouteValue): Prefix { r.identity.prefix }

  function MetricOf(r: RouteValue): int { r.metric }

  /** A set of routes under key equality. */
  type Table = map<Key, RouteValue>

  ghost predicate Keyed(t: Table) {
    forall k :: k in t ==> t[k].identity == k
  }

  datatype Config = Config(
    enabled: set<SourceCode>, staticMetric: nat, slaMetric: nat, defaultMetric: nat,
    adminDistance: int, rejectOwn: bool, trigger: bool)
  {
    /** Only static and SLA redistribution can be switched on. */
    ghost predicate Valid() {
      enabled <= {STATIC, SLA}
    }
  }

  // ---- messages --------------------------------------------------------

  datatype Entry = Entry(address: Address, nextHop: Address, metric: nat)

  /** What a route looks like in a response, with `wire` in the next-hop field.
      This implementation always writes zero there. */
  function Encode(r: RouteValue, wire: Address): Entry {
    Entry(PrefixOf(r).address, wire, Min(r.metric + 1, MAX_METRIC))
  }

  /** One received entry: classful, poisoned at 16, and with a zero next hop
      replaced by the sender -- after the key was made from the field as it
      stood on the wire. */
  function DecodeEntry(e: Entry, sender: Address, now: real): Option<RouteValue> {
    match OnWire(e.address)
    case Err => None
    case Ok(p) =>
      Some(RouteValue(
        Key(p, e.nextHop),
        if e.nextHop == 0 then sender else e.nextHop,
        Min(e.metric, MAX_METRIC),
        RIP1,
        if e.metric >= MAX_METRIC then DOWN else UP,
        now))
  }

  function Decode(entries: seq<Entry>, sender: Address, now: real): seq<RouteValue> {
    if entries == [] then []
    else
      var earlier := Decode(entries[..|entries| - 1], sender, now);
      match DecodeEntry(entries[|entries| - 1], sender, now)
      case None => earlier
      case Some(r) => earlier + [r]
  }

  /** `RIP1_RIB.add` for each route in turn: discard whatever has the key, then
      add. */
  function Learn(t: Table, routes: seq<RouteValue>): Table {
    if routes == [] then t
    else
      var r := routes[|routes| - 1];
      Learn(t, routes[..|routes| - 1])[r.identity := r]
  }

  /** The least metric of a prefix in a table, with 16 for none. */
  ghost function BestMetric(t: Table, p: Prefix): (m: nat)
    ensures m <= MAX_METRIC
    ensures forall k :: k in t && k.prefix == p ==> m <= t[k].metric
    ensures m < MAX_METRIC ==> exists k :: k in t && k.prefix == p && t[k].metric == m
  {
    LeastFrom(t, p, 0)
  }

  ghost function LeastFrom(t: Table, p: Prefix, low: nat): (m: nat)
    requires low <= MAX_METRIC
    requires forall k :: k in t && k.prefix == p ==> low <= t[k].metric
    ensures low <= m <= MAX_METRIC
    ensures forall k :: k in t && k.prefix == p ==> m <= t[k].metric
    ensures m < MAX_METRIC ==> exists k :: k in t && k.prefix == p && t[k].metric == m
    decreases MAX_METRIC - low
  {
    if low == MAX_METRIC || exists k :: k in t && k.prefix == p && t[k].metric == low then low
    else LeastFrom(t, p, low + 1)
  }

  /** No route of the table with the same prefix has a smaller metric. */
  ghost predicate Optimal(t: Table, k: Key) {
    k in t && forall l :: l in t && l.prefix == k.prefix ==> t[k].metric <= t[l].metric
  }

  ghost predicate OnlyBest(rib: Table, wire: Address, entries: seq<Entry>) {
    forall e :: e in entries ==> exists k :: Optimal(rib, k) && e == Encode(rib[k], wire)
  }

  ghost predicate Offers(t: Table, p: Prefix) {
    exists k :: k in t && k.prefix == p
  }

  ghost predicate Mentions(rib: Table, wire: Address, entries: seq<Entry>, p: Prefix) {
    exists k :: Optimal(rib, k) && k.prefix == p && Encode(rib[k], wire) in entries
  }

  /** The entries of a response, in any order: every entry is a route of least
      metric for its prefix, and every prefix of the RIB has its entry. */
  ghost predicate IsResponse(rib: Table, wire: Address, entries: seq<Entry>) {
    && OnlyBest(rib, wire, entries)
    && forall p :: Offers(rib, p) ==> Mentions(rib, wire, entries, p)
  }

  /** A response with exactly one entry for each prefix: entry n is prefix n's. */
  ghost predicate OneEntryEach(rib: Table, wire: Address, prefixes: seq<Prefix>, entries: seq<Entry>) {
    && |prefixes| == |entries|
    && (forall m, n :: 0 <= m < n < |prefixes| ==> prefixes[m] != prefixes[n])
    && (forall p :: p in prefixes <==> Offers(rib, p))
    && (forall n :: 0 <= n < |entries| ==> IsEntryOf(rib, wire, prefixes[n], entries[n]))
  }

  /** What `send_response` may send. */
  ghost predicate IsMessage(rib: Table, wire: Address, entries: seq<Entry>) {
    exists prefixes :: OneEntryEach(rib, wire, prefixes, entries)
  }

  ghost predicate IsEntryOf(rib: Table, wire: Address, p: Prefix, e: Entry) {
    exists k :: Optimal(rib, k) && k.prefix == p && e == Encode(rib[k], wire)
  }

  // ---- housekeeping ----------------------------------------------------

  /** A pass reads the clock once or twice for each route it looks at. */
  datatype Reading = Reading(first: real, second: real)

  type Clock = Key -> Reading

  predicate Expired(r: RouteValue, at: Reading) {
    r.lastUpdated + GARBAGE_TIMEOUT < at.first
  }

  predicate Overdue(r: RouteValue, at: Reading) {
    r.lastUpdated + ROUTE_TIMEOUT < at.second
  }

  function Aged(r: RouteValue, at: Reading): RouteValue {
    if Overdue(r, at) && r.metric < MAX_METRIC then r.(status := DOWN, metric := MAX_METRIC) else r
  }

  /** One pass of `check_routes` over the learned table. */
  function Sweep(t: Table, clock: Clock): Table {
    map k | k in t && !Expired(t[k], clock(k)) :: Aged(t[k], clock(k))
  }

  // ---- redistribution in -----------------------------------------------

  datatype RouteSpec = RouteSpec(prefix: Prefix, nextHop: Address, source: SourceCode, metric: Option<nat>)

  /** The configured metrics are capped at 16; a metric the caller supplies is
      taken as it is. */
  function SpecMetric(config: Config, spec: RouteSpec): nat {
    match spec.metric
    case Some(m) => m
    case None =>
      Min(match spec.source
          case STATIC => config.staticMetric
          case SLA => config.slaMetric
          case _ => config.defaultMetric,
          MAX_METRIC)
  }

  /** The route a spec of an enabled source becomes; class D and E raise. */
  function Imported(config: Config, spec: RouteSpec, now: real): Result<RouteValue> {
    match Classful(spec.prefix)
    case Err => Err
    case Ok(p) =>
      Ok(RouteValue(Key(p, spec.nextHop), spec.nextHop, SpecMetric(config, spec), spec.source, UNKNOWN, now))
  }

  /** The redistributed table after the loop, and whether it ran to its end. */
  function RedistributeIn(config: Config, specs: seq<RouteSpec>, now: real): (Table, bool) {
    if specs == [] then (map[], true)
    else
      var (t, ok) := RedistributeIn(config, specs[..|specs| - 1], now);
      var spec := specs[|specs| - 1];
      if !ok || spec.source !in config.enabled then (t, ok)
      else
        match Imported(config, spec, now)
        case Err => (t, false)
        case Ok(r) => (t[r.identity := r], true)
  }

  // ---- rebuilding the RIB ----------------------------------------------

  /** A route that went through `as_json` and back: new key, unknown status, new
      time stamp. */
  function Copy(r: RouteValue, now: real): RouteValue {
    RouteValue(r.Shown(), r.nextHop, r.metric, r.source, UNKNOWN, now)
  }

  /** `refresh_rib`: copies of the redistributed routes, and, where no
      redistributed route has the key, a copy of some learned route showing it. */
  ghost predicate IsRefresh(redistributed: Table, learned: Table, rib: Table, now: real) {
    && (forall k :: k in redistributed ==> k in rib && rib[k] == Copy(redistributed[k], now))
    && (forall l :: l in learned ==> learned[l].Shown() in rib)
    && (forall k :: k in rib && k !in redistributed ==>
          exists l :: l in learned && learned[l].Shown() == k && rib[k] == Copy(learned[l], now))
  }

  /** A redistributed route shows the key it is filed under. */
  ghost predicate ShownAsFiled(t: Table) {
    Keyed(t) && forall k :: k in t ==> t[k].Shown() == k
  }

  // ---- redistribution out ----------------------------------------------

  predicate Live(r: RouteValue) {
    r.source == RIP1 && r.metric < MAX_METRIC
  }

  ghost function LiveRoutes(rib: Table): set<RouteValue> {
    set k | k in rib && Live(rib[k]) :: rib[k]
  }

  ghost predicate IsRedistributeOut(rib: Table, best: map<Prefix, RouteValue>) {
    IsSelection(LiveRoutes(rib), PrefixOf, MetricOf, best)
  }
}
