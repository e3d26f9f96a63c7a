/** The generic RIB: one set of entries and three secondary indexes over it
    (src/generic/rib.py:25-177). */
module MultiIndexRib {
  import opened Types
  import opened Addressing

  /** Entries are equal when their keys are; metric and status are not part of
      the key (src/generic/rib.py:42-48). */
  datatype EntryKey = EntryKey(prefix: Prefix, nextHop: Address, source: SourceCode, adminDistance: int)

  datatype RouteEntry = RouteEntry(key: EntryKey, metric: int, status: RouteStatus)

  /** A Python set of entries: adding an entry equal to one present keeps the
      one present. */
  type EntrySet = map<EntryKey, RouteEntry>

  function With(s: EntrySet, e: RouteEntry): EntrySet {
    if e.key in s then s else s[e.key := e]
  }

  lemma WithAt(s: EntrySet, e: RouteEntry)
    ensures With(s, e).Keys == s.Keys + {e.key}
    ensures forall k :: k in s ==> With(s, e)[k] == s[k]
    ensures e.key !in s ==> With(s, e)[e.key] == e
    ensures With(s, e) == if e.key in s then s else s[e.key := e]
  {
  }

  /** The entries that have value v in a field. */
  ghost function Having<V>(entries: EntrySet, field: EntryKey -> V, v: V): EntrySet {
    map k | k in entries && field(k) == v :: entries[k]
  }

  /** An index holds, for each value some entry has, exactly the entries that
      have it -- the same entries as the primary set -- and nothing for a value
      no entry has. */
  ghost predicate Indexes<V(!new)>(entries: EntrySet, index: map<V, EntrySet>, field: EntryKey -> V) {
    forall v: V :: Bucket(index, v) == Having(entries, field, v) && (v in index ==> index[v] != map[])
  }

  function PrefixOf(k: EntryKey): Prefix { k.prefix }

  function NextHopOf(k: EntryKey): Address { k.nextHop }

  function SourceOf(k: EntryKey): SourceCode { k.source }

  function Bucket<V>(index: map<V, EntrySet>, v: V): EntrySet {
    if v in index then index[v] else map[]
  }

  /** Adding to an index: the bucket is made when it is missing. */
  function IndexWith<V>(index: map<V, EntrySet>, v: V, e: RouteEntry): map<V, EntrySet> {
    index[v := With(Bucket(index, v), e)]
  }

  /** Removing from an index: the bucket goes when it becomes empty. */
  function IndexWithout<V>(index: map<V, EntrySet>, v: V, e: RouteEntry): map<V, EntrySet> {
    if v !in index then index
    else
      var bucket := index[v] - {e.key};
      if bucket == map[] then index - {v} else index[v := bucket]
  }

  lemma AddKeepsIndex<V(!new)>(entries: EntrySet, index: map<V, EntrySet>, field: EntryKey -> V, e: RouteEntry)
    requires Indexes(entries, index, field)
    ensures Indexes(With(entries, e), IndexWith(index, field(e.key), e), field)
  {
    var index' := IndexWith(index, field(e.key), e);
    forall v
      ensures Bucket(index', v) == Having(With(entries, e), field, v)
      ensures v in index' ==> index'[v] != map[]
    {
      assert Bucket(index, v) == Having(entries, field, v);
      if v == field(e.key) {
        assert e.key in index'[v];
      }
    }
  }

  lemma RemoveKeepsIndex<V(!new)>(entries: EntrySet, index: map<V, EntrySet>, field: EntryKey -> V, e: RouteEntry)
    requires Indexes(entries, index, field)
    ensures Indexes(entries - {e.key}, IndexWithout(index, field(e.key), e), field)
  {
    var index' := IndexWithout(index, field(e.key), e);
    forall v
      ensures Bucket(index', v) == Having(entries - {e.key}, field, v)
      ensures v in index' ==> index'[v] != map[]
    {
      assert Bucket(index, v) == Having(entries, field, v);
      if v == field(e.key) {
        assert Having(entries - {e.key}, field, v) == Having(entries, field, v) - {e.key};
      }
    }
  }

  /** The entries determine the index. */
  lemma IndexDetermined<V(!new)>(entries: EntrySet, x: map<V, EntrySet>, y: map<V, EntrySet>, field: EntryKey -> V)
    requires Indexes(entries, x, field) && Indexes(entries, y, field)
    ensures x == y
  {
    hide Having;
    forall v
      ensures v in x <==> v in y
      ensures v in x && v in y ==> x[v] == y[v]
    {
      assert Bucket(x, v) == Bucket(y, v);
    }
  }

  lemma BucketIs<V(!new)>(entries: EntrySet, index: map<V, EntrySet>, field: EntryKey -> V, v: V)
    requires Indexes(entries, index, field)
    ensures Bucket(index, v) == Having(entries, field, v)
    ensures v in index <==> Having(entries, field, v) != map[]
  {
    hide Having;
  }

  /** Entries are filed under their keys, and all three indexes agree with them. */
  ghost predicate AllIndexed(entries: EntrySet, routes: map<Prefix, EntrySet>, nextHops: map<Address, EntrySet>,
                             sources: map<SourceCode, EntrySet>)
  {
    && (forall k :: k in entries ==> entries[k].key == k)
    && Indexes(entries, routes, PrefixOf)
    && Indexes(entries, nextHops, NextHopOf)
    && Indexes(entries, sources, SourceOf)
  }

  lemma AddKeepsAll(entries: EntrySet, routes: map<Prefix, EntrySet>, nextHops: map<Address, EntrySet>,
                    sources: map<SourceCode, EntrySet>, e: RouteEntry)
    requires AllIndexed(entries, routes, nextHops, sources)
    ensures AllIndexed(With(entries, e), IndexWith(routes, e.key.prefix, e), IndexWith(nextHops, e.key.nextHop, e),
                       IndexWith(sources, e.key.source, e))
  {
    AddKeepsIndex(entries, routes, PrefixOf, e);
    AddKeepsIndex(entries, nextHops, NextHopOf, e);
    AddKeepsIndex(entries, sources, SourceOf, e);
    hide Indexes;
    hide IndexWith;
  }

  lemma RemoveKeepsAll(entries: EntrySet, routes: map<Prefix, EntrySet>, nextHops: map<Address, EntrySet>,
                       sources: map<SourceCode, EntrySet>, e: RouteEntry)
    requires AllIndexed(entries, routes, nextHops, sources)
    ensures AllIndexed(entries - {e.key}, IndexWithout(routes, e.key.prefix, e),
                       IndexWithout(nextHops, e.key.nextHop, e), IndexWithout(sources, e.key.source, e))
  {
    RemoveKeepsIndex(entries, routes, PrefixOf, e);
    RemoveKeepsIndex(entries, nextHops, NextHopOf, e);
    RemoveKeepsIndex(entries, sources, SourceOf, e);
    hide Indexes;
    hide IndexWithout;
  }

  class Rib {
    var entries: EntrySet
    var routes: map<Prefix, EntrySet>
    var nextHops: map<Address, EntrySet>
    var sources: map<SourceCode, EntrySet>

    /** The three indexes agree with the primary set. */
    ghost predicate Valid()
      reads this
    {
      AllIndexed(entries, routes, nextHops, sources)
    }

    constructor ()
      ensures Valid() && entries == map[]
    {
      entries, routes, nextHops, sources := map[], map[], map[], map[];
    }

    method AddRouteEntry(e: RouteEntry)
      requires Valid()
      modifies this
      ensures Valid()
      ensures entries == With(old(entries), e)
      ensures entries.Keys == old(entries).Keys + {e.key}
      ensures forall k :: k in old(entries) ==> entries[k] == old(entries)[k]
      ensures e.key !in old(entries) ==> entries[e.key] == e
    {
      AddKeepsAll(entries, routes, nextHops, sources, e);
      WithAt(entries, e);
      hide With;
      hide AllIndexed;
      hide IndexWith;
      if e.key !in entries {
        entries := entries[e.key := e];
      }
      routes := IndexWith(routes, e.key.prefix, e);
      nextHops := IndexWith(nextHops, e.key.nextHop, e);
      sources := IndexWith(sources, e.key.source, e);
    }

    method RemoveRouteEntry(e: RouteEntry)
      requires Valid()
      modifies this
      ensures Valid()
      ensures entries == old(entries) - {e.key}
    {
      RemoveKeepsAll(entries, routes, nextHops, sources, e);
      hide AllIndexed;
      hide IndexWithout;
      entries := entries - {e.key};
      routes := IndexWithout(routes, e.key.prefix, e);
      nextHops := IndexWithout(nextHops, e.key.nextHop, e);
      sources := IndexWithout(sources, e.key.source, e);
    }

    /** Removing the entries of a set one by one, in any order. */
    method RemoveEach(bucket: EntrySet)
      requires Valid() && forall k :: k in bucket ==> bucket[k].key == k
      modifies this
      ensures Valid()
      ensures forall k :: k in entries <==> k in old(entries) && k !in bucket
      ensures forall k :: k in entries ==> entries[k] == old(entries)[k]
    {
      hide Indexes;
      var todo := bucket.Keys;
      while todo != {}
        invariant Valid() && todo <= bucket.Keys
        invariant forall k :: k in entries <==> k in old(entries) && (k in bucket ==> k in todo)
        invariant forall k :: k in entries ==> entries[k] == old(entries)[k]
      {
        var k :| k in todo;
        RemoveRouteEntry(bucket[k]);
        todo := todo - {k};
      }
    }

    /** Bulk removal walks a copy of the source's bucket, which every removal
        shrinks and the last one deletes. */
    method RemoveRouteEntriesFromSource(source: SourceCode)
      requires Valid()
      modifies this
      ensures Valid()
      ensures forall k :: k in entries <==> k in old(entries) && k.source != source
      ensures forall k :: k in entries ==> entries[k] == old(entries)[k]
      ensures source !in sources
    {
      BucketIs(entries, sources, SourceOf, source);
      assert forall k :: k in Having(entries, SourceOf, source) <==> k in entries && k.source == source;
      hide Indexes;
      if source in sources {
        RemoveEach(sources[source]);
      }
      BucketIs(entries, sources, SourceOf, source);
    }

    /** Filtered search.  When nothing matches the whole set comes back, although
        the method's own description promises matches only. */
    method RibEntrySearch(filter: Filter) returns (result: EntrySet)
      requires Valid()
      ensures result == SearchResult(entries, filter)
    {
      hide Indexes;
      result := map[];
      var todo := entries.Keys;
      while todo != {}
        invariant todo <= entries.Keys
        invariant forall k :: k in result <==> k in entries && k !in todo && Wanted(filter, k)
        invariant forall k :: k in result ==> result[k] == entries[k]
      {
        var k :| k in todo;
        var skip := (filter.prefix.Some? && k.prefix != filter.prefix.value)
                 || (filter.nextHop.Some? && k.nextHop != filter.nextHop.value)
                 || (filter.source.Some? && k.source != filter.source.value);
        if !skip {
          result := result[k := entries[k]];
        }
        todo := todo - {k};
      }
      assert result == Matches(entries, filter);
      if result == map[] {
        result := entries;
      }
    }
  }

  datatype Filter = Filter(prefix: Option<Prefix>, nextHop: Option<Address>, source: Option<SourceCode>)

  /** Which entries a filter asks for. */
  ghost predicate Wanted(filter: Filter, k: EntryKey) {
    && (filter.prefix.Some? ==> k.prefix == filter.prefix.value)
    && (filter.nextHop.Some? ==> k.nextHop == filter.nextHop.value)
    && (filter.source.Some? ==> k.source == filter.source.value)
  }

  ghost function Matches(entries: EntrySet, filter: Filter): EntrySet {
    map k | k in entries && Wanted(filter, k) :: entries[k]
  }

  ghost function SearchResult(entries: EntrySet, filter: Filter): EntrySet {
    if Matches(entries, filter) == map[] then entries else Matches(entries, filter)
  }

  /** Search keeps the promise of its description exactly when something matches
      or there is nothing to search. */
  lemma SearchReturnsMatchesIff(entries: EntrySet, filter: Filter)
    ensures SearchResult(entries, filter) == Matches(entries, filter) <==>
              (exists k :: k in entries && Wanted(filter, k)) || entries == map[]
  {
    var matches := Matches(entries, filter);
    if k :| k in entries && Wanted(filter, k) {
      assert k in matches;
    } else {
      assert matches == map[];
    }
  }

  /** Searching agrees with the indexes: the matches are the intersection of the
      buckets asked for. */
  lemma SearchIsBucketIntersection(rib: Rib, filter: Filter, k: EntryKey)
    requires rib.Valid()
    ensures k in Matches(rib.entries, filter) <==>
              && k in rib.entries
              && (filter.prefix.Some? ==> k in Bucket(rib.routes, filter.prefix.value))
              && (filter.nextHop.Some? ==> k in Bucket(rib.nextHops, filter.nextHop.value))
              && (filter.source.Some? ==> k in Bucket(rib.sources, filter.source.value))
  {
    if filter.prefix.Some? { BucketIs(rib.entries, rib.routes, PrefixOf, filter.prefix.value); }
    if filter.nextHop.Some? { BucketIs(rib.entries, rib.nextHops, NextHopOf, filter.nextHop.value); }
    if filter.source.Some? { BucketIs(rib.entries, rib.sources, SourceOf, filter.source.value); }
    hide Indexes;
    hide Bucket;
  }

  /** Adding an entry that was not there and removing it again restores the set
      and all three indexes. */
  method AddThenRemove(rib: Rib, e: RouteEntry)
    requires rib.Valid() && e.key !in rib.entries
    modifies rib
    ensures rib.Valid() && rib.entries == old(rib.entries)
    ensures rib.routes == old(rib.routes) && rib.nextHops == old(rib.nextHops) && rib.sources == old(rib.sources)
  {
    hide Indexes;
    ghost var entries, routes, nextHops, sources := rib.entries, rib.routes, rib.nextHops, rib.sources;
    rib.AddRouteEntry(e);
    rib.RemoveRouteEntry(e);
    assert rib.entries == entries;
    IndexDetermined(entries, rib.routes, routes, PrefixOf);
    IndexDetermined(entries, rib.nextHops, nextHops, NextHopOf);
    IndexDetermined(entries, rib.sources, sources, SourceOf);
  }
}
