/** The in-memory branch of the backend cache (backend/cache_manager.py). One dictionary,
    `memory_cache`, holds a slot per station id (`'latest'` and a pruned `'history'`) and,
    under the key `'city_mappings'`, the lower-cased city -> station mapping. The clock is
    the parameter `now`, in seconds. */
module CacheManager {
  import opened Wrappers
  import opened Seqs
  import opened Text
  import opened StableSort
  import opened Models

  /** A history entry: when it was cached and what. */
  datatype HistoryItem = HistoryItem(timestamp: int, data: StationData)

  /** A value held in a slot: `None`, a serialised reading, a history list or a serialised
      city mapping. A reading serialises and validates back to itself, so the model keeps
      the record in place of its JSON text. */
  datatype Value =
    | VNone
    | VStation(data: StationData)
    | VHistory(items: seq<HistoryItem>)
    | VMapping(stationId: string, stationName: string)

  type Slot = map<string, Value>

  /** The key the city mappings live under, in the same dictionary as the station ids. */
  const MappingsKey: string := "city_mappings"

  /** History is kept for 48 hours. */
  const RetentionSeconds: int := 48 * 3600

  /** The slot a station gets on its first reading. */
  const NewSlot: Slot := map["latest" := VNone, "history" := VHistory([])]

  function NewerThan(cutoff: int): HistoryItem -> bool {
    (item: HistoryItem) => item.timestamp > cutoff
  }

  /** The readings of a list of history entries, in order. */
  function DataOf(items: seq<HistoryItem>): (r: seq<StationData>)
    ensures |r| == |items|
    ensures forall i :: 0 <= i < |items| ==> r[i] == items[i].data
  {
    seq(|items|, i requires 0 <= i < |items| => items[i].data)
  }

  lemma DataOfSnoc(items: seq<HistoryItem>, item: HistoryItem)
    ensures DataOf(items + [item]) == DataOf(items) + [item.data]
  {
  }

  // ---------------------------------------------------------------- specification

  /** The dictionary after `cache_station_data(s, d)` at time `now`: the slot (created when
      missing) gets `d` as its latest reading, then `d` is appended to its history and the
      history is cut to the last 48 hours. When the slot has no history list the append
      raises and the exception is swallowed, leaving only the new latest reading. */
  function AfterCache(mc: map<string, Slot>, s: string, d: StationData, now: int): map<string, Slot> {
    var slot := (if s in mc then mc[s] else NewSlot)["latest" := VStation(d)];
    if "history" in slot && slot["history"].VHistory? then
      var appended := slot["history"].items + [HistoryItem(now, d)];
      mc[s := slot["history" := VHistory(Filter(appended, NewerThan(now - RetentionSeconds)))]]
    else mc[s := slot]
  }

  /** `get_latest_station_data(s)`: the slot's latest reading; anything else under
      `'latest'` fails validation and gives `None`. */
  function Latest(mc: map<string, Slot>, s: string): Option<StationData> {
    if s in mc && "latest" in mc[s] && mc[s]["latest"].VStation? then Some(mc[s]["latest"].data)
    else None
  }

  /** The readings of the slot's history newer than `cutoff`, in stored order; a history
      that is not a list makes the loop raise, which gives `[]`. */
  function Recent(mc: map<string, Slot>, s: string, cutoff: int): seq<StationData> {
    if s in mc && "history" in mc[s] && mc[s]["history"].VHistory? then
      DataOf(Filter(mc[s]["history"].items, NewerThan(cutoff)))
    else []
  }

  /** `sorted(..., key=lambda x: x.timestamp, reverse=True)`: newest reading time stamp
      first, equal time stamps in their stored order. */
  function NewestFirst(): (StationData, StationData) -> int {
    (a: StationData, b: StationData) => Compare(b.timestamp, a.timestamp)
  }

  function History(mc: map<string, Slot>, s: string, cutoff: int): seq<StationData> {
    SortBy(Recent(mc, s, cutoff), NewestFirst())
  }

  /** The mapping slot, `{}` while no mapping was ever stored. */
  function Mappings(mc: map<string, Slot>): Slot {
    if MappingsKey in mc then mc[MappingsKey] else map[]
  }

  /** The dictionary after `set_city_station_mapping(city, id, name)`. */
  function AfterMapping(mc: map<string, Slot>, city: string, id: string, name: string): map<string, Slot> {
    mc[MappingsKey := Mappings(mc)[Lower(city) := VMapping(id, name)]]
  }

  /** `get_station_for_city(city)`: the station of the lower-cased name; a value that is
      not a mapping has no `station_id` or cannot be decoded, which gives `None`. */
  function StationForCity(mc: map<string, Slot>, city: string): Option<string> {
    var m := Mappings(mc);
    if Lower(city) in m && m[Lower(city)].VMapping? then Some(m[Lower(city)].stationId) else None
  }

  /** The listing entry of one mapping-slot key: a mapping gives its station, a serialised
      reading decodes to a dictionary without those keys, and anything else cannot be
      decoded (`None`). */
  function CityEntry(key: string, v: Value): Option<CityInfo> {
    match v
    case VMapping(id, name) => Some(CityInfo(Title(key), Some(id), Some(name)))
    case VStation(_) => Some(CityInfo(Title(key), None, None))
    case _ => None
  }

  /** Some value under the mapping slot cannot be decoded, so `get_all_cities` raises and
      returns `[]`. */
  ghost predicate ListingFails(m: Slot) {
    exists k :: k in m && CityEntry(k, m[k]).None?
  }

  /** `x` is the listing entry of one of `keys`. */
  ghost predicate Listed(m: Slot, keys: set<string>, x: CityInfo)
    requires keys <= m.Keys
  {
    exists k :: k in keys && CityEntry(k, m[k]) == Some(x)
  }

  /** `sorted(..., key=lambda x: x.city)`. */
  function ByCityName(): (CityInfo, CityInfo) -> int {
    (a: CityInfo, b: CityInfo) => Compare(a.city, b.city)
  }

  // ---------------------------------------------------------------- properties

  /** After caching, the station's latest reading is the one just cached. */
  lemma CacheThenLatest(mc: map<string, Slot>, s: string, d: StationData, now: int)
    ensures Latest(AfterCache(mc, s, d, now), s) == Some(d)
  {
  }

  /** The slot's history entries, `[]` when it has no history list. */
  function HistoryItems(mc: map<string, Slot>, s: string): seq<HistoryItem> {
    if s in mc && "history" in mc[s] && mc[s]["history"].VHistory? then mc[s]["history"].items else []
  }

  /** Appending an entry newer than the cutoff and then pruning keeps only entries newer
      than the cutoff, ends with the new entry, and keeps the survivors in order. */
  lemma PruneKeepsNewest(before: seq<HistoryItem>, item: HistoryItem, cutoff: int)
    requires item.timestamp > cutoff
    ensures var kept := Filter(before + [item], NewerThan(cutoff));
      (forall i :: 0 <= i < |kept| ==> kept[i].timestamp > cutoff) &&
      |kept| >= 1 && kept[|kept| - 1] == item &&
      Subsequence(kept, before + [item])
  {
    var p := NewerThan(cutoff);
    FilterMembers(before + [item], p);
    FilterSubsequence(before + [item], p);
    FilterAppend(before, [item], p);
    FilterSingleton(item, p);
  }

  /** For a station slot with a history list (every slot the cache creates), caching keeps
      only entries of the last 48 hours, keeps the new one, and keeps the others that are
      recent enough in their order. */
  lemma CachePrunes(mc: map<string, Slot>, s: string, d: StationData, now: int)
    requires s !in mc || ("history" in mc[s] && mc[s]["history"].VHistory?)
    ensures var after := AfterCache(mc, s, d, now);
      s in after && "history" in after[s] && after[s]["history"].VHistory?
    ensures var h := HistoryItems(AfterCache(mc, s, d, now), s);
      (forall i :: 0 <= i < |h| ==> h[i].timestamp > now - RetentionSeconds) &&
      |h| >= 1 && h[|h| - 1] == HistoryItem(now, d) &&
      Subsequence(h, HistoryItems(mc, s) + [HistoryItem(now, d)])
  {
    var before := HistoryItems(mc, s);
    var p := NewerThan(now - RetentionSeconds);
    assert AfterCache(mc, s, d, now)[s]["history"] == VHistory(Filter(before + [HistoryItem(now, d)], p));
    PruneKeepsNewest(before, HistoryItem(now, d), now - RetentionSeconds);
  }

  /** Caching for one station leaves every other key of the dictionary as it was; unless
      the station id is `'city_mappings'`, the city mappings are among them. */
  lemma CacheLeavesOthers(mc: map<string, Slot>, s: string, d: StationData, now: int)
    ensures forall t :: t != s ==> (t in AfterCache(mc, s, d, now) <==> t in mc)
    ensures forall t :: t != s && t in mc ==> AfterCache(mc, s, d, now)[t] == mc[t]
    ensures s != MappingsKey ==> Mappings(AfterCache(mc, s, d, now)) == Mappings(mc)
    ensures s != MappingsKey ==> forall c :: StationForCity(AfterCache(mc, s, d, now), c) == StationForCity(mc, c)
  {
  }

  /** A reading just cached is in the station's history for any positive window. */
  lemma CachedInHistory(mc: map<string, Slot>, s: string, d: StationData, now: int, hours: int)
    requires s !in mc || ("history" in mc[s] && mc[s]["history"].VHistory?)
    requires hours > 0
    ensures d in History(AfterCache(mc, s, d, now), s, now - hours * 3600)
  {
    CachePrunes(mc, s, d, now);
    var after: map<string, Slot> := AfterCache(mc, s, d, now);
    var h: Value := after[s]["history"];
    var items := h.items;
    var p := NewerThan(now - hours * 3600);
    FilterIn(items, p, HistoryItem(now, d));
    var f := Filter(items, p);
    var k :| 0 <= k < |f| && f[k] == HistoryItem(now, d);
    assert DataOf(f)[k] == d;
    assert d in multiset(Recent(after, s, now - hours * 3600));
  }

  /** The newest-first comparator is a consistent comparator. */
  lemma NewestFirstConsistent()
    ensures Consistent(NewestFirst())
  {
    var cmp := NewestFirst();
    forall a, b ensures cmp(a, b) <= 0 || cmp(b, a) <= 0 {
      CompareAntisymmetric(a.timestamp, b.timestamp);
    }
    forall a, b, c | cmp(a, b) <= 0 && cmp(b, c) <= 0 ensures cmp(a, c) <= 0 {
      CompareTransitive(c.timestamp, b.timestamp, a.timestamp);
    }
  }

  /** The history is newest first, holds exactly the readings stored after the cutoff (as
      many times as they are stored), and keeps readings with equal time stamps in their
      stored order. */
  lemma HistorySpec(mc: map<string, Slot>, s: string, cutoff: int, z: StationData)
    ensures forall i, j :: 0 <= i < j < |History(mc, s, cutoff)| ==>
      Compare(History(mc, s, cutoff)[j].timestamp, History(mc, s, cutoff)[i].timestamp) <= 0
    ensures multiset(History(mc, s, cutoff)) == multiset(Recent(mc, s, cutoff))
    ensures Filter(History(mc, s, cutoff), TiedWith(NewestFirst(), z))
         == Filter(Recent(mc, s, cutoff), TiedWith(NewestFirst(), z))
  {
    NewestFirstConsistent();
    SortBySorted(Recent(mc, s, cutoff), NewestFirst());
    SortByStable(Recent(mc, s, cutoff), NewestFirst(), z);
  }

  /** Every reading of the history was stored for that station after the cutoff. */
  lemma HistoryEntriesRecent(mc: map<string, Slot>, s: string, cutoff: int, d: StationData)
    requires d in History(mc, s, cutoff)
    ensures s in mc && "history" in mc[s] && mc[s]["history"].VHistory?
    ensures exists item :: item in mc[s]["history"].items && item.timestamp > cutoff && item.data == d
  {
    HistorySpec(mc, s, cutoff, d);
    assert d in multiset(Recent(mc, s, cutoff));
    var items := mc[s]["history"].items;
    var f := Filter(items, NewerThan(cutoff));
    var k :| 0 <= k < |f| && f[k].data == d;
    FilterMembers(items, NewerThan(cutoff));
    assert f[k] in items && f[k].timestamp > cutoff;
  }

  /** A mapping is found under any spelling with the same lower-case form, and only
      changes the answer for that form. */
  lemma MappingRoundTrip(mc: map<string, Slot>, city: string, id: string, name: string, query: string)
    ensures Lower(query) == Lower(city) ==> StationForCity(AfterMapping(mc, city, id, name), query) == Some(id)
    ensures Lower(query) != Lower(city) ==>
      StationForCity(AfterMapping(mc, city, id, name), query) == StationForCity(mc, query)
  {
  }

  /** A later mapping of the same lower-cased name replaces the earlier one. */
  lemma MappingOverwrites(mc: map<string, Slot>, c1: string, id1: string, n1: string, c2: string, id2: string, n2: string)
    requires Lower(c1) == Lower(c2)
    ensures StationForCity(AfterMapping(AfterMapping(mc, c1, id1, n1), c2, id2, n2), c1) == Some(id2)
    ensures Mappings(AfterMapping(AfterMapping(mc, c1, id1, n1), c2, id2, n2)) == Mappings(AfterMapping(mc, c2, id2, n2))
  {
  }

  /** A name that was never mapped has no station, and an unknown station has no reading. */
  lemma NothingUnmapped(mc: map<string, Slot>, city: string, s: string)
    ensures Lower(city) !in Mappings(mc) ==> StationForCity(mc, city) == None
    ensures s !in mc ==> Latest(mc, s) == None && Recent(mc, s, 0) == []
  {
  }

  /** Storing a mapping leaves every station's readings as they were (unless a station is
      named `'city_mappings'`). */
  lemma MappingLeavesStations(mc: map<string, Slot>, city: string, id: string, name: string, s: string, cutoff: int)
    requires s != MappingsKey
    ensures Latest(AfterMapping(mc, city, id, name), s) == Latest(mc, s)
    ensures History(AfterMapping(mc, city, id, name), s, cutoff) == History(mc, s, cutoff)
  {
  }

  /** The two uses of the shared dictionary collide on a station whose id is
      `'city_mappings'`. Cached before any mapping, its history list ends up among the
      mappings, so the city listing fails although the city is mapped. */
  lemma CollisionHidesCities(mc: map<string, Slot>, d: StationData, now: int, city: string, id: string, name: string)
    requires MappingsKey !in mc
    requires Lower(city) != "history"
    ensures var after := AfterMapping(AfterCache(mc, MappingsKey, d, now), city, id, name);
      StationForCity(after, city) == Some(id) && ListingFails(Mappings(after))
  {
    var after := AfterMapping(AfterCache(mc, MappingsKey, d, now), city, id, name);
    assert "history" in Mappings(after) && CityEntry("history", Mappings(after)["history"]).None?;
  }

  /** Cached after a mapping, its reading lands in the mapping slot under `'latest'`, so
      the listing shows a city "Latest" without a station that nobody mapped. */
  lemma CollisionAddsCity(mc: map<string, Slot>, city: string, id: string, name: string, d: StationData, now: int)
    requires MappingsKey !in mc
    requires Lower(city) != "latest" && Lower(city) != "history"
    ensures var after := AfterCache(AfterMapping(mc, city, id, name), MappingsKey, d, now);
      Latest(after, MappingsKey) == Some(d) &&
      "latest" in Mappings(after) &&
      CityEntry("latest", Mappings(after)["latest"]) == Some(CityInfo("Latest", None, None)) &&
      !ListingFails(Mappings(after))
  {
    var m := map[Lower(city) := VMapping(id, name), "latest" := VStation(d)];
    assert Mappings(AfterCache(AfterMapping(mc, city, id, name), MappingsKey, d, now)) == m;
    TitleLatest();
  }

  lemma TitleLatest()
    ensures Title("latest") == "Latest"
  {
    assert "latest"[1..] == "atest";
    assert "atest"[1..] == "test";
    assert "test"[1..] == "est";
    assert "est"[1..] == "st";
    assert "st"[1..] == "t";
    assert "t"[1..] == "";
  }

  /** The city-name order is a consistent comparator. */
  lemma ByCityNameConsistent()
    ensures Consistent(ByCityName())
  {
    var cmp := ByCityName();
    forall a, b ensures cmp(a, b) <= 0 || cmp(b, a) <= 0 {
      CompareAntisymmetric(a.city, b.city);
    }
    forall a, b, c | cmp(a, b) <= 0 && cmp(b, c) <= 0 ensures cmp(a, c) <= 0 {
      CompareTransitive(a.city, b.city, c.city);
    }
  }

  // ---------------------------------------------------------------- the cache

  class Cache {
    var memoryCache: map<string, Slot>

    /** `CacheManager()` followed by `connect()` without Redis: an empty dictionary. */
    constructor()
      ensures memoryCache == map[]
    {
      memoryCache := map[];
    }

    /** `cache_station_data(station_id, data)` at time `now`. */
    method CacheStationData(stationId: string, data: StationData, now: int)
      modifies this
      ensures memoryCache == AfterCache(old(memoryCache), stationId, data, now)
    {
      if stationId !in memoryCache {
        memoryCache := memoryCache[stationId := NewSlot];
      }
      var slot := memoryCache[stationId]["latest" := VStation(data)];
      memoryCache := memoryCache[stationId := slot];
      if "history" in slot && slot["history"].VHistory? {
        var appended := slot["history"].items + [HistoryItem(now, data)];
        var cutoff := now - RetentionSeconds;
        memoryCache := memoryCache[stationId := slot["history" := VHistory(Filter(appended, NewerThan(cutoff)))]];
      }
    }

    /** `get_latest_station_data(station_id)`. */
    method GetLatestStationData(stationId: string) returns (r: Option<StationData>)
      ensures r == Latest(memoryCache, stationId)
    {
      if stationId in memoryCache {
        var slot := memoryCache[stationId];
        if "latest" in slot && slot["latest"].VStation? {
          return Some(slot["latest"].data);
        }
      }
      return None;
    }

    /** `get_station_history(station_id, hours)` at time `now`: the loop over the stored
      history, then the newest-first sort. */
    method GetStationHistory(stationId: string, hours: int, now: int) returns (r: seq<StationData>)
      ensures r == History(memoryCache, stationId, now - hours * 3600)
    {
      var cutoff := now - hours * 3600;
      ghost var p := NewerThan(cutoff);
      var mc: map<string, Slot> := memoryCache;
      var history: seq<StationData> := [];
      if stationId in mc && "history" in mc[stationId] && mc[stationId]["history"].VHistory? {
        var items := mc[stationId]["history"].items;
        for i := 0 to |items|
          invariant history == DataOf(Filter(items[..i], p))
        {
          assert items[..i + 1] == items[..i] + [items[i]];
          FilterSnoc(items[..i], items[i], p);
          if items[i].timestamp > cutoff {
            DataOfSnoc(Filter(items[..i], p), items[i]);
            history := history + [items[i].data];
          }
        }
        assert items[..|items|] == items;
      }
      assert history == Recent(mc, stationId, cutoff);
      r := SortBy(history, NewestFirst());
    }

    /** `set_city_station_mapping(city, station_id, station_name)`. */
    method SetCityStationMapping(city: string, stationId: string, stationName: string)
      modifies this
      ensures memoryCache == AfterMapping(old(memoryCache), city, stationId, stationName)
    {
      if MappingsKey !in memoryCache {
        memoryCache := memoryCache[MappingsKey := map[]];
      }
      memoryCache := memoryCache[MappingsKey := memoryCache[MappingsKey][Lower(city) := VMapping(stationId, stationName)]];
    }

    /** `get_station_for_city(city)`. */
    method GetStationForCity(city: string) returns (r: Option<string>)
      ensures r == StationForCity(memoryCache, city)
    {
      var mappings := if MappingsKey in memoryCache then memoryCache[MappingsKey] else map[];
      var key := Lower(city);
      if key in mappings && mappings[key].VMapping? {
        return Some(mappings[key].stationId);
      }
      return None;
    }

    /** `get_all_cities()`: one entry per stored mapping, title-cased and sorted by name;
      `[]` when some value under the mappings cannot be decoded. The dictionary's
      iteration order is left open. */
    method GetAllCities() returns (r: seq<CityInfo>)
      ensures ListingFails(Mappings(memoryCache)) ==> r == []
      ensures !ListingFails(Mappings(memoryCache)) ==>
        |r| == |Mappings(memoryCache).Keys| &&
        (forall x :: x in r <==> Listed(Mappings(memoryCache), Mappings(memoryCache).Keys, x)) &&
        Sorted(r, ByCityName())
    {
      var mappings := Mappings(memoryCache);
      var remaining := mappings.Keys;
      var cities: seq<CityInfo> := [];
      while remaining != {}
        invariant remaining <= mappings.Keys
        invariant |cities| + |remaining| == |mappings.Keys|
        invariant forall k :: k in mappings.Keys - remaining ==> CityEntry(k, mappings[k]).Some?
        invariant forall x :: x in cities <==> Listed(mappings, mappings.Keys - remaining, x)
        decreases |remaining|
      {
        var k :| k in remaining;
        var entry := CityEntry(k, mappings[k]);
        if entry.None? {
          assert ListingFails(mappings);
          return [];
        }
        ghost var before := mappings.Keys - remaining;
        cities := cities + [entry.value];
        remaining := remaining - {k};
        assert mappings.Keys - remaining == before + {k};
        forall x ensures x in cities <==> Listed(mappings, before + {k}, x) {
          if x == entry.value {
            assert CityEntry(k, mappings[k]) == Some(x);
          }
          if Listed(mappings, before + {k}, x) {
            var k' :| k' in before + {k} && CityEntry(k', mappings[k']) == Some(x);
            if k' != k {
              assert Listed(mappings, before, x);
            }
          }
        }
      }
      assert mappings.Keys - remaining == mappings.Keys;
      r := SortBy(cities, ByCityName());
      ByCityNameConsistent();
      SortBySorted(cities, ByCityName());
      forall x ensures x in r <==> x in cities {
        assert x in r <==> x in multiset(r);
        assert x in cities <==> x in multiset(cities);
      }
    }
  }
}
