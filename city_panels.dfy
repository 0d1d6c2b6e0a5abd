/** The city list panel (Nasa-app/src/app/dashboard/components/CityPanels.tsx): its own
    classifiers, the mapping of a fetched city, and the search / AQI-band / sort pipeline
    with the sort-header toggle. */
module CityPanels {
  import opened Wrappers
  import opened Seqs
  import opened Text
  import opened StableSort
  import opened AqiScale
  import opened CityFeed
  import CityDetail

  const Colors: seq<string> := [
    "bg-green-500 text-white",
    "bg-yellow-500 text-black",
    "bg-orange-500 text-white",
    "bg-red-500 text-white",
    "bg-purple-500 text-white",
    "bg-red-900 text-white"
  ]

  /** `getAQIColor`. */
  function AqiColor(aqi: int): (r: string)
    ensures r == Colors[Severity(aqi)]
  {
    if aqi <= 50 then "bg-green-500 text-white"
    else if aqi <= 100 then "bg-yellow-500 text-black"
    else if aqi <= 150 then "bg-orange-500 text-white"
    else if aqi <= 200 then "bg-red-500 text-white"
    else if aqi <= 300 then "bg-purple-500 text-white"
    else "bg-red-900 text-white"
  }

  /** This panel's labels: the third one is shortened to "Unhealthy for Sensitive". */
  const Labels: seq<string> := [
    "Good", "Moderate", "Unhealthy for Sensitive", "Unhealthy", "Very Unhealthy", "Hazardous"
  ]

  /** `getAQILevel`. */
  function AqiLevel(aqi: int): (r: string)
    ensures r == Labels[Severity(aqi)]
  {
    if aqi <= 50 then "Good"
    else if aqi <= 100 then "Moderate"
    else if aqi <= 150 then "Unhealthy for Sensitive"
    else if aqi <= 200 then "Unhealthy"
    else if aqi <= 300 then "Very Unhealthy"
    else "Hazardous"
  }

  /** Colour and label name the same category, and the label agrees with the detail view's
      except in the third category, where the wording differs. */
  lemma LevelAgreesWithDetail(aqi: int)
    ensures AqiColor(aqi) == Colors[Severity(aqi)] && AqiLevel(aqi) == Labels[Severity(aqi)]
    ensures AqiLevel(aqi) == CityDetail.AqiLevel(aqi) <==> Severity(aqi) != 2
  {
  }

  const Icons: map<string, string> := map[
    "PM2.5" := "\U{1F7E4}",
    "PM10" := "\U{1F7EB}",
    "NO2" := "\U{1F7E1}",
    "O3" := "\U{1F535}",
    "SO2" := "\U{1F7E3}",
    "CO" := "⚫"
  ]

  const NoIcon: string := "⭕"

  /** `getPollutantIcon`: the pollutant's own icon, or the empty circle. */
  function PollutantIcon(pollutant: string): (r: string)
    ensures pollutant in Icons ==> r == Icons[pollutant]
    ensures pollutant !in Icons ==> r == NoIcon
  {
    if pollutant in Icons && Icons[pollutant] != "" then Icons[pollutant] else NoIcon
  }

  /** Each of the six pollutants gets an icon of its own, never the fallback one; the
      dominant pollutant's `'N/A'` gets the fallback. */
  lemma PollutantIconsDistinct(i: int, j: int)
    requires 0 <= i < |PollutantNames| && 0 <= j < |PollutantNames|
    ensures PollutantIcon(PollutantNames[i]) != NoIcon
    ensures PollutantIcon(PollutantNames[i]) == PollutantIcon(PollutantNames[j]) <==> i == j
    ensures PollutantIcon("N/A") == NoIcon
  {
  }

  datatype Weather = Weather(temperature: real, humidity: real, wind: real, pressure: real)

  /** A city as the panel shows it; `lastUpdated` is the time stamp as milliseconds. */
  datatype City = City(
    place: Place,
    aqi: int,
    dominantPollutant: string,
    lastUpdated: int,
    pollutants: seq<real>,
    weather: Weather)

  /** The `/api/airquality` response fields the panel reads; a missing field is `None`. */
  datatype AirQuality = AirQuality(
    aqi: Option<int>,
    pollutants: Option<map<string, real>>,
    weather: Option<map<string, real>>)

  /** `weather?.<key> || fallback`. */
  function WeatherValue(weather: Option<map<string, real>>, key: string, fallback: real): (r: real)
    ensures weather.None? || key !in weather.value || weather.value[key] == 0.0 ==> r == fallback
    ensures weather.Some? && key in weather.value && weather.value[key] != 0.0 ==> r == weather.value[key]
  {
    if weather.Some? && key in weather.value then OrNumber(Some(weather.value[key]), fallback)
    else fallback
  }

  /** A listed city combined with its air-quality response; `now` is the fetch time. */
  function MapCity(c: ApiCity, index: nat, data: AirQuality, now: int): (r: City)
    ensures r.place == PlaceOf(c, index)
    ensures r.aqi == (if data.aqi.Some? then data.aqi.value else 0)
    ensures data.pollutants.None? ==> r.dominantPollutant == "N/A" && forall i :: 0 <= i < |r.pollutants| ==> r.pollutants[i] == 0.0
    ensures data.pollutants.Some? ==> r.dominantPollutant == DominantPollutant(data.pollutants)
    ensures |r.pollutants| == |PollutantKeys|
    ensures data.pollutants.Some? ==> forall i :: 0 <= i < |r.pollutants| ==>
      r.pollutants[i] == Reading(data.pollutants.value, PollutantKeys[i])
    ensures data.weather.None? ==> r.weather == Weather(20.0, 50.0, 5.0, 1013.0)
    ensures r.weather.temperature == WeatherValue(data.weather, "temperature", 20.0)
    ensures r.weather.humidity == WeatherValue(data.weather, "humidity", 50.0)
    ensures r.weather.wind == WeatherValue(data.weather, "wind", 5.0)
    ensures r.weather.pressure == WeatherValue(data.weather, "pressure", 1013.0)
    ensures r.lastUpdated == now
  {
    var p := data.pollutants.GetOr(map[]);
    City(
      PlaceOf(c, index),
      if data.aqi.Some? && data.aqi.value != 0 then data.aqi.value else 0,
      DominantPollutant(Some(p)),
      now,
      Readings(p),
      Weather(
        WeatherValue(data.weather, "temperature", 20.0),
        WeatherValue(data.weather, "humidity", 50.0),
        WeatherValue(data.weather, "wind", 5.0),
        WeatherValue(data.weather, "pressure", 1013.0)))
  }

  /** The panel lists at most this many cities of the country. */
  const MaxCities: nat := 50

  /** The fetched list as the panel builds it: the first fifty cities of the target country,
      each combined with the air-quality response `fetch` gives for its name. */
  function PanelCities(cities: seq<ApiCity>, target: string, fetch: string -> AirQuality, now: int): (r: seq<City>)
    ensures |r| <= MaxCities
    ensures |r| == |FirstInCountry(cities, target, MaxCities)|
    ensures |CountryFilter(cities, target)| >= MaxCities ==> |r| == MaxCities
    ensures forall i :: 0 <= i < |r| ==>
      var c := FirstInCountry(cities, target, MaxCities)[i];
      c in cities && InCountry(c, target) && r[i] == MapCity(c, i, fetch(c.city), now)
    ensures forall i, j :: 0 <= i < j < |r| ==> r[i].place.id != r[j].place.id
  {
    var selected := FirstInCountry(cities, target, MaxCities);
    CountryFilterKeeps(cities, target);
    forall i, j | 0 <= i < j < |selected| ensures PlaceOf(selected[i], i).id != PlaceOf(selected[j], j).id {
      PlaceIdsDistinct(selected[i], i, selected[j], j);
    }
    seq(|selected|, i requires 0 <= i < |selected| => MapCity(selected[i], i, fetch(selected[i].city), now))
  }

  // ---------------------------------------------------------------- search filter

  /** The lower-cased query occurs in the lower-cased city, state or station. */
  predicate MatchesSearch(c: City, query: string) {
    Contains(Lower(c.place.city), Lower(query)) ||
    Contains(Lower(c.place.state), Lower(query)) ||
    Contains(Lower(c.place.station), Lower(query))
  }

  function MatchesSearchOf(query: string): City -> bool {
    (c: City) => MatchesSearch(c, query)
  }

  function SearchFilter(cities: seq<City>, query: string): (r: seq<City>)
    ensures |r| <= |cities|
  {
    if query != "" then Filter(cities, MatchesSearchOf(query)) else cities
  }

  /** An empty query keeps every city; otherwise exactly the matching cities stay, in order. */
  lemma SearchFilterKeeps(cities: seq<City>, query: string)
    ensures query == "" ==> SearchFilter(cities, query) == cities
    ensures forall i :: 0 <= i < |SearchFilter(cities, query)| ==>
      SearchFilter(cities, query)[i] in cities && MatchesSearch(SearchFilter(cities, query)[i], query)
    ensures forall i :: 0 <= i < |cities| && MatchesSearch(cities[i], query) ==>
      cities[i] in SearchFilter(cities, query)
    ensures Subsequence(SearchFilter(cities, query), cities)
  {
    FilterMembers(cities, MatchesSearchOf(query));
    FilterSubsequence(cities, MatchesSearchOf(query));
    if query == "" {
      forall i | 0 <= i < |cities| ensures MatchesSearch(cities[i], query) {
        ContainsEmpty(Lower(cities[i].place.city));
      }
      SubsequenceRefl(cities);
    }
  }

  /** The search filter one city at a time. */
  lemma SearchFilterIn(cities: seq<City>, query: string, c: City)
    ensures c in SearchFilter(cities, query) <==> c in cities && (query == "" || MatchesSearch(c, query))
  {
    FilterIn(cities, MatchesSearchOf(query), c);
  }

  // ---------------------------------------------------------------- AQI filter

  /** The values of the AQI filter select, in category order. */
  const BandFilters: seq<string> := [
    "good", "moderate", "unhealthy-sensitive", "unhealthy", "very-unhealthy", "hazardous"
  ]

  /** The condition of each `case` of the AQI-filter switch. */
  predicate InFilterBand(filter: string, aqi: int) {
    match filter
    case "good" => aqi <= 50
    case "moderate" => aqi > 50 && aqi <= 100
    case "unhealthy-sensitive" => aqi > 100 && aqi <= 150
    case "unhealthy" => aqi > 150 && aqi <= 200
    case "very-unhealthy" => aqi > 200 && aqi <= 300
    case "hazardous" => aqi > 300
    case _ => true
  }

  function InFilterBandOf(filter: string): City -> bool {
    (c: City) => InFilterBand(filter, c.aqi)
  }

  /** `'all'` skips the switch; a value no `case` names falls through it unchanged. */
  function AqiFilter(cities: seq<City>, filter: string): (r: seq<City>)
    ensures |r| <= |cities|
  {
    if filter != "all" && filter in BandFilters then Filter(cities, InFilterBandOf(filter))
    else cities
  }

  /** The six filters partition the AQI line into the EPA categories: each AQI passes
      exactly the filter of its own category, whose label the panel shows for it. */
  lemma FilterBandIsCategory(i: int, aqi: int)
    requires 0 <= i < |BandFilters|
    ensures InFilterBand(BandFilters[i], aqi) <==> i == Severity(aqi)
    ensures InFilterBand(BandFilters[i], aqi) ==> AqiLevel(aqi) == Labels[i]
  {
  }

  /** Two different filters never both keep a city. */
  lemma FiltersDisjoint(i: int, j: int, aqi: int)
    requires 0 <= i < |BandFilters| && 0 <= j < |BandFilters|
    requires InFilterBand(BandFilters[i], aqi) && InFilterBand(BandFilters[j], aqi)
    ensures i == j
  {
    FilterBandIsCategory(i, aqi);
    FilterBandIsCategory(j, aqi);
  }

  /** `'all'` and unrecognised values keep every city; a band filter keeps exactly the
      cities of its category, in order. */
  lemma AqiFilterKeeps(cities: seq<City>, filter: string)
    ensures filter !in BandFilters ==> AqiFilter(cities, filter) == cities
    ensures forall i :: 0 <= i < |AqiFilter(cities, filter)| ==>
      AqiFilter(cities, filter)[i] in cities && InFilterBand(filter, AqiFilter(cities, filter)[i].aqi)
    ensures forall i :: 0 <= i < |cities| && InFilterBand(filter, cities[i].aqi) ==>
      cities[i] in AqiFilter(cities, filter)
    ensures Subsequence(AqiFilter(cities, filter), cities)
  {
    FilterMembers(cities, InFilterBandOf(filter));
    FilterSubsequence(cities, InFilterBandOf(filter));
    if filter !in BandFilters || filter == "all" {
      SubsequenceRefl(cities);
    }
  }

  // ---------------------------------------------------------------- sort

  datatype SortField = ByCity | ByAqi | ByDominantPollutant | ByLastUpdated
  datatype SortDirection = Asc | Desc

  /** The ascending comparison for a field: text fields by `localeCompare` (code-point order
      stands in for it), numbers by difference. */
  function Comparison(field: SortField, a: City, b: City): int {
    match field
    case ByCity => Compare(a.place.city, b.place.city)
    case ByAqi => a.aqi - b.aqi
    case ByDominantPollutant => Compare(a.dominantPollutant, b.dominantPollutant)
    case ByLastUpdated => a.lastUpdated - b.lastUpdated
  }

  /** The comparator passed to `sort`: the comparison, negated for `'desc'`. */
  function Comparator(field: SortField, dir: SortDirection): (City, City) -> int {
    (a, b) => if dir == Asc then Comparison(field, a, b) else -Comparison(field, a, b)
  }

  /** The comparison is antisymmetric and transitive for every field. */
  lemma ComparisonOrder(field: SortField, a: City, b: City, c: City)
    ensures Comparison(field, a, b) == -Comparison(field, b, a)
    ensures Comparison(field, a, b) <= 0 && Comparison(field, b, c) <= 0 ==> Comparison(field, a, c) <= 0
  {
    match field
    case ByCity =>
      CompareAntisymmetric(a.place.city, b.place.city);
      if Comparison(field, a, b) <= 0 && Comparison(field, b, c) <= 0 {
        CompareTransitive(a.place.city, b.place.city, c.place.city);
      }
    case ByDominantPollutant =>
      CompareAntisymmetric(a.dominantPollutant, b.dominantPollutant);
      if Comparison(field, a, b) <= 0 && Comparison(field, b, c) <= 0 {
        CompareTransitive(a.dominantPollutant, b.dominantPollutant, c.dominantPollutant);
      }
    case ByAqi =>
    case ByLastUpdated =>
  }

  /** Every comparator the header can select is a consistent comparator. */
  lemma ComparatorConsistent(field: SortField, dir: SortDirection)
    ensures Consistent(Comparator(field, dir))
  {
    var cmp := Comparator(field, dir);
    forall a, b ensures cmp(a, b) <= 0 || cmp(b, a) <= 0 {
      ComparisonOrder(field, a, b, a);
    }
    forall a, b, c | cmp(a, b) <= 0 && cmp(b, c) <= 0 ensures cmp(a, c) <= 0 {
      ComparisonOrder(field, a, b, c);
      ComparisonOrder(field, c, b, a);
      ComparisonOrder(field, a, c, a);
    }
  }

  /** The whole panel pipeline: search filter, then AQI filter, then stable sort. */
  function FilterAndSort(cities: seq<City>, query: string, filter: string, field: SortField, dir: SortDirection): seq<City> {
    SortBy(AqiFilter(SearchFilter(cities, query), filter), Comparator(field, dir))
  }

  /** The AQI filter one city at a time: `'all'` and unrecognised values pass everything. */
  lemma AqiFilterIn(cities: seq<City>, filter: string, c: City)
    ensures c in AqiFilter(cities, filter) <==> c in cities && InFilterBand(filter, c.aqi)
  {
    FilterIn(cities, InFilterBandOf(filter), c);
  }

  /** The pipeline never adds or alters a city, and never repeats one more often than the
      input holds it. */
  lemma FilterAndSortSubset(cities: seq<City>, query: string, filter: string, field: SortField, dir: SortDirection)
    ensures multiset(FilterAndSort(cities, query, filter, field, dir)) <= multiset(cities)
  {
    var searched := SearchFilter(cities, query);
    FilterMembers(cities, MatchesSearchOf(query));
    FilterMembers(searched, InFilterBandOf(filter));
  }

  /** A city is shown exactly when it passes the search and the AQI filter. */
  lemma FilterAndSortMembers(cities: seq<City>, query: string, filter: string, field: SortField, dir: SortDirection, c: City)
    ensures c in FilterAndSort(cities, query, filter, field, dir) <==>
      c in cities && (query == "" || MatchesSearch(c, query)) && InFilterBand(filter, c.aqi)
  {
    var searched := SearchFilter(cities, query);
    var kept := AqiFilter(searched, filter);
    SearchFilterIn(cities, query, c);
    AqiFilterIn(searched, filter, c);
    assert c in FilterAndSort(cities, query, filter, field, dir) <==> c in multiset(kept);
  }

  /** The shown list is ordered by the field: ascending for `'asc'`, descending for `'desc'`. */
  lemma FilterAndSortOrdered(cities: seq<City>, query: string, filter: string, field: SortField, dir: SortDirection)
    ensures forall i, j :: 0 <= i < j < |FilterAndSort(cities, query, filter, field, dir)| ==>
      var r := FilterAndSort(cities, query, filter, field, dir);
      if dir == Asc then Comparison(field, r[i], r[j]) <= 0 else Comparison(field, r[i], r[j]) >= 0
  {
    var kept := AqiFilter(SearchFilter(cities, query), filter);
    var r := FilterAndSort(cities, query, filter, field, dir);
    ComparatorConsistent(field, dir);
    SortBySorted(kept, Comparator(field, dir));
    forall i, j | 0 <= i < j < |r|
      ensures if dir == Asc then Comparison(field, r[i], r[j]) <= 0 else Comparison(field, r[i], r[j]) >= 0
    {
      assert Comparator(field, dir)(r[i], r[j]) <= 0;
    }
  }

  /** The toggle: the current field flips direction, another field starts descending. */
  function NextSort(field: SortField, dir: SortDirection, clicked: SortField): (r: (SortField, SortDirection))
    ensures r.0 == clicked
    ensures clicked == field ==> r.1 != dir
    ensures clicked != field ==> r.1 == Desc
  {
    if field == clicked then (field, if dir == Asc then Desc else Asc)
    else (clicked, Desc)
  }

  /** Clicking the same header twice restores the direction; clicking a new header twice
      ends ascending. */
  lemma NextSortTwice(field: SortField, dir: SortDirection, clicked: SortField)
    ensures var s := NextSort(field, dir, clicked);
      NextSort(s.0, s.1, clicked) == (clicked, if clicked == field then dir else Asc)
  {
  }

  /** The panel's component state. */
  class Panel {
    var cities: seq<City>
    var filteredCities: seq<City>
    var searchQuery: string
    var sortField: SortField
    var sortDirection: SortDirection
    var aqiFilter: string

    /** The initial state: no cities, empty query, sorted by AQI descending, filter `'all'`. */
    constructor()
      ensures cities == [] && filteredCities == []
      ensures searchQuery == "" && aqiFilter == "all"
      ensures sortField == ByAqi && sortDirection == Desc
    {
      cities := [];
      filteredCities := [];
      searchQuery := "";
      sortField := ByAqi;
      sortDirection := Desc;
      aqiFilter := "all";
    }

    /** `filterAndSortCities`: recomputes the shown list from the current state. */
    method FilterAndSortCities()
      modifies this`filteredCities
      ensures filteredCities == FilterAndSort(cities, searchQuery, aqiFilter, sortField, sortDirection)
    {
      var filtered := cities;
      if searchQuery != "" {
        filtered := Filter(filtered, MatchesSearchOf(searchQuery));
      }
      if aqiFilter != "all" {
        if aqiFilter in BandFilters {
          filtered := Filter(filtered, InFilterBandOf(aqiFilter));
        }
      }
      filtered := SortBy(filtered, Comparator(sortField, sortDirection));
      filteredCities := filtered;
    }

    /** `handleSort(field)`. */
    method HandleSort(field: SortField)
      modifies this`sortField, this`sortDirection
      ensures (sortField, sortDirection) == NextSort(old(sortField), old(sortDirection), field)
    {
      if sortField == field {
        sortDirection := if sortDirection == Asc then Desc else Asc;
      } else {
        sortField := field;
        sortDirection := Desc;
      }
    }
  }
}
