/** The city feed shared by the city panels and the interactive map
    (Nasa-app/src/app/dashboard/components/CityPanels.tsx and InteractiveMap.tsx define the
    same helpers twice): the country filter over the `/api/cities` list, the fallbacks used
    when a listed city is turned into a displayed one, the dominant-pollutant choice and the
    country-name lookup. */
module CityFeed {
  import opened Wrappers
  import opened Seqs

  /** One entry of the `/api/cities` response; a field the response leaves out is `None`. */
  datatype ApiCity = ApiCity(
    city: string,
    state: Option<string>,
    country: Option<string>,
    station: Option<string>,
    lat: Option<real>,
    lng: Option<real>)

  /** JavaScript's `s || fallback` on an optional string: missing and `""` are falsy. */
  function OrString(s: Option<string>, fallback: string): (r: string)
    ensures s.Some? && s.value != "" ==> r == s.value
    ensures s.None? || s.value == "" ==> r == fallback
  {
    if s.Some? && s.value != "" then s.value else fallback
  }

  /** JavaScript's `x || fallback` on an optional number: missing and `0` are falsy. */
  function OrNumber(x: Option<real>, fallback: real): (r: real)
    ensures x.Some? && x.value != 0.0 ==> r == x.value
    ensures x.None? || x.value == 0.0 ==> r == fallback
  {
    if x.Some? && x.value != 0.0 then x.value else fallback
  }

  /** The country filter's test: for the US, a city listed under `'US'` or with no country;
      for any other target, an exact match. */
  predicate InCountry(c: ApiCity, target: string) {
    if target == "US" then c.country == Some("US") || c.country == None || c.country == Some("")
    else c.country == Some(target)
  }

  function InCountryOf(target: string): ApiCity -> bool {
    c => InCountry(c, target)
  }

  function CountryFilter(cities: seq<ApiCity>, target: string): (r: seq<ApiCity>)
    ensures |r| <= |cities|
  {
    Filter(cities, InCountryOf(target))
  }

  /** The filter keeps exactly the cities of the target country, in their listed order. */
  lemma CountryFilterKeeps(cities: seq<ApiCity>, target: string)
    ensures forall i :: 0 <= i < |CountryFilter(cities, target)| ==>
      CountryFilter(cities, target)[i] in cities && InCountry(CountryFilter(cities, target)[i], target)
    ensures forall i :: 0 <= i < |cities| && InCountry(cities[i], target) ==>
      cities[i] in CountryFilter(cities, target)
    ensures Subsequence(CountryFilter(cities, target), cities)
  {
    FilterMembers(cities, InCountryOf(target));
    FilterSubsequence(cities, InCountryOf(target));
  }

  /** For the US target, a city with no country is kept; for another target it never is. */
  lemma MissingCountryOnlyForUs(c: ApiCity, target: string)
    requires c.country == None
    ensures CountryFilter([c], target) == (if target == "US" then [c] else [])
  {
    FilterSingleton(c, InCountryOf(target));
  }

  /** At most `n` cities of the target country: the first `n` in listed order. */
  function FirstInCountry(cities: seq<ApiCity>, target: string, n: nat): (r: seq<ApiCity>)
    ensures |r| <= n
    ensures Subsequence(r, cities)
    ensures forall i :: 0 <= i < |r| ==> InCountry(r[i], target)
    ensures |CountryFilter(cities, target)| >= n ==> |r| == n
    ensures |r| == if |CountryFilter(cities, target)| < n then |CountryFilter(cities, target)| else n
    ensures forall i :: 0 <= i < |r| ==> r[i] == CountryFilter(cities, target)[i]
  {
    CountryFilterKeeps(cities, target);
    TakeSubsequence(CountryFilter(cities, target), cities, n);
    Take(CountryFilter(cities, target), n)
  }

  /** Decimal notation of a natural number, as a template literal prints it. */
  function NatToString(n: nat): (r: string)
    ensures r != []
    ensures forall i :: 0 <= i < |r| ==> '0' <= r[i] <= '9'
    ensures n >= 10 ==> |r| >= 2
  {
    if n < 10 then [Digit(n)] else NatToString(n / 10) + [Digit(n % 10)]
  }

  function Digit(d: nat): (c: char)
    requires d < 10
    ensures '0' <= c <= '9'
    ensures c as int - '0' as int == d
  {
    (('0' as int) + d) as char
  }

  /** Different indices print differently. */
  lemma {:induction false} NatToStringInjective(a: nat, b: nat)
    requires NatToString(a) == NatToString(b)
    ensures a == b
  {
    var s := NatToString(a);
    if a < 10 && b < 10 {
      assert Digit(a) == s[0] == Digit(b);
    } else if a >= 10 && b >= 10 {
      assert s[|s| - 1] == Digit(a % 10) && s[|s| - 1] == Digit(b % 10);
      assert NatToString(a / 10) == s[..|s| - 1] == NatToString(b / 10);
      NatToStringInjective(a / 10, b / 10);
    }
  }

  /** Which displayed city this is, with the fallbacks applied. */
  datatype Place = Place(
    id: string,
    city: string,
    state: string,
    country: string,
    station: string)

  /** The identity fields of a mapped city: `city-${index}` as id, and the listed state,
      country and station, each replaced by its fallback when missing. */
  function PlaceOf(c: ApiCity, index: nat): (r: Place)
    ensures r.id == "city-" + NatToString(index)
    ensures r.city == c.city
    ensures c.state == None ==> r.state == "Unknown"
    ensures c.country == None ==> r.country == "US"
    ensures c.station == None ==> r.station == c.city + " Monitoring Station"
    ensures c.state.Some? && c.state.value != "" ==> r.state == c.state.value
    ensures c.country.Some? && c.country.value != "" ==> r.country == c.country.value
    ensures c.station.Some? && c.station.value != "" ==> r.station == c.station.value
    ensures c.state == Some("") ==> r.state == "Unknown"
    ensures c.country == Some("") ==> r.country == "US"
    ensures c.station == Some("") ==> r.station == c.city + " Monitoring Station"
  {
    Place(
      "city-" + NatToString(index),
      c.city,
      OrString(c.state, "Unknown"),
      OrString(c.country, "US"),
      OrString(c.station, c.city + " Monitoring Station"))
  }

  /** Cities mapped at different positions get different ids. */
  lemma PlaceIdsDistinct(c: ApiCity, i: nat, d: ApiCity, j: nat)
    requires i != j
    ensures PlaceOf(c, i).id != PlaceOf(d, j).id
  {
    if PlaceOf(c, i).id == PlaceOf(d, j).id {
      var p := "city-";
      assert (p + NatToString(i))[|p|..] == NatToString(i);
      assert (p + NatToString(j))[|p|..] == NatToString(j);
      NatToStringInjective(i, j);
    }
  }

  /** Display names of the pollutants, in the order the dominant-pollutant choice scans. */
  const PollutantNames: seq<string> := ["PM2.5", "PM10", "NO2", "O3", "SO2", "CO"]

  /** The field of the `pollutants` object each name reads. */
  const PollutantKeys: seq<string> := ["pm25", "pm10", "no2", "o3", "so2", "co"]

  /** `pollutants.<key> || 0`: a missing reading counts as zero. */
  function Reading(pollutants: map<string, real>, key: string): (r: real)
    ensures key !in pollutants ==> r == 0.0
    ensures key in pollutants ==> r == pollutants[key]
  {
    if key in pollutants && pollutants[key] != 0.0 then pollutants[key] else 0.0
  }

  /** The six readings, in the order of `PollutantNames`. */
  function Readings(pollutants: map<string, real>): (r: seq<real>)
    ensures |r| == |PollutantKeys|
    ensures forall i :: 0 <= i < |r| ==> r[i] == Reading(pollutants, PollutantKeys[i])
  {
    seq(|PollutantKeys|, i requires 0 <= i < |PollutantKeys| => Reading(pollutants, PollutantKeys[i]))
  }

  /** `i` holds the largest value of `v`, and every earlier value is strictly smaller. */
  ghost predicate IsFirstMax(v: seq<real>, i: int) {
    0 <= i < |v| &&
    (forall j :: 0 <= j < |v| ==> v[j] <= v[i]) &&
    (forall j :: 0 <= j < i ==> v[j] < v[i])
  }

  /** `reduce((max, current) => current.value > max.value ? current : max)` over the
      indices from `i` on, with `best` the index kept so far: a later element replaces the
      kept one only when it is strictly larger, so the first maximum wins. */
  function ReduceMax(v: seq<real>, best: nat, i: nat): (r: nat)
    requires best < i <= |v|
    requires forall j :: 0 <= j < i ==> v[j] <= v[best]
    requires forall j :: 0 <= j < best ==> v[j] < v[best]
    ensures IsFirstMax(v, r)
    decreases |v| - i
  {
    if i == |v| then best
    else ReduceMax(v, if v[i] > v[best] then i else best, i + 1)
  }

  /** `getDominantPollutant`: the first pollutant with the largest reading, or `'N/A'`
      when there is no object or the largest reading is not positive. */
  function DominantPollutant(pollutants: Option<map<string, real>>): (r: string)
    ensures r == "N/A" || r in PollutantNames
    ensures pollutants.None? ==> r == "N/A"
    ensures pollutants.Some? ==>
      (r == "N/A" <==> forall j :: 0 <= j < |PollutantKeys| ==> Readings(pollutants.value)[j] <= 0.0)
    ensures pollutants.Some? ==> forall i :: 0 <= i < |PollutantNames| && PollutantNames[i] == r ==>
      Readings(pollutants.value)[i] > 0.0 && IsFirstMax(Readings(pollutants.value), i)
  {
    if pollutants.None? then "N/A"
    else
      var v := Readings(pollutants.value);
      var i := ReduceMax(v, 0, 1);
      if v[i] > 0.0 then PollutantNames[i] else "N/A"
  }

  /** The 34 country codes the lookup knows. */
  const CountryNames: map<string, string> := map[
    "US" := "United States", "CA" := "Canada", "GB" := "United Kingdom", "FR" := "France",
    "DE" := "Germany", "ES" := "Spain", "IT" := "Italy", "JP" := "Japan", "CN" := "China",
    "IN" := "India", "BR" := "Brazil", "AU" := "Australia", "MX" := "Mexico", "RU" := "Russia",
    "KR" := "South Korea", "NL" := "Netherlands", "SE" := "Sweden", "NO" := "Norway",
    "DK" := "Denmark", "FI" := "Finland", "CH" := "Switzerland", "AT" := "Austria",
    "BE" := "Belgium", "PL" := "Poland", "CZ" := "Czech Republic", "HU" := "Hungary",
    "PT" := "Portugal", "GR" := "Greece", "IE" := "Ireland", "MA" := "Morocco",
    "EG" := "Egypt", "ZA" := "South Africa", "NG" := "Nigeria", "KE" := "Kenya"
  ]

  /** `getCountryName`: the table's name for a known code, the code itself otherwise. */
  function CountryName(code: string): (r: string)
    ensures code in CountryNames ==> r == CountryNames[code]
    ensures code !in CountryNames ==> r == code
    ensures r != ""  || code == ""
  {
    if code in CountryNames && CountryNames[code] != "" then CountryNames[code] else code
  }

  /** Every code the table knows is a two-letter code with a non-empty name. */
  lemma CountryNamesTable()
    ensures forall code :: code in CountryNames ==> CountryNames[code] != "" && |code| == 2
  {
  }
}
