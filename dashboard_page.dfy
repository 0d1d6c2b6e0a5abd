/** The dashboard page (Nasa-app/src/app/dashboard/page.tsx): its level records and
    classifier, the country factor of the mock reading, and the three-way view switch. */
module DashboardPage {
  import opened Wrappers
  import opened AqiScale
  import CityPanels

  /** An entry of `AQI_LEVELS`: the range it covers, its colours and its label (`name`). */
  datatype AqiLevel = AqiLevel(min: int, max: int, color: string, textColor: string, name: string)

  /** The six records, in the order `getAQILevel` tries them. */
  const AqiLevels: seq<AqiLevel> := [
    AqiLevel(0, 50, "#22c55e", "text-green-500", "Good"),
    AqiLevel(51, 100, "#eab308", "text-yellow-500", "Moderate"),
    AqiLevel(101, 150, "#f97316", "text-orange-500", "Unhealthy for Sensitive"),
    AqiLevel(151, 200, "#ef4444", "text-red-500", "Unhealthy"),
    AqiLevel(201, 300, "#a855f7", "text-purple-500", "Very Unhealthy"),
    AqiLevel(301, 500, "#7f1d1d", "text-red-900", "Hazardous")
  ]

  /** `getAQILevel`: the record of the EPA category `aqi` falls in. */
  function GetAqiLevel(aqi: int): (r: AqiLevel)
    ensures r == AqiLevels[Severity(aqi)]
  {
    if aqi <= 50 then AqiLevels[0]
    else if aqi <= 100 then AqiLevels[1]
    else if aqi <= 150 then AqiLevels[2]
    else if aqi <= 200 then AqiLevels[3]
    else if aqi <= 300 then AqiLevels[4]
    else AqiLevels[5]
  }

  /** The ranges tile 0..500 with no gap and no overlap, and the six records differ. */
  lemma LevelsDistinct()
    ensures AqiLevels[0].min == 0 && AqiLevels[|AqiLevels| - 1].max == 500
    ensures forall i :: 0 < i < |AqiLevels| ==> AqiLevels[i].min == AqiLevels[i - 1].max + 1
    ensures forall i :: 0 <= i < |AqiLevels| ==> AqiLevels[i].min <= AqiLevels[i].max
    ensures forall i, j :: 0 <= i < j < |AqiLevels| ==> AqiLevels[i] != AqiLevels[j]
  {
  }

  /** On 0..500 the returned record's range contains the reading; above 500 the Hazardous
      record is returned although its range ends at 500, and below 0 the Good one although
      its range starts at 0. */
  lemma LevelContainsReading(aqi: int)
    ensures 0 <= aqi <= 500 ==> GetAqiLevel(aqi).min <= aqi <= GetAqiLevel(aqi).max
    ensures aqi > 500 ==> GetAqiLevel(aqi).name == "Hazardous" && aqi > GetAqiLevel(aqi).max
    ensures aqi < 0 ==> GetAqiLevel(aqi).name == "Good" && aqi < GetAqiLevel(aqi).min
  {
  }

  /** The page's labels are the city panel's, category by category. */
  lemma LevelAgreesWithPanels(aqi: int)
    ensures GetAqiLevel(aqi).name == CityPanels.AqiLevel(aqi)
  {
  }

  /** The country factors of the mock generator. */
  const CountryFactors: map<string, int> := map[
    "CN" := 120, "IN" := 150, "US" := 45, "CA" := 35, "GB" := 40,
    "FR" := 38, "DE" := 42, "JP" := 48, "AU" := 35, "BR" := 65,
    "MA" := 55, "EG" := 85, "Global" := 50
  ]

  /** `countryFactors[country] || 50`: the country's factor, 50 for an unknown country. */
  function BaseAqi(country: string): (r: int)
    ensures country in CountryFactors ==> r == CountryFactors[country]
    ensures country !in CountryFactors ==> r == 50
    ensures 35 <= r <= 150
  {
    if country in CountryFactors && CountryFactors[country] != 0 then CountryFactors[country] else 50
  }

  /** JavaScript's `Math.round`: half-way values round up. */
  function Round(x: real): (r: int)
    ensures x - 0.5 < r as real <= x + 0.5
  {
    (x + 0.5).Floor
  }

  /** The three mock values derived from the base AQI. */
  datatype MockReading = MockReading(aqi: int, pm25: int, pm10: int)

  /** `generateMockData`'s AQI and particle values, given the draw `rnd` of `Math.random()`:
      the base AQI moved by a variation in [-10, 10), rounded, and at least 1. */
  function MockData(country: string, rnd: real): (r: MockReading)
    requires 0.0 <= rnd < 1.0
    ensures BaseAqi(country) - 10 <= r.aqi <= BaseAqi(country) + 10
    ensures r.aqi >= 1 && r.pm25 >= 1 && r.pm10 >= 1
    ensures r.pm25 <= r.aqi <= r.pm10
  {
    var level := BaseAqi(country) as real + (rnd * 20.0 - 10.0);
    MockReading(
      Max1(Round(level)),
      Max1(Round(level * 0.8)),
      Max1(Round(level * 1.2)))
  }

  /** `Math.max(1, n)`. */
  function Max1(n: int): (r: int)
    ensures r >= 1 && r >= n
    ensures r == n || r == 1
  {
    if n < 1 then 1 else n
  }

  /** Which of the three views is open. */
  datatype ViewMode = Overview | CityDetailMode | ShopMode

  /** What the page's main area renders. */
  datatype Screen = OverviewScreen | ShopScreen | DetailScreen(city: CityPanels.City) | Blank

  /** The render switch: the overview, the shop, or the detail of the selected city (nothing
      in detail mode when no city is selected). */
  function ScreenOf(mode: ViewMode, selected: Option<CityPanels.City>): Screen {
    match mode
    case Overview => OverviewScreen
    case ShopMode => ShopScreen
    case CityDetailMode => if selected.Some? then DetailScreen(selected.value) else Blank
  }

  /** In every state the handlers can reach, the main area is never blank. */
  lemma ReachableNeverBlank(mode: ViewMode, selected: Option<CityPanels.City>)
    requires mode == CityDetailMode ==> selected.Some?
    ensures ScreenOf(mode, selected) != Blank
    ensures mode == CityDetailMode ==> ScreenOf(mode, selected) == DetailScreen(selected.value)
  {
  }

  /** The page's view state. */
  class Dashboard {
    var selectedCity: Option<CityPanels.City>
    var viewMode: ViewMode

    /** Detail mode always has a city to show. */
    ghost predicate Valid()
      reads this
    {
      viewMode == CityDetailMode ==> selectedCity.Some?
    }

    function Screen(): Screen
      reads this
    {
      ScreenOf(viewMode, selectedCity)
    }

    /** The initial state: the overview, nothing selected. */
    constructor()
      ensures selectedCity == None && viewMode == Overview
      ensures Valid()
    {
      selectedCity := None;
      viewMode := Overview;
    }

    /** `handleCitySelect`: remember the city and open its detail view. */
    method HandleCitySelect(city: CityPanels.City)
      modifies this
      ensures selectedCity == Some(city) && viewMode == CityDetailMode
      ensures Valid() && Screen() == DetailScreen(city)
    {
      selectedCity := Some(city);
      viewMode := CityDetailMode;
    }

    /** `handleBackToOverview`: forget the city and return to the overview. */
    method HandleBackToOverview()
      modifies this
      ensures selectedCity == None && viewMode == Overview
      ensures Valid() && Screen() == OverviewScreen
    {
      selectedCity := None;
      viewMode := Overview;
    }

    /** `handleGoToShop`: open the shop; the selected city is kept. */
    method HandleGoToShop()
      modifies this`viewMode
      ensures viewMode == ShopMode && selectedCity == old(selectedCity)
      ensures Valid() && Screen() == ShopScreen
    {
      viewMode := ShopMode;
    }
  }
}
