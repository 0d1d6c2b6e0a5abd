# AQI dashboard core, modelled in Dafny

This project models the core of an air-quality dashboard. The frontend is a Next.js app under `Nasa-app/`. The backend is a Python service under `backend/`.

The frontend part covers:

- the dashboard page: its six AQI level records, the mock reading and the overview / city-detail / shop view switch;
- the city panel: the classifiers, the mapping of a fetched city, and the search, AQI-band filter and sort pipeline with its sort-header toggle;
- the interactive map: its classifiers and the four plotted cities;
- the city detail view: the classifiers and the per-audience health commentary and recommendation tables;
- the product shop: tiers, badges, category buttons, the product filter and the ranking;
- three smaller cards: the health recommendations card, the main AQI card and the landing-page globe.

The backend part covers:

- the in-memory branch of the cache manager: station readings with a 48-hour history, and the city → station mapping;
- the WAQI response parser: `parse_station_data`, `_extract_value` and `_parse_forecast`.

Every classifier is written as the source's own `<=` chain. It is proved equal to a table indexed by one reference partition, `AqiScale.Severity`. `Severity` is the EPA category of a reading: 0 for up to 50, then 100, 150, 200 and 300 as upper ends, and 5 above 300. Classifiers with fewer bands use `AqiScale.Capped`. Relating every table to one partition is what lets the model compare the dashboard's several classifiers with each other.

Notes on the model:

- **Sorting.** JavaScript's `Array.prototype.sort` and Python's `sorted` are both stable. They are modelled by one stable insertion sort, `StableSort.SortBy`, which is proved sorted, a permutation and stable.
- **Text.** `localeCompare` and Python's `str` ordering are modelled as code-point order. `toLowerCase`, `lower` and `title` are modelled on ASCII letters only.
- **The clock.** Wall-clock time is a parameter `now`, in seconds in the backend and in milliseconds in the frontend.
- **The shared cache dictionary.** The backend's `memory_cache` is one dictionary. Station ids and the key `'city_mappings'` live side by side in it, and the model keeps that shape. As a result it can state what happens when a station is called `city_mappings`:
  - `CacheManager.CollisionHidesCities`: cached before any mapping, the station's history makes the city listing fail;
  - `CacheManager.CollisionAddsCity`: cached after a mapping, its reading shows up as a city named "Latest".
- **Conversions.** The parser's string conversions (`float(s)` and pydantic's lax integer parse) are a parameter of type `JsonTree.Coercions`.

## Model

| member | source | states |
|---|---|---|
| AqiScale.Severity | Nasa-app/src/app/dashboard/page.tsx:26-33 | The category index is 0..5, and each index holds exactly on its AQI range (both directions). |
| AqiScale.SeverityMonotone | Nasa-app/src/app/dashboard/page.tsx:26-33 | A higher AQI never falls into a lower category. |
| AqiScale.Capped | Nasa-app/src/app/components/AQIGlobe.tsx:117-122 | The index of a classifier with fewer bands: the category when it is below the cap, the cap otherwise. |
| DashboardPage.GetAqiLevel | Nasa-app/src/app/dashboard/page.tsx:26-33 | The record returned is the one of the reading's EPA category. |
| DashboardPage.LevelsDistinct | Nasa-app/src/app/dashboard/page.tsx:17-24 | The six ranges tile 0..500 without gap or overlap, and the records are pairwise distinct. |
| DashboardPage.LevelContainsReading | Nasa-app/src/app/dashboard/page.tsx:17-33 | On 0..500 the returned range contains the reading. Above 500 the Hazardous record is returned although its range ends at 500; below 0 the Good one is returned. |
| DashboardPage.LevelAgreesWithPanels | Nasa-app/src/app/dashboard/page.tsx:17-33 | The page's label for every AQI is the city panel's label. |
| DashboardPage.BaseAqi | Nasa-app/src/app/dashboard/page.tsx:37-43 | Known countries get their factor, unknown ones 50; the result is always within 35..150. |
| DashboardPage.Round | Nasa-app/src/app/dashboard/page.tsx:47-49 | `Math.round` lands within half a unit of its argument, with halves rounding up. |
| DashboardPage.Max1 | Nasa-app/src/app/dashboard/page.tsx:47-49 | `Math.max(1, n)` is at least 1 and at least n, and is one of the two. |
| DashboardPage.MockData | Nasa-app/src/app/dashboard/page.tsx:36-49 | The mock AQI lies within 10 of the country's base, all three values are at least 1, and pm25 ≤ aqi ≤ pm10. |
| DashboardPage.ReachableNeverBlank | Nasa-app/src/app/dashboard/page.tsx:123-135 | In every state the handlers keep (detail mode has a city), the main area shows a view, in detail mode the selected city. |
| DashboardPage.Dashboard.constructor | Nasa-app/src/app/dashboard/page.tsx:88-89 | Starts on the overview with no city selected. |
| DashboardPage.Dashboard.HandleCitySelect | Nasa-app/src/app/dashboard/page.tsx:123-126 | Selects the city, opens detail mode and shows that city. |
| DashboardPage.Dashboard.HandleBackToOverview | Nasa-app/src/app/dashboard/page.tsx:128-131 | Clears the selection and shows the overview. |
| DashboardPage.Dashboard.HandleGoToShop | Nasa-app/src/app/dashboard/page.tsx:133-135 | Shows the shop and keeps the selected city. |
| CityFeed.OrString | Nasa-app/src/app/dashboard/components/CityPanels.tsx:187-189 | The string fallback: the string when present and non-empty, the fallback otherwise. |
| CityFeed.OrNumber | Nasa-app/src/app/dashboard/components/InteractiveMap.tsx:144-145 | The number fallback: the number when present and non-zero, the fallback otherwise. |
| CityFeed.CountryFilter | Nasa-app/src/app/dashboard/components/CityPanels.tsx:159-161 | The filtered list is never longer than the fetched list. |
| CityFeed.CountryFilterKeeps | Nasa-app/src/app/dashboard/components/CityPanels.tsx:159-161 | Exactly the cities of the target country are kept, in their listed order. |
| CityFeed.MissingCountryOnlyForUs | Nasa-app/src/app/dashboard/components/CityPanels.tsx:159-161 | A city without a country is kept for the US target and dropped for every other target. |
| CityFeed.FirstInCountry | Nasa-app/src/app/dashboard/components/InteractiveMap.tsx:113-121 | `slice(0, n)` of the filtered list: exactly its first min(n, length) cities, so at most n, all of the country, in listed order, and exactly n when the country has that many. |
| CityFeed.NatToString | Nasa-app/src/app/dashboard/components/CityPanels.tsx:185 | The index printed in decimal: non-empty and digits only. |
| CityFeed.Digit | Nasa-app/src/app/dashboard/components/CityPanels.tsx:185 | A digit character whose value is the digit. |
| CityFeed.NatToStringInjective | Nasa-app/src/app/dashboard/components/CityPanels.tsx:185 | Different indices print differently. |
| CityFeed.PlaceOf | Nasa-app/src/app/dashboard/components/CityPanels.tsx:185-189 | The id is `city-<index>`. State, country and station are the listed values or, when those are missing or empty strings, "Unknown", "US" and "<city> Monitoring Station". |
| CityFeed.PlaceIdsDistinct | Nasa-app/src/app/dashboard/components/CityPanels.tsx:167-185 | Cities mapped at different positions get different ids. |
| CityFeed.Reading | Nasa-app/src/app/dashboard/components/CityPanels.tsx:221-226 | A missing pollutant reading counts as 0; a present one is its value. |
| CityFeed.Readings | Nasa-app/src/app/dashboard/components/CityPanels.tsx:220-227 | The six readings, in scan order. |
| CityFeed.ReduceMax | Nasa-app/src/app/dashboard/components/CityPanels.tsx:229-231 | The reduce ends on the first index holding the maximum. |
| CityFeed.DominantPollutant | Nasa-app/src/app/dashboard/components/CityPanels.tsx:217-234 | The result is 'N/A' exactly when there is no object or no reading is positive. Otherwise it is the first pollutant with the largest reading. |
| CityFeed.CountryName | Nasa-app/src/app/dashboard/components/CityPanels.tsx:82-94 | A known code maps to its name, an unknown code to itself. |
| CityFeed.CountryNamesTable | Nasa-app/src/app/dashboard/components/CityPanels.tsx:83-92 | Every known code has two letters and a non-empty name. |
| CityPanels.AqiColor | Nasa-app/src/app/dashboard/components/CityPanels.tsx:49-56 | The panel's badge colour of the reading's EPA category. |
| CityPanels.AqiLevel | Nasa-app/src/app/dashboard/components/CityPanels.tsx:58-65 | The panel's label of the reading's EPA category. |
| CityPanels.LevelAgreesWithDetail | Nasa-app/src/app/dashboard/components/CityPanels.tsx:58-65 | The panel's label equals the detail view's label exactly outside the third category, where the wording is shortened. |
| CityPanels.PollutantIcon | Nasa-app/src/app/dashboard/components/CityPanels.tsx:67-77 | A known pollutant gets its icon, anything else the empty circle. |
| CityPanels.PollutantIconsDistinct | Nasa-app/src/app/dashboard/components/CityPanels.tsx:67-77 | The six pollutants get six different icons, none of them the fallback; 'N/A' gets the fallback. |
| CityPanels.WeatherValue | Nasa-app/src/app/dashboard/components/CityPanels.tsx:201-206 | A missing or zero weather value is replaced by its default. |
| CityPanels.MapCity | Nasa-app/src/app/dashboard/components/CityPanels.tsx:184-207 | The place comes from the listing and index, and the AQI defaults to 0. Without pollutants the city has 'N/A' and zero readings; with them, each of the six readings is the response's value for its key and the dominant pollutant is the largest. Each weather value is the response's value when present and non-zero, else 20 °C, 50 %, 5 and 1013. |
| CityPanels.PanelCities | Nasa-app/src/app/dashboard/components/CityPanels.tsx:159-207 | At most 50 cities: the first ones of the country, each mapped with its own response, with pairwise distinct ids. |
| CityPanels.SearchFilter | Nasa-app/src/app/dashboard/components/CityPanels.tsx:271-277 | The search never lengthens the list. |
| CityPanels.SearchFilterKeeps | Nasa-app/src/app/dashboard/components/CityPanels.tsx:271-277 | An empty query keeps the list as is. Otherwise exactly the cities whose lower-cased city, state or station contains the query stay, in order. |
| CityPanels.SearchFilterIn | Nasa-app/src/app/dashboard/components/CityPanels.tsx:271-277 | A city survives the search exactly when it is listed and the query is empty or matches. |
| CityPanels.AqiFilter | Nasa-app/src/app/dashboard/components/CityPanels.tsx:280-301 | The AQI filter never lengthens the list. |
| CityPanels.FilterBandIsCategory | Nasa-app/src/app/dashboard/components/CityPanels.tsx:280-301 | The i-th filter value passes exactly the AQIs of EPA category i, which the panel labels with its i-th label. |
| CityPanels.FiltersDisjoint | Nasa-app/src/app/dashboard/components/CityPanels.tsx:280-301 | No AQI passes two different band filters. |
| CityPanels.AqiFilterKeeps | Nasa-app/src/app/dashboard/components/CityPanels.tsx:280-301 | 'all' and unknown values keep everything. A band filter keeps exactly the cities of its band, in order. |
| CityPanels.AqiFilterIn | Nasa-app/src/app/dashboard/components/CityPanels.tsx:280-301 | A city survives the AQI filter exactly when it is listed and its AQI is in the band. |
| CityPanels.ComparisonOrder | Nasa-app/src/app/dashboard/components/CityPanels.tsx:304-320 | The comparison on every sort field is antisymmetric and transitive. |
| CityPanels.ComparatorConsistent | Nasa-app/src/app/dashboard/components/CityPanels.tsx:304-323 | Every field and direction gives a total, transitive comparator. |
| CityPanels.FilterAndSortSubset | Nasa-app/src/app/dashboard/components/CityPanels.tsx:267-326 | The shown list is a sub-multiset of the cities. |
| CityPanels.FilterAndSortMembers | Nasa-app/src/app/dashboard/components/CityPanels.tsx:267-326 | A city is shown exactly when it passes both the search and the AQI filter. |
| CityPanels.FilterAndSortOrdered | Nasa-app/src/app/dashboard/components/CityPanels.tsx:304-323 | The shown list is ordered by the field, ascending or descending as selected. |
| CityPanels.NextSort | Nasa-app/src/app/dashboard/components/CityPanels.tsx:328-335 | The clicked field becomes the sort field. Clicking the current field flips the direction; clicking another field starts descending. |
| CityPanels.NextSortTwice | Nasa-app/src/app/dashboard/components/CityPanels.tsx:328-335 | Two clicks on the current field restore the direction; two clicks on a new field end ascending. |
| CityPanels.Panel.constructor | Nasa-app/src/app/dashboard/components/CityPanels.tsx:97-104 | The initial state: no cities, empty query, AQI descending, filter 'all'. |
| CityPanels.Panel.FilterAndSortCities | Nasa-app/src/app/dashboard/components/CityPanels.tsx:267-326 | The shown list becomes the filter-and-sort pipeline applied to the current state. |
| CityPanels.Panel.HandleSort | Nasa-app/src/app/dashboard/components/CityPanels.tsx:328-335 | The sort state moves by the toggle. |
| InteractiveMap.AqiColor | Nasa-app/src/app/dashboard/components/InteractiveMap.tsx:39-46 | The marker colour of the reading's EPA category. |
| InteractiveMap.AqiLevel | Nasa-app/src/app/dashboard/components/InteractiveMap.tsx:48-55 | The map's label of the reading's EPA category. |
| InteractiveMap.ColorMatchesLevel | Nasa-app/src/app/dashboard/components/InteractiveMap.tsx:39-55 | Colour and label name the same category (both directions), and the labels are the panel's. |
| InteractiveMap.Markers | Nasa-app/src/app/dashboard/components/InteractiveMap.tsx:113-145 | At most four markers, for the first cities of the country. Each carries its city's place and its coordinates when present and non-zero, 0 otherwise; the ids are pairwise distinct. |
| CityDetail.AqiColor | Nasa-app/src/app/dashboard/components/CityDetail.tsx:56-63 | The badge classes of the reading's EPA category. |
| CityDetail.AqiLevel | Nasa-app/src/app/dashboard/components/CityDetail.tsx:65-72 | The official EPA category name of the reading. |
| CityDetail.ColorMatchesLevel | Nasa-app/src/app/dashboard/components/CityDetail.tsx:56-72 | Colour and label name the same category, in both directions. |
| CityDetail.LevelKey | Nasa-app/src/app/dashboard/components/CityDetail.tsx:111-112 | The advice key of the reading's EPA category. |
| CityDetail.LevelKeyMatchesLevel | Nasa-app/src/app/dashboard/components/CityDetail.tsx:111-112 | Two readings share the advice key exactly when they share the label. |
| CityDetail.CommentariesComplete | Nasa-app/src/app/dashboard/components/CityDetail.tsx:76-109 | The commentary table has exactly the four audiences, each with a non-empty text per level. |
| CityDetail.RecommendationsComplete | Nasa-app/src/app/dashboard/components/CityDetail.tsx:119-152 | The recommendation table has exactly the four audiences, each with a non-empty text per level. |
| CityDetail.AdviceOnComplete | Nasa-app/src/app/dashboard/components/CityDetail.tsx:114 | On a complete table, a known audience gets its own text and an unknown one the general text. The result is never empty. |
| CityDetail.HealthCommentary | Nasa-app/src/app/dashboard/components/CityDetail.tsx:74-115 | A known audience gets its own commentary for the reading's category, any other audience the general one. The result is never empty. |
| CityDetail.HealthRecommendations | Nasa-app/src/app/dashboard/components/CityDetail.tsx:117-158 | A known audience gets its own recommendation for the reading's category, any other audience the general one. The result is never empty. |
| CityDetail.UnknownAudienceIsGeneral | Nasa-app/src/app/dashboard/components/CityDetail.tsx:114-157 | An unknown audience gets exactly the general audience's advice. |
| CityDetail.ShowsSpecialPrecautions | Nasa-app/src/app/dashboard/components/CityDetail.tsx:316 | The precautions block shows exactly from the third category up, that is, when the label is neither Good nor Moderate. |
| AirQualityShop.Rank | Nasa-app/src/app/dashboard/components/AirQualityShop.tsx:152 | The tier order is 0..2. |
| AirQualityShop.RecommendationLevel | Nasa-app/src/app/dashboard/components/AirQualityShop.tsx:107-121 | The tier for each threshold the use case names, tried in the order 150, 100, 80; Medium when none is named. |
| AirQualityShop.RecommendationMonotone | Nasa-app/src/app/dashboard/components/AirQualityShop.tsx:107-121 | A worse AQI never lowers a product's tier. |
| AirQualityShop.RecommendationBadge | Nasa-app/src/app/dashboard/components/AirQualityShop.tsx:123-132 | Each tier's badge text, never empty. |
| AirQualityShop.BadgesDistinct | Nasa-app/src/app/dashboard/components/AirQualityShop.tsx:123-132 | Two tiers share a badge exactly when they are equal. |
| AirQualityShop.FirstOccurrencesSpec | Nasa-app/src/app/dashboard/components/AirQualityShop.tsx:138 | De-duplication keeps the same values, each exactly once. |
| AirQualityShop.FirstOccurrencesOrder | Nasa-app/src/app/dashboard/components/AirQualityShop.tsx:138 | The de-duplicated values keep the order of their first appearance in the input. |
| AirQualityShop.Categories | Nasa-app/src/app/dashboard/components/AirQualityShop.tsx:138 | 'All' first, then every category of the catalogue exactly once, in the order the categories first appear in the catalogue. |
| AirQualityShop.ShopCategories | Nasa-app/src/app/dashboard/components/AirQualityShop.tsx:24-79 | For the catalogue, the buttons are All, Air Purifier, Mask, Monitor. |
| AirQualityShop.FilterProducts | Nasa-app/src/app/dashboard/components/AirQualityShop.tsx:140-145 | The filter never lengthens the catalogue. |
| AirQualityShop.FilterProductsKeeps | Nasa-app/src/app/dashboard/components/AirQualityShop.tsx:140-145 | Exactly the products matching category and query are kept, in order. 'All' with an empty query keeps the catalogue. |
| AirQualityShop.RankProductsGroups | Nasa-app/src/app/dashboard/components/AirQualityShop.tsx:148-154 | The ranking lists the high tier, then medium, then low, each group in catalogue order. |
| AirQualityShop.RankProductsSorted | Nasa-app/src/app/dashboard/components/AirQualityShop.tsx:148-154 | The ranking is a permutation of its input, in non-decreasing tier rank. |
| AirQualityShop.AdviceShown | Nasa-app/src/app/dashboard/components/AirQualityShop.tsx:316-327 | The four advice conditions are exclusive and exhaustive: exactly one paragraph shows, the one of the reading's band. |
| AirQualityShop.Shop.constructor | Nasa-app/src/app/dashboard/components/AirQualityShop.tsx:134-136 | The AQI defaults to 50; the category starts at 'All' and the query empty. |
| AirQualityShop.Shop.SelectCategory | Nasa-app/src/app/dashboard/components/AirQualityShop.tsx:135 | Sets the selected category. |
| AirQualityShop.Shop.SetSearchQuery | Nasa-app/src/app/dashboard/components/AirQualityShop.tsx:136 | Sets the search query. |
| AirQualityShop.Shop.SortedProducts | Nasa-app/src/app/dashboard/components/AirQualityShop.tsx:140-154 | The ranked filter of the catalogue, holding exactly the matching products. |
| HealthRecommendations.GetRecommendations | Nasa-app/src/app/dashboard/components/HealthRecommendations.tsx:13-67 | The band of the reading's EPA category, with every category from Unhealthy up sharing the last band. |
| HealthRecommendations.BandsWellFormed | Nasa-app/src/app/dashboard/components/HealthRecommendations.tsx:13-67 | The badge words run excellent, good, moderate, unhealthy, and no advice text is empty. |
| HealthRecommendations.LevelMonotone | Nasa-app/src/app/dashboard/components/HealthRecommendations.tsx:13-67 | A higher AQI never gets a milder badge word. |
| HealthRecommendations.MaskAbove100 | Nasa-app/src/app/dashboard/components/HealthRecommendations.tsx:129 | A mask is recommended exactly above 100, which is exactly when the detail view shows its precautions. |
| HealthRecommendations.Render | Nasa-app/src/app/dashboard/components/HealthRecommendations.tsx:69-142 | The card shows three advice cards. The mask notice appears exactly above 100, the health alert exactly above 200. |
| HealthRecommendations.AlertImpliesMask | Nasa-app/src/app/dashboard/components/HealthRecommendations.tsx:129-142 | The health alert never shows without the mask notice, and every advice card has text. |
| AqiMainCard.HealthMessage | Nasa-app/src/app/dashboard/components/AQIMainCard.tsx:32-44 | The message of the reading's EPA category, with the last two categories sharing the alert. |
| AqiMainCard.SameMessage | Nasa-app/src/app/dashboard/components/AQIMainCard.tsx:32-44 | Two readings share a message exactly when they share the capped category; every AQI above 200 gets the alert. |
| AqiMainCard.MessageMonotone | Nasa-app/src/app/dashboard/components/AQIMainCard.tsx:32-44 | A higher AQI never gets a milder message. |
| AqiMainCard.MessageFollowsLevel | Nasa-app/src/app/dashboard/components/AQIMainCard.tsx:32-44 | Readings with the same dashboard level get the same message; up to 200 the converse holds too. |
| AqiGlobe.AqiDescription | Nasa-app/src/app/components/AQIGlobe.tsx:117-122 | The description of the reading's category, with everything above 150 called hazardous. |
| AqiGlobe.AqiColor | Nasa-app/src/app/components/AQIGlobe.tsx:125-130 | The colour on the same four bands. |
| AqiGlobe.ColorMatchesDescription | Nasa-app/src/app/components/AQIGlobe.tsx:117-130 | Colour and description name the same band, in both directions. |
| AqiGlobe.PopupShowsDescription | Nasa-app/src/app/components/AQIGlobe.tsx:205-209 | The popup's four conditions show exactly one text, the description. |
| JsonTree.PyFloat | backend/waqi_client.py:229-234 | `float()` keeps integers and floats, and raises on containers and `None`. |
| Models.StrField | backend/models.py:45-49 | A `str` field validates exactly strings, to themselves. |
| Models.IntField | backend/models.py:48 | An `int` field keeps integers, rejects containers and `None`, accepts a float exactly when it is integral (giving that integer), turns booleans into 1 and 0, and converts strings with the string coercion. |
| Models.OptionalFloatField | backend/models.py:19-24 | An `Optional[float]` field keeps `None`, and otherwise validates exactly what `float()` converts. |
| WaqiClient.ExtractValue | backend/waqi_client.py:164-176 | The 'v' entry of a non-empty dictionary; `None` for a dictionary without 'v' and for anything else. |
| WaqiClient.ExtractReading | backend/waqi_client.py:164-176 | A reading `{"v": x}` gives back x. |
| WaqiClient.ParseDay | backend/waqi_client.py:216-246 | A dictionary item parses exactly when its avg, max and min are absent, null or convertible and its day, if present, is a string; non-dictionaries and failed conversions are skipped. A parsed day keeps the item's day (or "") and the converted avg, max and min (`None` when absent). |
| WaqiClient.ParseDays | backend/waqi_client.py:215-246 | A list never has more days than items. |
| WaqiClient.ParseDaysAppend | backend/waqi_client.py:215-246 | Parsing distributes over concatenation: items are parsed independently and keep their order. |
| WaqiClient.ParseDaysMembers | backend/waqi_client.py:215-246 | Every parsed day comes from an item that parses to it, and every item that parses contributes its day. |
| WaqiClient.CollectForecastKeys | backend/waqi_client.py:203-254 | A key is in the forecast exactly when it was scanned and its list has a parsed day; its entry is those days. |
| WaqiClient.ParseForecast | backend/waqi_client.py:178-261 | The loops compute the forecast specification, including failure on a truthy non-dictionary. |
| WaqiClient.ForecastShape | backend/waqi_client.py:178-261 | An empty argument, or a missing or empty 'daily', gives {}. Only the four keys appear, never with an empty list, and each holds the parsed days of its items. |
| WaqiClient.ParsePollutants | backend/waqi_client.py:122-130 | Validation succeeds exactly when all six readings convert, and each field holds the reading of its own key. |
| WaqiClient.ParseWeather | backend/waqi_client.py:133-138 | Validation succeeds exactly when t, h, w and p convert, and each field holds its reading. |
| WaqiClient.ParseDefaults | backend/waqi_client.py:114-158 | A response with none of the fields parses to "Unknown", AQI 0, empty strings, no readings and no forecast. |
| WaqiClient.ParsedFields | backend/waqi_client.py:114-158 | A parsed reading takes its city from the argument and every other field from the response key it reads. |
| WaqiClient.ParseFailures | backend/waqi_client.py:112-162 | Non-dictionaries, an AQI that fails validation and a truthy non-dictionary forecast all give `None`. |
| WaqiClient.ParseStationData | backend/waqi_client.py:101-162 | A parsed reading comes from a dictionary response and carries the city it was asked for. |
| WaqiClient.ParseSucceeds | backend/waqi_client.py:101-162 | Parsing succeeds exactly when the response is a dictionary, `city` and `time` (when present) are dictionaries with a string `name` and `iso`, `iaqi` (when present) is a dictionary whose ten readings all validate, the AQI validates as an integer, the dominant pollutant is a string, and the forecast is falsy or a dictionary. |
| CacheManager.DataOf | backend/cache_manager.py:188-190 | The readings of history entries, one per entry, in order. |
| CacheManager.CacheThenLatest | backend/cache_manager.py:104-121 | After caching, the station's latest reading is the one just cached. |
| CacheManager.PruneKeepsNewest | backend/cache_manager.py:111-121 | After append-then-prune, every entry is newer than the cutoff. The new entry is last, and the survivors keep their order. |
| CacheManager.CachePrunes | backend/cache_manager.py:104-121 | The station's history keeps only the last 48 hours, ends with the new entry, and is a subsequence of the old history plus the new entry. |
| CacheManager.CacheLeavesOthers | backend/cache_manager.py:104-121 | Caching changes no other key, and no city mapping unless the id is 'city_mappings'. |
| CacheManager.CachedInHistory | backend/cache_manager.py:104-192 | A reading just cached is in the station's history for any positive window. |
| CacheManager.NewestFirstConsistent | backend/cache_manager.py:192 | The newest-first order is a consistent comparator. |
| CacheManager.HistorySpec | backend/cache_manager.py:187-192 | The history is newest first and a permutation of the stored readings after the cutoff. Readings with equal time stamps keep their stored order. |
| CacheManager.HistoryEntriesRecent | backend/cache_manager.py:187-190 | Every history reading was stored for that station after the cutoff. |
| CacheManager.MappingRoundTrip | backend/cache_manager.py:219-243 | A mapping is found under every spelling with the same lower-case form, and changes nothing for other names. |
| CacheManager.MappingOverwrites | backend/cache_manager.py:219-221 | A later mapping of the same lower-cased name replaces the earlier one. |
| CacheManager.NothingUnmapped | backend/cache_manager.py:144-149 | An unmapped name has no station, and an unknown station has no reading or history. |
| CacheManager.MappingLeavesStations | backend/cache_manager.py:219-221 | A mapping leaves every station's latest reading and history unchanged. |
| CacheManager.CollisionHidesCities | backend/cache_manager.py:104-121 | A station 'city_mappings' cached before any mapping makes the city listing fail, although the city maps to its station. |
| CacheManager.CollisionAddsCity | backend/cache_manager.py:281-288 | Cached after a mapping, such a station adds a listed city "Latest" with no station. |
| CacheManager.TitleLatest | backend/cache_manager.py:285 | `"latest".title()` is "Latest". |
| CacheManager.ByCityNameConsistent | backend/cache_manager.py:290 | Ordering by city name is a consistent comparator. |
| CacheManager.Cache.constructor | backend/cache_manager.py:23-27 | The cache starts empty. |
| CacheManager.Cache.CacheStationData | backend/cache_manager.py:104-121 | The dictionary becomes the after-caching state: latest set, entry appended, history pruned to 48 hours. |
| CacheManager.Cache.GetLatestStationData | backend/cache_manager.py:144-149 | Returns the station's stored latest reading, `None` when there is none. |
| CacheManager.Cache.GetStationHistory | backend/cache_manager.py:187-192 | The loop and the sort return the history specification: newest first, readings after the cutoff. |
| CacheManager.Cache.SetCityStationMapping | backend/cache_manager.py:219-221 | The dictionary becomes the after-mapping state: the lower-cased name maps to the station. |
| CacheManager.Cache.GetStationForCity | backend/cache_manager.py:242-249 | Returns the station mapped to the lower-cased name, `None` when there is none. |
| CacheManager.Cache.GetAllCities | backend/cache_manager.py:281-294 | `[]` when some mapping value cannot be decoded. Otherwise one title-cased entry per mapping, holding exactly the decoded mappings, sorted by city name. |

## Left out

- The Redis branch of the cache manager, `connect` and `disconnect`: network I/O. The model is the in-memory dictionary that `connect` falls back to.
- Every `fetch`, `localStorage`, timer and `Date` call in the frontend. Fetched data, the chosen country and the current time are parameters.
- `createMockCity` and the interactive map's `Math.random` fallbacks for missing or failed responses: they draw random values. `generateMockData` is modelled with its draw as a parameter. Its temperature, humidity, wind, visibility and UV values are left out.
- The interactive map's air-quality fields (AQI, pollutants, weather): they fall back to random values. Only the plotted places and coordinates are modelled.
- Floating-point arithmetic: numbers are `real` and AQI is an integer, so NaN and infinities are not modelled.
- Case mapping and `title()` are modelled on ASCII letters only.
- Code-point order stands in for `localeCompare`; the ISO time stamps are compared as strings in the backend and as integers in the frontend.
- Pydantic validation is approximated by `Models.StrField`, `Models.IntField` and `Models.OptionalFloatField`. String-to-number conversion is the `Coercions` parameter.
- JSON serialisation of readings in the cache is taken as exact (a reading is kept as itself). The `json.loads` of a mapping decodes only mappings the cache wrote: any other value makes the listing fail, as its `except` does.
- The iteration order of the mappings in `get_all_cities` is left open; the result is sorted afterwards. Because the sort is stable, entries with equal title-cased names may come out in any order.
- Each backend call reads the clock once (`now`), where the source calls `utcnow()` three times (backend/cache_manager.py:66, 112 and 117), so its time stamp and expiry may differ from the model's by the time between those calls.
- `console` and `logger` output, rendering markup, icons, category colours and the shop's image and shop links.
- The progress bar and the other purely visual parts of the cards.
- DashboardPage.LevelAgreesWithPanels: states only that the labels agree. The page's colours are hex values and the panel's are class names, so the two are not compared.
- CityDetail.Advice: a row is indexed by the position of the level key, so a `userType` that names an inherited property of a JavaScript object (such as `constructor`) is treated as an unknown audience.
- DashboardPage.BaseAqi: `countryFactors[country] || 50` on a country that names an inherited property of a JavaScript object (such as `constructor` or `toString`) yields that function in the source, and arithmetic on it gives `NaN`; the model, whose table is a map of integers, gives 50.
- CityFeed.CountryName: `countryNames[code] || code` on such an inherited property name yields a function in the source; the model returns the code.
- CityPanels.PollutantIcon: `icons[pollutant] || '⭕'` on such an inherited property name yields a function in the source; the model returns the empty circle.
