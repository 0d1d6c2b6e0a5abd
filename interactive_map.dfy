/** The interactive map card (Nasa-app/src/app/dashboard/components/InteractiveMap.tsx): its
    classifiers and the selection of the four cities it plots. The country filter, the
    dominant-pollutant choice and the country names are the shared ones of `CityFeed`. */
module InteractiveMap {
  import opened Wrappers
  import opened Seqs
  import opened AqiScale
  import opened CityFeed
  import CityPanels

  const Colors: seq<string> := [
    "bg-green-500", "bg-yellow-500", "bg-orange-500", "bg-red-500", "bg-purple-500", "bg-red-900"
  ]

  /** `getAQIColor`. */
  function AqiColor(aqi: int): (r: string)
    ensures r == Colors[Severity(aqi)]
  {
    if aqi <= 50 then "bg-green-500"
    else if aqi <= 100 then "bg-yellow-500"
    else if aqi <= 150 then "bg-orange-500"
    else if aqi <= 200 then "bg-red-500"
    else if aqi <= 300 then "bg-purple-500"
    else "bg-red-900"
  }

  const Labels: seq<string> := [
    "Good", "Moderate", "Unhealthy for Sensitive", "Unhealthy", "Very Unhealthy", "Hazardous"
  ]

  /** `getAQILevel`. */
  function AqiLevel(aqi: int): (r: string)
    ensures r == Labels[Severity(aqi)]
  {
    if aqi <= 50 then "Good"
    else if aqi <= 100 then "Moderate"
    else if aqi <= 150 then "Unhealthy for Sensitive"
    else if aqi <= 200 then "Unhealthy"
    else if aqi <= 300 then "Very Unhealthy"
    else "Hazardous"
  }

  /** The map's marker colour and label always name the same category, and its labels
      are the panel's. */
  lemma ColorMatchesLevel(a: int, b: int)
    ensures AqiColor(a) == AqiColor(b) <==> AqiLevel(a) == AqiLevel(b)
    ensures AqiLevel(a) == CityPanels.AqiLevel(a)
  {
  }

  /** A plotted city: its place and its coordinates (`lat || 0`, `lng || 0`). */
  datatype Marker = Marker(place: Place, lat: real, lng: real)

  const MaxMarkers: nat := 4

  /** The first four cities of the target country, mapped with their list index. */
  function Markers(cities: seq<ApiCity>, target: string): (r: seq<Marker>)
    ensures |r| <= MaxMarkers
    ensures |r| == |FirstInCountry(cities, target, MaxMarkers)|
    ensures forall i :: 0 <= i < |r| ==>
      var c := FirstInCountry(cities, target, MaxMarkers)[i];
      r[i].place == PlaceOf(c, i) && InCountry(c, target) && c in cities &&
      (c.lat == None || c.lat == Some(0.0) ==> r[i].lat == 0.0) &&
      (c.lng == None || c.lng == Some(0.0) ==> r[i].lng == 0.0) &&
      (c.lat.Some? && c.lat.value != 0.0 ==> r[i].lat == c.lat.value) &&
      (c.lng.Some? && c.lng.value != 0.0 ==> r[i].lng == c.lng.value)
    ensures forall i, j :: 0 <= i < j < |r| ==> r[i].place.id != r[j].place.id
  {
    var selected := FirstInCountry(cities, target, MaxMarkers);
    CountryFilterKeeps(cities, target);
    forall i, j | 0 <= i < j < |selected| ensures PlaceOf(selected[i], i).id != PlaceOf(selected[j], j).id {
      PlaceIdsDistinct(selected[i], i, selected[j], j);
    }
    seq(|selected|, i requires 0 <= i < |selected| =>
      Marker(PlaceOf(selected[i], i), OrNumber(selected[i].lat, 0.0), OrNumber(selected[i].lng, 0.0)))
  }
}
