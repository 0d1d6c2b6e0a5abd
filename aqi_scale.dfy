/** The six AQI categories of the US EPA Air Quality Index (40 CFR Part 58, Appendix G):
    0-50, 51-100, 101-150, 151-200, 201-300 and above 300. Every classifier in the
    dashboard is a first-match `<=` chain over some prefix of these breakpoints; this
    module is the single reference partition they are all related to. */
module AqiScale {

  /** The upper ends of the first five categories. */
  const Breakpoints: seq<int> := [50, 100, 150, 200, 300]

  /** How many of `bps` lie strictly below `aqi`. */
  function CountBelow(bps: seq<int>, aqi: int): (r: nat)
    ensures r <= |bps|
  {
    if bps == [] then 0
    else (if bps[0] < aqi then 1 else 0) + CountBelow(bps[1..], aqi)
  }

  /** The EPA category index of `aqi`: 0 = Good ... 5 = Hazardous. */
  function Severity(aqi: int): (r: nat)
    ensures r <= 5
    ensures r == 0 <==> aqi <= 50
    ensures r == 1 <==> 50 < aqi <= 100
    ensures r == 2 <==> 100 < aqi <= 150
    ensures r == 3 <==> 150 < aqi <= 200
    ensures r == 4 <==> 200 < aqi <= 300
    ensures r == 5 <==> 300 < aqi
  {
    assert [300][1..] == [];
    assert CountBelow([300], aqi) == if 300 < aqi then 1 else 0;
    assert [200, 300][1..] == [300];
    assert CountBelow([200, 300], aqi) == (if 200 < aqi then 1 else 0) + CountBelow([300], aqi);
    assert [150, 200, 300][1..] == [200, 300];
    assert CountBelow([150, 200, 300], aqi)
        == (if 150 < aqi then 1 else 0) + CountBelow([200, 300], aqi);
    assert [100, 150, 200, 300][1..] == [150, 200, 300];
    assert CountBelow([100, 150, 200, 300], aqi)
        == (if 100 < aqi then 1 else 0) + CountBelow([150, 200, 300], aqi);
    assert Breakpoints[1..] == [100, 150, 200, 300];
    CountBelow(Breakpoints, aqi)
  }

  /** A higher AQI never falls into a lower category. */
  lemma SeverityMonotone(a: int, b: int)
    requires a <= b
    ensures Severity(a) <= Severity(b)
  {
  }

  /** `Severity` capped at `k`: the index used by classifiers with fewer bands. */
  function Capped(aqi: int, k: nat): (r: nat)
    ensures r <= k
    ensures r == Severity(aqi) || r == k
    ensures r < k <==> Severity(aqi) < k
  {
    if Severity(aqi) < k then Severity(aqi) else k
  }

  /** The official category names, used to check each file's own label table. */
  const EpaNames: seq<string> := [
    "Good", "Moderate", "Unhealthy for Sensitive Groups", "Unhealthy", "Very Unhealthy",
    "Hazardous"
  ]
}
