/** The landing page's air-quality globe (Nasa-app/src/app/components/AQIGlobe.tsx): its
    four-band description and colour, and the text of the popup of a clicked point. */
module AqiGlobe {
  import opened AqiScale

  const Descriptions: seq<string> := [
    "Good air quality ✅",
    "Moderate \U{1F324}\U{FE0F}",
    "Unhealthy for sensitive groups ⚠\U{FE0F}",
    "Hazardous \U{1F6A8}"
  ]

  const Colors: seq<string> := ["#22c55e", "#eab308", "#f97316", "#ef4444"]

  /** `getAQIDescription`: everything above 150 is described as hazardous. */
  function AqiDescription(aqi: int): (r: string)
    ensures r == Descriptions[Capped(aqi, 3)]
  {
    if aqi <= 50 then "Good air quality ✅"
    else if aqi <= 100 then "Moderate \U{1F324}\U{FE0F}"
    else if aqi <= 150 then "Unhealthy for sensitive groups ⚠\U{FE0F}"
    else "Hazardous \U{1F6A8}"
  }

  /** `getAQIColor`: the marker colour, on the same thresholds. */
  function AqiColor(aqi: int): (r: string)
    ensures r == Colors[Capped(aqi, 3)]
  {
    if aqi <= 50 then "#22c55e"
    else if aqi <= 100 then "#eab308"
    else if aqi <= 150 then "#f97316"
    else "#ef4444"
  }

  /** Colour and description always name the same band. */
  lemma ColorMatchesDescription(a: int, b: int)
    ensures AqiColor(a) == AqiColor(b) <==> AqiDescription(a) == AqiDescription(b)
    ensures AqiDescription(a) == AqiDescription(b) <==> Capped(a, 3) == Capped(b, 3)
  {
  }

  /** The popup's description line: each of the four conditions contributes its text when
      it holds (a false condition renders nothing). */
  function PopupTexts(aqi: int): seq<string> {
    (if aqi <= 50 then ["Good air quality ✅"] else []) +
    (if aqi > 50 && aqi <= 100 then ["Moderate \U{1F324}\U{FE0F}"] else []) +
    (if aqi > 100 && aqi <= 150 then ["Unhealthy for sensitive groups ⚠\U{FE0F}"] else []) +
    (if aqi > 150 then ["Hazardous \U{1F6A8}"] else [])
  }

  /** The four popup conditions are exclusive and exhaustive: exactly one text is shown,
      and it is the description `getAQIDescription` gives. */
  lemma PopupShowsDescription(aqi: int)
    ensures PopupTexts(aqi) == [AqiDescription(aqi)]
  {
  }
}
