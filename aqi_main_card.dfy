/** The main AQI card (Nasa-app/src/app/dashboard/components/AQIMainCard.tsx): its five-band
    health message. */
module AqiMainCard {
  import opened AqiScale
  import DashboardPage

  /** The messages, mildest first; the last one covers every AQI above 200. */
  const Messages: seq<string> := [
    "Air quality is satisfactory, and air pollution poses little or no risk.",
    "Air quality is acceptable. However, there may be a risk for some people, particularly those who are unusually sensitive to air pollution.",
    "Members of sensitive groups may experience health effects. The general public is less likely to be affected.",
    "Some members of the general public may experience health effects; members of sensitive groups may experience more serious health effects.",
    "Health alert: The risk of health effects is increased for everyone. Avoid outdoor activities."
  ]

  /** `getHealthMessage`: the message of the EPA category, with Very Unhealthy and
      Hazardous sharing the last one. */
  function HealthMessage(aqi: int): (r: string)
    ensures r == Messages[Capped(aqi, 4)]
  {
    if aqi <= 50 then Messages[0]
    else if aqi <= 100 then Messages[1]
    else if aqi <= 150 then Messages[2]
    else if aqi <= 200 then Messages[3]
    else Messages[4]
  }

  /** Two readings get the same message exactly when they fall in the same of the five
      bands; in particular every AQI above 200 gets the health alert. */
  lemma SameMessage(a: int, b: int)
    ensures HealthMessage(a) == HealthMessage(b) <==> Capped(a, 4) == Capped(b, 4)
    ensures a > 200 && b > 200 ==> HealthMessage(a) == HealthMessage(b)
  {
  }

  /** A higher AQI never gets a milder message. */
  lemma MessageMonotone(a: int, b: int, i: int, j: int)
    requires a <= b
    requires 0 <= i < |Messages| && Messages[i] == HealthMessage(a)
    requires 0 <= j < |Messages| && Messages[j] == HealthMessage(b)
    ensures i <= j
  {
    SeverityMonotone(a, b);
  }

  /** The message follows the level badge the dashboard passes to the card: readings with
      the same badge get the same message, and up to 200 different badges get different
      messages. */
  lemma MessageFollowsLevel(a: int, b: int)
    ensures DashboardPage.GetAqiLevel(a) == DashboardPage.GetAqiLevel(b) ==> HealthMessage(a) == HealthMessage(b)
    ensures a <= 200 && b <= 200 && HealthMessage(a) == HealthMessage(b) ==>
      DashboardPage.GetAqiLevel(a) == DashboardPage.GetAqiLevel(b)
  {
    DashboardPage.LevelsDistinct();
  }
}
