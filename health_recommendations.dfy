/** The health recommendations card (Nasa-app/src/app/dashboard/components/HealthRecommendations.tsx):
    a four-band advice record, the three advice cards built from it, the mask notice and
    the health alert. */
module HealthRecommendations {
  import opened AqiScale
  import CityDetail

  /** One band's advice: the badge word, its colour classes, the advice texts and whether
      a mask is recommended. */
  datatype Recommendation = Recommendation(
    level: string,
    color: string,
    bgColor: string,
    borderColor: string,
    outdoor: string,
    sensitive: string,
    precautions: string,
    mask: bool,
    exercise: string,
    windows: string)

  /** The four bands: up to 50, up to 100, up to 150 and everything above. */
  const Bands: seq<Recommendation> := [
    Recommendation(
      "excellent", "text-green-400", "bg-green-900/20", "border-green-700",
      "Perfect conditions for all outdoor activities and exercise.",
      "Air quality is excellent for all groups including children and elderly.",
      "No special precautions needed. Enjoy outdoor activities!",
      false,
      "Ideal time for outdoor exercise and sports.",
      "Perfect time to open windows and ventilate your home."),
    Recommendation(
      "good", "text-yellow-400", "bg-yellow-900/20", "border-yellow-700",
      "Good conditions for most outdoor activities.",
      "Acceptable for most people. Sensitive individuals should monitor symptoms.",
      "Consider reducing intense outdoor activities if you're sensitive to air pollution.",
      false,
      "Good for outdoor exercise, but sensitive people should take breaks.",
      "Good time to ventilate, but sensitive people should be cautious."),
    Recommendation(
      "moderate", "text-orange-400", "bg-orange-900/20", "border-orange-700",
      "Reduce prolonged outdoor activities, especially for sensitive groups.",
      "Children, elderly, and people with heart/lung conditions should limit outdoor activities.",
      "Consider wearing masks outdoors. Limit outdoor exercise.",
      true,
      "Consider indoor exercise alternatives.",
      "Limit ventilation during peak pollution hours."),
    Recommendation(
      "unhealthy", "text-red-400", "bg-red-900/20", "border-red-700",
      "Avoid outdoor activities. Stay indoors as much as possible.",
      "High risk for all groups. Seek medical attention if experiencing symptoms.",
      "Wear N95 masks when going outside. Use air purifiers indoors.",
      true,
      "Avoid outdoor exercise. Choose indoor activities only.",
      "Keep windows closed. Use air purifiers.")
  ]

  /** `getRecommendations`: the band of the EPA category, with every category from
      Unhealthy up sharing the last band. */
  function GetRecommendations(aqi: int): (r: Recommendation)
    ensures r == Bands[Capped(aqi, 3)]
  {
    if aqi <= 50 then Bands[0]
    else if aqi <= 100 then Bands[1]
    else if aqi <= 150 then Bands[2]
    else Bands[3]
  }

  /** The order of the badge words, mildest first. */
  const LevelOrder: seq<string> := ["excellent", "good", "moderate", "unhealthy"]

  /** Each band has its own badge word, in band order, and no text of any band is empty. */
  lemma BandsWellFormed()
    ensures forall i :: 0 <= i < |Bands| ==> Bands[i].level == LevelOrder[i]
    ensures forall i :: 0 <= i < |Bands| ==>
      Bands[i].outdoor != "" && Bands[i].sensitive != "" && Bands[i].precautions != "" &&
      Bands[i].exercise != "" && Bands[i].windows != ""
  {
  }

  /** A higher AQI never gets a milder badge word. */
  lemma LevelMonotone(a: int, b: int, i: int, j: int)
    requires a <= b
    requires 0 <= i < |LevelOrder| && LevelOrder[i] == GetRecommendations(a).level
    requires 0 <= j < |LevelOrder| && LevelOrder[j] == GetRecommendations(b).level
    ensures i <= j
  {
    SeverityMonotone(a, b);
  }

  /** A mask is recommended exactly above 100, which is exactly when the city detail view
      shows its special precautions. */
  lemma MaskAbove100(aqi: int)
    ensures GetRecommendations(aqi).mask <==> aqi > 100
    ensures GetRecommendations(aqi).mask <==> CityDetail.ShowsSpecialPrecautions(aqi)
  {
  }

  /** One of the three advice cards: title, main text and the smaller text below it. */
  datatype AdviceCard = AdviceCard(title: string, content: string, extra: string)

  /** What the card renders for an AQI: the band, its three advice cards, and whether the
      mask notice and the health alert appear. */
  datatype View = View(
    recommendation: Recommendation,
    cards: seq<AdviceCard>,
    maskNotice: bool,
    healthAlert: bool)

  const SensitiveGroupsNote: string :=
    "Includes children, elderly, pregnant women, and people with respiratory conditions."

  /** The rendered card: the mask notice follows the band's flag, the alert shows above 200. */
  function Render(aqi: int): (v: View)
    ensures v.recommendation == GetRecommendations(aqi)
    ensures |v.cards| == 3
    ensures v.maskNotice <==> aqi > 100
    ensures v.healthAlert <==> aqi > 200
  {
    var r := GetRecommendations(aqi);
    View(
      r,
      [
        AdviceCard("Outdoor Activities", r.outdoor, r.exercise),
        AdviceCard("Sensitive Groups", r.sensitive, SensitiveGroupsNote),
        AdviceCard("Precautions", r.precautions, r.windows)
      ],
      r.mask,
      aqi > 200)
  }

  /** Whenever the health alert shows, the mask notice shows too, and every card of every
      band has text in both of its paragraphs. */
  lemma AlertImpliesMask(aqi: int)
    ensures Render(aqi).healthAlert ==> Render(aqi).maskNotice
    ensures forall k :: 0 <= k < |Render(aqi).cards| ==>
      Render(aqi).cards[k].content != "" && Render(aqi).cards[k].extra != ""
  {
    BandsWellFormed();
  }
}
