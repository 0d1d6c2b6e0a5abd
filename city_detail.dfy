/** The city detail view's classifiers and audience-specific advice tables
    (Nasa-app/src/app/dashboard/components/CityDetail.tsx). */
module CityDetail {
  import opened AqiScale

  /** Badge classes, one per EPA category. */
  const Colors: seq<string> := [
    "bg-green-500 text-white border-green-400",
    "bg-yellow-500 text-black border-yellow-400",
    "bg-orange-500 text-white border-orange-400",
    "bg-red-500 text-white border-red-400",
    "bg-purple-500 text-white border-purple-400",
    "bg-red-900 text-white border-red-700"
  ]

  /** `getAQIColor`: the badge classes of the category `aqi` falls in. */
  function AqiColor(aqi: int): (r: string)
    ensures r == Colors[Severity(aqi)]
  {
    if aqi <= 50 then "bg-green-500 text-white border-green-400"
    else if aqi <= 100 then "bg-yellow-500 text-black border-yellow-400"
    else if aqi <= 150 then "bg-orange-500 text-white border-orange-400"
    else if aqi <= 200 then "bg-red-500 text-white border-red-400"
    else if aqi <= 300 then "bg-purple-500 text-white border-purple-400"
    else "bg-red-900 text-white border-red-700"
  }

  /** `getAQILevel`: the EPA category name. */
  function AqiLevel(aqi: int): (r: string)
    ensures r == EpaNames[Severity(aqi)]
  {
    if aqi <= 50 then "Good"
    else if aqi <= 100 then "Moderate"
    else if aqi <= 150 then "Unhealthy for Sensitive Groups"
    else if aqi <= 200 then "Unhealthy"
    else if aqi <= 300 then "Very Unhealthy"
    else "Hazardous"
  }

  /** Colour and label always name the same category. */
  lemma ColorMatchesLevel(a: int, b: int)
    ensures AqiColor(a) == AqiColor(b) <==> AqiLevel(a) == AqiLevel(b)
    ensures AqiLevel(a) == AqiLevel(b) <==> Severity(a) == Severity(b)
  {
  }

  /** The keys of the advice tables, one per category. */
  const LevelKeys: seq<string> := [
    "good", "moderate", "unhealthy_sensitive", "unhealthy", "very_unhealthy", "hazardous"
  ]

  /** The `level` ternary chain shared by the two advice lookups. */
  function LevelKey(aqi: int): (r: string)
    ensures r == LevelKeys[Severity(aqi)]
  {
    if aqi <= 50 then "good"
    else if aqi <= 100 then "moderate"
    else if aqi <= 150 then "unhealthy_sensitive"
    else if aqi <= 200 then "unhealthy"
    else if aqi <= 300 then "very_unhealthy"
    else "hazardous"
  }

  /** The level key and the label are two names for the same category. */
  lemma LevelKeyMatchesLevel(a: int, b: int)
    ensures LevelKey(a) == LevelKey(b) <==> AqiLevel(a) == AqiLevel(b)
  {
  }

  /** The audiences the tables know. */
  const Audiences: set<string> := {"heart_disease", "asthma", "pregnant", "general"}

  const HeartCommentary: seq<string> := [
    "Air quality is excellent for people with heart conditions. Safe for all outdoor activities.",
    "Generally acceptable, but consider limiting prolonged outdoor exertion if you experience symptoms.",
    "Reduce outdoor activities. Consider staying indoors during peak hours. Monitor symptoms closely.",
    "Avoid outdoor activities. Stay indoors and use air purifiers. Consult your doctor if symptoms worsen.",
    "Emergency precautions needed. Avoid going outside. Seek immediate medical attention for any symptoms.",
    "Extreme danger. Do not go outside. Emergency medical consultation recommended."
  ]

  const AsthmaCommentary: seq<string> := [
    "Excellent conditions for people with asthma. All activities are safe.",
    "Generally safe, but keep rescue inhaler nearby during outdoor activities.",
    "High risk for asthma attacks. Stay indoors and avoid outdoor exercise.",
    "Very high risk. Avoid outdoor exposure. Use medications as prescribed by doctor.",
    "Emergency risk level. Stay indoors with air filtration. Have emergency medications ready.",
    "Life-threatening conditions. Seek emergency medical care for any breathing difficulties."
  ]

  const PregnantCommentary: seq<string> := [
    "Safe air quality for pregnant women and developing babies.",
    "Generally safe, but limit prolonged outdoor activities during peak pollution hours.",
    "Increased risk to fetal development. Stay indoors when possible.",
    "Significant risk to pregnancy. Avoid outdoor exposure and consult your doctor.",
    "High risk to maternal and fetal health. Stay indoors and seek medical advice.",
    "Emergency conditions. Seek immediate medical consultation."
  ]

  const GeneralCommentary: seq<string> := [
    "Air quality is satisfactory and poses little or no risk to health.",
    "Air quality is acceptable for most people, but sensitive individuals should limit outdoor activities.",
    "Members of sensitive groups may experience health effects. General public less likely to be affected.",
    "Everyone may begin to experience health effects. Sensitive groups may experience more serious effects.",
    "Health alert: everyone may experience serious health effects.",
    "Emergency conditions: entire population more likely to be affected by serious health effects."
  ]

  /** `getHealthCommentary`'s table: audience, then level key. */
  const Commentaries: map<string, seq<string>> := map[
    "heart_disease" := HeartCommentary,
    "asthma" := AsthmaCommentary,
    "pregnant" := PregnantCommentary,
    "general" := GeneralCommentary
  ]

  const HeartRecommendations: seq<string> := [
    "Normal activities are safe. Great time for outdoor exercise and fresh air.",
    "Take breaks during extended outdoor activities. Stay hydrated.",
    "Limit outdoor time to essential activities. Use N95 masks when outside.",
    "Stay indoors. Use air purifiers. Take prescribed medications as needed.",
    "Remain indoors with air filtration. Contact your cardiologist if experiencing symptoms.",
    "Emergency indoor shelter. Have emergency medications ready. Contact emergency services if needed."
  ]

  const AsthmaRecommendations: seq<string> := [
    "Perfect conditions for all activities. Enjoy outdoor time safely.",
    "Carry rescue inhaler. Avoid intense outdoor exercise during peak hours.",
    "Stay indoors. Keep rescue medications accessible. Use air purifiers.",
    "Strict indoor stay. Pre-medicate as prescribed. Monitor peak flow readings.",
    "Emergency protocols. Have nebulizer ready. Contact healthcare provider.",
    "Life safety mode. Emergency medication access. Call 911 for breathing difficulties."
  ]

  const PregnantRecommendations: seq<string> := [
    "Safe for all prenatal activities and gentle exercise outdoors.",
    "Limit strenuous outdoor activities. Stay in well-ventilated areas.",
    "Minimize outdoor exposure. Focus on indoor prenatal activities.",
    "Stay indoors. Use air purifiers. Consult your obstetrician about precautions.",
    "Strict indoor protocols. Contact prenatal care provider for guidance.",
    "Emergency indoor shelter. Immediate medical consultation if experiencing symptoms."
  ]

  const GeneralRecommendations: seq<string> := [
    "Great day for outdoor activities, exercise, and spending time outside.",
    "Good for most activities. Sensitive people should monitor symptoms.",
    "Reduce outdoor activities. Wear masks when outside is necessary.",
    "Limit outdoor exposure. Wear N95 masks. Use air purifiers indoors.",
    "Stay indoors. Avoid outdoor activities. Use high-quality air filtration.",
    "Emergency conditions. Remain indoors. Seek shelter with air filtration."
  ]

  /** `getHealthRecommendations`'s table: audience, then level key. */
  const Recommendations: map<string, seq<string>> := map[
    "heart_disease" := HeartRecommendations,
    "asthma" := AsthmaRecommendations,
    "pregnant" := PregnantRecommendations,
    "general" := GeneralRecommendations
  ]

  /** An advice table keyed by exactly the known audiences, with a non-empty text for
      every audience and every level. */
  ghost predicate Complete(table: map<string, seq<string>>) {
    (forall a :: a in table ==> a in Audiences) &&
    forall a :: a in Audiences ==>
      a in table && |table[a]| == |LevelKeys| &&
      forall i :: 0 <= i < |LevelKeys| ==> table[a][i] != ""
  }

  lemma CommentariesComplete()
    ensures Complete(Commentaries)
  {
    assert Commentaries.Keys == {"heart_disease", "asthma", "pregnant", "general"};
  }

  lemma RecommendationsComplete()
    ensures Complete(Recommendations)
  {
    assert Recommendations.Keys == {"heart_disease", "asthma", "pregnant", "general"};
  }

  /** `table[userType]?.[level] || table['general'][level]`: an audience's own text when
      it has a non-empty one, the general text otherwise. A row holds the texts of the
      level keys in the order of `LevelKeys`, so `level` is a position in that list. */
  function Advice(table: map<string, seq<string>>, userType: string, level: nat): string
    requires "general" in table && level < |table["general"]|
  {
    if userType in table && level < |table[userType]| && table[userType][level] != "" then
      table[userType][level]
    else
      table["general"][level]
  }

  /** The lookup on a complete table: the audience's own entry when it is known, the
      general one otherwise, never empty. */
  lemma AdviceOnComplete(table: map<string, seq<string>>, userType: string, level: nat)
    requires Complete(table) && level < |LevelKeys|
    ensures "general" in table && level < |table["general"]|
    ensures userType in Audiences ==> Advice(table, userType, level) == table[userType][level]
    ensures userType !in Audiences ==> Advice(table, userType, level) == table["general"][level]
    ensures Advice(table, userType, level) != ""
  {
    assert "general" in Audiences;
  }

  /** `getHealthCommentary(aqi, userType)`: the text of the level key `LevelKey(aqi)`. */
  function HealthCommentary(aqi: int, userType: string): (r: string)
    ensures r != ""
    ensures userType in Audiences ==> r == Commentaries[userType][Severity(aqi)]
    ensures userType !in Audiences ==> r == Commentaries["general"][Severity(aqi)]
  {
    CommentariesComplete();
    AdviceOnComplete(Commentaries, userType, Severity(aqi));
    Advice(Commentaries, userType, Severity(aqi))
  }

  /** `getHealthRecommendations(aqi, userType)`: the text of the level key `LevelKey(aqi)`. */
  function HealthRecommendations(aqi: int, userType: string): (r: string)
    ensures r != ""
    ensures userType in Audiences ==> r == Recommendations[userType][Severity(aqi)]
    ensures userType !in Audiences ==> r == Recommendations["general"][Severity(aqi)]
  {
    RecommendationsComplete();
    AdviceOnComplete(Recommendations, userType, Severity(aqi));
    Advice(Recommendations, userType, Severity(aqi))
  }

  /** An audience the tables do not know gets the general advice for the same level. */
  lemma UnknownAudienceIsGeneral(aqi: int, userType: string)
    requires userType !in Audiences
    ensures HealthCommentary(aqi, userType) == HealthCommentary(aqi, "general")
    ensures HealthRecommendations(aqi, userType) == HealthRecommendations(aqi, "general")
  {
    assert "general" in Audiences;
  }

  /** The "Special Precautions" block appears exactly from the third category up. */
  function ShowsSpecialPrecautions(aqi: int): (r: bool)
    ensures r <==> Severity(aqi) >= 2
    ensures r <==> AqiLevel(aqi) !in {"Good", "Moderate"}
  {
    aqi > 100
  }
}
