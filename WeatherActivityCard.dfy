/** The activity weather card's verdict (src/components/WeatherActivityCard.tsx):
    an ordered cascade from the weather to one of four statuses, each with its
    own message and text colour. Temperatures, humidity and wind are whole
    numbers. */
module WeatherActivityCard {

  datatype Condition = Sunny | Cloudy | Rainy | PartlyCloudy

  datatype WeatherCondition = WeatherCondition(
    temperature: int,
    humidity: int,
    windSpeed: int,
    condition: Condition,
    uvIndex: int,
    precipitation: int)

  datatype Status = Poor | Excellent | Good | Fair

  datatype Recommendation = Recommendation(status: Status, message: string, color: string)

  /** `getWeatherRecommendation`: rain first, then the ideal window, then the
      acceptable one, else fair. */
  function WeatherRecommendation(w: WeatherCondition): (r: Recommendation)
    ensures r.status == Poor <==> w.condition == Rainy
  {
    if w.condition == Rainy then
      Recommendation(Poor, "No recomendado por lluvia", "text-red-500")
    else if 20 <= w.temperature <= 28 && w.humidity < 70 && w.windSpeed < 20 then
      Recommendation(Excellent, "Condiciones ideales", "text-green-500")
    else if 15 <= w.temperature <= 32 && w.humidity < 80 then
      Recommendation(Good, "Buenas condiciones", "text-yellow-600")
    else
      Recommendation(Fair, "Condiciones regulares", "text-orange-500")
  }

  /** The message and colour that go with each status. */
  function Advice(s: Status): Recommendation
  {
    match s
    case Poor => Recommendation(Poor, "No recomendado por lluvia", "text-red-500")
    case Excellent => Recommendation(Excellent, "Condiciones ideales", "text-green-500")
    case Good => Recommendation(Good, "Buenas condiciones", "text-yellow-600")
    case Fair => Recommendation(Fair, "Condiciones regulares", "text-orange-500")
  }

  /** The status decides the message and colour, and no two statuses share a
      colour. */
  lemma StatusFixesAdvice(w: WeatherCondition, s: Status, t: Status)
    ensures WeatherRecommendation(w) == Advice(WeatherRecommendation(w).status)
    ensures s != t ==> Advice(s).color != Advice(t).color && Advice(s).message != Advice(t).message
  {
  }

  /** Exactly when each status is given. */
  lemma StatusConditions(w: WeatherCondition)
    ensures var s := WeatherRecommendation(w).status;
      var rain := w.condition == Rainy;
      var t, h := w.temperature, w.humidity;
      (s == Excellent <==> !rain && 20 <= t <= 28 && h < 70 && w.windSpeed < 20) &&
      (s == Good <==> !rain && !(20 <= t <= 28 && h < 70 && w.windSpeed < 20) && 15 <= t <= 32 && h < 80) &&
      (s == Fair <==> !rain && !(20 <= t <= 28 && h < 70 && w.windSpeed < 20) && !(15 <= t <= 32 && h < 80))
  {
  }

  /** How favourable a status is, from poor to excellent. */
  function StatusRank(s: Status): nat
  {
    match s
    case Poor => 0
    case Fair => 1
    case Good => 2
    case Excellent => 3
  }

  /** More humidity or more wind never improves the verdict. */
  lemma HumidityAndWindNeverHelp(w: WeatherCondition, humidity: int, windSpeed: int)
    requires w.humidity <= humidity && w.windSpeed <= windSpeed
    ensures StatusRank(WeatherRecommendation(w.(humidity := humidity, windSpeed := windSpeed)).status)
         <= StatusRank(WeatherRecommendation(w).status)
  {
  }

  /** Rain is poor whatever the temperature, humidity or wind. */
  lemma RainIsPoor(w: WeatherCondition)
    requires w.condition == Rainy
    ensures WeatherRecommendation(w) == Advice(Poor)
  {
  }

  /** The activity detail screen shows 24 degrees, 65 % humidity, 12 km/h wind,
      partly cloudy: an excellent day. */
  lemma DetailScreenIsExcellent()
    ensures WeatherRecommendation(WeatherCondition(24, 65, 12, PartlyCloudy, 6, 10)).status == Excellent
  {
  }
}
