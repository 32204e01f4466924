/** The hourly forecast strip (src/components/HourlyWeatherSlider.tsx): a fixed
    table of hours 5:00 to 23:00, the hour of the activity picked out by
    `findIndex`, and three colourings of each hour's precipitation that share
    their thresholds. */
module HourlyWeatherSlider {

  datatype HourlyWeather = HourlyWeather(
    time: string,
    hour: int,
    temperature: int,
    condition: string,
    precipitation: int,
    icon: string,
    windSpeed: int,
    humidity: int)

  const HourlyTable: seq<HourlyWeather> := [
    HourlyWeather("5:00", 5, 14, "Despejado", 0, "☀️", 8, 60),
    HourlyWeather("6:00", 6, 15, "Despejado", 0, "☀️", 10, 58),
    HourlyWeather("7:00", 7, 16, "Parcialmente nublado", 5, "⛅", 12, 62),
    HourlyWeather("8:00", 8, 17, "Parcialmente nublado", 10, "⛅", 14, 65),
    HourlyWeather("9:00", 9, 18, "Nublado", 15, "☁️", 16, 70),
    HourlyWeather("10:00", 10, 19, "Nublado", 20, "☁️", 18, 72),
    HourlyWeather("11:00", 11, 20, "Nublado", 25, "☁️", 20, 75),
    HourlyWeather("12:00", 12, 21, "Lluvia ligera", 30, "🌦️", 22, 78),
    HourlyWeather("13:00", 13, 20, "Lluvia ligera", 35, "🌦️", 20, 80),
    HourlyWeather("14:00", 14, 19, "Lluvia", 45, "🌧️", 18, 85),
    HourlyWeather("15:00", 15, 18, "Lluvia", 50, "🌧️", 16, 88),
    HourlyWeather("16:00", 16, 17, "Nublado", 30, "☁️", 16, 82),
    HourlyWeather("17:00", 17, 17, "Nublado", 20, "☁️", 16, 79),
    HourlyWeather("18:00", 18, 18, "Parcialmente nublado", 15, "⛅", 14, 75),
    HourlyWeather("19:00", 19, 19, "Parcialmente nublado", 10, "⛅", 12, 70),
    HourlyWeather("20:00", 20, 20, "Despejado", 5, "☀️", 10, 65),
    HourlyWeather("21:00", 21, 19, "Despejado", 0, "☀️", 8, 60),
    HourlyWeather("22:00", 22, 18, "Despejado", 0, "☀️", 6, 58),
    HourlyWeather("23:00", 23, 17, "Despejado", 0, "☀️", 4, 55)
  ]

  /** The table covers hours 5 to 23, one row per hour in order, with
      precipitation percentages in [0, 100]. */
  lemma HourlyTableShape()
    ensures |HourlyTable| == 19
    ensures forall i :: 0 <= i < |HourlyTable| ==> HourlyTable[i].hour == 5 + i
    ensures forall i :: 0 <= i < |HourlyTable| ==> 0 <= HourlyTable[i].precipitation <= 100
  {
  }

  /** `findIndex`: the first index whose element satisfies `p`, or -1. */
  function FindIndex<T>(s: seq<T>, p: T -> bool): (r: int)
    ensures -1 <= r < |s|
    ensures r >= 0 ==> p(s[r])
    ensures forall j :: 0 <= j < |s| && (r < 0 || j < r) ==> !p(s[j])
  {
    if s == [] then -1
    else if p(s[0]) then 0
    else
      var k := FindIndex(s[1..], p);
      if k < 0 then -1 else k + 1
  }

  /** `currentHourIndex`: where the row for `time` sits. */
  function HourIndex(table: seq<HourlyWeather>, time: string): (r: int)
    ensures -1 <= r < |table|
    ensures r >= 0 ==> table[r].time == time
    ensures forall j :: 0 <= j < |table| && (r < 0 || j < r) ==> table[j].time != time
  {
    FindIndex(table, (h: HourlyWeather) => h.time == time)
  }

  /** `findIndex` returns the first position that satisfies `p`. */
  lemma FindIndexFirst<T>(s: seq<T>, p: T -> bool, k: nat)
    requires k < |s| && p(s[k])
    requires forall j :: 0 <= j < k ==> !p(s[j])
    ensures FindIndex(s, p) == k
  {
  }

  lemma TimesBeforeActivityHour()
    ensures forall j :: 0 <= j < 12 ==> HourlyTable[j].time != "17:00"
  {
    forall j | 0 <= j < 12 ensures HourlyTable[j].time != "17:00" {
      if j < 5 {
        assert |HourlyTable[j].time| == 4;
      } else {
        assert HourlyTable[j].time[1] != '7';
      }
    }
  }

  /** The activity hour 17:00 is row 12 of the table. */
  lemma ActivityHourRow()
    ensures HourIndex(HourlyTable, "17:00") == 12
  {
    TimesBeforeActivityHour();
    FindIndexFirst(HourlyTable, (h: HourlyWeather) => h.time == "17:00", 12);
  }

  /** A time that no row carries has index -1. */
  lemma HourIndexAbsent(table: seq<HourlyWeather>, time: string)
    requires forall i :: 0 <= i < |table| ==> table[i].time != time
    ensures HourIndex(table, time) == -1
  {
  }

  /** `getConditionColor`. */
  function ConditionColor(precipitation: int): (c: string)
    ensures c in ConditionScale
  {
    if precipitation == 0 then "text-green-600"
    else if precipitation <= 15 then "text-yellow-600"
    else if precipitation <= 30 then "text-orange-600"
    else "text-red-600"
  }

  /** `getFavorabilityColor`. */
  function FavorabilityColor(precipitation: int): (c: string)
    ensures c in FavorabilityScale
  {
    if precipitation == 0 then "bg-green-500"
    else if precipitation <= 15 then "bg-yellow-500"
    else if precipitation <= 30 then "bg-orange-500"
    else "bg-red-500"
  }

  /** The inline precipitation badge. */
  function BadgeClass(precipitation: int): (c: string)
    ensures c in BadgeScale
  {
    if precipitation == 0 then "bg-green-100 text-green-700 dark:bg-green-900 dark:text-green-300"
    else if precipitation <= 15 then "bg-yellow-100 text-yellow-700 dark:bg-yellow-900 dark:text-yellow-300"
    else if precipitation <= 30 then "bg-orange-100 text-orange-700 dark:bg-orange-900 dark:text-orange-300"
    else "bg-red-100 text-red-700 dark:bg-red-900 dark:text-red-300"
  }

  /** The favourability colours from most to least favourable. */
  const FavorabilityScale: seq<string> := ["bg-green-500", "bg-yellow-500", "bg-orange-500", "bg-red-500"]

  function FavorabilityRank(c: string): (k: nat)
    requires c in FavorabilityScale
    ensures k < |FavorabilityScale| && FavorabilityScale[k] == c
  {
    if c == "bg-green-500" then 0 else if c == "bg-yellow-500" then 1 else if c == "bg-orange-500" then 2 else 3
  }

  /** The band of a precipitation value: 0 dry, 1 up to 15, 2 up to 30,
      3 above. */
  function PrecipitationBand(p: int): nat
  {
    if p == 0 then 0 else if p <= 15 then 1 else if p <= 30 then 2 else 3
  }

  const ConditionScale: seq<string> := ["text-green-600", "text-yellow-600", "text-orange-600", "text-red-600"]

  const BadgeScale: seq<string> := [
    "bg-green-100 text-green-700 dark:bg-green-900 dark:text-green-300",
    "bg-yellow-100 text-yellow-700 dark:bg-yellow-900 dark:text-yellow-300",
    "bg-orange-100 text-orange-700 dark:bg-orange-900 dark:text-orange-300",
    "bg-red-100 text-red-700 dark:bg-red-900 dark:text-red-300"]

  /** Each colouring picks the entry of its scale at the value's band. */
  lemma ColoringsFollowBand(p: int)
    ensures FavorabilityColor(p) == FavorabilityScale[PrecipitationBand(p)]
    ensures ConditionColor(p) == ConditionScale[PrecipitationBand(p)]
    ensures BadgeClass(p) == BadgeScale[PrecipitationBand(p)]
  {
  }

  lemma ScalesDistinct()
    ensures forall i, j :: 0 <= i < j < 4 ==> FavorabilityScale[i] != FavorabilityScale[j]
    ensures forall i, j :: 0 <= i < j < 4 ==> ConditionScale[i] != ConditionScale[j]
    ensures forall i, j :: 0 <= i < j < 4 ==> BadgeScale[i] != BadgeScale[j]
  {
  }

  /** The three colourings split precipitation at the same points: two values
      agree in one exactly when they agree in the others. */
  lemma ColoringsAgree(a: int, b: int)
    ensures FavorabilityColor(a) == FavorabilityColor(b) <==> ConditionColor(a) == ConditionColor(b)
    ensures FavorabilityColor(a) == FavorabilityColor(b) <==> BadgeClass(a) == BadgeClass(b)
  {
    ColoringsFollowBand(a);
    ColoringsFollowBand(b);
    ScalesDistinct();
  }

  /** For percentages, more rain never gives a more favourable colour. */
  lemma FavorabilityMonotone(a: int, b: int)
    requires 0 <= a <= b
    ensures FavorabilityRank(FavorabilityColor(a)) <= FavorabilityRank(FavorabilityColor(b))
  {
  }

  /** The bands: dry, up to 15, up to 30, above 30. */
  lemma FavorabilityBands(p: int)
    requires 0 <= p
    ensures FavorabilityColor(p) == "bg-green-500" <==> p == 0
    ensures FavorabilityColor(p) == "bg-yellow-500" <==> 1 <= p <= 15
    ensures FavorabilityColor(p) == "bg-orange-500" <==> 16 <= p <= 30
    ensures FavorabilityColor(p) == "bg-red-500" <==> 30 < p
  {
  }
}
