/** The 14-day favourability heat map (src/components/WeatherHeatMap.tsx).

    Starting three days before the current day, one entry per day gets a
    score from a random base in [30, 70), a weekend bonus and an activity
    bonus, capped at 100, plus a random temperature and condition. Scores map
    to colour and opacity bands, and the best days are the three highest
    scoring days after the current one.

    Dates are whole day numbers counted from 1970-01-01, a Thursday. Each
    `Math.random()` of a day is a parameter: three reals in [0, 1) and the
    condition index in {0, 1, 2}. Arithmetic on them is exact, where the
    source uses doubles. */
module WeatherHeatMap {
  import opened Collections
  import opened Strings

  datatype DayWeatherScore = DayWeatherScore(date: int, score: int, temperature: int, condition: string)

  /** The random values drawn for one day. */
  datatype DayDraw = DayDraw(base: real, activity: real, temperature: real, condition: int)

  predicate ValidDraw(d: DayDraw)
  {
    0.0 <= d.base < 1.0 && 0.0 <= d.activity < 1.0 && 0.0 <= d.temperature < 1.0 &&
    0 <= d.condition < 3
  }

  const Conditions: seq<string> := ["Soleado", "Parcialmente nublado", "Nublado"]

  const DaysShown := 14

  /** `Date.getDay()`: 0 for Sunday through 6 for Saturday. */
  function Weekday(date: int): (w: int)
    ensures 0 <= w < 7
  {
    (date + 4) % 7
  }

  /** Consecutive days have consecutive weekdays, Saturday followed by
      Sunday. */
  lemma WeekdayNext(date: int)
    ensures Weekday(date + 1) == (Weekday(date) + 1) % 7
    ensures Weekday(date + 7) == Weekday(date)
  {
  }

  /** `Math.round`: the nearest integer, halves rounded up. */
  function Round(x: real): (r: int)
    ensures r as real <= x + 0.5 < r as real + 1.0
  {
    (x + 0.5).Floor
  }

  lemma RoundMonotone(x: real, y: real)
    requires x <= y
    ensures Round(x) <= Round(y)
  {
  }

  /** The weekend bonus: 15 points on Saturdays and Sundays. */
  function WeekendBonus(date: int): (b: int)
    ensures b == 0 || b == 15
    ensures b == 15 <==> Weekday(date) == 0 || Weekday(date) == 6
  {
    if Weekday(date) == 0 || Weekday(date) == 6 then 15 else 0
  }

  /** `activityType.includes('exterior') ? Math.random() * 20 : 10`. */
  function ActivityBonus(activityType: string, draw: real): (b: real)
    ensures !Contains(activityType, "exterior") ==> b == 10.0
    ensures Contains(activityType, "exterior") && 0.0 <= draw < 1.0 ==> 0.0 <= b < 20.0
  {
    if Contains(activityType, "exterior") then draw * 20.0 else 10.0
  }

  /** One entry of the map. */
  function DayFor(date: int, activityType: string, d: DayDraw): (e: DayWeatherScore)
    requires ValidDraw(d)
    ensures e.date == date
    ensures 30 <= e.score <= 100
    ensures 18 <= e.temperature <= 30
    ensures e.condition in Conditions
  {
    var raw := d.base * 40.0 + 30.0 + WeekendBonus(date) as real + ActivityBonus(activityType, d.activity);
    RoundMonotone(30.0, raw);
    var temperature := 18.0 + d.temperature * 12.0;
    RoundMonotone(18.0, temperature);
    RoundMonotone(temperature, 30.0);
    DayWeatherScore(date, Min(100, Round(raw)), Round(temperature), Conditions[d.condition])
  }

  function Min(a: int, b: int): int
  {
    if a <= b then a else b
  }

  /** The weekend bonus goes to Saturdays and Sundays only. */
  lemma WeekendBonusDays(date: int)
    ensures WeekendBonus(date) == 15 <==> Weekday(date) == 0 || Weekday(date) == 6
    ensures WeekendBonus(date) == 0 <==> 1 <= Weekday(date) <= 5
    ensures Weekday(2) == 6 && Weekday(3) == 0 && Weekday(0) == 4
  {
  }

  /** With the same draws, a weekend day never scores below a weekday. */
  lemma WeekendNeverWorse(weekend: int, weekday: int, activityType: string, d: DayDraw)
    requires ValidDraw(d)
    requires Weekday(weekend) == 0 || Weekday(weekend) == 6
    requires 1 <= Weekday(weekday) <= 5
    ensures DayFor(weekend, activityType, d).score >= DayFor(weekday, activityType, d).score
  {
    var base := d.base * 40.0 + 30.0 + ActivityBonus(activityType, d.activity);
    RoundMonotone(base, base + 15.0);
  }

  /** Activity types without the case-sensitive word "exterior" get exactly
      10 points; those with it get a drawn bonus below 20. */
  lemma ActivityBonusRange(activityType: string, draw: real)
    requires 0.0 <= draw < 1.0
    ensures !Contains(activityType, "exterior") ==> ActivityBonus(activityType, draw) == 10.0
    ensures Contains(activityType, "exterior") ==> 0.0 <= ActivityBonus(activityType, draw) < 20.0
    ensures !Contains("Exterior", "exterior")
  {
    assert "Exterior"[0] != "exterior"[0];
  }

  /** `generateWeatherData`: the loop that pushes one entry per day, from three
      days before `currentDate` on. */
  method GenerateWeatherData(currentDate: int, activityType: string, draws: seq<DayDraw>)
    returns (data: seq<DayWeatherScore>)
    requires |draws| == DaysShown
    requires forall i :: 0 <= i < |draws| ==> ValidDraw(draws[i])
    ensures |data| == DaysShown
    ensures forall i :: 0 <= i < DaysShown ==> data[i] == DayFor(currentDate - 3 + i, activityType, draws[i])
  {
    data := [];
    var i := 0;
    while i < DaysShown
      invariant 0 <= i <= DaysShown && |data| == i
      invariant forall j :: 0 <= j < i ==> data[j] == DayFor(currentDate - 3 + j, activityType, draws[j])
    {
      data := data + [DayFor(currentDate - 3 + i, activityType, draws[i])];
      i := i + 1;
    }
  }

  /** The generated map is the fortnight from three days ago, every score in
      [30, 100] and every temperature in [18, 30]. */
  lemma GeneratedDays(currentDate: int, activityType: string, draws: seq<DayDraw>, data: seq<DayWeatherScore>)
    requires |draws| == DaysShown
    requires forall i :: 0 <= i < |draws| ==> ValidDraw(draws[i])
    requires |data| == DaysShown
    requires forall i :: 0 <= i < DaysShown ==> data[i] == DayFor(currentDate - 3 + i, activityType, draws[i])
    ensures forall i :: 0 <= i < |data| ==> data[i].date == currentDate - 3 + i
    ensures forall i :: 0 <= i < |data| ==> 30 <= data[i].score <= 100 && 18 <= data[i].temperature <= 30
    ensures forall i :: 0 <= i < |data| ==> (data[i].date > currentDate <==> i > 3)
  {
  }

  /** `getScoreColor`. */
  function ScoreColor(score: int): (c: string)
    ensures c in ["bg-green-500", "bg-yellow-500", "bg-orange-500", "bg-red-500"]
    ensures c == "bg-green-500" <==> score >= 80
    ensures c == "bg-yellow-500" <==> 60 <= score < 80
    ensures c == "bg-orange-500" <==> 40 <= score < 60
    ensures c == "bg-red-500" <==> score < 40
  {
    if score >= 80 then "bg-green-500"
    else if score >= 60 then "bg-yellow-500"
    else if score >= 40 then "bg-orange-500"
    else "bg-red-500"
  }

  /** `getScoreOpacity`. */
  function ScoreOpacity(score: int): (c: string)
    ensures c in ["opacity-90", "opacity-70", "opacity-50", "opacity-30"]
    ensures c == "opacity-90" <==> score >= 80
    ensures c == "opacity-70" <==> 60 <= score < 80
    ensures c == "opacity-50" <==> 40 <= score < 60
    ensures c == "opacity-30" <==> score < 40
  {
    if score >= 80 then "opacity-90"
    else if score >= 60 then "opacity-70"
    else if score >= 40 then "opacity-50"
    else "opacity-30"
  }

  /** The two scales share their thresholds: two scores get the same colour
      exactly when they get the same opacity. */
  lemma ColorMatchesOpacity(a: int, b: int)
    ensures ScoreColor(a) == ScoreColor(b) <==> ScoreOpacity(a) == ScoreOpacity(b)
  {
  }

  function DescendingScore(d: DayWeatherScore): int
  {
    -d.score
  }

  /** The days after `currentDate`. */
  function Upcoming(data: seq<DayWeatherScore>, currentDate: int): seq<DayWeatherScore>
  {
    Filter(data, (d: DayWeatherScore) => d.date > currentDate)
  }

  /** `bestDays`: the upcoming days sorted by score, highest first, then the
      first three. */
  function BestDays(data: seq<DayWeatherScore>, currentDate: int): (r: seq<DayWeatherScore>)
    ensures |r| <= 3
    ensures |r| == Min(3, |Upcoming(data, currentDate)|)
    ensures forall i :: 0 <= i < |r| ==> r[i] in data && r[i].date > currentDate
    ensures forall i, j :: 0 <= i < j < |r| ==> r[i].score >= r[j].score
    ensures multiset(r) <= multiset(Upcoming(data, currentDate))
  {
    var upcoming := Upcoming(data, currentDate);
    var sorted := SortBy(upcoming, DescendingScore);
    SortByKeepsProperty(upcoming, DescendingScore, (d: DayWeatherScore) => d in data && d.date > currentDate);
    SortByPermutes(upcoming, DescendingScore);
    var r := sorted[..Min(3, |sorted|)];
    PrefixSubMultiset(sorted, Min(3, |sorted|));
    r
  }

  /** Whatever stable sort by descending score the upcoming days are given,
      the best days are its first three entries: ties keep calendar order. */
  lemma BestDaysTopOfStableSort(data: seq<DayWeatherScore>, currentDate: int, sorted: seq<DayWeatherScore>)
    requires IsStableSortOf(sorted, Upcoming(data, currentDate), DescendingScore)
    ensures BestDays(data, currentDate) == sorted[..Min(3, |sorted|)]
  {
    StableSortUnique(sorted, Upcoming(data, currentDate), DescendingScore);
  }

  /** No upcoming day left out of the best days scores above one that was
      chosen. */
  lemma BestDaysAreBest(data: seq<DayWeatherScore>, currentDate: int, d: DayWeatherScore)
    requires d in data && d.date > currentDate
    ensures var r := BestDays(data, currentDate);
      d in r || forall i :: 0 <= i < |r| ==> r[i].score >= d.score
  {
    var upcoming := Upcoming(data, currentDate);
    var sorted := SortBy(upcoming, DescendingScore);
    SortByPermutes(upcoming, DescendingScore);
    var k :| 0 <= k < |data| && data[k] == d;
    assert d in upcoming;
    assert d in multiset(sorted);
    SortedPrefixDominates(sorted, DescendingScore, Min(3, |sorted|), d);
  }

  /** For a generated map, the upcoming days are its last ten entries, so
      exactly three best days are shown, all taken from those ten. */
  lemma BestDaysOfGeneratedMap(currentDate: int, data: seq<DayWeatherScore>)
    requires |data| == DaysShown
    requires forall i :: 0 <= i < |data| ==> data[i].date == currentDate - 3 + i
    ensures Upcoming(data, currentDate) == data[4..]
    ensures |BestDays(data, currentDate)| == 3
  {
    var p := (d: DayWeatherScore) => d.date > currentDate;
    assert data == data[..4] + data[4..];
    FilterConcat(data[..4], data[4..], p);
    FilterDropsAll(data[..4], p);
    FilterKeepsAll(data[4..], p);
  }
}
