/** The activity recommendation scorer of the home screen
    (src/components/ActivityRecommendations.tsx).

    Every item of a fixed five-item catalog starts at 50 points; a
    first-match-wins cascade keyed on its category and on the current weather
    adjusts the score and may give a reason; profile bonuses are added; the
    score is clamped to [0, 100], a default reason fills in, and the list is
    stably sorted by score, highest first. Rain and sun are detected by the
    Spanish substrings "lluvia" and "sol" of the lower-cased condition. */
module ActivityRecommendations {
  import opened Collections
  import opened Strings

  datatype Category = Outdoor | Indoor | Exercise | Leisure

  datatype RecommendedActivity = RecommendedActivity(
    id: string,
    title: string,
    description: string,
    bestTime: string,
    duration: string,
    location: string,
    weatherScore: int,
    category: Category,
    reason: string)

  datatype CurrentWeather = CurrentWeather(temperature: int, condition: string, humidity: int, windSpeed: int)

  /** The optional profile the scorer reads. */
  datatype UserProfile = UserProfile(activityLevel: string, goals: seq<string>)

  const BaseActivities: seq<RecommendedActivity> := [
    RecommendedActivity("1", "Caminata por el parque", "Disfruta del aire libre con una caminata relajante",
      "07:00 - 09:00", "45 min", "Parque cercano", 0, Outdoor, ""),
    RecommendedActivity("2", "Yoga matutino", "Sesión de yoga para comenzar el día con energía",
      "06:30 - 07:30", "60 min", "En casa", 0, Exercise, ""),
    RecommendedActivity("3", "Lectura al aire libre", "Momento de relajación con un buen libro",
      "16:00 - 18:00", "90 min", "Jardín o balcón", 0, Leisure, ""),
    RecommendedActivity("4", "Entrenamiento en gimnasio", "Rutina completa de ejercicios",
      "18:00 - 19:30", "90 min", "Gimnasio", 0, Indoor, ""),
    RecommendedActivity("5", "Ciclismo urbano", "Recorrido en bicicleta por la ciudad",
      "17:00 - 19:00", "120 min", "Ciclovías", 0, Outdoor, "")
  ]

  const BaseScore := 50
  const RainReason := "Clima lluvioso - considera actividades bajo techo"
  const PerfectReason := "Clima perfecto para actividades al aire libre"
  const GoodOutdoorReason := "Buenas condiciones para estar al aire libre"
  const ExtremeReason := "Temperatura extrema - abrígate bien o busca sombra"
  const RainyDayIndoorReason := "Ideal para días lluviosos"
  const AvoidExtremeReason := "Perfecto para evitar el clima extremo"
  const DefaultReason := "Actividad recomendada para hoy"

  predicate IsRainy(condition: string)
  {
    Contains(ToLower(condition), "lluvia")
  }

  predicate IsSunny(condition: string)
  {
    Contains(ToLower(condition), "sol")
  }

  /** What the category/weather cascade does to one item: a score change and a
      reason, the reason being empty when no rule fires. */
  datatype Adjustment = Adjustment(delta: int, reason: string)

  /** The first-match-wins cascade; at most one rule fires per item. */
  function WeatherAdjustment(category: Category, temp: int, rainy: bool, sunny: bool): (a: Adjustment)
    ensures a.reason == "" <==> a.delta == 0
    ensures category == Outdoor ==> -40 <= a.delta <= 35
    ensures category == Indoor ==> a.delta in {0, 15, 25}
    ensures category == Exercise || category == Leisure ==> a == Adjustment(0, "")
  {
    match category
    case Outdoor =>
      if rainy then Adjustment(-40, RainReason)
      else if 18 <= temp <= 28 && sunny then Adjustment(35, PerfectReason)
      else if 15 <= temp <= 30 then Adjustment(20, GoodOutdoorReason)
      else if temp < 10 || temp > 35 then Adjustment(-20, ExtremeReason)
      else Adjustment(0, "")
    case Indoor =>
      if rainy then Adjustment(25, RainyDayIndoorReason)
      else if temp < 15 || temp > 30 then Adjustment(15, AvoidExtremeReason)
      else Adjustment(0, "")
    case Exercise => Adjustment(0, "")
    case Leisure => Adjustment(0, "")
  }

  /** Activity-level and goal bonuses; an absent profile adds nothing and only
      exercise and leisure items can gain. */
  function ProfileBonus(category: Category, profile: Option<UserProfile>): (b: int)
    ensures profile.None? ==> b == 0
    ensures category == Outdoor || category == Indoor ==> b == 0
    ensures category == Exercise ==> b in {0, 15, 20, 35}
    ensures category == Leisure ==> b in {0, 10}
  {
    match profile
    case None => 0
    case Some(p) =>
      (if p.activityLevel == "muy activo" && category == Exercise then 15
       else if p.activityLevel == "sedentario" && category == Leisure then 10
       else 0)
      + (if "perder peso" in p.goals && category == Exercise then 20 else 0)
  }

  /** `Math.max(0, Math.min(100, score))`. */
  function Clamp(score: int): (r: int)
    ensures 0 <= r <= 100
    ensures 0 <= score <= 100 ==> r == score
    ensures score < 0 ==> r == 0
    ensures score > 100 ==> r == 100
  {
    if score < 0 then 0 else if score > 100 then 100 else score
  }

  /** The score before clamping. */
  function RawScore(activity: RecommendedActivity, weather: CurrentWeather, profile: Option<UserProfile>): int
  {
    var adj := WeatherAdjustment(activity.category, weather.temperature,
                                 IsRainy(weather.condition), IsSunny(weather.condition));
    BaseScore + adj.delta + ProfileBonus(activity.category, profile)
  }

  /** One item of the `map` in `generateRecommendations`: only the score and
      the reason change, the score lies in [0, 100] and the reason is never
      empty. */
  function ScoreActivity(activity: RecommendedActivity, weather: CurrentWeather, profile: Option<UserProfile>)
    : (r: RecommendedActivity)
    ensures r.(weatherScore := activity.weatherScore, reason := activity.reason) == activity
    ensures 0 <= r.weatherScore <= 100
    ensures r.reason != ""
  {
    var adj := WeatherAdjustment(activity.category, weather.temperature,
                                 IsRainy(weather.condition), IsSunny(weather.condition));
    activity.(weatherScore := Clamp(RawScore(activity, weather, profile)),
              reason := if adj.reason == "" then DefaultReason else adj.reason)
  }

  /** The catalog with every item scored, still in catalog order. */
  function ScoredCatalog(weather: CurrentWeather, profile: Option<UserProfile>): (r: seq<RecommendedActivity>)
    ensures |r| == |BaseActivities|
    ensures forall i :: 0 <= i < |r| ==> r[i] == ScoreActivity(BaseActivities[i], weather, profile)
  {
    seq(|BaseActivities|, i requires 0 <= i < |BaseActivities| => ScoreActivity(BaseActivities[i], weather, profile))
  }

  /** The sort key of `(a, b) => b.weatherScore - a.weatherScore`. */
  function DescendingScore(a: RecommendedActivity): int
  {
    -a.weatherScore
  }

  /** A score in [0, 100] and a non-empty reason. */
  predicate WellScored(a: RecommendedActivity)
  {
    0 <= a.weatherScore <= 100 && a.reason != ""
  }

  /** `generateRecommendations`: the scored catalog in non-increasing order of
      score, as a permutation of the scored items, every score in [0, 100]. */
  function GenerateRecommendations(weather: CurrentWeather, profile: Option<UserProfile>)
    : (r: seq<RecommendedActivity>)
    ensures |r| == |BaseActivities|
    ensures multiset(r) == multiset(ScoredCatalog(weather, profile))
    ensures forall i, j :: 0 <= i < j < |r| ==> r[i].weatherScore >= r[j].weatherScore
    ensures forall i :: 0 <= i < |r| ==> WellScored(r[i])
  {
    var scored := ScoredCatalog(weather, profile);
    RankingFacts(scored);
    SortBy(scored, DescendingScore)
  }

  /** Sorting scored items by descending score keeps them, orders them by
      score and keeps every score in range. */
  lemma RankingFacts(scored: seq<RecommendedActivity>)
    requires forall i :: 0 <= i < |scored| ==> WellScored(scored[i])
    ensures var r := SortBy(scored, DescendingScore);
      |r| == |scored| && multiset(r) == multiset(scored) &&
      (forall i, j :: 0 <= i < j < |r| ==> r[i].weatherScore >= r[j].weatherScore) &&
      (forall i :: 0 <= i < |r| ==> WellScored(r[i]))
  {
    SortByPermutes(scored, DescendingScore);
    SortByKeepsProperty(scored, DescendingScore, WellScored);
  }

  /** Items with equal scores keep their catalog order, and no other ordering
      with that property and the score order exists. */
  lemma RecommendationsStable(weather: CurrentWeather, profile: Option<UserProfile>)
    ensures IsStableSortOf(GenerateRecommendations(weather, profile), ScoredCatalog(weather, profile), DescendingScore)
  {
    SortByIsStableSort(ScoredCatalog(weather, profile), DescendingScore);
  }

  /** An outdoor item under a condition mentioning "lluvia" scores exactly
      50 - 40 = 10 with the rain reason, whatever the temperature or profile. */
  lemma RainyOutdoorScore(activity: RecommendedActivity, weather: CurrentWeather, profile: Option<UserProfile>)
    requires activity.category == Outdoor && IsRainy(weather.condition)
    ensures ScoreActivity(activity, weather, profile).weatherScore == 10
    ensures ScoreActivity(activity, weather, profile).reason == RainReason
  {
  }

  /** The outdoor cascade without rain: sunny and 18..28 gives +35, else 15..30
      gives +20, else below 10 or above 35 gives -20, else nothing happens and
      the reason falls back to the default. */
  lemma OutdoorCascade(activity: RecommendedActivity, weather: CurrentWeather, profile: Option<UserProfile>)
    requires activity.category == Outdoor && !IsRainy(weather.condition)
    ensures var t, r := weather.temperature, ScoreActivity(activity, weather, profile);
      if IsSunny(weather.condition) && 18 <= t <= 28 then r.weatherScore == 85 && r.reason == PerfectReason
      else if 15 <= t <= 30 then r.weatherScore == 70 && r.reason == GoodOutdoorReason
      else if t < 10 || t > 35 then r.weatherScore == 30 && r.reason == ExtremeReason
      else r.weatherScore == 50 && r.reason == DefaultReason
  {
  }

  /** Indoor items gain 25 on rain, else 15 outside 15..30 degrees. */
  lemma IndoorRules(activity: RecommendedActivity, weather: CurrentWeather, profile: Option<UserProfile>)
    requires activity.category == Indoor
    ensures var t, r := weather.temperature, ScoreActivity(activity, weather, profile);
      if IsRainy(weather.condition) then r.weatherScore == 75 && r.reason == RainyDayIndoorReason
      else if t < 15 || t > 30 then r.weatherScore == 65 && r.reason == AvoidExtremeReason
      else r.weatherScore == 50 && r.reason == DefaultReason
  {
  }

  /** Exercise and leisure items ignore the weather entirely. */
  lemma ExerciseLeisureIgnoreWeather(activity: RecommendedActivity, w1: CurrentWeather, w2: CurrentWeather,
                                     profile: Option<UserProfile>)
    requires activity.category == Exercise || activity.category == Leisure
    ensures ScoreActivity(activity, w1, profile) == ScoreActivity(activity, w2, profile)
    ensures ScoreActivity(activity, w1, profile).reason == DefaultReason
  {
  }

  /** The profile terms: 'muy activo' exercise +15, otherwise 'sedentario'
      leisure +10, and goal 'perder peso' exercise +20 on top. */
  lemma ProfileTerms(activity: RecommendedActivity, weather: CurrentWeather, p: UserProfile)
    requires activity.category == Exercise || activity.category == Leisure
    ensures ScoreActivity(activity, weather, Some(p)).weatherScore ==
      50 + (if activity.category == Exercise && p.activityLevel == "muy activo" then 15 else 0)
         + (if activity.category == Leisure && p.activityLevel == "sedentario" then 10 else 0)
         + (if activity.category == Exercise && "perder peso" in p.goals then 20 else 0)
  {
  }

  /** The raw score always lies in [10, 85], so the clamp never changes it. */
  lemma ClampNeverBinds(activity: RecommendedActivity, weather: CurrentWeather, profile: Option<UserProfile>)
    ensures 10 <= RawScore(activity, weather, profile) <= 85
    ensures ScoreActivity(activity, weather, profile).weatherScore == RawScore(activity, weather, profile)
  {
  }

  /** A missing profile ranks exactly like a profile that matches no bonus
      rule. */
  lemma AbsentProfileIsNeutral(weather: CurrentWeather, p: UserProfile)
    requires p.activityLevel != "muy activo" && p.activityLevel != "sedentario"
    requires "perder peso" !in p.goals
    ensures GenerateRecommendations(weather, Some(p)) == GenerateRecommendations(weather, None)
  {
    assert ScoredCatalog(weather, Some(p)) == ScoredCatalog(weather, None);
  }

  /** Sunshine in the ideal range puts an outdoor item 35 points above an
      indoor one; rain puts the indoor one 65 points above. */
  lemma SunAndRainOrderCategories(outdoor: RecommendedActivity, indoor: RecommendedActivity,
                                  weather: CurrentWeather, profile: Option<UserProfile>)
    requires outdoor.category == Outdoor && indoor.category == Indoor
    ensures IsSunny(weather.condition) && !IsRainy(weather.condition) && 18 <= weather.temperature <= 28 ==>
      ScoreActivity(outdoor, weather, profile).weatherScore == ScoreActivity(indoor, weather, profile).weatherScore + 35
    ensures IsRainy(weather.condition) ==>
      ScoreActivity(indoor, weather, profile).weatherScore == ScoreActivity(outdoor, weather, profile).weatherScore + 65
  {
  }

  /** The first three items unless `showAll`. */
  function DisplayedRecommendations(recommendations: seq<RecommendedActivity>, showAll: bool)
    : (r: seq<RecommendedActivity>)
    ensures showAll ==> r == recommendations
    ensures !showAll ==> |r| == (if |recommendations| < 3 then |recommendations| else 3)
    ensures r == recommendations[..|r|]
  {
    if showAll || |recommendations| <= 3 then recommendations else recommendations[..3]
  }

  /** The show-more toggle appears only for more than three items. */
  predicate ShowsToggle(count: nat)
  {
    count > 3
  }

  /** The number the collapsed toggle advertises ("Ver n más"). */
  function HiddenCount(count: nat): int
  {
    count - 3
  }

  /** When the toggle shows, the collapsed list and the advertised number add
      up to the whole list; without it, the collapsed list is the whole list. */
  lemma ToggleAdvertisesHidden(recommendations: seq<RecommendedActivity>)
    ensures ShowsToggle(|recommendations|) ==>
      |DisplayedRecommendations(recommendations, false)| + HiddenCount(|recommendations|) == |recommendations|
    ensures !ShowsToggle(|recommendations|) ==>
      DisplayedRecommendations(recommendations, false) == recommendations
  {
  }

  /** `getScoreColor`: green from 80, yellow from 60, orange below. */
  function ScoreColor(score: int): (c: string)
    ensures c == "text-green-600" <==> score >= 80
    ensures c == "text-yellow-600" <==> 60 <= score < 80
    ensures c == "text-orange-600" <==> score < 60
  {
    if score >= 80 then "text-green-600"
    else if score >= 60 then "text-yellow-600"
    else "text-orange-600"
  }

  /** A higher score never gets a less favourable colour. */
  lemma ScoreColorMonotone(s1: int, s2: int)
    requires s1 <= s2
    ensures ScoreColor(s1) == "text-green-600" ==> ScoreColor(s2) == "text-green-600"
    ensures ScoreColor(s2) == "text-orange-600" ==> ScoreColor(s1) == "text-orange-600"
  {
  }

  /** The weather of the home screen. */
  const HomeWeather := CurrentWeather(24, "Parcialmente nublado", 65, 12)

  lemma HomeWeatherIsPlain()
    ensures !IsRainy("Parcialmente nublado") && !IsSunny("Parcialmente nublado")
  {
    assert 'v' !in "Parcialmente nublado" && 'V' !in "Parcialmente nublado";
    assert 's' !in "Parcialmente nublado" && 'S' !in "Parcialmente nublado";
    NoVIsNotRainy("Parcialmente nublado");
    NoSIsNotSunny("Parcialmente nublado");
  }

  /** A condition without the letter v cannot mention "lluvia". */
  lemma NoVIsNotRainy(condition: string)
    requires 'v' !in condition && 'V' !in condition
    ensures !IsRainy(condition)
  {
    LowerLetterSource(condition, 'v');
    assert "lluvia"[3] == 'v';
    ContainsNeedsChar(ToLower(condition), "lluvia", 3);
  }

  /** A condition without the letter s cannot mention "sol". */
  lemma NoSIsNotSunny(condition: string)
    requires 's' !in condition && 'S' !in condition
    ensures !IsSunny(condition)
  {
    LowerLetterSource(condition, 's');
    assert "sol"[0] == 's';
    ContainsNeedsChar(ToLower(condition), "sol", 0);
  }

  /** The scores the home-screen weather gives the catalog with no profile. */
  lemma HomeScreenScores()
    ensures var s := ScoredCatalog(HomeWeather, None);
      s[0].weatherScore == 70 && s[1].weatherScore == 50 && s[2].weatherScore == 50 &&
      s[3].weatherScore == 50 && s[4].weatherScore == 70
  {
    HomeWeatherIsPlain();
    assert HomeWeather.condition == "Parcialmente nublado";
  }

  lemma SortHomeTwo<T>(a4: T, a5: T, key: T -> int)
    requires key(a4) == -50 && key(a5) == -70
    ensures SortBy([a4, a5], key) == [a5, a4]
  {
    assert SortBy([a4, a5], key) == Insert(a4, SortBy([a5], key), key) by {
      SortStep(a4, [a5], key);
    }
    assert SortBy([a5], key) == [a5] by {
      SortStep(a5, [], key);
    }
    assert Insert(a4, [a5], key) == [a5, a4] by {
      assert Insert(a4, [], key) == [a4];
      InsertPast(a4, a5, [], key);
    }
  }
  lemma SortHomeThree<T>(a3: T, a4: T, a5: T, key: T -> int)
    requires key(a5) == -70 && key(a3) == -50 && key(a4) == -50
    ensures SortBy([a3, a4, a5], key) == [a5, a3, a4]
  {
    assert SortBy([a3, a4, a5], key) == Insert(a3, SortBy([a4, a5], key), key) by {
      assert [a3] + [a4, a5] == [a3, a4, a5];
      SortStep(a3, [a4, a5], key);
    }
    SortHomeTwo(a4, a5, key);
    assert Insert(a3, [a5, a4], key) == [a5, a3, a4] by {
      assert [a5] + [a4] == [a5, a4];
      assert [a5] + [a3, a4] == [a5, a3, a4];
      InsertFront(a3, a4, [], key);
      InsertPast(a3, a5, [a4], key);
    }
  }
  lemma SortHomeFour<T>(a2: T, a3: T, a4: T, a5: T, key: T -> int)
    requires key(a5) == -70 && key(a2) == -50 && key(a3) == -50 && key(a4) == -50
    ensures SortBy([a2, a3, a4, a5], key) == [a5, a2, a3, a4]
  {
    assert SortBy([a2, a3, a4, a5], key) == Insert(a2, SortBy([a3, a4, a5], key), key) by {
      assert [a2] + [a3, a4, a5] == [a2, a3, a4, a5];
      SortStep(a2, [a3, a4, a5], key);
    }
    SortHomeThree(a3, a4, a5, key);
    assert Insert(a2, [a5, a3, a4], key) == [a5, a2, a3, a4] by {
      assert [a5] + [a3, a4] == [a5, a3, a4];
      assert [a3] + [a4] == [a3, a4];
      assert [a2, a3] + [a4] == [a2, a3, a4];
      assert [a5] + [a2, a3, a4] == [a5, a2, a3, a4];
      InsertFront(a2, a3, [a4], key);
      InsertPast(a2, a5, [a3, a4], key);
    }
  }
  /** How the stable sort orders five items scored 70, 50, 50, 50, 70: the
      steps below insert one item at a time from the back. */
  lemma SortHomeScores<T>(a1: T, a2: T, a3: T, a4: T, a5: T, key: T -> int)
    requires key(a1) == -70 && key(a5) == -70
    requires key(a2) == -50 && key(a3) == -50 && key(a4) == -50
    ensures SortBy([a1, a2, a3, a4, a5], key) == [a1, a5, a2, a3, a4]
  {
    assert SortBy([a1, a2, a3, a4, a5], key) == Insert(a1, SortBy([a2, a3, a4, a5], key), key) by {
      assert [a1] + [a2, a3, a4, a5] == [a1, a2, a3, a4, a5];
      SortStep(a1, [a2, a3, a4, a5], key);
    }
    SortHomeFour(a2, a3, a4, a5, key);
    assert Insert(a1, [a5, a2, a3, a4], key) == [a1, a5, a2, a3, a4] by {
      assert [a5] + [a2, a3, a4] == [a5, a2, a3, a4];
      assert [a1, a5] + [a2, a3, a4] == [a1, a5, a2, a3, a4];
      InsertFront(a1, a5, [a2, a3, a4], key);
    }
  }

  /** With the home-screen weather and no profile, the two outdoor items score
      70, the rest 50, and the ranking is ids 1, 5, 2, 3, 4. */
  lemma HomeScreenRanking()
    ensures var r := GenerateRecommendations(HomeWeather, None);
      |r| == 5 &&
      r[0].id == "1" && r[1].id == "5" && r[2].id == "2" && r[3].id == "3" && r[4].id == "4" &&
      r[0].weatherScore == 70 && r[1].weatherScore == 70 &&
      r[2].weatherScore == 50 && r[3].weatherScore == 50 && r[4].weatherScore == 50
  {
    var s := ScoredCatalog(HomeWeather, None);
    HomeScreenScores();
    assert s == [s[0], s[1], s[2], s[3], s[4]];
    SortHomeScores(s[0], s[1], s[2], s[3], s[4], DescendingScore);
  }

  /** The condition words are Spanish: an English "rainy" is not rain, so an
      outdoor item at 24 degrees still gets the +20 rule. */
  lemma EnglishRainyIsNotRain(activity: RecommendedActivity)
    requires activity.category == Outdoor
    ensures ScoreActivity(activity, CurrentWeather(24, "rainy", 65, 12), None).weatherScore == 70
  {
    LowerLetterSource("rainy", 'v');
    ContainsNeedsChar(ToLower("rainy"), "lluvia", 3);
    LowerLetterSource("rainy", 'o');
    ContainsNeedsChar(ToLower("rainy"), "sol", 1);
  }

  /** A Spanish "Soleado" is sunny: an outdoor item at 24 degrees scores 85. */
  lemma SoleadoIsSunny(activity: RecommendedActivity)
    requires activity.category == Outdoor
    ensures ScoreActivity(activity, CurrentWeather(24, "Soleado", 65, 12), None).weatherScore == 85
  {
    var low := ToLower("Soleado");
    assert low[..3] == "sol";
    assert OccursAt(low, "sol", 0);
    LowerLetterSource("Soleado", 'v');
    ContainsNeedsChar(low, "lluvia", 3);
  }
}
