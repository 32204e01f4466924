# rainapse decision rules in Dafny

rainapse is a weather-aware activity planner written as a React front end
over mock data. This project models the decision rules and the state changes
buried in its components, and proves what each one promises:

- the **activity recommendation scorer** of the home screen: a five-item
  catalog; a first-match-wins cascade keyed on category and weather, where
  rain and sun are the Spanish substrings `lluvia` and `sol` of the
  lower-cased condition; profile bonuses; a clamp to [0, 100]; a default
  reason; a stable sort by score, highest first; and the "first three unless
  show all" display rule;
- the **onboarding survey**: the ten-question table, and the screen's state
  (step, answers, text input, selected options) with its Next, Previous and
  option-toggle transitions, their guards and the `'Ninguna'` sentinel;
- the **daily schedule**: the list sorted by `HH:MM` start time, the button
  that appends an activity generated from a template at a random half hour,
  and the date navigation;
- the **14-day favourability heat map**: the loop that builds one scored
  entry per day, the colour and opacity bands, and the three best upcoming
  days;
- the small **threshold classifiers**:
  - weather to status (activity weather card);
  - precipitation to colour (hourly slider);
  - favourability to class, and the first two excellent days (best-days
    calendar);
  - duration to card height (activity card);
- the **location picker**: a case-insensitive, order-preserving substring
  filter over four locations, and the selection that closes the dialog.

Random draws and dates are parameters:
- dates are whole day numbers, counted from 1970-01-01, a Thursday;
- each `Math.random()` is a real in [0, 1), or the integer it is turned into;
- `Date.now()` ids are strings supplied by the caller.

JavaScript's `Array.prototype.sort` with a consistent comparator is stable.
It is modelled by a stable insertion sort (`Collections.SortBy`), which is
proved to be a permutation, ordered, and the *only* stable ordering
(`Collections.StableSortUnique`). Concrete rankings therefore say exactly
what the browser shows.

`Strings` models three string operations:
- `toLowerCase` (ASCII letters only);
- `includes` as a substring test;
- `trim` over the ECMAScript whitespace and line-terminator characters.

Where the code and its own description disagree, the model follows the code:
- The scorer tests the Spanish substrings "lluvia"/"sol", not English words.
  `ActivityRecommendations.EnglishRainyIsNotRain` shows that an English
  "rainy" is not treated as rain.
- The heat map's activity bonus tests the case-sensitive substring
  "exterior".
- The survey's sentinel is `'Ninguna'`, while the listed option is `'None'`.
  This quirk is kept as written. `OnboardingChatbot.SentinelNeverOffered`
  and `OnboardingChatbot.NoneKeepsOtherConditions` show its effect: picking
  `'None'` does not clear the other conditions.

## Model

| member | source | states |
|---|---|---|
| Strings.ToLower | src/components/MapSelector.tsx:54 | lower-casing keeps the length and maps each character through `LowerChar` (ASCII upper case to lower case, everything else unchanged) |
| Strings.ToLowerIdempotent | src/components/MapSelector.tsx:54 | lower-casing twice is lower-casing once |
| Strings.LowerLetterSource | src/components/ActivityRecommendations.tsx:100-101 | a lower-case letter occurs in the lower-cased string only if it or its upper-case form occurs in the original |
| Strings.NonLetterSource | src/components/MapSelector.tsx:54 | a character that is not an ASCII letter occurs in the lower-cased string only if it occurs in the original |
| Strings.Contains | src/components/MapSelector.tsx:54 | `includes` holds when the pattern occurs at some position, which needs a pattern no longer than the string |
| Strings.ContainsEmpty | src/components/MapSelector.tsx:54 | every string includes the empty string |
| Strings.ContainsNeedsChar | src/components/ActivityRecommendations.tsx:100-101 | a string cannot include a pattern containing a character the string lacks |
| Strings.LeadingWhitespace | src/components/OnboardingChatbot.tsx:295-296 | the counted prefix is all whitespace and the next character, if any, is not whitespace |
| Strings.TrailingWhitespace | src/components/OnboardingChatbot.tsx:295-296 | the counted suffix is all whitespace and the character before it, if any, is not whitespace |
| Strings.Trim | src/components/OnboardingChatbot.tsx:295-296 | the result is a contiguous part of the input, surrounded only by whitespace, and neither starts nor ends with whitespace |
| Strings.TrimEmptyIffBlank | src/components/OnboardingChatbot.tsx:295 | a string trims to nothing exactly when it is all whitespace |
| Strings.TrimIdempotent | src/components/OnboardingChatbot.tsx:296 | trimming a trimmed string changes nothing |
| Collections.Filter | src/components/MapSelector.tsx:53-55 | the result is at most as long as the input, holds only input elements that pass, and holds every input element that passes |
| Collections.FilterConcat | src/components/MapSelector.tsx:53-55 | filtering distributes over concatenation, which preserves order |
| Collections.FilterKeepsAll | src/components/MapSelector.tsx:53-55 | when every element passes, the filter returns the input unchanged |
| Collections.FilterDropsAll | src/components/WeatherHeatMap.tsx:62 | when no element passes, the filter returns the empty list |
| Collections.FilterAgree | src/components/MapSelector.tsx:53-55 | two tests that agree on every element filter alike |
| Collections.FilterDrop | src/components/BestDaysCalendar.tsx:43 | a failing head is skipped |
| Collections.FilterKeep | src/components/BestDaysCalendar.tsx:43 | a passing head is kept in front |
| Collections.FilterInOrder | src/components/MapSelector.tsx:53-55 | the filter result is the subsequence of the input taken at strictly increasing positions, and those positions are exactly the ones whose element passes |
| Collections.FilterPosition | src/components/BestDaysCalendar.tsx:43 | the i-th element the filter returns stands in the input after exactly i passing elements |
| Collections.Insert | src/components/ActivityRecommendations.tsx:145 | inserting adds exactly one element |
| Collections.InsertPermutes | src/components/ActivityRecommendations.tsx:145 | the inserted sequence holds the old elements plus the new one, as a multiset |
| Collections.InsertSorted | src/components/ActivityRecommendations.tsx:145 | inserting into an ordered sequence keeps it ordered |
| Collections.SortBy | src/components/ActivityRecommendations.tsx:145 | the sort keeps the length and orders by non-decreasing key |
| Collections.SortByPermutes | src/components/ActivityRecommendations.tsx:145 | the sort is a permutation of its input |
| Collections.SortByKeepsProperty | src/components/WeatherHeatMap.tsx:61-64 | sorting keeps any property all elements share |
| Collections.SortByIsStableSort | src/components/ActivityRecommendations.tsx:145 | the sort is ordered, and elements with equal keys keep their input order |
| Collections.StableSortUnique | src/components/ActivityRecommendations.tsx:145 | any two stable sorts of the same input are equal, so the modelled sort is the browser's |
| Collections.SortedPrefixDominates | src/components/WeatherHeatMap.tsx:63-64 | an element left out of a sorted prefix has a key no smaller than any key in the prefix |
| ActivityRecommendations.WeatherAdjustment | src/components/ActivityRecommendations.tsx:103-126 | the cascade gives a reason exactly when it changes the score; outdoor changes lie in [-40, 35], indoor changes are 0, 15 or 25, and exercise and leisure items are untouched |
| ActivityRecommendations.ProfileBonus | src/components/ActivityRecommendations.tsx:128-138 | an absent profile adds nothing; outdoor and indoor items gain nothing; exercise gains 0, 15, 20 or 35; leisure gains 0 or 10 |
| ActivityRecommendations.Clamp | src/components/ActivityRecommendations.tsx:142 | the result lies in [0, 100], equals the input inside that range, and is the nearer bound outside it |
| ActivityRecommendations.ScoreActivity | src/components/ActivityRecommendations.tsx:95-144 | scoring changes only the score and the reason; the score lies in [0, 100] and the reason is never empty |
| ActivityRecommendations.ScoredCatalog | src/components/ActivityRecommendations.tsx:36-95 | the scored list has one entry per catalog item, in catalog order |
| ActivityRecommendations.GenerateRecommendations | src/components/ActivityRecommendations.tsx:35-146 | the result has five items, is a permutation of the scored catalog, is in non-increasing score order, and every score lies in [0, 100] with a non-empty reason |
| ActivityRecommendations.RankingFacts | src/components/ActivityRecommendations.tsx:145 | sorting scored items by descending score keeps them, orders them and keeps every score in range |
| ActivityRecommendations.RecommendationsStable | src/components/ActivityRecommendations.tsx:145 | items with equal scores stay in catalog order |
| ActivityRecommendations.RainyOutdoorScore | src/components/ActivityRecommendations.tsx:100-107 | an outdoor item under a condition containing "lluvia" in any case scores exactly 10, with the rain reason, whatever the temperature or profile |
| ActivityRecommendations.OutdoorCascade | src/components/ActivityRecommendations.tsx:108-117 | without rain: sunny and 18..28 gives 85; else 15..30 gives 70; else below 10 or above 35 gives 30; else 50 with the default reason |
| ActivityRecommendations.IndoorRules | src/components/ActivityRecommendations.tsx:118-126 | an indoor item scores 75 in rain, else 65 below 15 or above 30 degrees, else 50 with the default reason |
| ActivityRecommendations.ExerciseLeisureIgnoreWeather | src/components/ActivityRecommendations.tsx:103-126 | exercise and leisure items score the same under any weather, with the default reason |
| ActivityRecommendations.ProfileTerms | src/components/ActivityRecommendations.tsx:128-138 | for exercise and leisure: 50, plus 15 for 'muy activo' exercise, plus 10 for 'sedentario' leisure, plus 20 for the 'perder peso' goal on exercise |
| ActivityRecommendations.ClampNeverBinds | src/components/ActivityRecommendations.tsx:142 | the raw score always lies in [10, 85], so the clamp never changes it |
| ActivityRecommendations.AbsentProfileIsNeutral | src/components/ActivityRecommendations.tsx:128-138 | a missing profile ranks exactly like a profile that matches no bonus rule |
| ActivityRecommendations.SunAndRainOrderCategories | src/components/ActivityRecommendations.tsx:104-126 | ideal sunshine puts an outdoor item 35 points above an indoor one; rain puts the indoor one 65 points above |
| ActivityRecommendations.DisplayedRecommendations | src/components/ActivityRecommendations.tsx:149 | the shown list is the whole list when `showAll`, otherwise its first min(3, n) items |
| ActivityRecommendations.ToggleAdvertisesHidden | src/components/ActivityRecommendations.tsx:221-229 | when the toggle shows (n > 3), the collapsed list plus the advertised n - 3 make up the whole list; otherwise the collapsed list is the whole list |
| ActivityRecommendations.ScoreColor | src/components/ActivityRecommendations.tsx:161-165 | green exactly from 80, yellow exactly on [60, 80), orange exactly below 60 |
| ActivityRecommendations.ScoreColorMonotone | src/components/ActivityRecommendations.tsx:161-165 | a higher score never gets a less favourable colour |
| ActivityRecommendations.NoVIsNotRainy | src/components/ActivityRecommendations.tsx:100 | a condition without the letter v is never rain |
| ActivityRecommendations.NoSIsNotSunny | src/components/ActivityRecommendations.tsx:101 | a condition without the letter s is never sun |
| ActivityRecommendations.HomeWeatherIsPlain | src/components/HomeSection.tsx:26-31 | "Parcialmente nublado" is neither rain nor sun |
| ActivityRecommendations.HomeScreenScores | src/components/HomeSection.tsx:26-31 | under the home-screen weather the catalog scores 70, 50, 50, 50, 70 |
| ActivityRecommendations.SortHomeScores | src/components/ActivityRecommendations.tsx:145 | five items scored 70, 50, 50, 50, 70 sort stably to positions 1, 5, 2, 3, 4 |
| ActivityRecommendations.HomeScreenRanking | src/components/ActivityRecommendations.tsx:95-145 | with the home-screen weather and no profile the ranking is ids 1, 5, 2, 3, 4, scored 70, 70, 50, 50, 50 |
| ActivityRecommendations.EnglishRainyIsNotRain | src/components/ActivityRecommendations.tsx:100-101 | an English "rainy" is not rain: an outdoor item at 24 degrees scores 70 |
| ActivityRecommendations.SoleadoIsSunny | src/components/ActivityRecommendations.tsx:101 | "Soleado" is sun: an outdoor item at 24 degrees scores 85 |
| OnboardingChatbot.QuestionsTable | src/components/OnboardingChatbot.tsx:38-175 | ten questions on ten different fields; list-valued fields are exactly the multiselect ones; text questions exactly those without options |
| OnboardingChatbot.SentinelNeverOffered | src/components/OnboardingChatbot.tsx:66 | no question offers 'Ninguna'; the health question offers 'None' |
| OnboardingChatbot.Progress | src/components/OnboardingChatbot.tsx:289 | progress lies in [10, 100] and is 100 exactly on the last step |
| OnboardingChatbot.ProgressIncreasing | src/components/OnboardingChatbot.tsx:289 | a later step shows more progress |
| OnboardingChatbot.StoredValue | src/components/OnboardingChatbot.tsx:294-303 | Next stores a value exactly when `canProceed` holds; text is stored as the trimmed input, never empty; a multiselect stores the selection or the empty list; a select stores its first option |
| OnboardingChatbot.CanProceed | src/components/OnboardingChatbot.tsx:369-374 | a text question can proceed exactly when its input is not all whitespace, any other question exactly when something is selected |
| OnboardingChatbot.NextBlockedIffBlank | src/components/OnboardingChatbot.tsx:369-374 | Next is blocked exactly on blank text input or an empty selection |
| OnboardingChatbot.StoredTextIsTrimmed | src/components/OnboardingChatbot.tsx:296 | stored text is the trimmed input, which starts and ends with non-whitespace and trims to itself |
| OnboardingChatbot.SentinelStoresEmpty | src/components/OnboardingChatbot.tsx:299 | a non-empty multiselect stores the empty list exactly when it contains 'Ninguna' |
| OnboardingChatbot.WithoutMembership | src/components/OnboardingChatbot.tsx:359-360 | removing an option keeps exactly the other options |
| OnboardingChatbot.WithoutInOrder | src/components/OnboardingChatbot.tsx:358-360 | removing an option keeps the other options in their order, each at most once |
| OnboardingChatbot.ToggleOption | src/components/OnboardingChatbot.tsx:351-367 | single select and 'Ninguna' give just that option; otherwise a selected option is removed, keeping the rest, and an absent one is appended at the end after the selection without 'Ninguna' |
| OnboardingChatbot.ToggleMembership | src/components/OnboardingChatbot.tsx:358-360 | a toggle leaves every other option as it was, except that 'Ninguna' is dropped when an option is added |
| OnboardingChatbot.WithoutNoDuplicates | src/components/OnboardingChatbot.tsx:359-360 | removing an option keeps a duplicate-free selection duplicate-free |
| OnboardingChatbot.ToggleWellFormed | src/components/OnboardingChatbot.tsx:351-367 | toggling keeps the selection duplicate-free, and 'Ninguna' never sits alongside another option |
| OnboardingChatbot.ToggleTwice | src/components/OnboardingChatbot.tsx:358-360 | toggling an absent option twice restores the selection |
| OnboardingChatbot.NoneKeepsOtherConditions | src/components/OnboardingChatbot.tsx:351-360 | picking the listed 'None' does not clear the other health conditions |
| OnboardingChatbot.BuildProfile | src/components/OnboardingChatbot.tsx:318-329 | every profile field holds the stored answer when it has the field's shape, and '' or [] otherwise |
| OnboardingChatbot.BuildProfileComplete | src/components/OnboardingChatbot.tsx:318-329 | every profile field holds the stored answer, or '' or [] when unanswered |
| OnboardingChatbot.Restore | src/components/OnboardingChatbot.tsx:338-347 | a string answer goes back into the text input of a text question and becomes the one-element selection of a choice question; a list answer becomes the selection; with no answer the inputs stay; the other input is never touched |
| OnboardingChatbot.RestoreThenNextStoresSame | src/components/OnboardingChatbot.tsx:334-348 | whatever the inputs hold when Previous is pressed, going back and pressing Next stores the same answer again, except a multiselect stored empty by the sentinel |
| OnboardingChatbot.RestoredSentinelBlocksNext | src/components/OnboardingChatbot.tsx:299-346 | whatever the inputs hold when Previous is pressed, a multiselect answered with 'Ninguna' restores an empty selection, on which Next is blocked |
| OnboardingChatbot.SurveyScreen.constructor | src/components/OnboardingChatbot.tsx:283-286 | the survey starts on step 0 with no answers and empty inputs |
| OnboardingChatbot.SurveyScreen.SetTextInput | src/components/OnboardingChatbot.tsx:416 | typing changes only the text input |
| OnboardingChatbot.SurveyScreen.HandleOptionToggle | src/components/OnboardingChatbot.tsx:351-367 | the selection becomes the toggled selection; nothing else changes |
| OnboardingChatbot.SurveyScreen.HandleNext | src/components/OnboardingChatbot.tsx:291-332 | a blocked Next changes nothing; otherwise the answer is stored under the question's field, the inputs are cleared, and the step advances, or on the last step the completed profile is returned |
| OnboardingChatbot.SurveyScreen.HandlePrevious | src/components/OnboardingChatbot.tsx:334-349 | a no-op at step 0; otherwise one step back with the stored answer restored into the inputs; answers are untouched |
| ActivityCard.HeightClass | src/components/ActivityCard.tsx:19-25 | the card height is one of the four classes |
| ActivityCard.HeightMonotone | src/components/ActivityCard.tsx:19-25 | a longer activity never gets a shorter card |
| ActivityCard.HeightBoundaries | src/components/ActivityCard.tsx:21-24 | up to 30 is h-16, 31-60 is h-20, 61-120 is h-24, above 120 is h-28; each boundary belongs to the lower class |
| ScheduleSection.Minutes | src/components/ScheduleSection.tsx:130-133 | an "HH:MM" time gets a key within [0, 6039]; the values of the program's own times are stated by InitialTimes and GeneratedTimeMinutes |
| ScheduleSection.SortedActivities | src/components/ScheduleSection.tsx:129-135 | the sorted copy is a permutation of the list, in non-decreasing start-minute order |
| ScheduleSection.SortedActivitiesStable | src/components/ScheduleSection.tsx:129-135 | activities starting at the same time keep their list order |
| ScheduleSection.InitialTimes | src/components/ScheduleSection.tsx:25-64 | the initial start times read 540, 1020, 780 and 1200 minutes |
| ScheduleSection.InitialOrder | src/components/ScheduleSection.tsx:25-135 | the initial day is shown as ids 1, 3, 2, 4 |
| ScheduleSection.Pad2 | src/components/ScheduleSection.tsx:169 | `padStart(2, "0")` gives two digits that read back as the number |
| ScheduleSection.GeneratedTime | src/components/ScheduleSection.tsx:166-169 | the generated time is an "HH:MM" string whose hour digits read hourIndex + 6 and whose minutes are "30" or "00" as drawn |
| ScheduleSection.GeneratedTimeMinutes | src/components/ScheduleSection.tsx:166-169 | the generated time reads back as the drawn hour and minute, a half-hour mark in [06:00, 23:30] |
| ScheduleSection.GeneratedActivity | src/components/ScheduleSection.tsx:172-188 | the new activity has the given id and copies its title, location, description, colour and duration from the drawn template |
| ScheduleSection.ScheduleState.constructor | src/components/ScheduleSection.tsx:24-64 | the schedule starts with the four initial activities on today's date |
| ScheduleSection.ScheduleState.Sorted | src/components/ScheduleSection.tsx:129 | the displayed list holds the same activities as the state, in non-decreasing start-minute order |
| ScheduleSection.ScheduleState.AddActivity | src/components/ScheduleSection.tsx:165-192 | exactly one generated activity is appended, the others and the date unchanged |
| ScheduleSection.ScheduleState.ChangeDate | src/components/ScheduleSection.tsx:159-163 | the date moves by the given number of days; the list is unchanged |
| ScheduleSection.ScheduleState.SelectDate | src/components/ScheduleSection.tsx:225-227 | a picked day replaces the shown one; no pick changes nothing |
| ScheduleSection.AddedActivityShown | src/components/ScheduleSection.tsx:129-191 | after adding, the displayed list holds the old activities plus the new one |
| WeatherHeatMap.Weekday | src/components/WeatherHeatMap.tsx:28 | the weekday lies in 0..6 |
| WeatherHeatMap.WeekdayNext | src/components/WeatherHeatMap.tsx:25-28 | consecutive days have consecutive weekdays, Saturday followed by Sunday, repeating every seven days |
| WeatherHeatMap.Round | src/components/WeatherHeatMap.tsx:35-36 | `Math.round` gives the integer within a half below or above |
| WeatherHeatMap.RoundMonotone | src/components/WeatherHeatMap.tsx:35-36 | rounding is monotone |
| WeatherHeatMap.DayFor | src/components/WeatherHeatMap.tsx:24-38 | each entry has its date, a score in [30, 100], a temperature in [18, 30] and one of three conditions |
| WeatherHeatMap.WeekendBonus | src/components/WeatherHeatMap.tsx:30 | the bonus is 0 or 15, and 15 exactly on Sundays and Saturdays |
| WeatherHeatMap.ActivityBonus | src/components/WeatherHeatMap.tsx:31 | without the word "exterior" the bonus is 10; with it, a draw in [0, 1) gives a bonus in [0, 20) |
| WeatherHeatMap.WeekendBonusDays | src/components/WeatherHeatMap.tsx:30 | the bonus is 15 exactly on weekdays 0 and 6, and 0 exactly on 1..5 |
| WeatherHeatMap.WeekendNeverWorse | src/components/WeatherHeatMap.tsx:29-35 | with the same draws a weekend day never scores below a weekday |
| WeatherHeatMap.ActivityBonusRange | src/components/WeatherHeatMap.tsx:31 | without the case-sensitive word "exterior" the bonus is exactly 10; with it, a draw in [0, 20); "Exterior" does not count |
| WeatherHeatMap.GenerateWeatherData | src/components/WeatherHeatMap.tsx:18-42 | the loop returns exactly 14 entries, entry i being the day currentDate - 3 + i scored from the i-th draws |
| WeatherHeatMap.GeneratedDays | src/components/WeatherHeatMap.tsx:18-42 | a generated map covers the fortnight from three days ago; every score lies in [30, 100] and every temperature in [18, 30]; entries after today are exactly those from index 4 on |
| WeatherHeatMap.ScoreColor | src/components/WeatherHeatMap.tsx:47-52 | green exactly from 80, yellow exactly on [60, 80), orange exactly on [40, 60), red exactly below 40 |
| WeatherHeatMap.ScoreOpacity | src/components/WeatherHeatMap.tsx:54-59 | opacity-90 exactly from 80, opacity-70 exactly on [60, 80), opacity-50 exactly on [40, 60), opacity-30 exactly below 40 |
| WeatherHeatMap.ColorMatchesOpacity | src/components/WeatherHeatMap.tsx:47-59 | two scores share a colour exactly when they share an opacity |
| WeatherHeatMap.BestDays | src/components/WeatherHeatMap.tsx:61-64 | at most 3 days, min(3, number of upcoming days) of them, a sub-multiset of the upcoming days, all strictly after today, in non-increasing score order |
| WeatherHeatMap.BestDaysTopOfStableSort | src/components/WeatherHeatMap.tsx:61-64 | the best days are the first three entries of any stable sort of the upcoming days by descending score, so ties keep calendar order |
| WeatherHeatMap.BestDaysAreBest | src/components/WeatherHeatMap.tsx:61-64 | an upcoming day left out scores no higher than any chosen day |
| WeatherHeatMap.BestDaysOfGeneratedMap | src/components/WeatherHeatMap.tsx:18-64 | for a generated map the upcoming days are its last ten entries, so exactly three best days are shown |
| WeatherActivityCard.WeatherRecommendation | src/components/WeatherActivityCard.tsx:35-53 | the status is poor exactly when the condition is rainy |
| WeatherActivityCard.StatusConditions | src/components/WeatherActivityCard.tsx:40-52 | excellent, good and fair are each given exactly under their conditions, in cascade order |
| WeatherActivityCard.StatusFixesAdvice | src/components/WeatherActivityCard.tsx:40-52 | the status fixes the message and colour, and no two statuses share either |
| WeatherActivityCard.HumidityAndWindNeverHelp | src/components/WeatherActivityCard.tsx:44-52 | more humidity or more wind never improves the status |
| WeatherActivityCard.RainIsPoor | src/components/WeatherActivityCard.tsx:40-42 | rain is poor with the rain message, whatever the temperature, humidity or wind |
| WeatherActivityCard.DetailScreenIsExcellent | src/components/ActivityDetailSection.tsx:126-133 | 24 degrees, 65 % humidity, 12 km/h wind and partly cloudy is excellent |
| HourlyWeatherSlider.HourlyTableShape | src/components/HourlyWeatherSlider.tsx:21-41 | nineteen rows for hours 5 to 23 in order, precipitation in [0, 100] |
| HourlyWeatherSlider.FindIndex | src/components/HourlyWeatherSlider.tsx:44 | `findIndex` gives the first index whose element passes, or -1 when none does |
| HourlyWeatherSlider.FindIndexFirst | src/components/HourlyWeatherSlider.tsx:44 | if element k passes and none before it does, `findIndex` returns k |
| HourlyWeatherSlider.ActivityHourRow | src/components/HourlyWeatherSlider.tsx:21-44 | the activity hour "17:00" is row 12 |
| HourlyWeatherSlider.HourIndex | src/components/HourlyWeatherSlider.tsx:44 | the index is -1 or a row carrying the time, and no earlier row carries it |
| HourlyWeatherSlider.HourIndexAbsent | src/components/HourlyWeatherSlider.tsx:44 | a time no row carries has index -1 |
| HourlyWeatherSlider.ConditionColor | src/components/HourlyWeatherSlider.tsx:46-51 | the text colour lies on the condition scale |
| HourlyWeatherSlider.BadgeClass | src/components/HourlyWeatherSlider.tsx:100-108 | the badge class lies on the badge scale |
| HourlyWeatherSlider.FavorabilityColor | src/components/HourlyWeatherSlider.tsx:53-58 | the colour lies on the favourability scale |
| HourlyWeatherSlider.ColoringsFollowBand | src/components/HourlyWeatherSlider.tsx:46-108 | each colouring picks the entry of its scale at the precipitation band |
| HourlyWeatherSlider.ColoringsAgree | src/components/HourlyWeatherSlider.tsx:46-108 | two precipitation values share a favourability colour exactly when they share a condition colour, and exactly when they share a badge |
| HourlyWeatherSlider.FavorabilityMonotone | src/components/HourlyWeatherSlider.tsx:53-58 | more rain never gives a more favourable colour |
| HourlyWeatherSlider.FavorabilityBands | src/components/HourlyWeatherSlider.tsx:53-58 | 0 is green, 1-15 yellow, 16-30 orange, above 30 red, each exactly |
| BestDaysCalendar.Weeks | src/components/BestDaysCalendar.tsx:69-82 | the first row holds min(7, n) days and the two rows together are the first min(14, n) days, in order |
| BestDaysCalendar.WeeksCoverDays | src/components/BestDaysCalendar.tsx:69-82 | fourteen days split into two rows of seven that together are the whole table, in order |
| BestDaysCalendar.CalendarHasFourteenDays | src/components/BestDaysCalendar.tsx:17-32 | the table holds days 2 to 15 in order |
| BestDaysCalendar.BestUpcomingDays | src/components/BestDaysCalendar.tsx:43 | at most two days, each excellent and from the table, the i-th listed day having exactly i excellent days before it in the table |
| BestDaysCalendar.PanelShownIffExcellentDay | src/components/BestDaysCalendar.tsx:43-109 | the panel shows exactly when some day is excellent, listing min(2, number of excellent days) |
| BestDaysCalendar.ExcellentThirdAndFourth | src/components/BestDaysCalendar.tsx:43 | two non-excellent days followed by two excellent ones: the panel lists the latter two |
| BestDaysCalendar.FixedBestDays | src/components/BestDaysCalendar.tsx:17-43 | for the fixed table the panel lists day 4 and day 5 |
| BestDaysCalendar.ColorClass | src/components/BestDaysCalendar.tsx:34-40 | excellent, good, fair and poor get green-500, green-400, yellow-400 and orange-400 classes in turn, and the class is gray exactly for any other string |
| BestDaysCalendar.ColorClassDistinct | src/components/BestDaysCalendar.tsx:34-40 | the four bands get four different, non-gray classes; any other string gets gray |
| BestDaysCalendar.DayName | src/components/BestDaysCalendar.tsx:124-129 | L, M, X, J, V, S name Lunes to Sábado in order, and the name is Domingo exactly for any other letter |
| BestDaysCalendar.DayNamesDistinct | src/components/BestDaysCalendar.tsx:124-129 | the column letters L to D name Lunes to Domingo in order, seven different weekdays; any other letter reads Domingo |
| MapSelector.FilteredLocations | src/components/MapSelector.tsx:53-55 | the result holds exactly the locations whose lower-cased address includes the lower-cased query, taken at strictly increasing positions of the list, so each at most once and in order |
| MapSelector.EmptyQueryListsAll | src/components/MapSelector.tsx:53-55 | an empty query lists all four locations |
| MapSelector.CaseInsensitive | src/components/MapSelector.tsx:54 | queries that differ only in letter case list the same locations |
| MapSelector.AccentAbsentNoMatch | src/components/MapSelector.tsx:54 | an address without "á" never matches "Bogotá" |
| MapSelector.AccentedSearch | src/components/MapSelector.tsx:23-55 | searching "Bogotá" lists only Bogotá |
| MapSelector.MapSelectorState.constructor | src/components/MapSelector.tsx:19-20 | an empty query and a closed dialog |
| MapSelector.MapSelectorState.SetSearchQuery | src/components/MapSelector.tsx:19 | typing changes only the query |
| MapSelector.MapSelectorState.SetOpen | src/components/MapSelector.tsx:58 | opening or closing the dialog changes only whether it is open |
| MapSelector.MapSelectorState.HandleLocationClick | src/components/MapSelector.tsx:30-33 | exactly the clicked location is handed on, and the dialog closes |
| MapSelector.MapSelectorState.HandleCurrentLocation | src/components/MapSelector.tsx:38-44 | the reported position is selected under the address "Mi ubicación actual", and the dialog closes |

## Left out

- Rendering is not modelled: JSX, icons, titles, descriptions and the `./ui/*` components, including `getCategoryColor`, the question titles and descriptions, and the calendar and dialog widgets.
- Randomness is not modelled: every `Math.random()` is a parameter with its stated range. The survey's random chat tip and `Date.now()` ids are outside the model.
- Floating point: reals are exact, so double rounding in `Math.random() * k` is not captured.
- Dates: dates are day numbers; time zones, daylight saving, `toDateString`, `toLocaleDateString` and `formatDate` are left out.
- Case folding: `toLowerCase` is modelled on ASCII letters only; other characters (such as "Á") are left unchanged.
- Device and storage APIs: browser geolocation (the request and its error path) and localStorage/JSON persistence and routing in `App.tsx` are left out. For geolocation, the reported position is a parameter of `MapSelector.MapSelectorState.HandleCurrentLocation`.
- Log-only handlers and the literal-only display components (maps, weather card, unfavourable-weather section, navigation, home and profile screens) hold no logic beyond display.
- The profile screen and the home screen pass records whose fields do not match the declared types. The scorer's profile is its own optional record, as declared beside the scorer.
- ScheduleSection.Minutes: the source splits any string at ":" and reads the numbers on either side, so "9:00" reads 540 and a string without numbers reads NaN. The model reads only five-character "HH:MM" strings and maps every other string to 0; every time the program starts with or creates is "HH:MM". Its contract states only the range of the key.
- HourlyWeatherSlider.HourIndex: `findIndex` takes the hour table as a parameter; the strip's highlighting of that row is display.
- OnboardingChatbot.SurveyScreen.HandleNext: the completed profile is returned rather than passed to `onComplete`.
- WeatherHeatMap.GenerateWeatherData: the condition draw is the index `Math.floor(Math.random() * 3)`, given directly as 0, 1 or 2.
