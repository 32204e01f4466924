/** The two-week favourability calendar (src/components/BestDaysCalendar.tsx):
    a fixed table of fourteen days shown as two weeks, a colour per
    favourability, and a panel listing the first two excellent days. */
module BestDaysCalendar {
  import opened Collections

  datatype DayData = DayData(day: int, dayName: string, temperature: int, condition: string, favorability: string)

  const Days: seq<DayData> := [
    DayData(2, "L", 25, "Soleado", "fair"),
    DayData(3, "M", 24, "Soleado", "fair"),
    DayData(4, "X", 26, "Parcialmente nublado", "excellent"),
    DayData(5, "J", 22, "Soleado", "excellent"),
    DayData(6, "V", 19, "Nublado", "fair"),
    DayData(7, "S", 20, "Lluvia ligera", "poor"),
    DayData(8, "D", 25, "Lluvia", "poor"),
    DayData(9, "L", 28, "Soleado", "fair"),
    DayData(10, "M", 21, "Soleado", "fair"),
    DayData(11, "X", 25, "Nublado", "fair"),
    DayData(12, "J", 24, "Soleado", "excellent"),
    DayData(13, "V", 22, "Lluvia ligera", "poor"),
    DayData(14, "S", 20, "Soleado", "poor"),
    DayData(15, "D", 25, "Lluvia", "poor")
  ]

  /** The rows of the calendar: `slice(0, 7)` and `slice(7, 14)`. */
  function Weeks(days: seq<DayData>): (w: (seq<DayData>, seq<DayData>))
    ensures |w.0| == Min(7, |days|) && |w.1| == Min(14, |days|) - Min(7, |days|)
    ensures w.0 + w.1 == days[..Min(14, |days|)]
  {
    (days[..Min(7, |days|)], days[Min(7, |days|)..Min(14, |days|)])
  }

  function Min(a: int, b: int): int
  {
    if a <= b then a else b
  }

  /** For fourteen days the two rows have seven days each and together show
      every day once, in order. */
  lemma WeeksCoverDays(days: seq<DayData>)
    requires |days| == 14
    ensures |Weeks(days).0| == 7 && |Weeks(days).1| == 7
    ensures Weeks(days).0 + Weeks(days).1 == days
  {
  }

  lemma CalendarHasFourteenDays()
    ensures |Days| == 14
    ensures forall i :: 0 <= i < |Days| ==> Days[i].day == i + 2
  {
  }

  predicate IsExcellent(d: DayData)
  {
    d.favorability == "excellent"
  }

  /** `bestUpcomingDays`: the first excellent days in calendar order, at most
      two: the `i`-th one listed has exactly `i` excellent days before it. */
  function BestUpcomingDays(days: seq<DayData>): (r: seq<DayData>)
    ensures |r| <= 2
    ensures forall i :: 0 <= i < |r| ==> IsExcellent(r[i]) && r[i] in days
    ensures forall i :: 0 <= i < |r| ==> PrecededBy(days, IsExcellent, r[i], i)
  {
    FilterPositions(days, IsExcellent);
    var excellent := Filter(days, IsExcellent);
    excellent[..Min(2, |excellent|)]
  }

  /** The panel is shown exactly when some day is excellent, and it lists two
      days whenever two are excellent. */
  lemma PanelShownIffExcellentDay(days: seq<DayData>)
    ensures |BestUpcomingDays(days)| > 0 <==> exists i :: 0 <= i < |days| && IsExcellent(days[i])
    ensures |BestUpcomingDays(days)| == Min(2, |Filter(days, IsExcellent)|)
  {
    var r := BestUpcomingDays(days);
    if |r| > 0 {
      var k :| 0 <= k < |days| && days[k] == r[0];
      assert IsExcellent(days[k]);
    }
    if exists i :: 0 <= i < |days| && IsExcellent(days[i]) {
      var i :| 0 <= i < |days| && IsExcellent(days[i]);
      assert days[i] in Filter(days, IsExcellent);
    }
  }

  /** Two days that are not excellent followed by two that are: the panel
      lists the latter two. */
  lemma ExcellentThirdAndFourth(days: seq<DayData>)
    requires |days| >= 4
    requires !IsExcellent(days[0]) && !IsExcellent(days[1])
    requires IsExcellent(days[2]) && IsExcellent(days[3])
    ensures BestUpcomingDays(days) == [days[2], days[3]]
  {
    FirstTwoAfterTwo(days, IsExcellent);
    var e := Filter(days, IsExcellent);
    assert e[..2] == [days[2], days[3]];
  }

  /** Two elements failing `p` and then two passing it: the filtered sequence
      starts with the latter two. */
  lemma FirstTwoAfterTwo<T>(s: seq<T>, p: T -> bool)
    requires |s| >= 4
    requires !p(s[0]) && !p(s[1]) && p(s[2]) && p(s[3])
    ensures |Filter(s, p)| >= 2 && Filter(s, p)[0] == s[2] && Filter(s, p)[1] == s[3]
  {
    var s1, s2, s3, s4 := s[1..], s[2..], s[3..], s[4..];
    assert s1[1..] == s2 && s2[1..] == s3 && s3[1..] == s4;
    FilterDrop(s, p);
    FilterDrop(s1, p);
    FilterKeep(s2, p);
    FilterKeep(s3, p);
  }

  /** For the fixed table the panel lists day 4 and day 5. */
  lemma FixedBestDays()
    ensures BestUpcomingDays(Days) == [Days[2], Days[3]]
    ensures Days[2].day == 4 && Days[3].day == 5
  {
    ExcellentThirdAndFourth(Days);
  }

  const Bands: seq<string> := ["excellent", "good", "fair", "poor"]

  const GrayClass := "bg-gray-400 text-white border-gray-500"

  /** The class of each band, in the order of `Bands`. */
  const BandClasses: seq<string> := [
    "bg-green-500 text-white border-green-600",
    "bg-green-400 text-white border-green-500",
    "bg-yellow-400 text-gray-800 border-yellow-500",
    "bg-orange-400 text-white border-orange-500"]

  /** `getColorClass`. */
  function ColorClass(favorability: string): (c: string)
    ensures c == GrayClass <==> favorability !in Bands
    ensures forall i :: 0 <= i < |Bands| && favorability == Bands[i] ==> c == BandClasses[i]
  {
    if favorability == "excellent" then "bg-green-500 text-white border-green-600"
    else if favorability == "good" then "bg-green-400 text-white border-green-500"
    else if favorability == "fair" then "bg-yellow-400 text-gray-800 border-yellow-500"
    else if favorability == "poor" then "bg-orange-400 text-white border-orange-500"
    else GrayClass
  }

  /** The four bands get four different classes, none of them gray, and every
      other string falls back to gray. */
  lemma ColorClassDistinct(a: string, b: string)
    ensures a in Bands && b in Bands && a != b ==> ColorClass(a) != ColorClass(b)
    ensures a in Bands ==> ColorClass(a) != GrayClass
    ensures a !in Bands ==> ColorClass(a) == GrayClass
  {
  }

  const Letters: seq<string> := ["L", "M", "X", "J", "V", "S", "D"]

  const DayNames: seq<string> := ["Lunes", "Martes", "Miércoles", "Jueves", "Viernes", "Sábado", "Domingo"]

  /** The weekday named by a column letter; any other letter reads Sunday. */
  function DayName(letter: string): (n: string)
    ensures n == "Domingo" <==> letter !in ["L", "M", "X", "J", "V", "S"]
    ensures forall i :: 0 <= i < |Letters| && letter == Letters[i] ==> n == DayNames[i]
  {
    if letter == "L" then "Lunes"
    else if letter == "M" then "Martes"
    else if letter == "X" then "Miércoles"
    else if letter == "J" then "Jueves"
    else if letter == "V" then "Viernes"
    else if letter == "S" then "Sábado"
    else "Domingo"
  }

  /** The seven column letters name the seven weekdays, each once, in
      calendar order from Monday. */
  lemma DayNamesDistinct()
    ensures forall i :: 0 <= i < |Letters| ==> DayName(Letters[i]) == DayNames[i]
    ensures forall i, j :: 0 <= i < j < |Letters| ==> DayName(Letters[i]) != DayName(Letters[j])
    ensures forall l :: l !in ["L", "M", "X", "J", "V", "S"] ==> DayName(l) == "Domingo"
  {
  }
}
