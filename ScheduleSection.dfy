/** The daily schedule (src/components/ScheduleSection.tsx): the list of
    activities shown in order of their "HH:MM" start time, the button that
    appends a generated activity, and the date navigation.

    Dates are whole day numbers. The random draws of `addActivity` are
    parameters: the hour index (0 to 17, added to 6), whether the minute is
    "30", the template index (0 to 7) and the id, which the source takes from
    the clock. */
module ScheduleSection {
  import opened Collections
  import opened ActivityCard

  predicate IsDigit(c: char)
  {
    '0' <= c <= '9'
  }

  function DigitValue(c: char): int
  {
    c as int - '0' as int
  }

  /** A start time of the form "HH:MM". */
  predicate IsClockTime(t: string)
  {
    |t| == 5 && IsDigit(t[0]) && IsDigit(t[1]) && t[2] == ':' && IsDigit(t[3]) && IsDigit(t[4])
  }

  /** The comparator's key: hours times 60 plus minutes, read from the two
      numbers around the colon. Only "HH:MM" strings are given a meaning. */
  function Minutes(t: string): (m: int)
    ensures IsClockTime(t) ==> 0 <= m <= 99 * 60 + 99
  {
    if IsClockTime(t) then
      (DigitValue(t[0]) * 10 + DigitValue(t[1])) * 60 + DigitValue(t[3]) * 10 + DigitValue(t[4])
    else 0
  }

  function TimeKey(a: Activity): int
  {
    Minutes(a.time)
  }

  /** `sortedActivities`: a sorted copy of the list, by start time, with
      activities at the same time in list order. */
  function SortedActivities(activities: seq<Activity>): (r: seq<Activity>)
    ensures multiset(r) == multiset(activities)
    ensures forall i, j :: 0 <= i < j < |r| ==> Minutes(r[i].time) <= Minutes(r[j].time)
  {
    SortByPermutes(activities, TimeKey);
    SortBy(activities, TimeKey)
  }

  /** Same-time activities keep their list order, and the sorted copy is the
      only ordering with that property. */
  lemma SortedActivitiesStable(activities: seq<Activity>)
    ensures IsStableSortOf(SortedActivities(activities), activities, TimeKey)
  {
    SortByIsStableSort(activities, TimeKey);
  }

  const InitialActivities: seq<Activity> := [
    Activity("1", "Work meeting", "09:00", Some("Central Office"),
      Some("Q4 project review with development team"), "#3b82f6", 60),
    Activity("2", "Run in the park", "17:00", Some("Central Park"),
      Some("5km running routine"), "#f59e0b", 30),
    Activity("3", "Lunch with client", "13:00", Some("La Plaza Restaurant"),
      Some("Discuss collaboration proposal for next year"), "#10b981", 90),
    Activity("4", "Family dinner", "20:00", Some("Home"),
      Some("Dinner with family"), "#ef4444", 120)
  ]

  /** Four items whose keys are ordered first, third, second, fourth. */
  lemma SortFourSwapMiddle<T>(a1: T, a2: T, a3: T, a4: T, key: T -> int)
    requires key(a1) < key(a3) < key(a2) < key(a4)
    ensures SortBy([a1, a2, a3, a4], key) == [a1, a3, a2, a4]
  {
    assert SortBy([a3, a4], key) == [a3, a4] by {
      assert [a3] + [a4] == [a3, a4];
      SortStep(a4, [], key);
      SortStep(a3, [a4], key);
      InsertFront(a3, a4, [], key);
    }
    assert SortBy([a2, a3, a4], key) == [a3, a2, a4] by {
      assert [a2] + [a3, a4] == [a2, a3, a4];
      assert [a3] + [a4] == [a3, a4];
      assert [a3] + [a2, a4] == [a3, a2, a4];
      SortStep(a2, [a3, a4], key);
      InsertPast(a2, a3, [a4], key);
      InsertFront(a2, a4, [], key);
    }
    assert [a1] + [a2, a3, a4] == [a1, a2, a3, a4];
    assert [a1] + [a3, a2, a4] == [a1, a3, a2, a4];
    SortStep(a1, [a2, a3, a4], key);
    InsertFront(a1, a3, [a2, a4], key);
  }

  lemma InitialTimes()
    ensures Minutes("09:00") == 540 && Minutes("17:00") == 1020
    ensures Minutes("13:00") == 780 && Minutes("20:00") == 1200
  {
  }

  /** The initial day reads 09:00, 13:00, 17:00, 20:00: ids 1, 3, 2, 4. */
  lemma InitialOrder()
    ensures var r := SortedActivities(InitialActivities);
      |r| == 4 && r[0].id == "1" && r[1].id == "3" && r[2].id == "2" && r[3].id == "4"
  {
    var s := InitialActivities;
    InitialTimes();
    assert s == [s[0], s[1], s[2], s[3]];
    SortFourSwapMiddle(s[0], s[1], s[2], s[3], TimeKey);
  }

  /** `n.toString().padStart(2, "0")` for 0 <= n < 100. */
  function Pad2(n: nat): (s: string)
    requires n < 100
    ensures |s| == 2 && IsDigit(s[0]) && IsDigit(s[1])
    ensures DigitValue(s[0]) * 10 + DigitValue(s[1]) == n
  {
    [('0' as int + n / 10) as char, ('0' as int + n % 10) as char]
  }

  /** The generated start time: hour 6 to 23, minute "00" or "30". */
  function GeneratedTime(hourIndex: nat, halfPast: bool): (t: string)
    requires hourIndex < 18
    ensures IsClockTime(t)
    ensures DigitValue(t[0]) * 10 + DigitValue(t[1]) == hourIndex + 6
    ensures t[3..] == (if halfPast then "30" else "00")
  {
    Pad2(hourIndex + 6) + ":" + (if halfPast then "30" else "00")
  }

  /** The generated time reads back as the drawn hour and minute: a half-hour
      mark between 06:00 and 23:30. */
  lemma GeneratedTimeMinutes(hourIndex: nat, halfPast: bool)
    requires hourIndex < 18
    ensures Minutes(GeneratedTime(hourIndex, halfPast)) == (hourIndex + 6) * 60 + (if halfPast then 30 else 0)
    ensures 360 <= Minutes(GeneratedTime(hourIndex, halfPast)) <= 1410
    ensures Minutes(GeneratedTime(hourIndex, halfPast)) % 30 == 0
  {
    var t := GeneratedTime(hourIndex, halfPast);
    var p := Pad2(hourIndex + 6);
    assert t[0] == p[0] && t[1] == p[1];
  }

  datatype Template = Template(title: string, location: string, description: string, color: string, duration: int)

  const Templates: seq<Template> := [
    Template("Morning yoga", "Zen Studio", "Yoga class to start the day with energy", "#8b5cf6", 60),
    Template("Bike ride", "Waterfront", "Coastal bike tour", "#06b6d4", 45),
    Template("Reading session", "Municipal Library", "Time dedicated to reading and learning", "#ec4899", 90),
    Template("Swimming classes", "Sports Club", "Swimming training", "#14b8a6", 60),
    Template("Coffee with friends", "Downtown Café", "Casual meeting with friends", "#f97316", 60),
    Template("Market shopping", "Central Market", "Shopping for fresh and healthy food", "#84cc16", 45),
    Template("Photography session", "Historic Park", "Outdoor photography practice", "#6366f1", 120),
    Template("Cooking class", "Culinary School", "Learn new recipes and culinary techniques", "#f43f5e", 90)
  ]

  /** The activity `addActivity` builds from its draws. */
  function GeneratedActivity(id: string, hourIndex: nat, halfPast: bool, templateIndex: nat): (a: Activity)
    requires hourIndex < 18 && templateIndex < |Templates|
    ensures a.id == id && IsClockTime(a.time)
    ensures var t := Templates[templateIndex];
      a.title == t.title && a.location == Some(t.location) && a.description == Some(t.description) &&
      a.color == t.color && a.duration == t.duration
  {
    var t := Templates[templateIndex];
    Activity(id, t.title, GeneratedTime(hourIndex, halfPast), Some(t.location), Some(t.description), t.color, t.duration)
  }

  /** Every start time in the list is an "HH:MM" string. */
  predicate AllClockTimes(activities: seq<Activity>)
  {
    forall i :: 0 <= i < |activities| ==> IsClockTime(activities[i].time)
  }

  /** The schedule's state: the activity list and the day shown. */
  class ScheduleState {
    var activities: seq<Activity>
    var currentDate: int

    predicate Valid()
      reads this
    {
      AllClockTimes(activities)
    }

    constructor(today: int)
      ensures Valid()
      ensures activities == InitialActivities && currentDate == today
    {
      activities := InitialActivities;
      currentDate := today;
    }

    /** The list as displayed. */
    function Sorted(): (r: seq<Activity>)
      reads this
      ensures multiset(r) == multiset(activities)
      ensures forall i, j :: 0 <= i < j < |r| ==> Minutes(r[i].time) <= Minutes(r[j].time)
    {
      SortedActivities(activities)
    }

    /** `addActivity`: appends one generated activity and keeps the rest. */
    method AddActivity(id: string, hourIndex: nat, halfPast: bool, templateIndex: nat)
      requires Valid() && hourIndex < 18 && templateIndex < |Templates|
      modifies this
      ensures Valid()
      ensures activities == old(activities) + [GeneratedActivity(id, hourIndex, halfPast, templateIndex)]
      ensures currentDate == old(currentDate)
    {
      activities := activities + [GeneratedActivity(id, hourIndex, halfPast, templateIndex)];
    }

    /** `changeDate`: moves the shown day by `days`. */
    method ChangeDate(days: int)
      requires Valid()
      modifies this
      ensures Valid()
      ensures currentDate == old(currentDate) + days && activities == old(activities)
    {
      currentDate := currentDate + days;
    }

    /** The calendar's `onSelect`: a picked day replaces the shown one, and no
        pick changes nothing. */
    method SelectDate(date: Option<int>)
      requires Valid()
      modifies this
      ensures Valid()
      ensures currentDate == (if date.Some? then date.value else old(currentDate))
      ensures activities == old(activities)
    {
      if date.Some? {
        currentDate := date.value;
      }
    }
  }

  /** An added activity appears in the displayed list, and every earlier one
      stays there. */
  lemma AddedActivityShown(activities: seq<Activity>, added: Activity)
    ensures multiset(SortedActivities(activities + [added])) == multiset(SortedActivities(activities)) + multiset{added}
    ensures added in SortedActivities(activities + [added])
  {
    var r := SortedActivities(activities + [added]);
    assert added in multiset(r);
  }
}
