/** The schedule's activity record and the card height chosen from an
    activity's duration (src/components/ActivityCard.tsx). */
module ActivityCard {
  import opened Collections

  /** An entry of the schedule; `duration` is in minutes. */
  datatype Activity = Activity(
    id: string,
    title: string,
    time: string,
    location: Option<string>,
    description: Option<string>,
    color: string,
    duration: int)

  const HeightClasses: seq<string> := ["h-16", "h-20", "h-24", "h-28"]

  /** `getHeightClass`: one of the four height classes, chosen by the duration
      bucket up to 30, up to 60, up to 120, or longer. */
  function HeightClass(duration: int): (c: string)
    ensures c in HeightClasses
  {
    if duration <= 30 then "h-16"
    else if duration <= 60 then "h-20"
    else if duration <= 120 then "h-24"
    else "h-28"
  }

  /** The position of a height class from shortest to tallest. */
  function HeightRank(c: string): (k: nat)
    requires c in HeightClasses
    ensures k < |HeightClasses| && HeightClasses[k] == c
  {
    if c == "h-16" then 0 else if c == "h-20" then 1 else if c == "h-24" then 2 else 3
  }

  /** A longer activity never gets a shorter card. */
  lemma HeightMonotone(d1: int, d2: int)
    requires d1 <= d2
    ensures HeightRank(HeightClass(d1)) <= HeightRank(HeightClass(d2))
  {
  }

  /** The buckets: each boundary (30, 60, 120) belongs to the lower bucket, and
      one minute more moves up one class. */
  lemma HeightBoundaries(d: int)
    ensures d <= 30 <==> HeightClass(d) == "h-16"
    ensures 30 < d <= 60 <==> HeightClass(d) == "h-20"
    ensures 60 < d <= 120 <==> HeightClass(d) == "h-24"
    ensures 120 < d <==> HeightClass(d) == "h-28"
    ensures d in {30, 60, 120} ==> HeightRank(HeightClass(d + 1)) == HeightRank(HeightClass(d)) + 1
  {
  }
}
