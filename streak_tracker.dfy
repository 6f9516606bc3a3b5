/** The streak calendar: the daily activity split into weeks, the colour and the label of a
    day's count, today's count and the warning that a streak is at risk. */
module StreakTracker {
  import opened Wrappers
  import opened Seqs

  /** One entry of `dailyActivity`; `date` is the `YYYY-MM-DD` text. */
  datatype Day = Day(date: string, count: int)

  // ---------------------------------------------------------------- weeks

  /** The reference split: consecutive runs of seven days, the last one possibly shorter. */
  function Weeks(days: seq<Day>): seq<seq<Day>>
    decreases |days|
  {
    if days == [] then []
    else if |days| <= 7 then [days]
    else [days[..7]] + Weeks(days[7..])
  }

  function Flatten(weeks: seq<seq<Day>>): seq<Day>
  {
    if weeks == [] then [] else weeks[0] + Flatten(weeks[1..])
  }

  /** The weeks laid end to end give back the days; every week has one to seven days, all
      but the last exactly seven, and there are `ceil(n / 7)` of them. */
  lemma {:induction false} WeeksSpec(days: seq<Day>)
    ensures Flatten(Weeks(days)) == days
    ensures forall k :: 0 <= k < |Weeks(days)| ==> 1 <= |Weeks(days)[k]| <= 7
    ensures forall k :: 0 <= k < |Weeks(days)| - 1 ==> |Weeks(days)[k]| == 7
    ensures |Weeks(days)| == (|days| + 6) / 7
    decreases |days|
  {
    if days == [] {
    } else if |days| <= 7 {
      assert Flatten([days]) == days + Flatten([]);
    } else {
      var rest := Weeks(days[7..]);
      WeeksSpec(days[7..]);
      assert Weeks(days) == [days[..7]] + rest;
      assert ([days[..7]] + rest)[1..] == rest;
      assert days == days[..7] + days[7..];
      forall k | 0 <= k < |Weeks(days)|
        ensures 1 <= |Weeks(days)[k]| <= 7
        ensures k < |Weeks(days)| - 1 ==> |Weeks(days)[k]| == 7
      {
        if k > 0 {
          assert Weeks(days)[k] == rest[k - 1];
        }
      }
    }
  }

  /** `getWeeksInYear`: `slice(i, i + 7)` for `i = 0, 7, 14, ...` while `i` is below the
      number of days. */
  method WeeksInYear(activities: seq<Day>) returns (weeks: seq<seq<Day>>)
    ensures weeks == Weeks(activities)
  {
    weeks := [];
    var i := 0;
    while i < |activities|
      invariant 0 <= i
      invariant weeks + Weeks(activities[ClampIndex(i, |activities|)..]) == Weeks(activities)
      decreases |activities| - i
    {
      var rest := activities[i..];
      assert Slice(activities, i, i + 7) == if |rest| <= 7 then rest else rest[..7];
      assert Weeks(rest) == [Slice(activities, i, i + 7)] + Weeks(activities[ClampIndex(i + 7, |activities|)..]);
      weeks := weeks + [Slice(activities, i, i + 7)];
      i := i + 7;
    }
  }

  // ---------------------------------------------------------------- activity buckets

  /** The four buckets both helpers use: none, 1-2, 3-5 and 6 or more. A count below zero
      falls in the second bucket, as the `<= 2` test lets it through. */
  function Bucket(count: int): (b: nat)
    ensures b <= 3
    ensures b == 0 <==> count == 0
  {
    if count == 0 then 0 else if count <= 2 then 1 else if count <= 5 then 2 else 3
  }

  /** The legend's squares, from Less to More. */
  const LegendColors := ["bg-gray-100", "bg-green-200", "bg-green-400", "bg-green-600"]

  const Levels := ["No activity", "Light activity", "Moderate activity", "High activity"]

  /** `getActivityColor`. */
  function ActivityColor(count: int): string
  {
    if count == 0 then "bg-gray-100"
    else if count <= 2 then "bg-green-200"
    else if count <= 5 then "bg-green-400"
    else "bg-green-600"
  }

  /** `getActivityLevel`. */
  function ActivityLevel(count: int): string
  {
    if count == 0 then "No activity"
    else if count <= 2 then "Light activity"
    else if count <= 5 then "Moderate activity"
    else "High activity"
  }

  /** Colour and label follow the same thresholds: a day's square has the legend colour and
      the label of its bucket. */
  lemma SameThresholds(count: int)
    ensures ActivityColor(count) == LegendColors[Bucket(count)]
    ensures ActivityLevel(count) == Levels[Bucket(count)]
  {
  }

  /** Over real counts more activity never gives a lighter square or a lower label. */
  lemma BucketMonotone(c1: int, c2: int)
    requires 0 <= c1 <= c2
    ensures Bucket(c1) <= Bucket(c2)
  {
  }

  // ---------------------------------------------------------------- today

  /** `dailyActivity.find(day => day.date === today)`. */
  function FindDay(days: seq<Day>, today: string): (r: Option<nat>)
    ensures r.Some? ==> r.value < |days| && days[r.value].date == today
                        && forall k :: 0 <= k < r.value ==> days[k].date != today
    ensures r.None? ==> forall k :: 0 <= k < |days| ==> days[k].date != today
  {
    FindFirst(days, (d: Day) => d.date == today)
  }

  /** `todayActivity?.count || 0`: today's first entry's count, 0 without one. */
  function TodayCount(days: seq<Day>, today: string): (r: int)
    ensures (exists k :: 0 <= k < |days| && days[k].date == today) ==>
              exists k :: 0 <= k < |days| && days[k].date == today && r == days[k].count
                          && forall j :: 0 <= j < k ==> days[j].date != today
    ensures (forall k :: 0 <= k < |days| ==> days[k].date != today) ==> r == 0
  {
    var found := FindDay(days, today);
    if found.Some? then days[found.value].count else 0
  }

  /** The warning: a running streak and an entry for today with no activity. */
  predicate StreakWarning(currentStreak: int, days: seq<Day>, today: string)
  {
    var found := FindDay(days, today);
    currentStreak > 0 && found.Some? && days[found.value].count == 0
  }

  /** The warning shows exactly when the streak is running and today's first entry records
      nothing; with no entry for today it stays hidden, although today's count shows 0. */
  lemma StreakWarningIff(currentStreak: int, days: seq<Day>, today: string)
    ensures StreakWarning(currentStreak, days, today) <==>
              currentStreak > 0 && (exists k :: 0 <= k < |days| && days[k].date == today)
              && TodayCount(days, today) == 0
  {
    var found := FindDay(days, today);
    if found.Some? {
      assert days[found.value].date == today;
    }
  }
}
