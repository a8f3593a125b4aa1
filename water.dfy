/** The hydration page: the daily goal from a medical condition and the
    body weight, the intake log with its completion streak, and the
    seven-day report. Dates are day numbers, so yesterday is `today - 1`. */
module Water {
  import opened Common

  /** The recommended daily range, in litres, for each listed condition. */
  function ConditionRange(key: string): Option<(real, real)> {
    match key
    case "Normal Adult" => Some((2.0, 3.5))
    case "Kidney Disease" => Some((0.8, 1.5))
    case "Diabetes" => Some((2.0, 3.0))
    case "Hypertension" => Some((1.8, 2.5))
    case "Heart Condition (CHF)" => Some((1.2, 2.0))
    case "Pregnancy" => Some((2.8, 3.8))
    case "Breastfeeding" => Some((3.0, 4.0))
    case "Kidney Stones Prevention" => Some((3.0, 4.0))
    case "Fever/Diarrhea (rehydration)" => Some((3.0, 4.0))
    case "Athlete / High Activity" => Some((3.0, 6.0))
    case "Elderly (frail)" => Some((1.5, 2.0))
    case "Custom" => Some((2.0, 3.5))
    case _ => None
  }

  /** Python truthiness of an optional number: present and not zero. */
  predicate Truthy(x: Option<real>) { x.Some? && x.value != 0.0 }

  datatype Goal = Goal(target: real, minL: real, maxL: real)

  /** `compute_goal` before rounding. An unknown condition uses the "Normal
      Adult" range; the custom bounds replace the table's only for "Custom"
      and only when given and non-zero; a weight above 70 kg shifts both
      bounds up by 0.02 L per extra kilogram; the target is the midpoint. */
  function ComputeGoal(condition: string, weight: Option<real>, customMin: Option<real>, customMax: Option<real>): (g: Goal)
    ensures g.target == (g.minL + g.maxL) / 2.0
    ensures g.minL <= g.maxL ==> g.minL <= g.target <= g.maxL
    ensures condition != "Custom" ==>
      var range := if ConditionRange(condition).Some? then ConditionRange(condition).value else (2.0, 3.5);
      g.maxL - g.minL == range.1 - range.0
    ensures condition == "Custom" && Truthy(customMin) && Truthy(customMax) ==>
      g.maxL - g.minL == customMax.value - customMin.value
    ensures var range := if ConditionRange(condition).Some? then ConditionRange(condition).value else (2.0, 3.5);
            var extra := if weight.Some? && weight.value > 70.0 then (weight.value - 70.0) * 0.02 else 0.0;
            g.minL == (if condition == "Custom" && Truthy(customMin) then customMin.value else range.0) + extra &&
            g.maxL == (if condition == "Custom" && Truthy(customMax) then customMax.value else range.1) + extra
  {
    var range := match ConditionRange(condition)
      case Some(r) => r
      case None => (2.0, 3.5);
    var lo := if condition == "Custom" && Truthy(customMin) then customMin.value else range.0;
    var hi := if condition == "Custom" && Truthy(customMax) then customMax.value else range.1;
    var extra := if weight.Some? && weight.value > 70.0 then (weight.value - 70.0) * 0.02 else 0.0;
    Goal((lo + extra + hi + extra) / 2.0, lo + extra, hi + extra)
  }

  /** A condition missing from the table is treated as "Normal Adult". */
  lemma UnknownConditionIsNormalAdult(condition: string, weight: Option<real>, customMin: Option<real>, customMax: Option<real>)
    requires ConditionRange(condition).None?
    ensures ComputeGoal(condition, weight, customMin, customMax) == ComputeGoal("Normal Adult", weight, customMin, customMax)
  {
  }

  /** The weight adjustment moves the whole range, and the target with it,
      by (w - 70) * 0.02 above 70 kg and not at all otherwise. */
  lemma WeightShiftsRange(condition: string, w: real, customMin: Option<real>, customMax: Option<real>)
    ensures var shifted := ComputeGoal(condition, Some(w), customMin, customMax);
            var plain := ComputeGoal(condition, None, customMin, customMax);
            var extra := if w > 70.0 then (w - 70.0) * 0.02 else 0.0;
            shifted == Goal(plain.target + extra, plain.minL + extra, plain.maxL + extra)
  {
  }

  /** One logged drink. */
  datatype Intake = Intake(time: string, amountL: real)

  /** The litres logged in a day. */
  function Total(entries: seq<Intake>): real
    decreases |entries|
  {
    if entries == [] then 0.0 else Total(entries[..|entries| - 1]) + entries[|entries| - 1].amountL
  }

  lemma {:induction false} TotalAppend(entries: seq<Intake>, e: Intake)
    ensures Total(entries + [e]) == Total(entries) + e.amountL
  {
    assert (entries + [e])[..|entries|] == entries;
  }

  /** Removing one drink takes exactly its amount off the day's total. */
  lemma {:induction false} TotalRemove(entries: seq<Intake>, i: nat)
    requires i < |entries|
    ensures Total(entries[..i] + entries[i + 1..]) == Total(entries) - entries[i].amountL
    decreases |entries|
  {
    var n := |entries|;
    if i == n - 1 {
      assert entries[..i] + entries[i + 1..] == entries[..n - 1];
    } else {
      var init := entries[..n - 1];
      TotalRemove(init, i);
      assert init[..i] + init[i + 1..] + [entries[n - 1]] == entries[..i] + entries[i + 1..];
      TotalAppend(init[..i] + init[i + 1..], entries[n - 1]);
    }
  }

  /** The totals are non-negative when every drink is. */
  lemma {:induction false} TotalNonNegative(entries: seq<Intake>)
    requires forall i :: 0 <= i < |entries| ==> entries[i].amountL >= 0.0
    ensures Total(entries) >= 0.0
    decreases |entries|
  {
    if entries != [] {
      TotalNonNegative(entries[..|entries| - 1]);
    }
  }

  /** The summation `log_water` does over today's list. */
  method SumAmounts(entries: seq<Intake>) returns (total: real)
    ensures total == Total(entries)
  {
    total := 0.0;
    var i := 0;
    while i < |entries|
      invariant 0 <= i <= |entries|
      invariant total == Total(entries[..i])
    {
      assert entries[..i + 1][..i] == entries[..i];
      total := total + entries[i].amountL;
      i := i + 1;
    }
    assert entries[..|entries|] == entries;
  }

  /** The streak after today's total reached the goal: one more when the
      goal was last completed yesterday, unchanged when already today, and
      a fresh 1 otherwise. */
  function NextStreak(streak: int, lastCompleted: Option<int>, today: int): (r: int)
    ensures lastCompleted == Some(today - 1) ==> r == streak + 1
    ensures lastCompleted == Some(today) ==> r == streak
    ensures lastCompleted != Some(today - 1) && lastCompleted != Some(today) ==> r == 1
  {
    if lastCompleted == Some(today - 1) then streak + 1
    else if lastCompleted != Some(today) then 1
    else streak
  }

  /** The saved hydration data: the per-day lists of drinks, the streak of
      consecutive days on which the goal was reached, and the last such day. */
  class WaterLog {
    var history: map<int, seq<Intake>>
    var streak: int
    var lastCompleted: Option<int>

    /** No day is kept with an empty list, and there is a streak exactly
        when some day completed the goal. */
    ghost predicate Valid()
      reads this
    {
      (forall d :: d in history ==> |history[d]| > 0) &&
      streak >= 0 && (lastCompleted.None? <==> streak == 0)
    }

    /** The data used when there is no saved file. */
    constructor ()
      ensures Valid()
      ensures history == map[] && streak == 0 && lastCompleted == None
    {
      history := map[];
      streak := 0;
      lastCompleted := None;
    }

    /** `log_water`: appends one drink to today's list (creating it), leaves
        every other day alone, returns today's total and, when it reaches the
        goal, advances the streak. */
    method LogWater(amountL: real, today: int, time: string, goal: real) returns (total: real)
      requires Valid()
      modifies this
      ensures Valid()
      ensures history == old(history)[today := (if today in old(history) then old(history)[today] else []) + [Intake(time, amountL)]]
      ensures total == Total(history[today])
      ensures today in old(history) ==> total == Total(old(history)[today]) + amountL
      ensures today !in old(history) ==> total == amountL
      ensures total >= goal ==> streak == NextStreak(old(streak), old(lastCompleted), today) && lastCompleted == Some(today)
      ensures total < goal ==> streak == old(streak) && lastCompleted == old(lastCompleted)
    {
      var before := if today in history then history[today] else [];
      history := history[today := before + [Intake(time, amountL)]];
      total := SumAmounts(history[today]);
      TotalAppend(before, Intake(time, amountL));
      assert Total([Intake(time, amountL)]) == Total([]) + amountL by {
        TotalAppend([], Intake(time, amountL));
      }
      if total >= goal {
        if lastCompleted == Some(today - 1) {
          streak := streak + 1;
        } else if lastCompleted != Some(today) {
          streak := 1;
        }
        lastCompleted := Some(today);
      }
    }

    /** `delete_entry`: removes the drink at `index` from the day's list and
        the day itself when nothing is left; a day that is not logged is left
        alone. The streak is not revisited. */
    method DeleteEntry(day: int, index: int)
      requires Valid()
      requires day in history ==> 0 <= index < |history[day]|
      modifies this`history
      ensures Valid()
      ensures day !in old(history) ==> history == old(history)
      ensures day in old(history) ==>
        var rest := old(history)[day][..index] + old(history)[day][index + 1..];
        history == if rest == [] then old(history) - {day} else old(history)[day := rest]
      ensures day in history ==> Total(history[day]) == Total(old(history)[day]) - old(history)[day][index].amountL
    {
      if day in history {
        var entries := history[day];
        var rest := entries[..index] + entries[index + 1..];
        TotalRemove(entries, index);
        if rest == [] {
          history := history - {day};
        } else {
          history := history[day := rest];
        }
      }
    }
  }

  /** The daily totals of the weekly report. */
  function DailyTotals(history: map<int, seq<Intake>>): (totals: map<int, real>)
    ensures totals.Keys == history.Keys
    ensures forall d :: d in totals ==> totals[d] == Total(history[d])
  {
    map d | d in history :: Total(history[d])
  }

  function Min(a: int, b: int): int { if a < b then a else b }

  /** A non-empty set of days has a member to pick. */
  lemma NonEmptyHasDay(days: set<int>)
    requires days != {}
    ensures exists d :: d in days
  {
    if forall d :: d !in days {
      assert false;
    }
  }

  /** The largest day in a non-empty set of days. */
  method LatestDay(days: set<int>) returns (latest: int)
    requires days != {}
    ensures latest in days
    ensures forall d :: d in days ==> d <= latest
  {
    NonEmptyHasDay(days);
    latest :| latest in days;
    var rest := days - {latest};
    while rest != {}
      invariant rest <= days && latest in days
      invariant forall d :: d in days && d !in rest ==> d <= latest
      decreases |rest|
    {
      NonEmptyHasDay(rest);
      var d :| d in rest;
      if d > latest {
        latest := d;
      }
      rest := rest - {d};
    }
  }

  /** The days of a report, in its order. */
  function Days(report: seq<(int, real)>): (days: seq<int>)
    ensures |days| == |report|
    ensures forall i :: 0 <= i < |report| ==> days[i] == report[i].0
  {
    if report == [] then [] else [report[0].0] + Days(report[1..])
  }

  /** Each report entry is a day of the totals, already taken out of `left`,
      with its total. */
  ghost predicate EntriesFrom(totals: map<int, real>, report: seq<(int, real)>, left: set<int>) {
    forall i :: 0 <= i < |report| ==> report[i].0 in totals && report[i].0 !in left && report[i].1 == totals[report[i].0]
  }

  ghost predicate DaysAscending(report: seq<(int, real)>) {
    forall i, j :: 0 <= i < j < |report| ==> report[i].0 < report[j].0
  }

  /** Every day still left is older than every reported day. */
  ghost predicate LeftOlder(report: seq<(int, real)>, left: set<int>) {
    forall d, i :: d in left && 0 <= i < |report| ==> d < report[i].0
  }

  /** What `LastSeven`'s loop keeps: `report` holds the latest days taken so
      far, ascending and with their totals, and `left` the days not yet
      taken, all older than every day in `report`. */
  ghost predicate LastSevenInv(totals: map<int, real>, report: seq<(int, real)>, left: set<int>) {
    left <= totals.Keys && |report| + |left| == |totals.Keys| &&
    EntriesFrom(totals, report, left) && DaysAscending(report) && LeftOlder(report, left) &&
    (forall d :: d in totals ==> d in left || d in Days(report))
  }

  /** Moving the latest remaining day to the front of the report keeps the
      invariant. */
  lemma LastSevenStep(totals: map<int, real>, report: seq<(int, real)>, left: set<int>, latest: int)
    requires LastSevenInv(totals, report, left)
    requires latest in left && forall d :: d in left ==> d <= latest
    ensures LastSevenInv(totals, [(latest, totals[latest])] + report, left - {latest})
  {
    var entry := (latest, totals[latest]);
    var next := [entry] + report;
    var rest := left - {latest};
    EntriesStep(totals, report, left, latest);
    AscendingStep(report, left, entry);
    OlderStep(report, left, latest, entry);
    DaysPrepend(entry, report);
    forall d | d in totals ensures d in rest || d in Days(next) {
      if d == latest { assert Days(next)[0] == d; }
    }
  }

  lemma EntriesStep(totals: map<int, real>, report: seq<(int, real)>, left: set<int>, latest: int)
    requires EntriesFrom(totals, report, left) && latest in left && left <= totals.Keys
    ensures EntriesFrom(totals, [(latest, totals[latest])] + report, left - {latest})
  {
    var next := [(latest, totals[latest])] + report;
    forall i | 0 <= i < |next|
      ensures next[i].0 in totals && next[i].0 !in left - {latest} && next[i].1 == totals[next[i].0]
    {
      if i > 0 { assert next[i] == report[i - 1]; }
    }
  }

  lemma AscendingStep(report: seq<(int, real)>, left: set<int>, entry: (int, real))
    requires DaysAscending(report) && LeftOlder(report, left) && entry.0 in left
    ensures DaysAscending([entry] + report)
  {
    var next := [entry] + report;
    forall i, j | 0 <= i < j < |next| ensures next[i].0 < next[j].0 {
      assert next[j] == report[j - 1];
      if i > 0 { assert next[i] == report[i - 1]; }
    }
  }

  lemma OlderStep(report: seq<(int, real)>, left: set<int>, latest: int, entry: (int, real))
    requires LeftOlder(report, left) && entry.0 == latest
    requires forall d :: d in left ==> d <= latest
    ensures LeftOlder([entry] + report, left - {latest})
  {
    var next := [entry] + report;
    forall d, i | d in left - {latest} && 0 <= i < |next| ensures d < next[i].0 {
      if i > 0 { assert next[i] == report[i - 1]; }
    }
  }

  lemma DaysPrepend(entry: (int, real), report: seq<(int, real)>)
    ensures Days([entry] + report) == [entry.0] + Days(report)
  {
    assert ([entry] + report)[1..] == report;
  }

  /** The report's last seven entries of the date-sorted totals: the
      (at most) seven latest days, oldest first, each with its total. */
  method LastSeven(totals: map<int, real>) returns (report: seq<(int, real)>)
    ensures |report| == Min(7, |totals.Keys|)
    ensures forall i, j :: 0 <= i < j < |report| ==> report[i].0 < report[j].0
    ensures forall i :: 0 <= i < |report| ==> report[i].0 in totals && report[i].1 == totals[report[i].0]
    ensures forall d, i :: d in totals && d !in Days(report) && 0 <= i < |report| ==> d < report[i].0
  {
    report := [];
    var left := totals.Keys;
    while |report| < 7 && left != {}
      invariant LastSevenInv(totals, report, left)
      invariant |report| <= 7
      decreases |left|
    {
      var latest := LatestDay(left);
      LastSevenStep(totals, report, left, latest);
      report := [(latest, totals[latest])] + report;
      left := left - {latest};
    }
  }
}
