/** The gym planner's calculators: body-mass index and its class, body-fat
    bucket and interpretation, skeletal-muscle interpretation, the
    Mifflin-St Jeor basal metabolic rate, the activity factor, and the two
    builders of the meal list and the weekly schedule. */
module FitnessPlanner {
  import opened Common

  /** `calculate_bmi`: weight over the square of the height in metres. The
      division needs a non-zero height (the form asks for 120 to 250 cm). */
  function CalculateBmi(weightKg: real, heightCm: real): (r: real)
    requires heightCm != 0.0
    ensures r * ((heightCm / 100.0) * (heightCm / 100.0)) == weightKg
    ensures weightKg > 0.0 ==> r > 0.0
  {
    var hM := heightCm / 100.0;
    weightKg / (hM * hM)
  }

  /** `classify_bmi`: four disjoint bands split at 18.5, 25 and 30. */
  function ClassifyBmi(bmi: real): (r: string)
    ensures r in {"Underweight", "Normal", "Overweight", "Obesity"}
    ensures r == "Underweight" <==> bmi < 18.5
    ensures r == "Normal" <==> 18.5 <= bmi < 25.0
    ensures r == "Overweight" <==> 25.0 <= bmi < 30.0
    ensures r == "Obesity" <==> 30.0 <= bmi
  {
    if bmi < 18.5 then "Underweight"
    else if bmi < 25.0 then "Normal"
    else if bmi < 30.0 then "Overweight"
    else "Obesity"
  }

  /** The five-point bucket a body-fat percentage falls in, when it is in
      [0, 50). */
  function Bucket(bf: real): (r: Option<nat>)
    ensures r.Some? <==> 0.0 <= bf < 50.0
    ensures r.Some? ==> r.value % 5 == 0 && r.value < 50
                        && r.value as real <= bf < r.value as real + 5.0
  {
    if 0.0 <= bf < 50.0 then Some(5 * (bf / 5.0).Floor) else None
  }

  /** The text `bf_bucket_label` shows for a bucket. */
  function BucketText(b: Option<nat>): string {
    match b
    case Some(s) => NatToString(s) + "-" + NatToString(s + 5) + "%"
    case None => "50%+"
  }

  /** `bf_bucket_label`: scans the buckets 0-5, 5-10, ..., 45-50 in order and
      names the first that holds the value; anything else, negative values
      included, is "50%+". */
  method BfBucketLabel(bf: real) returns (text: string)
    ensures text == BucketText(Bucket(bf))
    ensures !(0.0 <= bf < 50.0) ==> text == "50%+"
  {
    var i := 0;
    while i < 10
      invariant 0 <= i <= 10
      invariant !(0.0 <= bf < 5.0 * i as real)
    {
      var start := 5 * i;
      if start as real <= bf < (start + 5) as real {
        assert (bf / 5.0).Floor == i;
        return NatToString(start) + "-" + NatToString(start + 5) + "%";
      }
      i := i + 1;
    }
    return "50%+";
  }

  function IsMale(sex: string): bool { Lower(sex) == "male" }

  /** `bf_interpretation_by_sex`. The male and female bands are closed
      intervals with gaps between them (13 to 14, 17 to 18 for men; 20 to 21,
      24 to 25 for women); a value in a gap, or above the last band, is
      "High/Obese". Any sex other than "male", ignoring case, uses the female
      bands. */
  function BfInterpretationBySex(bf: real, sex: string): (r: string)
    ensures r in {"Very low", "Athlete/fit", "Fitness", "Average", "High/Obese"}
    ensures IsMale(sex) ==>
      (r == "Very low" <==> bf < 6.0) &&
      (r == "Athlete/fit" <==> 6.0 <= bf <= 13.0) &&
      (r == "Fitness" <==> 14.0 <= bf <= 17.0) &&
      (r == "Average" <==> 18.0 <= bf <= 24.0)
    ensures !IsMale(sex) ==>
      (r == "Very low" <==> bf < 14.0) &&
      (r == "Athlete/fit" <==> 14.0 <= bf <= 20.0) &&
      (r == "Fitness" <==> 21.0 <= bf <= 24.0) &&
      (r == "Average" <==> 25.0 <= bf <= 31.0)
  {
    if IsMale(sex) then
      if bf < 6.0 then "Very low"
      else if 6.0 <= bf <= 13.0 then "Athlete/fit"
      else if 14.0 <= bf <= 17.0 then "Fitness"
      else if 18.0 <= bf <= 24.0 then "Average"
      else "High/Obese"
    else
      if bf < 14.0 then "Very low"
      else if 14.0 <= bf <= 20.0 then "Athlete/fit"
      else if 21.0 <= bf <= 24.0 then "Fitness"
      else if 25.0 <= bf <= 31.0 then "Average"
      else "High/Obese"
  }

  /** A value in a gap between two male bands reads as "High/Obese". */
  lemma MaleGapsReadHigh(bf: real, sex: string)
    requires IsMale(sex)
    requires 13.0 < bf < 14.0 || 17.0 < bf < 18.0 || 24.0 < bf
    ensures BfInterpretationBySex(bf, sex) == "High/Obese"
  {
  }

  /** `ssm_interpretation`: no reading gives no interpretation. */
  function SsmInterpretation(ssm: Option<real>, sex: string): (r: Option<string>)
    ensures r.None? <==> ssm.None?
    ensures r.Some? ==> r.value in {"Low skeletal muscle %", "Average skeletal muscle %", "High skeletal muscle %"}
    ensures r.Some? && IsMale(sex) ==>
      (r.value == "Low skeletal muscle %" <==> ssm.value < 30.0) &&
      (r.value == "Average skeletal muscle %" <==> 30.0 <= ssm.value <= 37.0)
    ensures r.Some? && !IsMale(sex) ==>
      (r.value == "Low skeletal muscle %" <==> ssm.value < 22.0) &&
      (r.value == "Average skeletal muscle %" <==> 22.0 <= ssm.value <= 30.0)
  {
    match ssm
    case None => None
    case Some(v) =>
      var lo := if IsMale(sex) then 30.0 else 22.0;
      var hi := if IsMale(sex) then 37.0 else 30.0;
      if v < lo then Some("Low skeletal muscle %")
      else if v <= hi then Some("Average skeletal muscle %")
      else Some("High skeletal muscle %")
  }

  /** `mifflin_stjeor_bmr`. */
  function MifflinStJeorBmr(weightKg: real, heightCm: real, age: int, sex: string): real {
    10.0 * weightKg + 6.25 * heightCm - 5.0 * age as real + (if IsMale(sex) then 5.0 else -161.0)
  }

  /** For the same body, the male formula gives 166 kcal more than the
      female one. */
  lemma BmrSexGap(weightKg: real, heightCm: real, age: int, male: string, female: string)
    requires IsMale(male) && !IsMale(female)
    ensures MifflinStJeorBmr(weightKg, heightCm, age, male) - MifflinStJeorBmr(weightKg, heightCm, age, female) == 166.0
  {
  }

  /** Each kilogram adds 10 kcal, each centimetre 6.25, each year takes 5. */
  lemma BmrSlopes(weightKg: real, heightCm: real, age: int, sex: string, dw: real, dh: real, da: int)
    ensures MifflinStJeorBmr(weightKg + dw, heightCm + dh, age + da, sex)
            == MifflinStJeorBmr(weightKg, heightCm, age, sex) + 10.0 * dw + 6.25 * dh - 5.0 * da as real
  {
  }

  /** `activity_factor_for_level`: a case-insensitive lookup with 1.2 for
      any unknown level. */
  function ActivityFactor(level: string): (r: real)
    ensures 1.2 <= r <= 1.725
    ensures Lower(level) !in {"sedentary", "light", "moderate", "heavy"} ==> r == 1.2
    ensures r == 1.2 <==> Lower(level) !in {"light", "moderate", "heavy"}
    ensures Lower(level) == "light" <==> r == 1.375
    ensures Lower(level) == "moderate" <==> r == 1.55
    ensures Lower(level) == "heavy" <==> r == 1.725
  {
    match Lower(level)
    case "sedentary" => 1.2
    case "light" => 1.375
    case "moderate" => 1.55
    case "heavy" => 1.725
    case _ => 1.2
  }

  /** One line of the meal plan. The icon is left out; `priceTag` is `None`
      where the price lookup finds nothing. */
  datatype Meal = Meal(heading: string, text: string, price: string, priceTag: Option<string>)

  const Veg: seq<Meal> := [
    Meal("Breakfast", "Greek yogurt + oats + fruit; or paneer bhurji.", "normal", None),
    Meal("Pre-workout", "Banana + peanuts or small milkshake.", "normal", None),
    Meal("Lunch", "Chickpea curry + brown rice/quinoa + salad.", "normal", None),
    Meal("Snack", "Almonds / roasted chana.", "normal", None),
    Meal("Dinner", "Tofu/Paneer stir-fry + quinoa.", "normal", None)
  ]

  const NonVeg: seq<Meal> := [
    Meal("Breakfast", "3-egg omelette + oats with milk.", "normal", None),
    Meal("Pre-workout", "Banana + whey/milk.", "normal", None),
    Meal("Lunch", "Grilled chicken breast + sweet potato + salad.", "normal", None),
    Meal("Snack", "Greek yogurt / curd.", "normal", None),
    Meal("Dinner", "Fish curry + brown rice + veg.", "normal", None)
  ]

  const NoteMeal := Meal("Note", "High protein, balanced fats and carbs. Adjust portions to meet calorie/macro targets.", "", Some(""))

  /** The price-tag lookup; every template is priced "normal". */
  function PriceTag(price: string): Option<string> {
    match price
    case "budget" => Some("\U{1F4B8} Budget-friendly")
    case "normal" => Some("\U{1F4B0} Normal")
    case "premium" => Some("\U{1F48E} Premium")
    case _ => None
  }

  /** The templates `meal_templates_for` starts from: both lists for "both",
      the vegetarian list for "veg", the other list for anything else (the
      comparison is case-sensitive). */
  function BaseMeals(diet: string): seq<Meal> {
    if diet == "both" then Veg + NonVeg else if diet == "veg" then Veg else NonVeg
  }

  /** `meal_templates_for`: tags every template with its price and appends
      the note. The budget takes no part. */
  method MealTemplatesFor(budget: string, diet: string) returns (meals: seq<Meal>)
    ensures |meals| == if diet == "both" then 11 else 6
    ensures meals[|meals| - 1] == NoteMeal
    ensures forall i :: 0 <= i < |meals| - 1 ==>
              meals[i] == BaseMeals(diet)[i].(priceTag := Some("\U{1F4B0} Normal"))
  {
    var base := BaseMeals(diet);
    meals := [];
    var i := 0;
    while i < |base|
      invariant 0 <= i <= |base|
      invariant |meals| == i
      invariant forall j :: 0 <= j < i ==> meals[j] == base[j].(priceTag := PriceTag(base[j].price))
    {
      meals := meals + [base[i].(priceTag := PriceTag(base[i].price))];
      i := i + 1;
    }
    meals := meals + [NoteMeal];
  }

  datatype Day = Monday | Tuesday | Wednesday | Thursday | Friday | Saturday | Sunday

  /** One entry of a day's session. */
  datatype Activity = Activity(exercise: string, setsReps: string, note: string)

  const Warmup := Activity("Warm-up", "5-10 min", "Dynamic stretches & mobility.")
  const Cool := Activity("Cool-down & stretch", "5-10 min", "Static stretching & breathing.")
  const Cardio := Activity("Cardio", "20-40 min", "Brisk walk, cycling or HIIT.")
  const ChestDay := Activity("Push-ups / Bench Press", "3x8-12", "")
  const LegDay := Activity("Squats / Lunges", "3x8-12", "")
  const BackDay := Activity("Rows / Pull-ups", "3x8-12", "")
  const FullBody := Activity("Full-body circuit", "3 rounds", "")
  const Plank := Activity("Plank", "3x30-60s", "")
  const Recovery := Activity("Active recovery", "30 min", "Yoga or mobility")

  /** A strength session: it opens with the warm-up and closes with the
      cool-down. */
  predicate Framed(session: seq<Activity>) {
    |session| >= 3 && session[0] == Warmup && session[|session| - 1] == Cool
  }

  /** What a strength session holds between its warm-up and its cool-down. */
  function MainBlock(session: seq<Activity>): (r: seq<Activity>)
    requires Framed(session)
    ensures [Warmup] + r + [Cool] == session
  {
    session[1..|session| - 1]
  }

  /** A strength session around its main block. */
  function Session(main: seq<Activity>): (r: seq<Activity>)
    requires main != []
    ensures Framed(r) && MainBlock(r) == main
    ensures forall a :: a in main ==> a in r
  {
    [Warmup] + main + [Cool]
  }

  /** The seven days, each planned, with Sunday's active recovery, and
      every other day either cardio alone or a strength session. */
  ghost predicate WeekShape(schedule: map<Day, seq<Activity>>) {
    schedule.Keys == {Monday, Tuesday, Wednesday, Thursday, Friday, Saturday, Sunday} &&
    schedule[Sunday] == [Recovery] &&
    forall d :: d in schedule && d != Sunday ==> schedule[d] == [Cardio] || Framed(schedule[d])
  }

  /** The muscle gain week: cardio on Wednesday and Saturday, the plank
      finisher after chest, legs and back, a full-body Friday. */
  lemma MuscleGainWeek(schedule: map<Day, seq<Activity>>, chest: seq<Activity>, legs: seq<Activity>,
                       back: seq<Activity>, full: seq<Activity>)
    requires chest == Session([ChestDay, Plank]) && legs == Session([LegDay, Plank])
    requires back == Session([BackDay, Plank]) && full == Session([FullBody])
    requires schedule == map[Monday := chest, Tuesday := legs, Wednesday := [Cardio], Thursday := back,
                             Friday := full, Saturday := [Cardio], Sunday := [Recovery]]
    ensures WeekShape(schedule)
    ensures schedule[Wednesday] == [Cardio] && schedule[Saturday] == [Cardio]
    ensures forall d :: d in {Monday, Tuesday, Thursday} ==> Framed(schedule[d]) && Plank in schedule[d]
    ensures Framed(schedule[Friday]) && FullBody in schedule[Friday]
    ensures Framed(schedule[Monday]) && MainBlock(schedule[Monday]) == [ChestDay, Plank] &&
            Framed(schedule[Tuesday]) && MainBlock(schedule[Tuesday]) == [LegDay, Plank] &&
            Framed(schedule[Thursday]) && MainBlock(schedule[Thursday]) == [BackDay, Plank] &&
            Framed(schedule[Friday]) && MainBlock(schedule[Friday]) == [FullBody]
  {
    assert schedule[Monday] == chest && schedule[Tuesday] == legs && schedule[Thursday] == back && schedule[Friday] == full;
  }

  /** Every other goal's week: cardio on Tuesday, Thursday and Saturday, a
      mixed Monday, legs on Wednesday, chest and back on Friday. */
  lemma StandardWeek(schedule: map<Day, seq<Activity>>, mixed: seq<Activity>, legs: seq<Activity>, upper: seq<Activity>)
    requires mixed == Session([FullBody, Cardio, Plank]) && legs == Session([LegDay, Plank])
    requires upper == Session([ChestDay, BackDay])
    requires schedule == map[Monday := mixed, Tuesday := [Cardio], Wednesday := legs, Thursday := [Cardio],
                             Friday := upper, Saturday := [Cardio], Sunday := [Recovery]]
    ensures WeekShape(schedule)
    ensures schedule[Tuesday] == [Cardio] && schedule[Thursday] == [Cardio] && schedule[Saturday] == [Cardio]
    ensures Framed(schedule[Monday]) && Cardio in schedule[Monday] && FullBody in schedule[Monday]
    ensures Framed(schedule[Wednesday]) && LegDay in schedule[Wednesday]
    ensures Framed(schedule[Friday]) && ChestDay in schedule[Friday] && BackDay in schedule[Friday]
    ensures Framed(schedule[Monday]) && MainBlock(schedule[Monday]) == [FullBody, Cardio, Plank] &&
            Framed(schedule[Wednesday]) && MainBlock(schedule[Wednesday]) == [LegDay, Plank] &&
            Framed(schedule[Friday]) && MainBlock(schedule[Friday]) == [ChestDay, BackDay]
  {
    assert schedule[Monday] == mixed && schedule[Wednesday] == legs && schedule[Friday] == upper;
  }

  /** `generate_workout_plan`: fills the seven days of the week. The muscle
      gain plan ("muscle_gain", ignoring case) has two cardio days and four
      strength sessions, each ending in the plank finisher except Friday;
      every other goal has three cardio days and three strength sessions,
      Monday's holding cardio too. Sunday is always active recovery. */
  method GenerateWorkoutPlan(goal: string) returns (schedule: map<Day, seq<Activity>>)
    ensures schedule.Keys == {Monday, Tuesday, Wednesday, Thursday, Friday, Saturday, Sunday}
    ensures schedule[Sunday] == [Recovery]
    ensures forall d :: d in schedule && d != Sunday ==> schedule[d] == [Cardio] || Framed(schedule[d])
    ensures Lower(goal) == "muscle_gain" ==>
              schedule[Wednesday] == [Cardio] && schedule[Saturday] == [Cardio] &&
              (forall d :: d in {Monday, Tuesday, Thursday} ==> Framed(schedule[d]) && Plank in schedule[d]) &&
              Framed(schedule[Friday]) && FullBody in schedule[Friday]
    ensures Lower(goal) == "muscle_gain" ==>
              Framed(schedule[Monday]) && MainBlock(schedule[Monday]) == [ChestDay, Plank] &&
              Framed(schedule[Tuesday]) && MainBlock(schedule[Tuesday]) == [LegDay, Plank] &&
              Framed(schedule[Thursday]) && MainBlock(schedule[Thursday]) == [BackDay, Plank] &&
              Framed(schedule[Friday]) && MainBlock(schedule[Friday]) == [FullBody]
    ensures Lower(goal) != "muscle_gain" ==>
              schedule[Tuesday] == [Cardio] && schedule[Thursday] == [Cardio] && schedule[Saturday] == [Cardio] &&
              Framed(schedule[Monday]) && Cardio in schedule[Monday] && FullBody in schedule[Monday] &&
              Framed(schedule[Wednesday]) && LegDay in schedule[Wednesday] &&
              Framed(schedule[Friday]) && ChestDay in schedule[Friday] && BackDay in schedule[Friday]
    ensures Lower(goal) != "muscle_gain" ==>
              Framed(schedule[Monday]) && MainBlock(schedule[Monday]) == [FullBody, Cardio, Plank] &&
              Framed(schedule[Wednesday]) && MainBlock(schedule[Wednesday]) == [LegDay, Plank] &&
              Framed(schedule[Friday]) && MainBlock(schedule[Friday]) == [ChestDay, BackDay]
  {
    if Lower(goal) == "muscle_gain" {
      var chest, legs, back, full := Session([ChestDay, Plank]), Session([LegDay, Plank]), Session([BackDay, Plank]), Session([FullBody]);
      schedule := map[Monday := chest, Tuesday := legs, Wednesday := [Cardio], Thursday := back,
                      Friday := full, Saturday := [Cardio], Sunday := [Recovery]];
      MuscleGainWeek(schedule, chest, legs, back, full);
    } else {
      var mixed, legs, upper := Session([FullBody, Cardio, Plank]), Session([LegDay, Plank]), Session([ChestDay, BackDay]);
      schedule := map[Monday := mixed, Tuesday := [Cardio], Wednesday := legs, Thursday := [Cardio],
                      Friday := upper, Saturday := [Cardio], Sunday := [Recovery]];
      StandardWeek(schedule, mixed, legs, upper);
    }
  }
}
