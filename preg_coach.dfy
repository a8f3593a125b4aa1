/** The pregnancy-safe coach (`PregWorkoutProcessor`): squats limited to a
    shallow band, pelvic tilts and arm circles, an 8-second voice cooldown,
    and a safety score that starts at 100, loses a fixed penalty for each
    risky posture it sees and never goes below 0. */
module PregCoach {
  import opened Common
  import Angles

  datatype Exercise = PregnancySquats | PelvicTilts | ArmCircles | Other

  /** `stage` starts as "rest". */
  datatype Stage = Rest | Down | Up | Tilt | Neutral | Raised | Lowered

  datatype Preg = Preg(stage: Stage, reps: real, lastVoiceTime: real)

  datatype Check = Check(next: Preg, feedback: seq<string>, accuracy: real, spoken: seq<string>)

  const VoiceCooldown: real := 8.0

  predicate VoiceConsistent(s: Preg, r: Check, now: real) {
    |r.spoken| <= 1
    && (r.spoken != [] ==> VoiceReady(s.lastVoiceTime, now, VoiceCooldown) && r.next.lastVoiceTime == now)
    && (r.spoken == [] ==> r.next.lastVoiceTime == s.lastVoiceTime)
  }

  /** Every exercise check speaks on the frames that change the stage, and
      only on those, whenever the gate is open. */
  predicate SpeaksOnChange(s: Preg, r: Check, now: real) {
    r.spoken != [] <==> r.next.stage != s.stage && VoiceReady(s.lastVoiceTime, now, VoiceCooldown)
  }

  function Announce(s: Preg, now: real, msg: string): (r: (Preg, seq<string>))
    ensures r.0.stage == s.stage && r.0.reps == s.reps
    ensures VoiceConsistent(s, Check(r.0, [], 0.0, r.1), now)
    ensures r.1 != [] <==> VoiceReady(s.lastVoiceTime, now, VoiceCooldown)
    ensures r.1 == [] || r.1 == [msg]
  {
    if VoiceReady(s.lastVoiceTime, now, VoiceCooldown) then (s.(lastVoiceTime := now), [msg]) else (s, [])
  }

  // ----- safety -----

  const LeanAlert := "Avoid excessive forward bending"
  const StanceAlert := "Widen stance for better balance"
  const TwistAlert := "Avoid twisting motions - keep torso stable"

  predicate Leaning(p: Pose) { p.nose.y - (p.leftHip.y + p.rightHip.y) / 2.0 > 0.15 }
  predicate WideStance(p: Pose) { Abs(p.leftAnkle.x - p.rightAnkle.x) > 0.25 }
  predicate Twisting(p: Pose) { Abs((p.leftShoulder.x - p.rightShoulder.x) - (p.leftHip.x - p.rightHip.x)) > 0.1 }

  /** The sum of the penalties of the rules a pose triggers (5, 3 and 7). */
  function Penalty(p: Pose): int {
    (if Leaning(p) then 5 else 0) + (if WideStance(p) then 3 else 0) + (if Twisting(p) then 7 else 0)
  }

  function Floor0(x: int): int { if x < 0 then 0 else x }

  /** Position of an alert in the fixed reporting order. */
  function AlertRank(a: string): int {
    if a == LeanAlert then 0 else if a == StanceAlert then 1 else 2
  }

  /** `check_pregnancy_safety`: each rule that fires appends its alert and
      takes its penalty off the score, flooring at 0 each time. */
  function Safety(score: int, p: Pose): (r: (seq<string>, int))
    ensures score >= 0 ==> r.1 == Floor0(score - Penalty(p)) && r.1 <= score && score - r.1 <= 15
    ensures |r.0| <= 3
    ensures LeanAlert in r.0 <==> Leaning(p)
    ensures StanceAlert in r.0 <==> WideStance(p)
    ensures TwistAlert in r.0 <==> Twisting(p)
    ensures forall a :: a in r.0 ==> a == LeanAlert || a == StanceAlert || a == TwistAlert
    ensures forall i, j :: 0 <= i < j < |r.0| ==> AlertRank(r.0[i]) < AlertRank(r.0[j])
  {
    var s1 := if Leaning(p) then Floor0(score - 5) else score;
    var s2 := if WideStance(p) then Floor0(s1 - 3) else s1;
    var s3 := if Twisting(p) then Floor0(s2 - 7) else s2;
    var alerts := (if Leaning(p) then [LeanAlert] else [])
                  + (if WideStance(p) then [StanceAlert] else [])
                  + (if Twisting(p) then [TwistAlert] else []);
    (alerts, s3)
  }

  /** The safety score over frames, every one with landmarks. */
  function SafetyRun(score: int, poses: seq<Pose>): int
    decreases |poses|
  {
    if poses == [] then score else SafetyRun(Safety(score, poses[0]).1, poses[1..])
  }

  lemma {:induction false} SafetyRunInRange(score: int, poses: seq<Pose>)
    requires 0 <= score
    ensures 0 <= SafetyRun(score, poses) <= score
    decreases |poses|
  {
    if poses != [] {
      SafetyRunInRange(Safety(score, poses[0]).1, poses[1..]);
    }
  }

  /** The same posture held for `n` frames costs `n` times its penalty,
      floored at 0: a score of 100 reaches 0, never below. */
  lemma {:induction false} RepeatedPostureFloors(score: int, p: Pose, n: nat)
    requires 0 <= score
    ensures SafetyRun(score, seq(n, _ => p)) == Floor0(score - n * Penalty(p))
  {
    var pen := Penalty(p);
    if n > 0 {
      var rest := seq(n - 1, _ => p);
      assert seq(n, _ => p)[1..] == rest;
      var s1 := Safety(score, p).1;
      RepeatedPostureFloors(s1, p, n - 1);
      FloorTwice(score, pen, n - 1);
    }
  }

  lemma FloorTwice(score: int, pen: int, m: nat)
    requires pen >= 0
    ensures Floor0(Floor0(score - pen) - m * pen) == Floor0(score - (m + 1) * pen)
  {
    assert (m + 1) * pen == m * pen + pen;
    assert m * pen >= 0;
  }

  // ----- exercises -----

  /** Comparisons with an angle that may be NaN: false when it is. */
  predicate Lt(a: Option<real>, k: real) { a.Some? && a.value < k }
  predicate Gt(a: Option<real>, k: real) { a.Some? && a.value > k }
  predicate Within(a: Option<real>, lo: real, hi: real) { a.Some? && lo < a.value < hi }

  /** `check_pregnancy_squats` on the two knee angles (hip-knee-ankle):
      squatting is both knees below 140; the stage becomes "down" only when
      both are in (100, 140); a squat counts when both straighten beyond 160
      from "down". Two points are possible, yet the squatting branch can earn
      three, so the accuracy can reach 150. */
  function PregSquat(s: Preg, left: Option<real>, right: Option<real>, kneesAligned: bool, now: real): (r: Check)
    ensures VoiceConsistent(s, r, now)
    ensures SpeaksOnChange(s, r, now)
    ensures r.spoken != [] ==>
              r.spoken == [if r.next.stage == Down then "Good squat depth. Now slowly stand up"
                           else "Excellent! You've completed " + IntToString(Trunc(r.next.reps)) + " safe squats"]
    ensures r.next.reps == s.reps + 1.0 <==> Gt(left, 160.0) && Gt(right, 160.0) && s.stage == Down
    ensures r.next.reps == s.reps || r.next.reps == s.reps + 1.0
    ensures r.next.stage != s.stage ==>
              (r.next.stage == Down && Within(left, 100.0, 140.0) && Within(right, 100.0, 140.0))
              || (r.next.stage == Up && s.stage == Down)
    ensures !(Lt(left, 140.0) && Lt(right, 140.0)) && !(Gt(left, 160.0) && Gt(right, 160.0))
            ==> r.next == s && r.feedback == ["Return to full standing position"] && r.accuracy == 0.0
    ensures r.accuracy in {0.0, 50.0, 100.0, 150.0}
    ensures Within(left, 100.0, 140.0) && Within(right, 100.0, 140.0) ==> r.next.stage == Down
    ensures Lt(left, 140.0) && Lt(right, 140.0) ==>
              var deep := Within(left, 100.0, 140.0) && Within(right, 100.0, 140.0);
              r.next.reps == s.reps && r.next.stage == (if deep then Down else s.stage) &&
              r.accuracy == ((if deep then 2 else 0) + (if kneesAligned then 1 else 0)) as real / 2.0 * 100.0 &&
              r.feedback == (if deep then [] else ["Squat shallower - pregnancy safety"])
                            + (if kneesAligned then [] else ["Keep knees aligned with hips"])
    ensures !(Lt(left, 140.0) && Lt(right, 140.0)) && Gt(left, 160.0) && Gt(right, 160.0) ==>
              r.accuracy == 100.0 && r.feedback == [] && r.next.stage == (if s.stage == Down then Up else s.stage)
  {
    if Lt(left, 140.0) && Lt(right, 140.0) then
      var depth :=
        if Within(left, 100.0, 140.0) && Within(right, 100.0, 140.0) then
          if s.stage != Down then
            var a := Announce(s.(stage := Down), now, "Good squat depth. Now slowly stand up");
            (a.0, 2, [], a.1)
          else (s, 2, [], [])
        else (s, 0, ["Squat shallower - pregnancy safety"], []);
      var points := depth.1 + (if kneesAligned then 1 else 0);
      var fb := depth.2 + (if kneesAligned then [] else ["Keep knees aligned with hips"]);
      Check(depth.0, fb, points as real / 2.0 * 100.0, depth.3)
    else if Gt(left, 160.0) && Gt(right, 160.0) then
      if s.stage == Down then
        var n := s.(stage := Up, reps := s.reps + 1.0);
        var a := Announce(n, now, "Excellent! You've completed " + IntToString(Trunc(n.reps)) + " safe squats");
        Check(a.0, [], 100.0, a.1)
      else Check(s, [], 100.0, [])
    else Check(s, ["Return to full standing position"], 0.0, [])
  }

  /** A squat into the safe band followed by standing up straight counts one
      repetition, whatever the stage before and whatever the voice gate did. */
  lemma SquatThenStandCounts(s: Preg, l1: real, r1: real, aligned1: bool, now1: real,
                             l2: real, r2: real, aligned2: bool, now2: real)
    requires 100.0 < l1 < 140.0 && 100.0 < r1 < 140.0
    requires l2 > 160.0 && r2 > 160.0
    ensures var down := PregSquat(s, Some(l1), Some(r1), aligned1, now1).next;
            var up := PregSquat(down, Some(l2), Some(r2), aligned2, now2).next;
            down.stage == Down && up.stage == Up && up.reps == s.reps + 1.0
  {
  }

  /** A deep-enough squat with aligned knees scores 150. */
  lemma SquatAccuracyCanExceed100(s: Preg, now: real)
    ensures PregSquat(s, Some(120.0), Some(120.0), true, now).accuracy == 150.0
  {
  }

  /** `check_pelvic_tilts` on the vertical distance between the shoulder and
      hip centres: above 0.02 is "tilt"; returning from "tilt" counts one. */
  function PelvicTilt(s: Preg, tilt: real, now: real): (r: Check)
    ensures VoiceConsistent(s, r, now)
    ensures SpeaksOnChange(s, r, now)
    ensures r.spoken != [] ==>
              r.spoken == [if r.next.stage == Tilt then "Good pelvic tilt. Now return to neutral"
                           else "Perfect! " + IntToString(Trunc(r.next.reps)) + " pelvic tilts completed"]
    ensures r.next.reps == (if tilt <= 0.02 && s.stage == Tilt then s.reps + 1.0 else s.reps)
    ensures r.next.stage == (if tilt > 0.02 then Tilt else if s.stage == Tilt then Neutral else s.stage)
    ensures r.accuracy == 100.0 && r.feedback == []
  {
    if tilt > 0.02 then
      if s.stage != Tilt then
        var a := Announce(s.(stage := Tilt), now, "Good pelvic tilt. Now return to neutral");
        Check(a.0, [], 100.0, a.1)
      else Check(s, [], 100.0, [])
    else if s.stage == Tilt then
      var n := s.(stage := Neutral, reps := s.reps + 1.0);
      var a := Announce(n, now, "Perfect! " + IntToString(Trunc(n.reps)) + " pelvic tilts completed");
      Check(a.0, [], 100.0, a.1)
    else Check(s, [], 100.0, [])
  }

  /** `check_arm_circles`: both elbows above their shoulders is "raised";
      lowering from "raised" counts half a circle. */
  function ArmCircle(s: Preg, raised: bool, now: real): (r: Check)
    ensures VoiceConsistent(s, r, now)
    ensures SpeaksOnChange(s, r, now)
    ensures r.spoken != [] ==>
              r.spoken == [if r.next.stage == Raised then "Arms raised nicely. Make gentle circles"
                           else "Good arm movement. " + IntToString(Trunc(r.next.reps)) + " circles done"]
    ensures r.next.reps == (if !raised && s.stage == Raised then s.reps + 0.5 else s.reps)
    ensures r.next.stage == (if raised then Raised else if s.stage == Raised then Lowered else s.stage)
    ensures r.accuracy == 100.0 && r.feedback == []
  {
    if raised then
      if s.stage != Raised then
        var a := Announce(s.(stage := Raised), now, "Arms raised nicely. Make gentle circles");
        Check(a.0, [], 100.0, a.1)
      else Check(s, [], 100.0, [])
    else if s.stage == Raised then
      var n := s.(stage := Lowered, reps := s.reps + 0.5);
      var a := Announce(n, now, "Good arm movement. " + IntToString(Trunc(n.reps)) + " circles done");
      Check(a.0, [], 100.0, a.1)
    else Check(s, [], 100.0, [])
  }

  /** The per-frame inputs the checks derive from the landmarks. */
  function KneeAngles(p: Pose, arccosDeg: real -> real, sqrt: real -> real): (Option<real>, Option<real>) {
    (Angles.CosineAngle(arccosDeg, sqrt, p.leftHip, p.leftKnee, p.leftAnkle),
     Angles.CosineAngle(arccosDeg, sqrt, p.rightHip, p.rightKnee, p.rightAnkle))
  }

  predicate KneesAligned(p: Pose) { p.leftKnee.x < p.leftHip.x && p.rightKnee.x > p.rightHip.x }

  function TiltOffset(p: Pose): real {
    Abs((p.leftShoulder.y + p.rightShoulder.y) / 2.0 - (p.leftHip.y + p.rightHip.y) / 2.0)
  }

  predicate ArmsRaised(p: Pose) { p.leftElbow.y < p.leftShoulder.y && p.rightElbow.y < p.rightShoulder.y }

  /** The dispatch in `recv` for a frame with landmarks. */
  function Step(s: Preg, ex: Exercise, p: Pose, arccosDeg: real -> real, sqrt: real -> real, now: real): (r: Check)
    ensures VoiceConsistent(s, r, now)
    ensures s.reps <= r.next.reps <= s.reps + 1.0
    ensures HalfSteps(s.reps) ==> HalfSteps(r.next.reps)
    ensures ex == Other ==> r == Check(s, ["Select a pregnancy-safe exercise to begin"], 0.0, [])
  {
    HalfStepsAdvance(s.reps);
    match ex
    case PregnancySquats =>
      var knees := KneeAngles(p, arccosDeg, sqrt);
      PregSquat(s, knees.0, knees.1, KneesAligned(p), now)
    case PelvicTilts => PelvicTilt(s, TiltOffset(p), now)
    case ArmCircles => ArmCircle(s, ArmsRaised(p), now)
    case Other => Check(s, ["Select a pregnancy-safe exercise to begin"], 0.0, [])
  }

  /** Whatever the exercise, a frame speaks exactly when it changes the stage
      while the voice gate is open. */
  lemma StepSpeaksOnChange(s: Preg, ex: Exercise, p: Pose, arccosDeg: real -> real, sqrt: real -> real, now: real)
    ensures SpeaksOnChange(s, Step(s, ex, p, arccosDeg, sqrt, now), now)
  {
  }

  class PregWorkoutProcessor {
    var currentExercise: Exercise
    var feedback: seq<string>
    var safetyAlerts: seq<string>
    var accuracyScore: real
    var repsCount: real
    var stage: Stage
    var lastVoiceTime: real
    var safetyScore: int

    ghost predicate Valid()
      reads this
    {
      repsCount >= 0.0 && HalfSteps(repsCount) && 0 <= safetyScore <= 100
    }

    function State(): Preg
      reads this
    {
      Preg(stage, repsCount, lastVoiceTime)
    }

    constructor ()
      ensures Valid()
      ensures currentExercise == PregnancySquats && feedback == [] && safetyAlerts == []
      ensures accuracyScore == 0.0 && State() == Preg(Rest, 0.0, 0.0) && safetyScore == 100
    {
      currentExercise := PregnancySquats;
      feedback, safetyAlerts := [], [];
      accuracyScore := 0.0;
      repsCount, stage, lastVoiceTime := 0.0, Rest, 0.0;
      safetyScore := 100;
    }

    /** The exercise selector: the stage is left as it is. */
    method SelectExercise(ex: Exercise)
      modifies this`currentExercise
      ensures currentExercise == ex
    {
      currentExercise := ex;
    }

    method CheckPregnancySafety(p: Pose) returns (alerts: seq<string>)
      modifies this`safetyScore
      ensures (alerts, safetyScore) == Safety(old(safetyScore), p)
    {
      alerts := [];
      if p.nose.y - (p.leftHip.y + p.rightHip.y) / 2.0 > 0.15 {
        alerts := alerts + [LeanAlert];
        safetyScore := Floor0(safetyScore - 5);
      }
      ghost var afterLean := alerts;
      if Abs(p.leftAnkle.x - p.rightAnkle.x) > 0.25 {
        alerts := alerts + [StanceAlert];
        safetyScore := Floor0(safetyScore - 3);
      }
      ghost var afterStance := alerts;
      if Abs((p.leftShoulder.x - p.rightShoulder.x) - (p.leftHip.x - p.rightHip.x)) > 0.1 {
        alerts := alerts + [TwistAlert];
        safetyScore := Floor0(safetyScore - 7);
      }
      assert afterLean == (if Leaning(p) then [LeanAlert] else []);
      assert afterStance == afterLean + (if WideStance(p) then [StanceAlert] else []);
      assert alerts == afterStance + (if Twisting(p) then [TwistAlert] else []);
    }

    method Speak(now: real, msg: string) returns (spoken: seq<string>)
      modifies this`lastVoiceTime
      ensures spoken == (if VoiceReady(old(lastVoiceTime), now, VoiceCooldown) then [msg] else [])
      ensures lastVoiceTime == AfterVoice(old(lastVoiceTime), now, VoiceCooldown)
    {
      spoken := [];
      if now - lastVoiceTime > VoiceCooldown {
        spoken := [msg];
        lastVoiceTime := now;
      }
    }

    method CheckPregnancySquats(left: Option<real>, right: Option<real>, kneesAligned: bool, now: real)
      returns (fb: seq<string>, accuracy: real, spoken: seq<string>)
      modifies this`stage, this`repsCount, this`lastVoiceTime
      ensures Check(State(), fb, accuracy, spoken) == PregSquat(old(State()), left, right, kneesAligned, now)
    {
      fb, spoken := [], [];
      var points := 0;
      if Lt(left, 140.0) && Lt(right, 140.0) {
        if Within(left, 100.0, 140.0) && Within(right, 100.0, 140.0) {
          points := points + 2;
          if stage != Down {
            stage := Down;
            spoken := Speak(now, "Good squat depth. Now slowly stand up");
          }
        } else {
          fb := fb + ["Squat shallower - pregnancy safety"];
        }
        if kneesAligned {
          points := points + 1;
        } else {
          fb := fb + ["Keep knees aligned with hips"];
        }
      } else {
        if Gt(left, 160.0) && Gt(right, 160.0) {
          points := points + 2;
          if stage == Down {
            stage := Up;
            repsCount := repsCount + 1.0;
            spoken := Speak(now, "Excellent! You've completed " + IntToString(Trunc(repsCount)) + " safe squats");
          }
        } else {
          fb := fb + ["Return to full standing position"];
        }
      }
      accuracy := points as real / 2.0 * 100.0;
    }

    method CheckPelvicTilts(tilt: real, now: real) returns (fb: seq<string>, accuracy: real, spoken: seq<string>)
      modifies this`stage, this`repsCount, this`lastVoiceTime
      ensures Check(State(), fb, accuracy, spoken) == PelvicTilt(old(State()), tilt, now)
    {
      fb, accuracy, spoken := [], 100.0, [];
      if tilt > 0.02 {
        if stage != Tilt {
          stage := Tilt;
          spoken := Speak(now, "Good pelvic tilt. Now return to neutral");
        }
      } else if stage == Tilt {
        stage := Neutral;
        repsCount := repsCount + 1.0;
        spoken := Speak(now, "Perfect! " + IntToString(Trunc(repsCount)) + " pelvic tilts completed");
      }
    }

    method CheckArmCircles(raised: bool, now: real) returns (fb: seq<string>, accuracy: real, spoken: seq<string>)
      modifies this`stage, this`repsCount, this`lastVoiceTime
      ensures Check(State(), fb, accuracy, spoken) == ArmCircle(old(State()), raised, now)
    {
      fb, accuracy, spoken := [], 100.0, [];
      if raised {
        if stage != Raised {
          stage := Raised;
          spoken := Speak(now, "Arms raised nicely. Make gentle circles");
        }
      } else if stage == Raised {
        stage := Lowered;
        repsCount := repsCount + 0.5;
        spoken := Speak(now, "Good arm movement. " + IntToString(Trunc(repsCount)) + " circles done");
      }
    }

    /** `recv`: `frame` is `None` when no landmarks were detected, and then
        nothing changes, the safety score included. */
    method Recv(frame: Option<Pose>, now: real, arccosDeg: real -> real, sqrt: real -> real)
      returns (spoken: seq<string>)
      requires Valid()
      modifies this
      ensures Valid()
      ensures currentExercise == old(currentExercise)
      ensures frame.None? ==> spoken == [] && State() == old(State()) && safetyScore == old(safetyScore)
                              && feedback == old(feedback) && accuracyScore == old(accuracyScore)
                              && safetyAlerts == old(safetyAlerts)
      ensures frame.Some? ==>
        var r := Step(old(State()), currentExercise, frame.value, arccosDeg, sqrt, now);
        State() == r.next && feedback == r.feedback && accuracyScore == r.accuracy && spoken == r.spoken
        && (safetyAlerts, safetyScore) == Safety(old(safetyScore), frame.value)
      ensures old(repsCount) <= repsCount && safetyScore <= old(safetyScore)
    {
      spoken := [];
      if frame.Some? {
        var p := frame.value;
        safetyAlerts := CheckPregnancySafety(p);
        feedback, accuracyScore, spoken := CheckExercise(p, now, arccosDeg, sqrt);
      }
    }

    /** The exercise dispatch of `recv` for a frame with landmarks. */
    method CheckExercise(p: Pose, now: real, arccosDeg: real -> real, sqrt: real -> real)
      returns (fb: seq<string>, accuracy: real, spoken: seq<string>)
      modifies this`stage, this`repsCount, this`lastVoiceTime
      ensures Check(State(), fb, accuracy, spoken) == Step(old(State()), currentExercise, p, arccosDeg, sqrt, now)
    {
      match currentExercise {
        case PregnancySquats =>
          var knees := KneeAngles(p, arccosDeg, sqrt);
          fb, accuracy, spoken := CheckPregnancySquats(knees.0, knees.1, KneesAligned(p), now);
        case PelvicTilts =>
          fb, accuracy, spoken := CheckPelvicTilts(TiltOffset(p), now);
        case ArmCircles =>
          fb, accuracy, spoken := CheckArmCircles(ArmsRaised(p), now);
        case Other =>
          fb, accuracy, spoken := ["Select a pregnancy-safe exercise to begin"], 0.0, [];
      }
    }
  }
}
