/** The senior exercise coach (`SeniorExerciseProcessor`): chair squats, arm
    raises, leg lifts and neck rotations, each a two-stage machine over one
    metric per frame, with a read-only safety check and a 5-second voice
    cooldown. Neck rotations count half a repetition per turn. */
module SeniorCoach {
  import opened Common
  import Angles

  datatype Exercise = ChairSquats | ArmRaises | LegLifts | NeckRotations | Other

  /** `stage` starts as `None`. */
  datatype Stage = Unset | Down | Up | Turned | Center

  /** The fields one exercise check reads and updates. */
  datatype Senior = Senior(stage: Stage, reps: real, lastVoiceTime: real)

  /** What one exercise check returns besides the new state: the feedback
      lines, the accuracy percentage and the utterances let through. */
  datatype Check = Check(next: Senior, feedback: seq<string>, accuracy: real, spoken: seq<string>)

  const VoiceCooldown: real := 5.0

  /** The voice gate's bookkeeping: at most one utterance, and the time of
      the last utterance moves to `now` exactly when one is let through. */
  predicate VoiceConsistent(s: Senior, r: Check, now: real) {
    |r.spoken| <= 1
    && (r.spoken != [] ==> VoiceReady(s.lastVoiceTime, now, VoiceCooldown) && r.next.lastVoiceTime == now)
    && (r.spoken == [] ==> r.next.lastVoiceTime == s.lastVoiceTime)
  }

  /** Every exercise check speaks on the frames that change the stage, and
      only on those, whenever the gate is open. */
  predicate SpeaksOnChange(s: Senior, r: Check, now: real) {
    r.spoken != [] <==> r.next.stage != s.stage && VoiceReady(s.lastVoiceTime, now, VoiceCooldown)
  }

  /** A check that wants to say `msg`: the gate decides. */
  function Announce(s: Senior, now: real, msg: string, feedback: seq<string>, accuracy: real): (r: Check)
    ensures VoiceConsistent(s, r, now)
    ensures r.next.stage == s.stage && r.next.reps == s.reps
    ensures r.spoken != [] <==> VoiceReady(s.lastVoiceTime, now, VoiceCooldown)
    ensures r.spoken == [] || r.spoken == [msg]
    ensures r.feedback == feedback && r.accuracy == accuracy
  {
    if VoiceReady(s.lastVoiceTime, now, VoiceCooldown) then Check(s.(lastVoiceTime := now), feedback, accuracy, [msg])
    else Check(s, feedback, accuracy, [])
  }

  /** `check_chair_squats` on the hip angle (shoulder-hip-knee): the partial
      squat band (120, 150) sets "down"; above 150 counts a squat when the
      stage is "down"; anything else, including exactly 150, is too deep. */
  function ChairSquat(s: Senior, hipAngle: real, now: real): (r: Check)
    ensures VoiceConsistent(s, r, now)
    ensures SpeaksOnChange(s, r, now)
    ensures r.spoken != [] ==>
              r.spoken == [if r.next.stage == Down then "Good! Now slowly stand back up"
                           else "Excellent! You've completed " + IntToString(Trunc(r.next.reps)) + " squats"]
    ensures r.next.reps == (if hipAngle > 150.0 && s.stage == Down then s.reps + 1.0 else s.reps)
    ensures r.next.stage == (if 120.0 < hipAngle < 150.0 then Down
                             else if hipAngle > 150.0 && s.stage == Down then Up
                             else s.stage)
    ensures (hipAngle <= 120.0 || hipAngle == 150.0) <==> r.accuracy == 0.0
    ensures r.accuracy == 0.0 ==> r.next == s && r.feedback == ["Don't squat too deep - keep it gentle"]
    ensures r.accuracy != 0.0 ==> r.accuracy == 100.0 && r.feedback == []
  {
    if 120.0 < hipAngle < 150.0 then
      if s.stage != Down then Announce(s.(stage := Down), now, "Good! Now slowly stand back up", [], 100.0)
      else Check(s, [], 100.0, [])
    else if hipAngle > 150.0 then
      if s.stage == Down then
        var n := s.(stage := Up, reps := s.reps + 1.0);
        Announce(n, now, "Excellent! You've completed " + IntToString(Trunc(n.reps)) + " squats", [], 100.0)
      else Check(s, [], 100.0, [])
    else Check(s, ["Don't squat too deep - keep it gentle"], 0.0, [])
  }

  /** `check_arm_raises` on the elbow angle: above 150 is "up"; leaving that
      band while "up" counts a raise. */
  function ArmRaise(s: Senior, armAngle: real, now: real): (r: Check)
    ensures VoiceConsistent(s, r, now)
    ensures SpeaksOnChange(s, r, now)
    ensures r.spoken != [] ==>
              r.spoken == [if r.next.stage == Up then "Good lift! Now slowly lower your arm"
                           else "Perfect! That's " + IntToString(Trunc(r.next.reps)) + " arm raises"]
    ensures r.next.reps == (if armAngle <= 150.0 && s.stage == Up then s.reps + 1.0 else s.reps)
    ensures r.next.stage == (if armAngle > 150.0 then Up else if s.stage == Up then Down else s.stage)
    ensures r.accuracy == 100.0 && r.feedback == []
  {
    if armAngle > 150.0 then
      if s.stage != Up then Announce(s.(stage := Up), now, "Good lift! Now slowly lower your arm", [], 100.0)
      else Check(s, [], 100.0, [])
    else if s.stage == Up then
      var n := s.(stage := Down, reps := s.reps + 1.0);
      Announce(n, now, "Perfect! That's " + IntToString(Trunc(n.reps)) + " arm raises", [], 100.0)
    else Check(s, [], 100.0, [])
  }

  /** `check_leg_lifts` on the knee angle: the band (130, 160) is "up";
      leaving it while "up" counts a lift. */
  function LegLift(s: Senior, legAngle: real, now: real): (r: Check)
    ensures VoiceConsistent(s, r, now)
    ensures SpeaksOnChange(s, r, now)
    ensures r.spoken != [] ==>
              r.spoken == [if r.next.stage == Up then "Nice leg lift! Hold for a moment"
                           else "Great control! " + IntToString(Trunc(r.next.reps)) + " leg lifts done"]
    ensures r.next.reps == (if !(130.0 < legAngle < 160.0) && s.stage == Up then s.reps + 1.0 else s.reps)
    ensures r.next.stage == (if 130.0 < legAngle < 160.0 then Up else if s.stage == Up then Down else s.stage)
    ensures r.accuracy == 100.0 && r.feedback == []
  {
    if 130.0 < legAngle < 160.0 then
      if s.stage != Up then Announce(s.(stage := Up), now, "Nice leg lift! Hold for a moment", [], 100.0)
      else Check(s, [], 100.0, [])
    else if s.stage == Up then
      var n := s.(stage := Down, reps := s.reps + 1.0);
      Announce(n, now, "Great control! " + IntToString(Trunc(n.reps)) + " leg lifts done", [], 100.0)
    else Check(s, [], 100.0, [])
  }

  /** `check_neck_rotations` on the horizontal nose offset from the shoulder
      centre: the band (0.05, 0.15) is "turned"; returning from "turned" is
      half a repetition. */
  function NeckRotation(s: Senior, headOffset: real, now: real): (r: Check)
    ensures VoiceConsistent(s, r, now)
    ensures SpeaksOnChange(s, r, now)
    ensures r.spoken != [] ==>
              r.spoken == [if r.next.stage == Turned then "Good neck turn. Now slowly return to center"
                           else "Excellent neck mobility"]
    ensures r.next.reps == (if !(0.05 < headOffset < 0.15) && s.stage == Turned then s.reps + 0.5 else s.reps)
    ensures r.next.stage == (if 0.05 < headOffset < 0.15 then Turned else if s.stage == Turned then Center else s.stage)
    ensures r.accuracy == 100.0 && r.feedback == []
  {
    if 0.05 < headOffset < 0.15 then
      if s.stage != Turned then Announce(s.(stage := Turned), now, "Good neck turn. Now slowly return to center", [], 100.0)
      else Check(s, [], 100.0, [])
    else if s.stage == Turned then
      Announce(s.(stage := Center, reps := s.reps + 0.5), now, "Excellent neck mobility", [], 100.0)
    else Check(s, [], 100.0, [])
  }

  /** The metric each exercise reads from the landmarks. */
  function Metric(ex: Exercise, p: Pose, atan2Deg: (real, real) -> real): real {
    match ex
    case ChairSquats => Angles.CalculateAngle(atan2Deg, p.leftShoulder, p.leftHip, p.leftKnee)
    case ArmRaises => Angles.CalculateAngle(atan2Deg, p.leftShoulder, p.leftElbow, p.leftWrist)
    case LegLifts => Angles.CalculateAngle(atan2Deg, p.leftHip, p.leftKnee, p.leftAnkle)
    case NeckRotations => Abs(p.nose.x - (p.leftShoulder.x + p.rightShoulder.x) / 2.0)
    case Other => 0.0
  }

  /** The dispatch in `recv` for a frame with landmarks. */
  function Step(s: Senior, ex: Exercise, metric: real, now: real): (r: Check)
    ensures VoiceConsistent(s, r, now)
    ensures SpeaksOnChange(s, r, now)
    ensures s.reps <= r.next.reps <= s.reps + 1.0
    ensures r.accuracy == 0.0 || r.accuracy == 100.0
    ensures HalfSteps(s.reps) ==> HalfSteps(r.next.reps)
    ensures ex == Other ==> r == Check(s, ["Select an exercise to begin"], 0.0, [])
  {
    HalfStepsAdvance(s.reps);
    match ex
    case ChairSquats => ChairSquat(s, metric, now)
    case ArmRaises => ArmRaise(s, metric, now)
    case LegLifts => LegLift(s, metric, now)
    case NeckRotations => NeckRotation(s, metric, now)
    case Other => Check(s, ["Select an exercise to begin"], 0.0, [])
  }

  /** Counting does not depend on the clock or on the voice gate. */
  lemma {:induction false} CountingIgnoresVoice(st: Stage, reps: real, last1: real, last2: real,
                                                ex: Exercise, metric: real, now1: real, now2: real)
    ensures Step(Senior(st, reps, last1), ex, metric, now1).next.stage == Step(Senior(st, reps, last2), ex, metric, now2).next.stage
    ensures Step(Senior(st, reps, last1), ex, metric, now1).next.reps == Step(Senior(st, reps, last2), ex, metric, now2).next.reps
  {
    match ex {
      case ChairSquats =>
      case ArmRaises =>
      case LegLifts =>
      case NeckRotations =>
      case Other =>
    }
  }

  /** A stream of frames with landmarks, as (metric, time) pairs. */
  function Run(s: Senior, ex: Exercise, frames: seq<(real, real)>): Senior
    decreases |frames|
  {
    if frames == [] then s else Run(Step(s, ex, frames[0].0, frames[0].1).next, ex, frames[1..])
  }

  lemma {:induction false} RunNeverDecreases(s: Senior, ex: Exercise, frames: seq<(real, real)>)
    ensures Run(s, ex, frames).reps >= s.reps
    ensures HalfSteps(s.reps) ==> HalfSteps(Run(s, ex, frames).reps)
    decreases |frames|
  {
    if frames != [] {
      RunNeverDecreases(Step(s, ex, frames[0].0, frames[0].1).next, ex, frames[1..]);
    }
  }

  /** Turning the head and returning twice makes one displayed repetition. */
  lemma NeckTwoTurnsShowOne(last: real)
    ensures Trunc(Run(Senior(Unset, 0.0, last), NeckRotations, [(0.1, 0.0), (0.0, 0.0), (0.1, 0.0), (0.0, 0.0)]).reps) == 1
  {
    var f := [(0.1, 0.0), (0.0, 0.0), (0.1, 0.0), (0.0, 0.0)];
    assert f[1..] == [(0.0, 0.0), (0.1, 0.0), (0.0, 0.0)];
    assert f[1..][1..] == [(0.1, 0.0), (0.0, 0.0)];
    assert f[1..][1..][1..] == [(0.0, 0.0)];
  }

  const BendAlert := "Avoid bending too far forward"
  const StanceAlert := "Widen stance for better balance"

  /** `check_safety_limits`: the forward-bend alert when the angle at the
      nose between a point 0.1 below it and the left hip exceeds 45 degrees,
      then the stance alert when the ankles are more than 0.2 apart. */
  function SafetyLimits(p: Pose, atan2Deg: (real, real) -> real): (r: seq<string>)
    ensures |r| <= 2
    ensures StanceAlert in r <==> Abs(p.leftAnkle.x - p.rightAnkle.x) > 0.2
    ensures BendAlert in r <==> Angles.CalculateAngle(atan2Deg, Point(p.nose.x, p.nose.y + 0.1), p.nose, p.leftHip) > 45.0
    ensures |r| == 2 ==> r == [BendAlert, StanceAlert]
    ensures forall a :: a in r ==> a == BendAlert || a == StanceAlert
  {
    var bend := Angles.CalculateAngle(atan2Deg, Point(p.nose.x, p.nose.y + 0.1), p.nose, p.leftHip);
    (if bend > 45.0 then [BendAlert] else [])
    + (if Abs(p.leftAnkle.x - p.rightAnkle.x) > 0.2 then [StanceAlert] else [])
  }

  /** The per-stream processor. The exercise checks update `stage`,
      `rep_count` and `last_voice_time` in place; `recv` overwrites the
      feedback, the accuracy and the safety alerts. */
  class SeniorExerciseProcessor {
    var currentExercise: Exercise
    var feedback: seq<string>
    var safetyAlerts: seq<string>
    var accuracyScore: real
    var repCount: real
    var stage: Stage
    var lastVoiceTime: real

    ghost predicate Valid()
      reads this
    {
      repCount >= 0.0 && HalfSteps(repCount)
    }

    function State(): Senior
      reads this
    {
      Senior(stage, repCount, lastVoiceTime)
    }

    constructor ()
      ensures Valid()
      ensures currentExercise == ChairSquats && feedback == [] && safetyAlerts == []
      ensures accuracyScore == 0.0 && State() == Senior(Unset, 0.0, 0.0)
    {
      currentExercise := ChairSquats;
      feedback, safetyAlerts := [], [];
      accuracyScore := 0.0;
      repCount, stage, lastVoiceTime := 0.0, Unset, 0.0;
    }

    /** The exercise selector: the stage is left as it is. */
    method SelectExercise(ex: Exercise)
      modifies this`currentExercise
      ensures currentExercise == ex
    {
      currentExercise := ex;
    }

    /** The gated `speak_async` call of the checks. */
    method Speak(now: real, msg: string) returns (spoken: seq<string>)
      modifies this`lastVoiceTime
      ensures spoken == (if VoiceReady(old(lastVoiceTime), now, VoiceCooldown) then [msg] else [])
      ensures lastVoiceTime == AfterVoice(old(lastVoiceTime), now, VoiceCooldown)
    {
      spoken := [];
      if now - lastVoiceTime > VoiceCooldown {
        spoken := [msg];
        lastVoiceTime := now;
      }
    }

    method CheckChairSquats(hipAngle: real, now: real) returns (fb: seq<string>, accuracy: real, spoken: seq<string>)
      modifies this`stage, this`repCount, this`lastVoiceTime
      ensures Check(State(), fb, accuracy, spoken) == ChairSquat(old(State()), hipAngle, now)
    {
      fb, accuracy, spoken := [], 0.0, [];
      if 120.0 < hipAngle < 150.0 {
        accuracy := 100.0;
        if stage != Down {
          stage := Down;
          spoken := Speak(now, "Good! Now slowly stand back up");
        }
      } else if hipAngle > 150.0 {
        if stage == Down {
          stage := Up;
          repCount := repCount + 1.0;
          spoken := Speak(now, "Excellent! You've completed " + IntToString(Trunc(repCount)) + " squats");
        }
        accuracy := 100.0;
      } else {
        fb := ["Don't squat too deep - keep it gentle"];
      }
    }

    method CheckArmRaises(armAngle: real, now: real) returns (fb: seq<string>, accuracy: real, spoken: seq<string>)
      modifies this`stage, this`repCount, this`lastVoiceTime
      ensures Check(State(), fb, accuracy, spoken) == ArmRaise(old(State()), armAngle, now)
    {
      fb, accuracy, spoken := [], 100.0, [];
      if armAngle > 150.0 {
        if stage != Up {
          stage := Up;
          spoken := Speak(now, "Good lift! Now slowly lower your arm");
        }
      } else if stage == Up {
        stage := Down;
        repCount := repCount + 1.0;
        spoken := Speak(now, "Perfect! That's " + IntToString(Trunc(repCount)) + " arm raises");
      }
    }

    method CheckLegLifts(legAngle: real, now: real) returns (fb: seq<string>, accuracy: real, spoken: seq<string>)
      modifies this`stage, this`repCount, this`lastVoiceTime
      ensures Check(State(), fb, accuracy, spoken) == LegLift(old(State()), legAngle, now)
    {
      fb, accuracy, spoken := [], 100.0, [];
      if 130.0 < legAngle < 160.0 {
        if stage != Up {
          stage := Up;
          spoken := Speak(now, "Nice leg lift! Hold for a moment");
        }
      } else if stage == Up {
        stage := Down;
        repCount := repCount + 1.0;
        spoken := Speak(now, "Great control! " + IntToString(Trunc(repCount)) + " leg lifts done");
      }
    }

    method CheckNeckRotations(headOffset: real, now: real) returns (fb: seq<string>, accuracy: real, spoken: seq<string>)
      modifies this`stage, this`repCount, this`lastVoiceTime
      ensures Check(State(), fb, accuracy, spoken) == NeckRotation(old(State()), headOffset, now)
    {
      fb, accuracy, spoken := [], 100.0, [];
      if 0.05 < headOffset < 0.15 {
        if stage != Turned {
          stage := Turned;
          spoken := Speak(now, "Good neck turn. Now slowly return to center");
        }
      } else if stage == Turned {
        stage := Center;
        repCount := repCount + 0.5;
        spoken := Speak(now, "Excellent neck mobility");
      }
    }

    /** `recv`: `frame` is `None` when no landmarks were detected, and then
        nothing changes. */
    method Recv(frame: Option<Pose>, now: real, atan2Deg: (real, real) -> real) returns (spoken: seq<string>)
      requires Valid()
      modifies this
      ensures Valid()
      ensures currentExercise == old(currentExercise)
      ensures frame.None? ==> spoken == [] && State() == old(State()) && feedback == old(feedback)
                              && accuracyScore == old(accuracyScore) && safetyAlerts == old(safetyAlerts)
      ensures frame.Some? ==>
        var r := Step(old(State()), currentExercise, Metric(currentExercise, frame.value, atan2Deg), now);
        State() == r.next && feedback == r.feedback && accuracyScore == r.accuracy && spoken == r.spoken
        && safetyAlerts == SafetyLimits(frame.value, atan2Deg)
      ensures old(repCount) <= repCount
    {
      spoken := [];
      if frame.Some? {
        var p := frame.value;
        safetyAlerts := SafetyLimits(p, atan2Deg);
        feedback, accuracyScore, spoken := CheckExercise(Metric(currentExercise, p, atan2Deg), now);
      }
    }

    /** The exercise dispatch of `recv` on the current exercise's metric. */
    method CheckExercise(metric: real, now: real) returns (fb: seq<string>, accuracy: real, spoken: seq<string>)
      modifies this`stage, this`repCount, this`lastVoiceTime
      ensures Check(State(), fb, accuracy, spoken) == Step(old(State()), currentExercise, metric, now)
    {
      match currentExercise {
        case ChairSquats => fb, accuracy, spoken := CheckChairSquats(metric, now);
        case ArmRaises => fb, accuracy, spoken := CheckArmRaises(metric, now);
        case LegLifts => fb, accuracy, spoken := CheckLegLifts(metric, now);
        case NeckRotations => fb, accuracy, spoken := CheckNeckRotations(metric, now);
        case Other => fb, accuracy, spoken := ["Select an exercise to begin"], 0.0, [];
      }
    }
  }
}
