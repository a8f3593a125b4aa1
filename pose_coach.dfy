/** The general fitness coach: `PoseCoach.transform` counts bicep curls,
    squats, push-ups and shoulder presses from one joint angle per frame.
    Every counted exercise has a start band, whose frames set the stage that
    arms a repetition, and a disjoint complete band, whose first frame after
    the arming stage counts one repetition and moves the stage on. The coach
    speaks on every qualifying frame; this page has no cooldown. */
module PoseCoach {
  import opened Common
  import Angles

  datatype Exercise = BicepCurl | Squat | PushUp | ShoulderPress | SpecialNeeds

  /** `stage` is `None` until the first start-band frame. */
  datatype Stage = Unset | Up | Down

  /** The state the coach keeps across frames. */
  datatype Coach = Coach(stage: Stage, reps: int)

  predicate Counted(ex: Exercise) { ex != SpecialNeeds }

  /** Frames that set the arming stage: `angle > 160` for curl, squat and
      push-up, `angle < 90` for the shoulder press. */
  predicate InStartBand(ex: Exercise, angle: real) {
    match ex
    case BicepCurl => angle > 160.0
    case Squat => angle > 160.0
    case PushUp => angle > 160.0
    case ShoulderPress => angle < 90.0
    case SpecialNeeds => false
  }

  /** Frames that complete a repetition when the coach is armed. */
  predicate InCompleteBand(ex: Exercise, angle: real) {
    match ex
    case BicepCurl => angle < 50.0
    case Squat => angle < 90.0
    case PushUp => angle < 90.0
    case ShoulderPress => angle > 160.0
    case SpecialNeeds => false
  }

  /** The stage a start-band frame sets (and a repetition requires). */
  function StartStage(ex: Exercise): Stage {
    match ex
    case BicepCurl => Down
    case Squat => Up
    case PushUp => Up
    case ShoulderPress => Down
    case SpecialNeeds => Unset
  }

  /** The stage a counted repetition leaves behind. */
  function CompleteStage(ex: Exercise): Stage {
    match ex
    case BicepCurl => Up
    case Squat => Down
    case PushUp => Down
    case ShoulderPress => Up
    case SpecialNeeds => Unset
  }

  /** The joint each exercise reads: right shoulder-elbow-wrist for the curl,
      right hip-knee-ankle for the squat, left shoulder-elbow-wrist for the
      push-up and the shoulder press. */
  function JointAngle(ex: Exercise, p: Pose, atan2Deg: (real, real) -> real): real {
    match ex
    case BicepCurl => Angles.CalculateAngle(atan2Deg, p.rightShoulder, p.rightElbow, p.rightWrist)
    case Squat => Angles.CalculateAngle(atan2Deg, p.rightHip, p.rightKnee, p.rightAnkle)
    case PushUp => Angles.CalculateAngle(atan2Deg, p.leftShoulder, p.leftElbow, p.leftWrist)
    case ShoulderPress => Angles.CalculateAngle(atan2Deg, p.leftShoulder, p.leftElbow, p.leftWrist)
    case SpecialNeeds => 0.0
  }

  /** One frame of the counting rule: a start-band frame sets the arming
      stage; a complete-band frame counts when the stage is the arming stage
      (and the stage moves on); any other frame changes nothing. */
  function Next(c: Coach, ex: Exercise, angle: real): (r: Coach)
    ensures r.reps == c.reps || r.reps == c.reps + 1
    ensures r.reps == c.reps + 1 <==> Counted(ex) && InCompleteBand(ex, angle) && c.stage == StartStage(ex)
    ensures r.reps == c.reps + 1 ==> r.stage == CompleteStage(ex)
    ensures Counted(ex) && InStartBand(ex, angle) ==> r.stage == StartStage(ex)
    ensures !InStartBand(ex, angle) && !InCompleteBand(ex, angle) ==> r == c
    ensures !InStartBand(ex, angle) && !(InCompleteBand(ex, angle) && c.stage == StartStage(ex)) ==> r == c
    ensures !Counted(ex) ==> r == c
  {
    var stage := if InStartBand(ex, angle) then StartStage(ex) else c.stage;
    if InCompleteBand(ex, angle) && stage == StartStage(ex) then Coach(CompleteStage(ex), c.reps + 1)
    else Coach(stage, c.reps)
  }

  /** The on-screen feedback line of a frame with landmarks. */
  function Feedback(ex: Exercise, angle: real): string {
    match ex
    case BicepCurl => if angle > 160.0 then "Curl your arm!" else if angle < 50.0 then "Keep curling!" else "Perfect!"
    case Squat => if angle < 90.0 then "Go deeper!" else if angle > 160.0 then "Stand tall!" else "Good posture!"
    case PushUp => if angle < 90.0 then "Go down!" else if angle > 160.0 then "Push up!" else "Good!"
    case ShoulderPress => if angle > 160.0 then "Push up!" else if angle < 90.0 then "Lower down!" else "Good posture!"
    case SpecialNeeds => "Gentle movements, lift your arms slowly"
  }

  /** What a start-band frame says aloud. */
  function StartPhrase(ex: Exercise): string {
    match ex
    case BicepCurl => "Lower your arm"
    case Squat => "Stand tall"
    case PushUp => "Push up"
    case ShoulderPress => "Lower down"
    case SpecialNeeds => "Gentle movements, lift your arms slowly"
  }

  /** What a counted repetition says aloud. */
  function DonePhrase(ex: Exercise): string {
    match ex
    case BicepCurl => "Good job! One rep completed!"
    case Squat => "Great! One squat done!"
    case PushUp => "Push-up done!"
    case ShoulderPress => "One shoulder press done!"
    case SpecialNeeds => "Gentle movements, lift your arms slowly"
  }

  function Sum(s: seq<real>): real {
    if s == [] then 0.0 else s[0] + Sum(s[1..])
  }

  lemma {:induction false} SumBounds(s: seq<real>)
    ensures (forall i :: 0 <= i < |s| ==> 0.0 <= s[i] <= 1.0) ==> 0.0 <= Sum(s) <= |s| as real
  {
    if s != [] {
      SumBounds(s[1..]);
      assert forall i :: 0 <= i < |s| - 1 ==> s[1..][i] == s[i + 1];
    }
  }

  /** The confidence overlay: mean landmark visibility as a percentage. */
  function Confidence(visibilities: seq<real>): (r: real)
    requires |visibilities| > 0
    ensures (forall i :: 0 <= i < |visibilities| ==> 0.0 <= visibilities[i] <= 1.0) ==> 0.0 <= r <= 100.0
  {
    SumBounds(visibilities);
    var n := |visibilities| as real;
    assert Sum(visibilities) <= n ==> Sum(visibilities) / n <= 1.0;
    Sum(visibilities) / n * 100.0
  }

  /** A stream of frames, all with landmarks, for one exercise. */
  function Run(c: Coach, ex: Exercise, angles: seq<real>): Coach
    decreases |angles|
  {
    if angles == [] then c else Run(Next(c, ex, angles[0]), ex, angles[1..])
  }

  lemma {:induction false} RunNeverDecreases(c: Coach, ex: Exercise, angles: seq<real>)
    ensures Run(c, ex, angles).reps >= c.reps
    decreases |angles|
  {
    if angles != [] {
      RunNeverDecreases(Next(c, ex, angles[0]), ex, angles[1..]);
    }
  }

  /** 1 while the coach is armed for `ex`, 0 otherwise. */
  function Armed(ex: Exercise, c: Coach): nat {
    if Counted(ex) && c.stage == StartStage(ex) then 1 else 0
  }

  /** Number of start-band frames in a stream. */
  function StartFrames(ex: Exercise, angles: seq<real>): nat
    decreases |angles|
  {
    if angles == [] then 0
    else (if InStartBand(ex, angles[0]) then 1 else 0) + StartFrames(ex, angles[1..])
  }

  /** A repetition disarms the coach, and only a start-band frame re-arms it. */
  lemma {:induction false} NextArmedBalance(c: Coach, ex: Exercise, angle: real)
    ensures Next(c, ex, angle).reps - c.reps + Armed(ex, Next(c, ex, angle))
            <= (if InStartBand(ex, angle) then 1 else 0) + Armed(ex, c)
  {
    if Counted(ex) {
      assert StartStage(ex) != CompleteStage(ex);
    }
  }

  /** No double counting: a stream yields at most one repetition per
      start-band frame, plus one if the coach was armed already. */
  lemma {:induction false} RunRepsBounded(c: Coach, ex: Exercise, angles: seq<real>)
    ensures Run(c, ex, angles).reps - c.reps + Armed(ex, Run(c, ex, angles))
            <= StartFrames(ex, angles) + Armed(ex, c)
    decreases |angles|
  {
    if angles != [] {
      NextArmedBalance(c, ex, angles[0]);
      RunRepsBounded(Next(c, ex, angles[0]), ex, angles[1..]);
    }
  }

  /** Holding any position outside the start band, however many frames,
      counts at most once. */
  lemma {:induction false} NoRepeatWithoutRestart(c: Coach, ex: Exercise, angles: seq<real>)
    requires forall i :: 0 <= i < |angles| ==> !InStartBand(ex, angles[i])
    ensures Run(c, ex, angles).reps <= c.reps + Armed(ex, c)
  {
    RunRepsBounded(c, ex, angles);
    NoStartFrames(ex, angles);
  }

  lemma {:induction false} NoStartFrames(ex: Exercise, angles: seq<real>)
    requires forall i :: 0 <= i < |angles| ==> !InStartBand(ex, angles[i])
    ensures StartFrames(ex, angles) == 0
    decreases |angles|
  {
    if angles != [] {
      assert !InStartBand(ex, angles[0]);
      NoStartFrames(ex, angles[1..]);
    }
  }

  /** The bicep-curl script 170, 165, 40, 45, 170 counts exactly one
      repetition, although the extended band is visited twice. */
  lemma CurlScriptCountsOne()
    ensures Run(Coach(Unset, 0), BicepCurl, [170.0, 165.0, 40.0, 45.0, 170.0]) == Coach(Down, 1)
  {
    var s := [170.0, 165.0, 40.0, 45.0, 170.0];
    assert s[1..] == [165.0, 40.0, 45.0, 170.0];
    assert s[1..][1..] == [40.0, 45.0, 170.0];
    assert s[1..][1..][1..] == [45.0, 170.0];
    assert s[1..][1..][1..][1..] == [170.0];
    assert Next(Coach(Unset, 0), BicepCurl, 170.0) == Coach(Down, 0);
    assert Next(Coach(Down, 0), BicepCurl, 40.0) == Coach(Up, 1);
  }

  /** The squat script 170, 168, 85, 82, 172 counts exactly one repetition,
      ends in stage "up" and shows "Stand tall!" on the last frame. */
  lemma SquatScriptCountsOne()
    ensures Run(Coach(Unset, 0), Squat, [170.0, 168.0, 85.0, 82.0, 172.0]) == Coach(Up, 1)
    ensures Feedback(Squat, 172.0) == "Stand tall!"
  {
    var s := [170.0, 168.0, 85.0, 82.0, 172.0];
    assert s[1..] == [168.0, 85.0, 82.0, 172.0];
    assert s[1..][1..] == [85.0, 82.0, 172.0];
    assert s[1..][1..][1..] == [82.0, 172.0];
    assert s[1..][1..][1..][1..] == [172.0];
    assert Next(Coach(Up, 0), Squat, 85.0) == Coach(Down, 1);
  }

  /** Switching exercise keeps the stage: an extended arm arms the curl with
      stage "down", which is also the shoulder press's arming stage, so the
      first press frame above 160 counts a press that never happened. */
  lemma StageCarriesAcrossSwitch()
    ensures Next(Next(Coach(Unset, 0), BicepCurl, 170.0), ShoulderPress, 170.0).reps == 1
  {
  }

  /** The per-frame processor. `stage` and `rep_count` persist across frames;
      the feedback line, the confidence and the utterances are per frame. */
  class PoseCoach {
    var stage: Stage
    var repCount: int

    constructor ()
      ensures stage == Unset && repCount == 0
    {
      stage := Unset;
      repCount := 0;
    }

    /** `transform`: `frame` is `None` when no landmarks were detected. */
    method Transform(ex: Exercise, frame: Option<Pose>, atan2Deg: (real, real) -> real)
      returns (feedback: string, confidence: real, spoken: seq<string>)
      requires frame.Some? ==> |frame.value.visibilities| > 0
      modifies this
      ensures frame.None? ==> stage == old(stage) && repCount == old(repCount)
                              && feedback == "" && confidence == 0.0 && spoken == []
      ensures frame.Some? ==>
        var angle := JointAngle(ex, frame.value, atan2Deg);
        var c := Next(Coach(old(stage), old(repCount)), ex, angle);
        stage == c.stage && repCount == c.reps
        && feedback == Feedback(ex, angle)
        && confidence == Confidence(frame.value.visibilities)
        && spoken == if !Counted(ex) then [Feedback(ex, angle)]
                     else (if InStartBand(ex, angle) then [StartPhrase(ex)] else [])
                          + (if c.reps > old(repCount) then [DonePhrase(ex)] else [])
      ensures old(repCount) <= repCount <= old(repCount) + 1
    {
      feedback, confidence, spoken := "", 0.0, [];
      if frame.Some? {
        var p := frame.value;
        confidence := Confidence(p.visibilities);
        var angle := JointAngle(ex, p, atan2Deg);
        if Counted(ex) {
          if InStartBand(ex, angle) {
            stage := StartStage(ex);
            spoken := spoken + [StartPhrase(ex)];
          }
          if InCompleteBand(ex, angle) && stage == StartStage(ex) {
            stage := CompleteStage(ex);
            repCount := repCount + 1;
            spoken := spoken + [DonePhrase(ex)];
          }
        } else {
          spoken := [Feedback(ex, angle)];
        }
        feedback := Feedback(ex, angle);
      }
    }
  }
}
