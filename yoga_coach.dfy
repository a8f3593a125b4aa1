/** The yoga coach (`YogaPoseProcessor`): four poses scored from landmark
    geometry. Mountain pose and downward dog are pure scoring; Warrior II and
    tree pose also keep a stage and add 0.1 to the pose score each time the
    pose is entered. There is no voice feedback on this page. */
module YogaCoach {
  import opened Common
  import Angles

  datatype YogaPose = MountainPose | WarriorII | TreePose | DownwardDog | Other

  /** `stage` starts as `None`. */
  datatype Stage = Unset | Correct | Incorrect | Balanced | Unbalanced

  /** A feedback line. Two lines embed the measured angle, which the page
      formats with one decimal. */
  datatype Line = Text(text: string) | BendKnee(current: real) | CreateV(current: real)

  datatype Yoga = Yoga(stage: Stage, reps: real)

  datatype Check = Check(next: Yoga, feedback: seq<Line>, accuracy: real)

  const LevelShoulders := Text("Level your shoulders")
  const AlignHips := Text("Align hips evenly")

  /** `check_mountain_pose`: one point each for shoulders and hips whose
      heights differ by less than 0.02; the failed checks are listed in that
      order. */
  function Mountain(p: Pose): (r: (seq<Line>, real))
    ensures r.1 in {0.0, 50.0, 100.0}
    ensures r.1 == 100.0 <==> Abs(p.leftShoulder.y - p.rightShoulder.y) < 0.02 && Abs(p.leftHip.y - p.rightHip.y) < 0.02
    ensures LevelShoulders in r.0 <==> Abs(p.leftShoulder.y - p.rightShoulder.y) >= 0.02
    ensures AlignHips in r.0 <==> Abs(p.leftHip.y - p.rightHip.y) >= 0.02
    ensures |r.0| == 2 ==> r.0 == [LevelShoulders, AlignHips]
    ensures r.1 == (2 - |r.0|) as real / 2.0 * 100.0
  {
    var shoulders := Abs(p.leftShoulder.y - p.rightShoulder.y) < 0.02;
    var hips := Abs(p.leftHip.y - p.rightHip.y) < 0.02;
    var points := (if shoulders then 1 else 0) + (if hips then 1 else 0);
    ((if shoulders then [] else [LevelShoulders]) + (if hips then [] else [AlignHips]),
     points as real / 2.0 * 100.0)
  }

  /** `check_warrior_ii` on the front knee angle (left hip-knee-ankle):
      inside (80, 100) the pose is "correct" and entering it adds 0.1;
      outside, the stage is "incorrect" and one line asks for 90 degrees. */
  function Warrior(s: Yoga, kneeAngle: real): (r: Check)
    ensures r.next.reps == (if 80.0 < kneeAngle < 100.0 && s.stage != Correct then s.reps + 0.1 else s.reps)
    ensures 80.0 < kneeAngle < 100.0 <==> r.next.stage == Correct
    ensures r.next.stage == Correct || r.next.stage == Incorrect
    ensures r.next.stage == Correct ==> r.accuracy == 100.0 && r.feedback == []
    ensures r.next.stage == Incorrect ==> r.accuracy == 0.0 && r.feedback == [BendKnee(kneeAngle)]
  {
    if 80.0 < kneeAngle < 100.0 then
      if s.stage != Correct then Check(Yoga(Correct, s.reps + 0.1), [], 100.0)
      else Check(s, [], 100.0)
    else Check(s.(stage := Incorrect), [BendKnee(kneeAngle)], 0.0)
  }

  /** `check_tree_pose` on the horizontal distance between the left ankle and
      the right knee: below 0.05 is "balanced" and entering it adds 0.1. */
  function Tree(s: Yoga, footOffset: real): (r: Check)
    ensures r.next.reps == (if footOffset < 0.05 && s.stage != Balanced then s.reps + 0.1 else s.reps)
    ensures footOffset < 0.05 <==> r.next.stage == Balanced
    ensures r.next.stage == Balanced || r.next.stage == Unbalanced
    ensures r.next.stage == Balanced ==> r.accuracy == 100.0 && r.feedback == []
    ensures r.next.stage == Unbalanced ==> r.accuracy == 0.0 && r.feedback == [Text("Place foot firmly on inner thigh")]
  {
    if footOffset < 0.05 then
      if s.stage != Balanced then Check(Yoga(Balanced, s.reps + 0.1), [], 100.0)
      else Check(s, [], 100.0)
    else Check(s.(stage := Unbalanced), [Text("Place foot firmly on inner thigh")], 0.0)
  }

  /** `check_downward_dog` on the hip angle (left wrist-hip-ankle): full
      marks inside (75, 105). */
  function Dog(hipAngle: real): (r: (seq<Line>, real))
    ensures r.1 == 100.0 <==> 75.0 < hipAngle < 105.0
    ensures r.1 == 100.0 || r.1 == 0.0
    ensures r.1 == 0.0 <==> r.0 == [CreateV(hipAngle)]
    ensures r.1 == 100.0 <==> r.0 == []
  {
    if 75.0 < hipAngle < 105.0 then ([], 100.0) else ([CreateV(hipAngle)], 0.0)
  }

  function FootOffset(p: Pose): real { Abs(p.leftAnkle.x - p.rightKnee.x) }

  /** The dispatch in `recv` for a frame with landmarks. */
  function Step(s: Yoga, pose: YogaPose, p: Pose, atan2Deg: (real, real) -> real): (r: Check)
    ensures s.reps <= r.next.reps <= s.reps + 0.1
    ensures r.next.reps == s.reps || r.next.reps == s.reps + 0.1
    ensures pose != WarriorII && pose != TreePose ==> r.next == s
    ensures r.accuracy in {0.0, 50.0, 100.0}
    ensures pose == Other ==> r == Check(s, [Text("Select a pose to begin analysis")], 0.0)
  {
    match pose
    case MountainPose => var m := Mountain(p); Check(s, m.0, m.1)
    case WarriorII => Warrior(s, Angles.CalculateAngle(atan2Deg, p.leftHip, p.leftKnee, p.leftAnkle))
    case TreePose => Tree(s, FootOffset(p))
    case DownwardDog =>
      var d := Dog(Angles.CalculateAngle(atan2Deg, p.leftWrist, p.leftHip, p.leftAnkle));
      Check(s, d.0, d.1)
    case Other => Check(s, [Text("Select a pose to begin analysis")], 0.0)
  }

  /** Warrior II held over frames, as knee angles. */
  function RunWarrior(s: Yoga, angles: seq<real>): Yoga
    decreases |angles|
  {
    if angles == [] then s else RunWarrior(Warrior(s, angles[0]).next, angles[1..])
  }

  /** Holding Warrior II adds 0.1 once, on entry, however long it is held. */
  lemma {:induction false} HoldingWarriorScoresOnce(s: Yoga, angles: seq<real>)
    requires angles != []
    requires forall i :: 0 <= i < |angles| ==> 80.0 < angles[i] < 100.0
    ensures RunWarrior(s, angles).reps == if s.stage == Correct then s.reps else s.reps + 0.1
    ensures RunWarrior(s, angles).stage == Correct
    decreases |angles|
  {
    var s1 := Warrior(s, angles[0]).next;
    if |angles| > 1 {
      HoldingWarriorScoresOnce(s1, angles[1..]);
    }
  }

  /** A score that only ever moves in steps of 0.1. */
  predicate TenthSteps(x: real) {
    (10.0 * x).Floor as real == 10.0 * x
  }

  lemma TenthStepsAdvance(x: real)
    ensures TenthSteps(x) ==> TenthSteps(x + 0.1)
  {
    if TenthSteps(x) {
      assert 10.0 * (x + 0.1) == ((10.0 * x).Floor + 1) as real;
    }
  }

  class YogaPoseProcessor {
    var currentPose: YogaPose
    var feedback: seq<Line>
    var accuracyScore: real
    var repCount: real
    var stage: Stage

    ghost predicate Valid()
      reads this
    {
      repCount >= 0.0 && TenthSteps(repCount)
    }

    constructor ()
      ensures Valid()
      ensures currentPose == MountainPose && feedback == [] && accuracyScore == 0.0
      ensures repCount == 0.0 && stage == Unset
    {
      currentPose := MountainPose;
      feedback := [];
      accuracyScore := 0.0;
      repCount := 0.0;
      stage := Unset;
    }

    /** The pose selector: the stage is left as it is. */
    method SelectPose(pose: YogaPose)
      modifies this`currentPose
      ensures currentPose == pose
    {
      currentPose := pose;
    }

    /** The "Reset Session" button: the score and the accuracy go back to 0;
        the stage, the feedback and the selected pose stay. */
    method ResetSession()
      modifies this`repCount, this`accuracyScore
      ensures Valid()
      ensures repCount == 0.0 && accuracyScore == 0.0
    {
      repCount := 0.0;
      accuracyScore := 0.0;
    }

    method CheckWarriorII(kneeAngle: real) returns (fb: seq<Line>, accuracy: real)
      modifies this`stage, this`repCount
      ensures Check(Yoga(stage, repCount), fb, accuracy) == Warrior(old(Yoga(stage, repCount)), kneeAngle)
    {
      fb, accuracy := [], 0.0;
      if 80.0 < kneeAngle < 100.0 {
        accuracy := 100.0;
        if stage != Correct {
          stage := Correct;
          repCount := repCount + 0.1;
        }
      } else {
        fb := [BendKnee(kneeAngle)];
        stage := Incorrect;
      }
    }

    method CheckTreePose(footOffset: real) returns (fb: seq<Line>, accuracy: real)
      modifies this`stage, this`repCount
      ensures Check(Yoga(stage, repCount), fb, accuracy) == Tree(old(Yoga(stage, repCount)), footOffset)
    {
      fb, accuracy := [], 0.0;
      if footOffset < 0.05 {
        accuracy := 100.0;
        if stage != Balanced {
          stage := Balanced;
          repCount := repCount + 0.1;
        }
      } else {
        fb := [Text("Place foot firmly on inner thigh")];
        stage := Unbalanced;
      }
    }

    /** `recv`: `frame` is `None` when no landmarks were detected, and then
        nothing changes. */
    method Recv(frame: Option<Pose>, atan2Deg: (real, real) -> real)
      requires Valid()
      modifies this
      ensures Valid()
      ensures currentPose == old(currentPose)
      ensures frame.None? ==> stage == old(stage) && repCount == old(repCount)
                              && feedback == old(feedback) && accuracyScore == old(accuracyScore)
      ensures frame.Some? ==>
        var r := Step(Yoga(old(stage), old(repCount)), currentPose, frame.value, atan2Deg);
        Yoga(stage, repCount) == r.next && feedback == r.feedback && accuracyScore == r.accuracy
    {
      if frame.Some? {
        var p := frame.value;
        TenthStepsAdvance(repCount);
        match currentPose {
          case MountainPose =>
            var m := Mountain(p);
            feedback, accuracyScore := m.0, m.1;
          case WarriorII =>
            feedback, accuracyScore := CheckWarriorII(Angles.CalculateAngle(atan2Deg, p.leftHip, p.leftKnee, p.leftAnkle));
          case TreePose =>
            feedback, accuracyScore := CheckTreePose(FootOffset(p));
          case DownwardDog =>
            var d := Dog(Angles.CalculateAngle(atan2Deg, p.leftWrist, p.leftHip, p.leftAnkle));
            feedback, accuracyScore := d.0, d.1;
          case Other =>
            feedback := [Text("Select a pose to begin analysis")];
            accuracyScore := 0.0;
        }
      }
    }
  }
}
