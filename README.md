# AI-powered Health & Fitness Coach — a Dafny model of its coaching core

This project models the logic behind the pages of the Streamlit health and fitness coach:

- **The four webcam coaches.** Each turns a frame of pose landmarks into feedback, a score and a repetition count:
  - the general exercise coach (`PoseCoach`, `pages/2_Exercise.py`);
  - the senior coach (`SeniorExerciseProcessor`, `pages/old_person.py`);
  - the pregnancy coach (`PregWorkoutProcessor`, `pages/PregWomen.py`);
  - the yoga coach (`YogaPoseProcessor`, `pages/yoga.py`).
- **The fitness planner** (`pages/fitnessPlaner.py`): BMI and body-fat readings, the BMR formula, activity factors, meal templates and the weekly workout plan.
- **The hydration tracker** (`pages/drink_Water_notify.py`): the daily goal, the intake log with its streak, and the seven-day report.
- **The medical-report analyser** (`pages/ReportToExcercise.py`): keyword scoring of report text, the extracted-text gate, and the ordering of detected conditions.

Each coach is a `class` whose fields are the processor's attributes. Its methods update `stage`, the repetition count, the feedback and the voice timestamp, as `recv`/`transform` do. Each method is proved equal to a pure step function, and the properties are proved about that function:

- counting never goes back;
- one repetition per arming;
- counts move in half or tenth steps;
- the voice gate's spacing;
- safety-score bounds.

The other pages are pure functions, or loops proved against a specification function.

## Modelling conventions

- **Maths and landmarks.** Landmarks are exact `real` coordinates. `atan2` in degrees, `arccos` in degrees and `sqrt` are parameters of the angle functions (`Angles`).
- **Clock and speech.** `time.time()` is a `now` parameter. What `speak_async` would say is returned as a `spoken` list.
- **Missing pose.** A frame without a detected pose is `None`.
- **NaN.** A NaN angle is `None`, and every comparison with `None` is false.
- **Dates.** Dates in the hydration log are day numbers, so yesterday is `today - 1`.
- **Case and whitespace.** `str.lower` and `str.strip` are modelled on ASCII letters and ASCII whitespace.

## Behaviours of the code worth knowing

- **Stage on switching exercise.** The stage is not reset when the exercise changes. Only `current_exercise` / `current_pose` is assigned (`pages/old_person.py:490`, `pages/PregWomen.py:517`, `pages/yoga.py:322`), and `2_Exercise.py` keeps one class-level `stage` for all exercises (`pages/2_Exercise.py:94-95`). `PoseCoach.StageCarriesAcrossSwitch` shows one consequence: an arm held extended during a curl counts a shoulder press repetition at once after the switch.
- **Selectors and reset reach a different object.** The exercise selectors (`pages/old_person.py:490`, `pages/PregWomen.py:517`, `pages/yoga.py:322`) and "Reset Session" (`pages/yoga.py:372-375`) write to the processor kept in `st.session_state`. The video stream runs a separate instance that `webrtc_streamer` builds from `video_processor_factory` (`pages/old_person.py:498-500`, `pages/PregWomen.py:525-527`, `pages/yoga.py:325-327`). So the live coach keeps its default exercise and its count. The model states what these assignments do to the object they assign; the class methods `SelectExercise`, `SelectPose` and `ResetSession` are that.
- **Voice gate.** The gate is strict: `now - last > cooldown` (`pages/old_person.py:125`, `pages/PregWomen.py:140`). The exercise page `2_Exercise.py` has no cooldown at all and speaks on every start-band frame.
- **Zero-length limb in `PregWomen.py`.** `calculate_angle` does not return 0 for a zero-length limb. The numpy division yields NaN without raising, so the `except` path is not reached. The resulting NaN angle fails every threshold (`Angles.CosineAngle` returns `None`).
- **Pregnancy squat accuracy.** It can exceed 100%. The squatting branch can earn three points over a total of two (`pages/PregWomen.py:129-148`). `PregCoach.SquatAccuracyCanExceed100` exhibits a 150% frame.

## Model

| member | source | states |
|---|---|---|
| Angles.FoldDegrees | pages/2_Exercise.py:62-70 | the folded angle is the absolute difference or its complement to 360, and lies in [0, 180] for differences in [-360, 360] |
| Angles.CalculateAngle | pages/old_person.py:49-64 | the joint angle is built from two ray directions each in (-180, 180] |
| Angles.CalculateAngleSymmetric | pages/yoga.py:27-39 | the three-point angle at b is the same whichever end point is named first |
| Angles.Clip | pages/PregWomen.py:60 | the cosine is clamped into [lo, hi], unchanged inside, and the nearer bound outside |
| Angles.CosineAngle | pages/PregWomen.py:49-65 | the arccos angle is absent (NaN) exactly when a limb has zero length, and otherwise lies in [0, 180] |
| Common.Strip | pages/ReportToExcercise.py:531 | strip removes exactly the leading and trailing whitespace, and yields "" iff the text is all whitespace |
| Common.Trunc | pages/old_person.py:536 | `int()` on a count truncates toward zero |
| Common.AfterVoice | pages/old_person.py:125-127 | the voice timestamp moves to `now` exactly when the gate opens |
| Common.GateSpacing | pages/old_person.py:125-127 | after an utterance at t1, the next one can be spoken exactly when more than the cooldown has passed |
| Common.HalfStepsAdvance | pages/old_person.py:256 | adding 0.5 or 1 keeps a count on the half-step grid |
| PoseCoach.Next | pages/2_Exercise.py:120-194 | a repetition is counted iff the exercise counts, the frame is in the completion band and the coach was armed; a start-band frame arms; every other frame, including a completion-band frame while unarmed, changes nothing |
| PoseCoach.Confidence | pages/2_Exercise.py:108 | the mean visibility percentage lies in [0, 100] when visibilities are in [0, 1] |
| PoseCoach.SumBounds | pages/2_Exercise.py:108 | a sum of visibilities in [0, 1] lies between 0 and their number |
| PoseCoach.RunNeverDecreases | pages/2_Exercise.py:129-192 | the repetition count never decreases over a stream of frames |
| PoseCoach.NextArmedBalance | pages/2_Exercise.py:129-192 | counted repetitions plus the armed flag grow by at most one, and only on a start-band frame |
| PoseCoach.RunRepsBounded | pages/2_Exercise.py:129-192 | a stream counts no more repetitions than its start-band frames plus one initial arming |
| PoseCoach.NoRepeatWithoutRestart | pages/2_Exercise.py:129-192 | holding positions outside the start band counts at most one repetition, however long it is held |
| PoseCoach.CurlScriptCountsOne | pages/2_Exercise.py:129-137 | extend, curl, extend counts exactly one bicep curl |
| PoseCoach.SquatScriptCountsOne | pages/2_Exercise.py:148-156 | a squat and the return to standing count exactly one repetition, and standing shows "Stand tall!" |
| PoseCoach.StageCarriesAcrossSwitch | pages/2_Exercise.py:94-95 | the stage survives a change of exercise, so a switch can count a repetition at once |
| PoseCoach.PoseCoach.constructor | pages/2_Exercise.py:94-95 | the coach starts with no stage and zero repetitions |
| PoseCoach.PoseCoach.Transform | pages/2_Exercise.py:97-203 | a frame updates stage and count as `Next` on the exercise's joint angle, gives its feedback and confidence, and increases the count by at most one; no landmarks changes nothing |
| SeniorCoach.Announce | pages/old_person.py:125-127 | a prompt is spoken iff the gate is open, and the voice time is updated only then |
| SeniorCoach.ChairSquat | pages/old_person.py:102-142 | (120, 150) is "down"; above 150 after "down" counts one; at most 120 (or exactly 150) scores 0 with the "too deep" line and no change; it speaks iff the stage changes and the voice gate is open, and then says exactly that change's line (the entry prompt, or the completion line with the new count) |
| SeniorCoach.ArmRaise | pages/old_person.py:144-182 | above 150 is "up"; leaving "up" counts one; the accuracy is always 100; it speaks iff the stage changes and the voice gate is open, and then says exactly that change's line (the entry prompt, or the completion line with the new count) |
| SeniorCoach.LegLift | pages/old_person.py:184-222 | the band (130, 160) is "up"; leaving it counts one; it speaks iff the stage changes and the voice gate is open, and then says exactly that change's line (the entry prompt, or the completion line with the new count) |
| SeniorCoach.NeckRotation | pages/old_person.py:224-265 | an offset in (0.05, 0.15) is "turned"; returning counts half a repetition; it speaks iff the stage changes and the voice gate is open, and then says exactly that change's line (the entry prompt, or the completion line with the new count) |
| SeniorCoach.Step | pages/old_person.py:285-297 | a frame adds between 0 and 1 repetitions, stays on the half-step grid, scores 0 or 100, and an unknown exercise asks to select one; it speaks iff the stage changes and the voice gate is open |
| SeniorCoach.CountingIgnoresVoice | pages/old_person.py:102-265 | stage and count do not depend on the clock or the voice timestamp |
| SeniorCoach.RunNeverDecreases | pages/old_person.py:267-321 | over any stream the count never decreases and stays on the half-step grid |
| SeniorCoach.NeckTwoTurnsShowOne | pages/old_person.py:246-256 | two turns and returns show one repetition on screen |
| SeniorCoach.SafetyLimits | pages/old_person.py:66-100 | the bend alert is raised iff the torso angle exceeds 45; the stance alert iff the ankles are more than 0.2 apart; bend first; no other alert is ever raised |
| SeniorCoach.SeniorExerciseProcessor.constructor | pages/old_person.py:34-47 | chair squats, no stage, zero repetitions, voice time 0 |
| SeniorCoach.SeniorExerciseProcessor.SelectExercise | pages/old_person.py:490 | only the exercise changes |
| SeniorCoach.SeniorExerciseProcessor.Speak | pages/old_person.py:125-127 | speaks iff the gate is open and records the time only then |
| SeniorCoach.SeniorExerciseProcessor.CheckChairSquats | pages/old_person.py:102-142 | the fields and outputs equal `ChairSquat` on the old state |
| SeniorCoach.SeniorExerciseProcessor.CheckArmRaises | pages/old_person.py:144-182 | the fields and outputs equal `ArmRaise` on the old state |
| SeniorCoach.SeniorExerciseProcessor.CheckLegLifts | pages/old_person.py:184-222 | the fields and outputs equal `LegLift` on the old state |
| SeniorCoach.SeniorExerciseProcessor.CheckNeckRotations | pages/old_person.py:224-265 | the fields and outputs equal `NeckRotation` on the old state |
| SeniorCoach.SeniorExerciseProcessor.CheckExercise | pages/old_person.py:289-297 | the dispatch on the current exercise equals `Step` on the old state |
| SeniorCoach.SeniorExerciseProcessor.Recv | pages/old_person.py:267-321 | a frame sets the alerts to `SafetyLimits` and the state to `Step`; no landmarks changes nothing; the count never decreases |
| PregCoach.Announce | pages/PregWomen.py:140-142 | a prompt is spoken iff the 8-second gate is open |
| PregCoach.Safety | pages/PregWomen.py:67-108 | each alert is raised iff its posture test holds, in a fixed order; the score falls by the penalties (at most 15) and never below 0; no other alert is ever raised |
| PregCoach.SafetyRunInRange | pages/PregWomen.py:67-108 | over any stream the safety score stays between 0 and its start |
| PregCoach.RepeatedPostureFloors | pages/PregWomen.py:101-106 | holding one posture for n frames costs n times its penalty, floored at 0 |
| PregCoach.PregSquat | pages/PregWomen.py:110-167 | both knees above 160 after "down" counts one; both knees in (100, 140) always leave the stage "down", and the stage changes to "down" only then; any other squatting frame keeps the stage; a squatting frame scores (depth points + alignment point) / 2 * 100 with the shallower and knee lines exactly when those fail; a standing frame scores 100 with no lines; neither squatting nor standing changes nothing and scores 0; it speaks iff the stage changes and the voice gate is open, and then says exactly that change's line (the entry prompt, or the completion line with the new count) |
| PregCoach.SquatThenStandCounts | pages/PregWomen.py:134-157 | a frame with both knees in (100, 140) followed by one with both above 160 leaves the stage "up" and one repetition more |
| PregCoach.SquatAccuracyCanExceed100 | pages/PregWomen.py:129-148 | a deep squat with aligned knees scores 150 |
| PregCoach.PelvicTilt | pages/PregWomen.py:169-211 | a tilt above 0.02 is "tilt"; returning counts one; it speaks iff the stage changes and the voice gate is open, and then says exactly that change's line (the entry prompt, or the completion line with the new count) |
| PregCoach.ArmCircle | pages/PregWomen.py:213-254 | elbows above the shoulders is "raised"; lowering counts half a circle; it speaks iff the stage changes and the voice gate is open, and then says exactly that change's line (the entry prompt, or the completion line with the new count) |
| PregCoach.Step | pages/PregWomen.py:256-287 | a frame adds between 0 and 1 repetitions on the half-step grid, and an unknown exercise asks to select one |
| PregCoach.StepSpeaksOnChange | pages/PregWomen.py:256-287 | whatever the exercise, a frame speaks iff it changes the stage and the voice gate is open |
| PregCoach.PregWorkoutProcessor.constructor | pages/PregWomen.py:33-47 | pregnancy squats, resting stage, zero repetitions, safety score 100 |
| PregCoach.PregWorkoutProcessor.SelectExercise | pages/PregWomen.py:517 | only the exercise changes |
| PregCoach.PregWorkoutProcessor.CheckPregnancySafety | pages/PregWomen.py:67-108 | the alerts and the new safety score equal `Safety` on the old score |
| PregCoach.PregWorkoutProcessor.Speak | pages/PregWomen.py:140-142 | speaks iff the gate is open and records the time only then |
| PregCoach.PregWorkoutProcessor.CheckPregnancySquats | pages/PregWomen.py:110-167 | the fields and outputs equal `PregSquat` on the old state |
| PregCoach.PregWorkoutProcessor.CheckPelvicTilts | pages/PregWomen.py:169-211 | the fields and outputs equal `PelvicTilt` on the old state |
| PregCoach.PregWorkoutProcessor.CheckArmCircles | pages/PregWomen.py:213-254 | the fields and outputs equal `ArmCircle` on the old state |
| PregCoach.PregWorkoutProcessor.CheckExercise | pages/PregWomen.py:278-285 | the dispatch on the current exercise equals `Step` on the old state |
| PregCoach.PregWorkoutProcessor.Recv | pages/PregWomen.py:256-287 | a frame applies the safety check, then `Step`; the count never decreases and the safety score never increases |
| YogaCoach.Mountain | pages/yoga.py:41-73 | 100 iff shoulders and hips are both level within 0.02; each failed check adds its line, in order; the accuracy is 50 per passed check |
| YogaCoach.Warrior | pages/yoga.py:75-100 | a knee angle in (80, 100) is "correct" and entering it adds 0.1; otherwise "incorrect" with the bend-knee line |
| YogaCoach.Tree | pages/yoga.py:102-125 | a foot offset below 0.05 is "balanced" and entering it adds 0.1; otherwise the foot line |
| YogaCoach.Dog | pages/yoga.py:127-148 | full marks iff the hip angle is in (75, 105), with the V-shape line otherwise |
| YogaCoach.Step | pages/yoga.py:150-180 | a frame adds exactly 0 or exactly 0.1; only Warrior II and tree pose change the state; an unknown pose asks to select one |
| YogaCoach.HoldingWarriorScoresOnce | pages/yoga.py:87-90 | holding Warrior II adds 0.1 once, on entry |
| YogaCoach.TenthStepsAdvance | pages/yoga.py:90 | adding 0.1 keeps the score on the tenth-step grid |
| YogaCoach.YogaPoseProcessor.constructor | pages/yoga.py:15-25 | mountain pose, no stage, zero score |
| YogaCoach.YogaPoseProcessor.SelectPose | pages/yoga.py:322 | only the pose changes |
| YogaCoach.YogaPoseProcessor.ResetSession | pages/yoga.py:372-375 | the score and the accuracy go to 0 |
| YogaCoach.YogaPoseProcessor.CheckWarriorII | pages/yoga.py:75-100 | stage, score and outputs equal `Warrior` on the old state |
| YogaCoach.YogaPoseProcessor.CheckTreePose | pages/yoga.py:102-125 | stage, score and outputs equal `Tree` on the old state |
| YogaCoach.YogaPoseProcessor.Recv | pages/yoga.py:150-180 | a frame updates the state and outputs as `Step`; no landmarks changes nothing; the score stays on the tenth-step grid |
| FitnessPlanner.CalculateBmi | pages/fitnessPlaner.py:29-31 | BMI times the squared height in metres is the weight, and is positive for a positive weight |
| FitnessPlanner.ClassifyBmi | pages/fitnessPlaner.py:33-37 | each of the four labels is returned iff the BMI lies in its band |
| FitnessPlanner.Bucket | pages/fitnessPlaner.py:39-43 | a bucket exists iff 0 <= bf < 50; it is a multiple of 5 containing bf |
| FitnessPlanner.BfBucketLabel | pages/fitnessPlaner.py:39-43 | the loop's label is the bucket's text, and "50%+" outside [0, 50) |
| FitnessPlanner.BfInterpretationBySex | pages/fitnessPlaner.py:45-58 | each label is returned iff bf lies in that sex's band |
| FitnessPlanner.MaleGapsReadHigh | pages/fitnessPlaner.py:47-52 | male values in the gaps between the bands read "High/Obese" |
| FitnessPlanner.SsmInterpretation | pages/fitnessPlaner.py:60-70 | no reading iff no value; otherwise low, average or high by the sex's thresholds |
| FitnessPlanner.BmrSexGap | pages/fitnessPlaner.py:72-76 | contract of `MifflinStJeorBmr` (the formula of `mifflin_stjeor_bmr`): the male BMR exceeds the female one by 166 kcal |
| FitnessPlanner.BmrSlopes | pages/fitnessPlaner.py:72-76 | contract of `MifflinStJeorBmr`: the BMR moves by 10 per kg, 6.25 per cm and -5 per year |
| FitnessPlanner.ActivityFactor | pages/fitnessPlaner.py:78-79 | the factor lies in [1.2, 1.725]; 1.2 iff the level is sedentary or unknown; 1.375 iff light, 1.55 iff moderate, 1.725 iff heavy (ignoring case) |
| FitnessPlanner.MealTemplatesFor | pages/fitnessPlaner.py:84-106 | 11 templates for "both" and 6 otherwise; each template is tagged with the normal price; the note comes last |
| FitnessPlanner.GenerateWorkoutPlan | pages/fitnessPlaner.py:109-137 | all seven days; Sunday is recovery; each goal's cardio days are exactly cardio, and each strength day is warm-up, its own main block (e.g. muscle gain: Monday chest and plank, Tuesday legs and plank, Thursday back and plank, Friday full body), cool-down |
| Water.ComputeGoal | pages/drink_Water_notify.py:50-61 | the target is the midpoint of the range; the bounds are the table's row ("Normal Adult" for an unknown condition), each replaced by a given non-zero custom bound under "Custom", plus 0.02 L per kilogram above 70; the range keeps that width |
| Water.UnknownConditionIsNormalAdult | pages/drink_Water_notify.py:51 | an unknown condition gives the "Normal Adult" goal |
| Water.WeightShiftsRange | pages/drink_Water_notify.py:56-58 | weight above 70 kg shifts the whole range and the target by 0.02 L per kg |
| Water.TotalAppend | pages/drink_Water_notify.py:88 | logging a drink adds exactly its amount to the day's total |
| Water.TotalRemove | pages/drink_Water_notify.py:103-108 | deleting a drink takes exactly its amount off the day's total |
| Water.TotalNonNegative | pages/drink_Water_notify.py:200 | a day's total is non-negative when every drink is |
| Water.SumAmounts | pages/drink_Water_notify.py:88 | the loop computes the day's total |
| Water.NextStreak | pages/drink_Water_notify.py:89-95 | one more when the goal was last met yesterday, unchanged when today, 1 otherwise |
| Water.WaterLog.constructor | pages/drink_Water_notify.py:35-40 | empty history, no streak |
| Water.WaterLog.LogWater | pages/drink_Water_notify.py:79-98 | appends to today only; returns today's total; advances the streak and records today exactly when the goal is reached |
| Water.WaterLog.DeleteEntry | pages/drink_Water_notify.py:103-108 | removes that drink, drops an emptied day, leaves other days and unlogged days alone |
| Water.DailyTotals | pages/drink_Water_notify.py:198-200 | one total per logged day, equal to the sum of its drinks |
| Water.LastSeven | pages/drink_Water_notify.py:202-203 | at most seven days, ascending, with their totals, and every omitted day older than all shown |
| MedicalReport.ScanTerms | pages/ReportToExcercise.py:283-298 | finds exactly the listed terms present in the text, in list order, scoring weight per term |
| MedicalReport.MatchedMembers | pages/ReportToExcercise.py:283-298 | a term is found iff it is listed and occurs in the text |
| MedicalReport.ScanEntry | pages/ReportToExcercise.py:279-305 | one condition's lists scanned with weights 3, 2 and 1 give that condition's detection, recorded iff the score reaches 2 |
| MedicalReport.ScanTable | pages/ReportToExcercise.py:278-305 | the loop's detections equal the detection function |
| MedicalReport.AnalyzeMedicalContent | pages/ReportToExcercise.py:237-307 | the detections are those of the keyword table on the lower-cased text |
| MedicalReport.DetectAllSound | pages/ReportToExcercise.py:300-305 | every detection comes from a row scoring at least 2, with its score, found terms, and "High" iff the score is at least 3 |
| MedicalReport.DetectAllComplete | pages/ReportToExcercise.py:300-305 | every row scoring at least 2 is detected |
| MedicalReport.DetectedFromTable | pages/ReportToExcercise.py:278 | only conditions of the table are detected |
| MedicalReport.DetectAllOnce | pages/ReportToExcercise.py:276-307 | each condition is detected at most once |
| MedicalReport.NoKeywordsNoDetection | pages/ReportToExcercise.py:276-307 | a text with no keyword detects nothing |
| MedicalReport.KeywordTableShape | pages/ReportToExcercise.py:251-274 | the table lists hypertension, diabetes and thyroid once each, with lower-case, distinct terms |
| MedicalReport.KeywordsListedOnce | pages/ReportToExcercise.py:280-298 | no detection lists a keyword twice |
| MedicalReport.KeywordFoundInAnyCase | pages/ReportToExcercise.py:248 | a table keyword written at any position of the text in any mixture of letter cases is among the found keywords |
| MedicalReport.ExtractedTextOk | pages/ReportToExcercise.py:531 | the text is accepted iff it exists and has at least 10 characters after stripping |
| MedicalReport.SortByScore | pages/ReportToExcercise.py:550-551 | the detections are reordered by descending score, as a permutation |

## Left out

- Camera capture, MediaPipe pose detection, OpenCV drawing and WebRTC streaming are not modelled. Landmarks arrive as a `Pose`, and the trigonometric functions are parameters.
- Speech threads are not modelled. What would be spoken is returned, and the wall clock is a parameter.
- The Streamlit layout is not modelled: sidebars, metrics, animations, tips chosen at random, spinners and icons.
- JSON, CSV and database persistence, desktop notifications, the leaderboard and progress saving are not modelled, because they are I/O.
- OCR and HTTP requests of the report page are not modelled. The extracted text is an input.
- Floating-point arithmetic is not modelled. Reals are exact, so repeated additions of 0.1 and 0.5 do not drift as in Python.
- `safe_round` and `round(…, 2)` are not modelled, because the model is on exact reals.
- Number formatting in feedback strings is not modelled. The yoga angle lines carry the angle as a value.
- The `try`/`except` fallbacks of the coaches are not modelled. A `Pose` always holds every landmark, so their paths cannot be reached.
- Common.Lower: Unicode case mapping is not modelled; only ASCII letters are lowered.
- Common.Strip: non-ASCII whitespace is not stripped; only ASCII whitespace is.
- PregCoach.PregSquat: the completion announcement prints the count's whole part, whereas Python prints "3.0" once a half step has made the count a float.
- PregCoach.PelvicTilt: the completion announcement prints the count's whole part, whereas Python prints the count as it stands ("3.0" once it is a float).
- Water.WaterLog.DeleteEntry: Python's negative list indices are not modelled. The index must lie in the day's list.
- Water.ComputeGoal: rounding to two decimals is left out, because the model works on exact reals.
- MedicalReport.SortByScore: only a permutation sorted by score is promised; Python's sort stability is not stated.
- MedicalReport.AnalyzeMedicalContent: the result dictionary is an ordered sequence of detections.
- The remaining sections of the report page are not modelled: the mapping from conditions to exercise recommendations, and the report display. They are text display.
- Dates in the hydration log are day numbers, not calendar strings.
