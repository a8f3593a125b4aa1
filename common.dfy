/** Shared vocabulary of the coaching pages: the optional value, the 2-D
    landmark and the per-frame pose snapshot, the string helpers the pages use
    (`str.lower`, `str.strip`, `int` to decimal text) and the voice cooldown
    gate that three of the processors share. */
module Common {

  datatype Option<+T> = None | Some(value: T)

  /** A landmark position, normalised to the frame (x to the right, y down). */
  datatype Point = Point(x: real, y: real)

  /** The landmarks a frame supplies that the exercise and safety rules read,
      plus the visibility of every landmark the pose model reported. */
  datatype Pose = Pose(
    nose: Point,
    leftShoulder: Point, rightShoulder: Point,
    leftElbow: Point, rightElbow: Point,
    leftWrist: Point, rightWrist: Point,
    leftHip: Point, rightHip: Point,
    leftKnee: Point, rightKnee: Point,
    leftAnkle: Point, rightAnkle: Point,
    visibilities: seq<real>)

  function Abs(x: real): (r: real)
    ensures r >= 0.0 && (r == x || r == -x)
  {
    if x < 0.0 then -x else x
  }

  function Max(a: real, b: real): (r: real)
    ensures r >= a && r >= b && (r == a || r == b)
  {
    if a >= b then a else b
  }

  // ----- strings -----

  predicate IsUpper(c: char) { 'A' <= c <= 'Z' }

  function LowerChar(c: char): (r: char)
    ensures !IsUpper(r)
    ensures !IsUpper(c) ==> r == c
  {
    if IsUpper(c) then (c as int - 'A' as int + 'a' as int) as char else c
  }

  /** `str.lower()` on ASCII letters. */
  function Lower(s: string): (r: string)
    ensures |r| == |s|
    ensures forall i :: 0 <= i < |s| ==> r[i] == LowerChar(s[i])
  {
    seq(|s|, i requires 0 <= i < |s| => LowerChar(s[i]))
  }

  /** The characters `str.strip()` removes (the ASCII whitespace set). */
  predicate IsSpace(c: char) {
    c == ' ' || c == '\t' || c == '\n' || c == '\r' || c == '\U{B}' || c == '\U{C}'
  }

  /** The first position at or after `i` that is not whitespace. */
  function SpanStart(s: string, i: nat): (k: nat)
    requires i <= |s|
    ensures i <= k <= |s|
    ensures forall j :: i <= j < k ==> IsSpace(s[j])
    ensures k < |s| ==> !IsSpace(s[k])
    decreases |s| - i
  {
    if i < |s| && IsSpace(s[i]) then SpanStart(s, i + 1) else i
  }

  /** The end of `s[lo..j]` once its trailing whitespace is dropped. */
  function SpanEnd(s: string, lo: nat, j: nat): (m: nat)
    requires lo <= j <= |s|
    ensures lo <= m <= j
    ensures forall i :: m <= i < j ==> IsSpace(s[i])
    ensures m > lo ==> !IsSpace(s[m - 1])
    decreases j
  {
    if j > lo && IsSpace(s[j - 1]) then SpanEnd(s, lo, j - 1) else j
  }

  /** `str.strip()`: the slice of `s` left after removing leading and trailing
      whitespace. */
  function Strip(s: string): (r: string)
    ensures var k := SpanStart(s, 0);
      k + |r| <= |s| && r == s[k..k + |r|] &&
      (forall i :: 0 <= i < k ==> IsSpace(s[i])) &&
      (forall i :: k + |r| <= i < |s| ==> IsSpace(s[i]))
    ensures r != [] ==> !IsSpace(r[0]) && !IsSpace(r[|r| - 1])
    ensures (forall i :: 0 <= i < |s| ==> IsSpace(s[i])) <==> r == []
  {
    var k := SpanStart(s, 0);
    var m := SpanEnd(s, k, |s|);
    assert m > k ==> s[k..m][0] == s[k] && s[k..m][m - k - 1] == s[m - 1];
    s[k..m]
  }

  function DigitChar(d: nat): (c: char)
    requires d < 10
    ensures '0' <= c <= '9'
  {
    ('0' as int + d) as char
  }

  /** Decimal text of a natural number, as Python's `str(int)` writes it. */
  function NatToString(n: nat): (r: string)
    ensures |r| >= 1
    ensures forall i :: 0 <= i < |r| ==> '0' <= r[i] <= '9'
    ensures n >= 10 ==> r[0] != '0'
  {
    if n < 10 then [DigitChar(n)] else NatToString(n / 10) + [DigitChar(n % 10)]
  }

  /** Python's `int(x)` on a float: truncation toward zero. */
  function Trunc(x: real): (r: int)
    ensures x >= 0.0 ==> 0 <= r && r as real <= x < r as real + 1.0
    ensures x < 0.0 ==> r <= 0 && r as real - 1.0 < x <= r as real
  {
    if x >= 0.0 then x.Floor else -((-x).Floor)
  }

  /** Decimal text of an integer, as Python's `str(int)` writes it. */
  function IntToString(i: int): (r: string)
    ensures |r| >= 1
    ensures i < 0 <==> r[0] == '-'
  {
    if i < 0 then "-" + NatToString(-i) else NatToString(i)
  }

  /** A counter that only ever moves in whole or half steps. */
  predicate HalfSteps(reps: real) {
    (2.0 * reps).Floor as real == 2.0 * reps
  }

  lemma HalfStepsAdvance(x: real)
    ensures HalfSteps(x) ==> HalfSteps(x + 0.5) && HalfSteps(x + 1.0)
  {
    if HalfSteps(x) {
      var k := (2.0 * x).Floor;
      assert 2.0 * (x + 0.5) == (k + 1) as real;
      assert 2.0 * (x + 1.0) == (k + 2) as real;
    }
  }

  // ----- voice cooldown -----

  /** The processors speak only when strictly more than `cooldown` seconds
      have passed since the last utterance they let through. */
  predicate VoiceReady(lastVoiceTime: real, now: real, cooldown: real) {
    now - lastVoiceTime > cooldown
  }

  /** The time of the last utterance after a frame that wanted to speak:
      moves to `now` exactly when the gate lets the utterance through. */
  function AfterVoice(lastVoiceTime: real, now: real, cooldown: real): (r: real)
    ensures VoiceReady(lastVoiceTime, now, cooldown) ==> r == now
    ensures !VoiceReady(lastVoiceTime, now, cooldown) ==> r == lastVoiceTime
    ensures cooldown >= 0.0 && now >= lastVoiceTime ==> r >= lastVoiceTime
  {
    if VoiceReady(lastVoiceTime, now, cooldown) then now else lastVoiceTime
  }

  /** Two announcements at `t1` and then `t2` both get through only when they
      are more than a cooldown apart. */
  lemma {:induction false} GateSpacing(last: real, t1: real, t2: real, cooldown: real)
    requires VoiceReady(last, t1, cooldown)
    ensures VoiceReady(AfterVoice(last, t1, cooldown), t2, cooldown) <==> t2 - t1 > cooldown
  {
  }
}
