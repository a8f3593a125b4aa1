/** Joint-angle geometry. The trigonometric primitives are parameters: the
    two-argument arc tangent already scaled to degrees (`atan2Deg`), and for
    the pregnancy page the arc cosine in degrees and the square root. Nothing
    is assumed of them except where a contract says so. */
module Angles {
  import opened Common

  /** The fold `calculate_angle` applies to the difference of the two
      directions, in degrees: take the magnitude and, when it exceeds 180,
      its complement to 360. */
  function FoldDegrees(d: real): (r: real)
    ensures r == Abs(d) || r + Abs(d) == 360.0
    ensures -360.0 <= d <= 360.0 ==> 0.0 <= r <= 180.0
  {
    var magnitude := Abs(d);
    if magnitude > 180.0 then 360.0 - magnitude else magnitude
  }

  /** Direction of the vector from `b` to `p`, in degrees. */
  function Direction(atan2Deg: (real, real) -> real, b: Point, p: Point): real {
    atan2Deg(p.y - b.y, p.x - b.x)
  }

  /** `calculate_angle(a, b, c)` of the general, senior and yoga pages: the
      angle at vertex `b`. When the arc tangent stays in (-180, 180] the
      result is an interior angle in [0, 180]. */
  function CalculateAngle(atan2Deg: (real, real) -> real, a: Point, b: Point, c: Point): (r: real)
    ensures -180.0 < Direction(atan2Deg, b, a) <= 180.0 && -180.0 < Direction(atan2Deg, b, c) <= 180.0
            ==> 0.0 <= r <= 180.0
  {
    FoldDegrees(Direction(atan2Deg, b, c) - Direction(atan2Deg, b, a))
  }

  /** Exchanging the two end points negates the raw difference, which the
      fold does not see. */
  lemma {:induction false} CalculateAngleSymmetric(atan2Deg: (real, real) -> real, a: Point, b: Point, c: Point)
    ensures CalculateAngle(atan2Deg, a, b, c) == CalculateAngle(atan2Deg, c, b, a)
  {
    var d := Direction(atan2Deg, b, c) - Direction(atan2Deg, b, a);
    assert Abs(-d) == Abs(d);
  }

  /** `np.clip(x, lo, hi)`. */
  function Clip(x: real, lo: real, hi: real): (r: real)
    requires lo <= hi
    ensures lo <= r <= hi
    ensures lo <= x <= hi ==> r == x
    ensures x < lo ==> r == lo
    ensures x > hi ==> r == hi
  {
    if x < lo then lo else if x > hi then hi else x
  }

  /** `calculate_angle(a, b, c)` of the pregnancy page: the arc cosine of the
      normalised dot product of `b->a` and `b->c`, clipped to [-1, 1] first.
      When one of the vectors has no length, numpy divides 0 by 0 and the
      result is NaN rather than an exception; that case is `None`, and every
      comparison the page makes with it is false. */
  function CosineAngle(arccosDeg: real -> real, sqrt: real -> real, a: Point, b: Point, c: Point): (r: Option<real>)
    ensures r.None? <==> sqrt(Dot(a, b, a)) * sqrt(Dot(c, b, c)) == 0.0
    ensures r.Some? && (forall x :: -1.0 <= x <= 1.0 ==> 0.0 <= arccosDeg(x) <= 180.0)
            ==> 0.0 <= r.value <= 180.0
  {
    var norms := sqrt(Dot(a, b, a)) * sqrt(Dot(c, b, c));
    if norms == 0.0 then None
    else Some(arccosDeg(Clip(Dot(a, b, c) / norms, -1.0, 1.0)))
  }

  /** Dot product of the vectors `b->p` and `b->q`. */
  function Dot(p: Point, b: Point, q: Point): real {
    (p.x - b.x) * (q.x - b.x) + (p.y - b.y) * (q.y - b.y)
  }
}
