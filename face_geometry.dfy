/**
 * Per-face geometry of src/load-utils/load_utils.cpp: the face normal and
 * the tangent-space tangent of one triangle.
 */
module FaceGeometry {
  import opened Wrappers
  import opened Vectors

  /** The unnormalised face normal (b - a) x (c - a); it is orthogonal to both edges. */
  function FaceCross(a: Vec3, b: Vec3, c: Vec3): (n: Vec3)
    ensures Dot(n, Sub(b, a)) == 0.0 && Dot(n, Sub(c, a)) == 0.0
  {
    Cross(Sub(b, a), Sub(c, a))
  }

  /**
   * ComputeTriangleNormal: the normalised cross product of the two edges.
   * `norm` stands for Eigen's `normalized()`. Which corner the edges are
   * drawn from does not matter, as long as the winding a, b, c is kept.
   */
  function ComputeTriangleNormal(a: Vec3, b: Vec3, c: Vec3, norm: Vec3 -> Vec3): (n: Vec3)
    ensures n == norm(FaceCross(b, c, a)) && n == norm(FaceCross(c, a, b))
  {
    FaceCrossRotation(a, b, c);
    norm(FaceCross(a, b, c))
  }

  /** Rotating the corners (a, b, c to b, c, a) keeps the cross product of the edges. */
  lemma FaceCrossRotation(a: Vec3, b: Vec3, c: Vec3)
    ensures FaceCross(b, c, a) == FaceCross(a, b, c)
    ensures FaceCross(c, a, b) == FaceCross(a, b, c)
  {
  }

  /** Scaling one side of a dot product scales the product. */
  lemma DotScale(k: real, p: Vec3, q: Vec3)
    ensures Dot(Scale(k, p), q) == k * Dot(p, q)
  {
  }

  /**
   * With a normalisation that only rescales its argument, as `normalized()`
   * does, the face normal is perpendicular to both edges of the face.
   */
  lemma TriangleNormalPerpendicular(a: Vec3, b: Vec3, c: Vec3, norm: Vec3 -> Vec3, factor: Vec3 -> real)
    requires forall p :: norm(p) == Scale(factor(p), p)
    ensures Dot(ComputeTriangleNormal(a, b, c, norm), Sub(b, a)) == 0.0
    ensures Dot(ComputeTriangleNormal(a, b, c, norm), Sub(c, a)) == 0.0
  {
    var m := FaceCross(a, b, c);
    assert norm(m) == Scale(factor(m), m);
    DotScale(factor(m), m, Sub(b, a));
    DotScale(factor(m), m, Sub(c, a));
  }

  /** The determinant of the 2x2 system formed by the two UV deltas. */
  function TangentDet(uv1: Vec2, uv2: Vec2, uv3: Vec2): real {
    var d1 := Sub2(uv2, uv1);
    var d2 := Sub2(uv3, uv1);
    d1.x * d2.y - d2.x * d1.y
  }

  /**
   * ComputeTangent: f * (dv2 * e1 - dv1 * e2) with f = 1 / det, where e1, e2
   * are the edges from a and dv1, dv2 the V parts of the UV deltas.
   */
  function ComputeTangent(a: Vec3, b: Vec3, c: Vec3, uv1: Vec2, uv2: Vec2, uv3: Vec2): (t: Option<Vec3>)
    ensures t.None? <==> TangentDet(uv1, uv2, uv3) == 0.0
  {
    SolveTangent(Sub(b, a), Sub(c, a), Sub2(uv2, uv1), Sub2(uv3, uv1))
  }

  /**
   * The solve itself, on the edges and UV deltas. Where the determinant is 0
   * the source divides by zero and every component is infinite or NaN; that
   * value is `None` here.
   */
  function SolveTangent(e1: Vec3, e2: Vec3, d1: Vec2, d2: Vec2): (t: Option<Vec3>)
    ensures t.None? <==> d1.x * d2.y - d2.x * d1.y == 0.0
  {
    var det := d1.x * d2.y - d2.x * d1.y;
    if det == 0.0 then None
    else Some(Scale(1.0 / det, Sub(Scale(d2.y, e1), Scale(d1.y, e2))))
  }

  /** A finite tangent satisfies det * tangent = dv2 * e1 - dv1 * e2. */
  lemma TangentEquation(a: Vec3, b: Vec3, c: Vec3, uv1: Vec2, uv2: Vec2, uv3: Vec2)
    requires TangentDet(uv1, uv2, uv3) != 0.0
    ensures Scale(TangentDet(uv1, uv2, uv3), ComputeTangent(a, b, c, uv1, uv2, uv3).value)
         == Sub(Scale(Sub2(uv3, uv1).y, Sub(b, a)), Scale(Sub2(uv2, uv1).y, Sub(c, a)))
  {
    SolveEquation(Sub(b, a), Sub(c, a), Sub2(uv2, uv1), Sub2(uv3, uv1));
  }

  /** The solve on edges and UV deltas: det * t = dv2 * e1 - dv1 * e2. */
  lemma SolveEquation(e1: Vec3, e2: Vec3, d1: Vec2, d2: Vec2)
    requires d1.x * d2.y - d2.x * d1.y != 0.0
    ensures Scale(d1.x * d2.y - d2.x * d1.y, SolveTangent(e1, e2, d1, d2).value) == Sub(Scale(d2.y, e1), Scale(d1.y, e2))
  {
    var det := d1.x * d2.y - d2.x * d1.y;
    var w := Sub(Scale(d2.y, e1), Scale(d1.y, e2));
    assert SolveTangent(e1, e2, d1, d2).value == Scale(1.0 / det, w);
    ScaleInverse(det, 1.0 / det, w);
  }

  /** Scaling by the inverse of det and then by det is the identity. */
  lemma ScaleInverse(det: real, f: real, p: Vec3)
    requires det != 0.0 && f == 1.0 / det
    ensures Scale(det, Scale(f, p)) == p
  {
    InverseCancels(det, f, p.x);
    InverseCancels(det, f, p.y);
    InverseCancels(det, f, p.z);
  }

  /** Multiplying by the inverse of det and then by det is the identity. */
  lemma InverseCancels(det: real, f: real, p: real)
    requires det != 0.0 && f == 1.0 / det
    ensures det * (f * p) == p
  {
    calc {
      det * (f * p);
      (det * f) * p;
      { assert det * f == 1.0; }
      p;
    }
  }

  /** Reversing the winding (swapping b and c) negates the unnormalised normal. */
  lemma FaceCrossWinding(a: Vec3, b: Vec3, c: Vec3)
    ensures FaceCross(a, c, b) == Neg(FaceCross(a, b, c))
  {
  }

  /** With an odd normalisation, reversing the winding negates the face normal. */
  lemma TriangleNormalWinding(a: Vec3, b: Vec3, c: Vec3, norm: Vec3 -> Vec3)
    requires Odd(norm)
    ensures ComputeTriangleNormal(a, c, b, norm) == Neg(ComputeTriangleNormal(a, b, c, norm))
  {
    FaceCrossWinding(a, b, c);
  }

  /** Moving the whole triangle by an offset changes neither its normal nor its tangent. */
  lemma TranslationInvariance(a: Vec3, b: Vec3, c: Vec3, o: Vec3, uv1: Vec2, uv2: Vec2, uv3: Vec2, norm: Vec3 -> Vec3)
    ensures FaceCross(Add(a, o), Add(b, o), Add(c, o)) == FaceCross(a, b, c)
    ensures ComputeTriangleNormal(Add(a, o), Add(b, o), Add(c, o), norm) == ComputeTriangleNormal(a, b, c, norm)
    ensures ComputeTangent(Add(a, o), Add(b, o), Add(c, o), uv1, uv2, uv3) == ComputeTangent(a, b, c, uv1, uv2, uv3)
  {
    assert Sub(Add(b, o), Add(a, o)) == Sub(b, a);
    assert Sub(Add(c, o), Add(a, o)) == Sub(c, a);
  }

  /** Shifting all three UV coordinates by one offset leaves the tangent unchanged. */
  lemma TangentUvShiftInvariance(a: Vec3, b: Vec3, c: Vec3, uv1: Vec2, uv2: Vec2, uv3: Vec2, s: Vec2)
    ensures ComputeTangent(a, b, c, Add2(uv1, s), Add2(uv2, s), Add2(uv3, s)) == ComputeTangent(a, b, c, uv1, uv2, uv3)
  {
    assert Sub2(Add2(uv2, s), Add2(uv1, s)) == Sub2(uv2, uv1);
    assert Sub2(Add2(uv3, s), Add2(uv1, s)) == Sub2(uv3, uv1);
  }

  /** Without UV data all three UVs are zero, the determinant is 0 and the tangent is undefined. */
  lemma ZeroUvTangentUndefined(a: Vec3, b: Vec3, c: Vec3)
    ensures ComputeTangent(a, b, c, Zero2, Zero2, Zero2) == None
  {
  }

  /**
   * The tangent is the solution of the tangent-space system: with the
   * bitangent f * (du1 * e2 - du2 * e1), each edge is its UV delta applied
   * to (tangent, bitangent).
   */
  lemma TangentSolvesSystem(a: Vec3, b: Vec3, c: Vec3, uv1: Vec2, uv2: Vec2, uv3: Vec2)
    requires TangentDet(uv1, uv2, uv3) != 0.0
    ensures var e1, e2 := Sub(b, a), Sub(c, a);
            var d1, d2 := Sub2(uv2, uv1), Sub2(uv3, uv1);
            var t := ComputeTangent(a, b, c, uv1, uv2, uv3).value;
            var bt := Scale(1.0 / TangentDet(uv1, uv2, uv3), Sub(Scale(d1.x, e2), Scale(d2.x, e1)));
            e1 == Add(Scale(d1.x, t), Scale(d1.y, bt)) &&
            e2 == Add(Scale(d2.x, t), Scale(d2.y, bt))
  {
    var e1, e2 := Sub(b, a), Sub(c, a);
    var d1, d2 := Sub2(uv2, uv1), Sub2(uv3, uv1);
    var det := TangentDet(uv1, uv2, uv3);
    var f := 1.0 / det;
    assert ComputeTangent(a, b, c, uv1, uv2, uv3).value == Scale(f, Sub(Scale(d2.y, e1), Scale(d1.y, e2)));
    assert f * det == 1.0;
    SolveVectors(f, det, d1, d2, e1, e2);
  }

  /** The solve checked coordinate by coordinate. */
  lemma SolveVectors(f: real, det: real, d1: Vec2, d2: Vec2, e1: Vec3, e2: Vec3)
    requires det == d1.x * d2.y - d2.x * d1.y && f * det == 1.0
    ensures var t := Scale(f, Sub(Scale(d2.y, e1), Scale(d1.y, e2)));
            var bt := Scale(f, Sub(Scale(d1.x, e2), Scale(d2.x, e1)));
            e1 == Add(Scale(d1.x, t), Scale(d1.y, bt)) &&
            e2 == Add(Scale(d2.x, t), Scale(d2.y, bt))
  {
    var t := Scale(f, Sub(Scale(d2.y, e1), Scale(d1.y, e2)));
    var bt := Scale(f, Sub(Scale(d1.x, e2), Scale(d2.x, e1)));
    ExpandCombination(f, d2.y, d1.y, e1, e2);
    ExpandCombination(f, d1.x, d2.x, e2, e1);
    SolveX(f, det, d1, d2, e1, e2, t, bt);
    SolveY(f, det, d1, d2, e1, e2, t, bt);
    SolveZ(f, det, d1, d2, e1, e2, t, bt);
    ExpandSum(d1.x, d1.y, t, bt);
    ExpandSum(d2.x, d2.y, t, bt);
    var s1, s2 := Add(Scale(d1.x, t), Scale(d1.y, bt)), Add(Scale(d2.x, t), Scale(d2.y, bt));
    assert s1.x == e1.x && s1.y == e1.y && s1.z == e1.z;
    assert s2.x == e2.x && s2.y == e2.y && s2.z == e2.z;
  }

  /** The x coordinate of the solve. */
  lemma SolveX(f: real, det: real, d1: Vec2, d2: Vec2, e1: Vec3, e2: Vec3, t: Vec3, bt: Vec3)
    requires det == d1.x * d2.y - d2.x * d1.y && f * det == 1.0
    requires t.x == f * (d2.y * e1.x - d1.y * e2.x) && bt.x == f * (d1.x * e2.x - d2.x * e1.x)
    ensures e1.x == d1.x * t.x + d1.y * bt.x && e2.x == d2.x * t.x + d2.y * bt.x
  {
    SolveComponent(f, det, d1.x, d1.y, d2.x, d2.y, e1.x, e2.x, t.x, bt.x);
  }

  /** The y coordinate of the solve. */
  lemma SolveY(f: real, det: real, d1: Vec2, d2: Vec2, e1: Vec3, e2: Vec3, t: Vec3, bt: Vec3)
    requires det == d1.x * d2.y - d2.x * d1.y && f * det == 1.0
    requires t.y == f * (d2.y * e1.y - d1.y * e2.y) && bt.y == f * (d1.x * e2.y - d2.x * e1.y)
    ensures e1.y == d1.x * t.y + d1.y * bt.y && e2.y == d2.x * t.y + d2.y * bt.y
  {
    SolveComponent(f, det, d1.x, d1.y, d2.x, d2.y, e1.y, e2.y, t.y, bt.y);
  }

  /** The z coordinate of the solve. */
  lemma SolveZ(f: real, det: real, d1: Vec2, d2: Vec2, e1: Vec3, e2: Vec3, t: Vec3, bt: Vec3)
    requires det == d1.x * d2.y - d2.x * d1.y && f * det == 1.0
    requires t.z == f * (d2.y * e1.z - d1.y * e2.z) && bt.z == f * (d1.x * e2.z - d2.x * e1.z)
    ensures e1.z == d1.x * t.z + d1.y * bt.z && e2.z == d2.x * t.z + d2.y * bt.z
  {
    SolveComponent(f, det, d1.x, d1.y, d2.x, d2.y, e1.z, e2.z, t.z, bt.z);
  }

  /** f * (s * p - r * q), coordinate by coordinate. */
  lemma ExpandCombination(f: real, s: real, r: real, p: Vec3, q: Vec3)
    ensures Scale(f, Sub(Scale(s, p), Scale(r, q)))
         == Vec3(f * (s * p.x - r * q.x), f * (s * p.y - r * q.y), f * (s * p.z - r * q.z))
  {
  }

  /** k * p + m * q, coordinate by coordinate. */
  lemma ExpandSum(k: real, m: real, p: Vec3, q: Vec3)
    ensures Add(Scale(k, p), Scale(m, q)) == Vec3(k * p.x + m * q.x, k * p.y + m * q.y, k * p.z + m * q.z)
  {
  }

  /** One coordinate of the tangent-space solve, as real arithmetic. */
  lemma SolveComponent(f: real, det: real, u1: real, v1: real, u2: real, v2: real, p: real, q: real, tp: real, bp: real)
    requires det == u1 * v2 - u2 * v1 && f * det == 1.0
    requires tp == f * (v2 * p - v1 * q) && bp == f * (u1 * q - u2 * p)
    ensures p == u1 * tp + v1 * bp && q == u2 * tp + v2 * bp
  {
    calc {
      u1 * tp + v1 * bp;
      f * (u1 * v2 * p - u1 * v1 * q + v1 * u1 * q - v1 * u2 * p);
      f * ((u1 * v2 - u2 * v1) * p);
      (f * det) * p;
    }
    calc {
      u2 * tp + v2 * bp;
      f * (u2 * v2 * p - u2 * v1 * q + v2 * u1 * q - v2 * u2 * p);
      f * ((u1 * v2 - u2 * v1) * q);
      (f * det) * q;
    }
  }

  /** The tangent lies in the plane of its face: it is orthogonal to the face's cross product. */
  lemma TangentInFacePlane(a: Vec3, b: Vec3, c: Vec3, uv1: Vec2, uv2: Vec2, uv3: Vec2)
    requires TangentDet(uv1, uv2, uv3) != 0.0
    ensures Dot(ComputeTangent(a, b, c, uv1, uv2, uv3).value, FaceCross(a, b, c)) == 0.0
  {
    var t := ComputeTangent(a, b, c, uv1, uv2, uv3).value;
    var n := FaceCross(a, b, c);
    var e1, e2 := Sub(b, a), Sub(c, a);
    var d1, d2 := Sub2(uv2, uv1), Sub2(uv3, uv1);
    var f := 1.0 / TangentDet(uv1, uv2, uv3);
    assert t == Scale(f, Sub(Scale(d2.y, e1), Scale(d1.y, e2)));
    DotCombination(f, d2.y, d1.y, e1, e2, n);
  }

  /** A multiple of a combination of two vectors orthogonal to n is orthogonal to n. */
  lemma DotCombination(f: real, s: real, r: real, e1: Vec3, e2: Vec3, n: Vec3)
    requires Dot(n, e1) == 0.0 && Dot(n, e2) == 0.0
    ensures Dot(Scale(f, Sub(Scale(s, e1), Scale(r, e2))), n) == 0.0
  {
    calc {
      Dot(Scale(f, Sub(Scale(s, e1), Scale(r, e2))), n);
      f * (s * Dot(n, e1) - r * Dot(n, e2));
      0.0;
    }
  }
}
