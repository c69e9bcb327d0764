/** Points, rotations and the 2D affine transforms a shape derives from its
    center and rotation. Coordinates are reals: the model states the transform
    algebra exactly instead of up to floating-point rounding.

    Proof style: every polynomial identity is proved one coordinate at a time
    (a lemma per coordinate), and whole points or matrices are compared only
    through those lemmas; this keeps each proof obligation small for the
    solver's nonlinear arithmetic. */
module Geometry {

  /** A point (or offset) in the plane. */
  datatype Point = Point(x: real, y: real)

  const Origin: Point := Point(0.0, 0.0)

  function Add(p: Point, q: Point): Point {
    Point(p.x + q.x, p.y + q.y)
  }

  function Sub(p: Point, q: Point): Point {
    Point(p.x - q.x, p.y - q.y)
  }

  /** Absolute value (Math.abs on a double). */
  function Abs(v: real): (r: real)
    ensures r >= 0.0 && (r == v || r == -v)
  {
    if v < 0.0 then -v else v
  }

  /** A rotation angle θ, represented by the pair (cos θ, sin θ). */
  datatype Rotation = Rotation(cos: real, sin: real)

  /** The pairs that are the cosine and sine of some angle. */
  predicate IsUnit(r: Rotation) {
    r.cos * r.cos + r.sin * r.sin == 1.0
  }

  type UnitRotation = r: Rotation | IsUnit(r)
    witness Rotation(1.0, 0.0)

  /** The angle 0. */
  const NoRotation: UnitRotation := Rotation(1.0, 0.0)

  /** The angle -θ: cos(-θ) = cos θ and sin(-θ) = -sin θ. */
  function Negate(r: Rotation): Rotation {
    Rotation(r.cos, -r.sin)
  }

  /** -θ is an angle whenever θ is. */
  lemma NegateIsUnit(r: UnitRotation)
    ensures IsUnit(Negate(r))
  {
    assert (-r.sin) * (-r.sin) == r.sin * r.sin;
  }

  /** Counter-clockwise rotation of p about the origin by the angle of r:
      the reference meaning the rotation matrices below must agree with. */
  function Rotate(r: Rotation, p: Point): Point {
    Point(r.cos * p.x - r.sin * p.y, r.sin * p.x + r.cos * p.y)
  }

  lemma RotateNegateX(r: UnitRotation, p: Point)
    ensures Rotate(Negate(r), Rotate(r, p)).x == p.x
  {
    var c, s := r.cos, r.sin;
    calc {
      c * (c * p.x - s * p.y) - (-s) * (s * p.x + c * p.y);
      (c * c + s * s) * p.x;
      p.x;
    }
  }

  lemma RotateNegateY(r: UnitRotation, p: Point)
    ensures Rotate(Negate(r), Rotate(r, p)).y == p.y
  {
    var c, s := r.cos, r.sin;
    calc {
      (-s) * (c * p.x - s * p.y) + c * (s * p.x + c * p.y);
      (c * c + s * s) * p.y;
      p.y;
    }
  }

  /** Rotating by -θ undoes rotating by θ. */
  lemma RotateNegate(r: UnitRotation, p: Point)
    ensures Rotate(Negate(r), Rotate(r, p)) == p
  {
    RotateNegateX(r, p);
    RotateNegateY(r, p);
  }

  /** Rotating by θ undoes rotating by -θ. */
  lemma NegateRotate(r: UnitRotation, p: Point)
    ensures Rotate(r, Rotate(Negate(r), p)) == p
  {
    NegateIsUnit(r);
    assert Negate(Negate(r)) == r;
    RotateNegate(Negate(r), p);
  }

  /** An affine transform, its coefficients in the order the six-argument
      java.awt.geom.AffineTransform constructor takes them:
      x' = m00 * x + m01 * y + m02 and y' = m10 * x + m11 * y + m12. */
  datatype Affine = Affine(m00: real, m10: real, m01: real, m11: real, m02: real, m12: real)

  const Identity: Affine := Affine(1.0, 0.0, 0.0, 1.0, 0.0, 0.0)

  /** The image of p under a (AffineTransform.transform). */
  function Apply(a: Affine, p: Point): Point {
    Point(a.m00 * p.x + a.m01 * p.y + a.m02, a.m10 * p.x + a.m11 * p.y + a.m12)
  }

  /** The matrix product a·b, which AffineTransform.concatenate stores in a:
      the result applies b first and a second (see ApplyConcatenate). */
  function Concatenate(a: Affine, b: Affine): Affine {
    Affine(
      a.m00 * b.m00 + a.m01 * b.m10,
      a.m10 * b.m00 + a.m11 * b.m10,
      a.m00 * b.m01 + a.m01 * b.m11,
      a.m10 * b.m01 + a.m11 * b.m11,
      a.m00 * b.m02 + a.m01 * b.m12 + a.m02,
      a.m10 * b.m02 + a.m11 * b.m12 + a.m12)
  }

  function Determinant(a: Affine): real {
    a.m00 * a.m11 - a.m01 * a.m10
  }

  /** Pure translation by (tx, ty), as `new AffineTransform(1, 0, 0, 1, tx, ty)`. */
  function TranslationMatrix(tx: real, ty: real): Affine {
    Affine(1.0, 0.0, 0.0, 1.0, tx, ty)
  }

  /** Pure rotation, as the source builds it from an angle:
      m00 = m11 = cos, m01 = -sin, m10 = sin, no translation. */
  function RotationMatrix(r: Rotation): Affine {
    Affine(r.cos, r.sin, -r.sin, r.cos, 0.0, 0.0)
  }

  /** The translation matrix adds its offset. */
  lemma ApplyTranslation(tx: real, ty: real, p: Point)
    ensures Apply(TranslationMatrix(tx, ty), p) == Add(p, Point(tx, ty))
  {
  }

  /** The rotation matrix rotates counter-clockwise about the origin. */
  lemma ApplyRotation(r: Rotation, p: Point)
    ensures Apply(RotationMatrix(r), p) == Rotate(r, p)
  {
  }

  lemma ApplyConcatenateX(a: Affine, b: Affine, p: Point)
    ensures Apply(Concatenate(a, b), p).x == Apply(a, Apply(b, p)).x
  {
  }

  lemma ApplyConcatenateY(a: Affine, b: Affine, p: Point)
    ensures Apply(Concatenate(a, b), p).y == Apply(a, Apply(b, p)).y
  {
  }

  /** Concatenation is composition, the right-hand operand applied first. */
  lemma ApplyConcatenate(a: Affine, b: Affine, p: Point)
    ensures Apply(Concatenate(a, b), p) == Apply(a, Apply(b, p))
  {
    ApplyConcatenateX(a, b, p);
    ApplyConcatenateY(a, b, p);
  }

  /** Two transforms that agree on every point are the same six coefficients. */
  lemma AffineExtensional(a: Affine, b: Affine)
    requires forall p :: Apply(a, p) == Apply(b, p)
    ensures a == b
  {
    assert Apply(a, Origin) == Apply(b, Origin);
    assert Apply(a, Point(1.0, 0.0)) == Apply(b, Point(1.0, 0.0));
    assert Apply(a, Point(0.0, 1.0)) == Apply(b, Point(0.0, 1.0));
  }

  /** A transform that maps every point to itself is the identity. */
  lemma IdentityByPoints(a: Affine)
    requires forall p :: Apply(a, p) == p
    ensures a == Identity
  {
    assert Apply(a, Origin) == Origin;
    assert Apply(a, Point(1.0, 0.0)) == Point(1.0, 0.0);
    assert Apply(a, Point(0.0, 1.0)) == Point(0.0, 1.0);
  }

  /** The identity is a left unit of concatenation. */
  lemma ConcatenateIdentityLeft(a: Affine)
    ensures Concatenate(Identity, a) == a
  {
  }

  /** Concatenation is associative, as matrix products are. */
  lemma ConcatenateAssociative(a: Affine, b: Affine, c: Affine)
    ensures Concatenate(Concatenate(a, b), c) == Concatenate(a, Concatenate(b, c))
  {
    forall p ensures Apply(Concatenate(Concatenate(a, b), c), p) == Apply(Concatenate(a, Concatenate(b, c)), p) {
      ApplyConcatenate(Concatenate(a, b), c, p);
      ApplyConcatenate(a, b, Apply(c, p));
      ApplyConcatenate(a, Concatenate(b, c), p);
      ApplyConcatenate(b, c, p);
    }
    AffineExtensional(Concatenate(Concatenate(a, b), c), Concatenate(a, Concatenate(b, c)));
  }

  /** World to object space for a shape at `center` rotated by `rotation`:
      the counter-rotation concatenated with the translation by -center. Its
      linear part is the rotation matrix of -θ. */
  function WorldToObj(center: Point, rotation: UnitRotation): (m: Affine)
    ensures m.m00 == rotation.cos && m.m01 == rotation.sin
    ensures m.m10 == -rotation.sin && m.m11 == rotation.cos
  {
    Concatenate(RotationMatrix(Negate(rotation)), TranslationMatrix(-center.x, -center.y))
  }

  /** Object to world space: the translation by center concatenated with the
      rotation. Its linear part is the rotation matrix of θ. */
  function ObjToWorld(center: Point, rotation: UnitRotation): (m: Affine)
    ensures m.m00 == rotation.cos && m.m01 == -rotation.sin
    ensures m.m10 == rotation.sin && m.m11 == rotation.cos
  {
    Concatenate(TranslationMatrix(center.x, center.y), RotationMatrix(rotation))
  }

  /** World to object space moves p into the frame centered at `center`,
      then undoes the rotation: R(-θ)·(p - center). */
  lemma WorldToObjMaps(center: Point, rotation: UnitRotation, p: Point)
    ensures Apply(WorldToObj(center, rotation), p) == Rotate(Negate(rotation), Sub(p, center))
  {
    ApplyConcatenate(RotationMatrix(Negate(rotation)), TranslationMatrix(-center.x, -center.y), p);
    ApplyTranslation(-center.x, -center.y, p);
    assert Add(p, Point(-center.x, -center.y)) == Sub(p, center);
    ApplyRotation(Negate(rotation), Sub(p, center));
  }

  /** Object to world space rotates p, then moves it to `center`: R(θ)·p + center. */
  lemma ObjToWorldMaps(center: Point, rotation: UnitRotation, p: Point)
    ensures Apply(ObjToWorld(center, rotation), p) == Add(Rotate(rotation, p), center)
  {
    ApplyConcatenate(TranslationMatrix(center.x, center.y), RotationMatrix(rotation), p);
    ApplyRotation(rotation, p);
    ApplyTranslation(center.x, center.y, Rotate(rotation, p));
  }

  /** Mapping an object-space point to world space and back gives it back. */
  lemma WorldToObjAfterObjToWorld(center: Point, rotation: UnitRotation, p: Point)
    ensures Apply(WorldToObj(center, rotation), Apply(ObjToWorld(center, rotation), p)) == p
  {
    ObjToWorldMaps(center, rotation, p);
    var w := Add(Rotate(rotation, p), center);
    WorldToObjMaps(center, rotation, w);
    assert Sub(w, center) == Rotate(rotation, p);
    RotateNegate(rotation, p);
  }

  /** Mapping a world-space point to object space and back gives it back. */
  lemma ObjToWorldAfterWorldToObj(center: Point, rotation: UnitRotation, p: Point)
    ensures Apply(ObjToWorld(center, rotation), Apply(WorldToObj(center, rotation), p)) == p
  {
    WorldToObjMaps(center, rotation, p);
    var q := Rotate(Negate(rotation), Sub(p, center));
    ObjToWorldMaps(center, rotation, q);
    NegateRotate(rotation, Sub(p, center));
    assert Add(Sub(p, center), center) == p;
  }

  /** The two transforms are inverse matrices: their products either way are the identity. */
  lemma TransformsAreInverse(center: Point, rotation: UnitRotation)
    ensures Concatenate(WorldToObj(center, rotation), ObjToWorld(center, rotation)) == Identity
    ensures Concatenate(ObjToWorld(center, rotation), WorldToObj(center, rotation)) == Identity
  {
    var w, o := WorldToObj(center, rotation), ObjToWorld(center, rotation);
    forall p ensures Apply(Concatenate(w, o), p) == p {
      ApplyConcatenate(w, o, p);
      WorldToObjAfterObjToWorld(center, rotation, p);
    }
    IdentityByPoints(Concatenate(w, o));
    forall p ensures Apply(Concatenate(o, w), p) == p {
      ApplyConcatenate(o, w, p);
      ObjToWorldAfterWorldToObj(center, rotation, p);
    }
    IdentityByPoints(Concatenate(o, w));
  }

  /** Both transforms preserve area and orientation, so neither is degenerate. */
  lemma TransformsHaveUnitDeterminant(center: Point, rotation: UnitRotation)
    ensures Determinant(WorldToObj(center, rotation)) == 1.0
    ensures Determinant(ObjToWorld(center, rotation)) == 1.0
  {
    var c, s := rotation.cos, rotation.sin;
    assert c * c - s * (-s) == c * c + s * s;
    assert c * c - (-s) * s == c * c + s * s;
  }

  /** The shape's center is the origin of its object space. */
  lemma CenterIsObjectOrigin(center: Point, rotation: UnitRotation)
    ensures Apply(WorldToObj(center, rotation), center) == Origin
    ensures Apply(ObjToWorld(center, rotation), Origin) == center
  {
    WorldToObjMaps(center, rotation, center);
    ObjToWorldMaps(center, rotation, Origin);
  }

  /** Rotating by the angle 0, or by its negation, moves nothing. */
  lemma RotateByNothing(p: Point)
    ensures Rotate(NoRotation, p) == p && Rotate(Negate(NoRotation), p) == p
  {
  }

  /** Without rotation, world to object space only subtracts the center. */
  lemma UnrotatedWorldToObj(center: Point, p: Point)
    ensures Apply(WorldToObj(center, NoRotation), p) == Sub(p, center)
  {
    WorldToObjMaps(center, NoRotation, p);
    RotateByNothing(Sub(p, center));
  }

  /** Without rotation, object to world space only adds the center. */
  lemma UnrotatedObjToWorld(center: Point, p: Point)
    ensures Apply(ObjToWorld(center, NoRotation), p) == Add(p, center)
  {
    ObjToWorldMaps(center, NoRotation, p);
    RotateByNothing(p);
  }

  /** At the origin with no rotation, world to object space moves no point. */
  lemma WorldToObjFixesAtOrigin()
    ensures forall p :: Apply(WorldToObj(Origin, NoRotation), p) == p
  {
    forall p ensures Apply(WorldToObj(Origin, NoRotation), p) == p {
      UnrotatedWorldToObj(Origin, p);
    }
  }

  /** At the origin with no rotation, object to world space moves no point. */
  lemma ObjToWorldFixesAtOrigin()
    ensures forall p :: Apply(ObjToWorld(Origin, NoRotation), p) == p
  {
    forall p ensures Apply(ObjToWorld(Origin, NoRotation), p) == p {
      UnrotatedObjToWorld(Origin, p);
    }
  }

  /** Undoing no rotation is still no rotation. */
  lemma NegateNoRotation()
    ensures Negate(NoRotation) == Rotation(1.0, 0.0)
  {
  }

  /** The rotation matrix of the zero angle is the identity. */
  lemma ZeroAngleMatrix()
    ensures RotationMatrix(Rotation(1.0, 0.0)) == Identity
  {
  }

  /** Translating by the origin (or its negation) is the identity. */
  lemma OriginTranslation()
    ensures TranslationMatrix(Origin.x, Origin.y) == Identity
    ensures TranslationMatrix(-Origin.x, -Origin.y) == Identity
  {
  }

  /** Centred on the origin with no rotation, world to object space is the identity. */
  lemma WorldToObjIdentityAtOrigin()
    ensures WorldToObj(Origin, NoRotation) == Identity
  {
    NegateNoRotation();
    ZeroAngleMatrix();
    OriginTranslation();
    ConcatenateIdentityLeft(Identity);
  }

  /** Centred on the origin with no rotation, object to world space is the identity. */
  lemma ObjToWorldIdentityAtOrigin()
    ensures ObjToWorld(Origin, NoRotation) == Identity
  {
    ZeroAngleMatrix();
    OriginTranslation();
    ConcatenateIdentityLeft(Identity);
  }
}
