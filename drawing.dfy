/** The drawing model: the Shape base class (its attributes, change
    notifications, lazily rebuilt handle list and coordinate transforms), the
    Square variant, the Handle record and the drawing collection.

    The Java class hierarchy (abstract Shape, concrete Square and Line) is a
    single class here whose `variant` field holds what each concrete shape
    adds; the members that only Square defines require the Square variant. */
module Drawing {
  import opened Geometry

  /** java.awt.Color, kept opaque: the model never looks inside it. */
  datatype Color = Color(rgb: int)

  /** The geometry a concrete shape adds to the base class, in object space:
      a Square's side length, or a Line's end point (its start is the center). */
  datatype Variant = SquareVariant(size: real) | LineVariant(end: Point)

  /** One call `handle.updateHandle(anchor, target, zoomFactor)`. */
  datatype HandleUpdate = HandleUpdate(handle: Handle, anchor: Point, target: Point, zoomFactor: real)

  /** A point of the axis-aligned square of side `size` centred on the origin;
      the boundary belongs to the square. */
  predicate WithinHalfSize(q: Point, size: real) {
    Abs(q.x) <= size / 2.0 && Abs(q.y) <= size / 2.0
  }

  class Shape {
    var color: Color
    /** World-space center. */
    var center: Point
    /** Object-to-world rotation, counter-clockwise. */
    var rotation: UnitRotation
    var selected: bool
    var handles: seq<Handle>
    var numHandles: int
    var variant: Variant
    /** How many times observers were notified of a change (setChanged followed by notifyObservers). */
    var notifications: nat

    /** A Square: the base-class defaults (rotation 0, not selected, no
        handles, one handle wanted), then one handle set explicitly, then the size. */
    constructor Square(color: Color, center: Point, size: real)
      ensures this.color == color && this.center == center && rotation == NoRotation
      ensures !selected && handles == [] && numHandles == 1
      ensures variant == SquareVariant(size) && notifications == 0
    {
      this.color := color;
      this.center := center;
      rotation := NoRotation;
      selected := false;
      handles := [];
      numHandles := 1;
      notifications := 0;
      new;
      SetNumHandles(1);
      variant := SquareVariant(size);
    }

    /** A Line from `start` (its center) to `end` (object space), with the
        base-class defaults. How many handles a Line asks for is its own
        class's choice and is left open; the body keeps the base-class default. */
    constructor Line(color: Color, start: Point, end: Point)
      ensures this.color == color && center == start && rotation == NoRotation
      ensures !selected && handles == []
      ensures variant == LineVariant(end) && notifications == 0
    {
      this.color := color;
      center := start;
      rotation := NoRotation;
      selected := false;
      handles := [];
      numHandles := 1;
      notifications := 0;
      variant := LineVariant(end);
    }

    method SetColor(color: Color)
      modifies this`color, this`notifications
      ensures this.color == color && notifications == old(notifications) + 1
    {
      this.color := color;
      notifications := notifications + 1;
    }

    method SetCenter(center: Point)
      modifies this`center, this`notifications
      ensures this.center == center && notifications == old(notifications) + 1
    {
      this.center := center;
      notifications := notifications + 1;
    }

    method SetRotation(rotation: UnitRotation)
      modifies this`rotation, this`notifications
      ensures this.rotation == rotation && notifications == old(notifications) + 1
    {
      this.rotation := rotation;
      notifications := notifications + 1;
    }

    method SetSelected(selected: bool)
      modifies this`selected, this`notifications
      ensures this.selected == selected && notifications == old(notifications) + 1
    {
      this.selected := selected;
      notifications := notifications + 1;
    }

    /** Records the wanted handle count; the list itself is rebuilt lazily by
        GetHandles, and observers are not notified. */
    method SetNumHandles(numHandles: int)
      modifies this`numHandles
      ensures this.numHandles == numHandles
    {
      this.numHandles := numHandles;
    }

    /** The handle list, first replaced by `numHandles` fresh handles (each
        referencing this shape, anchored at the origin) when its length does
        not match `numHandles`. */
    method GetHandles() returns (result: seq<Handle>)
      modifies this`handles
      ensures result == handles
      ensures numHandles >= 0 ==> |handles| == numHandles
      ensures numHandles < 0 ==> handles == []
      ensures |old(handles)| == numHandles ==> handles == old(handles)
      ensures |old(handles)| != numHandles ==>
        (forall k :: 0 <= k < |handles| ==>
          fresh(handles[k]) && handles[k].referenceShape == this &&
          handles[k].anchorPoint == Origin && handles[k].handleShape == null) &&
        (forall j, k :: 0 <= j < k < |handles| ==> handles[j] != handles[k])
    {
      if numHandles != |handles| {
        handles := [];
        var i := 0;
        while i < numHandles
          invariant 0 <= i && (i == 0 || i <= numHandles)
          invariant |handles| == i
          invariant forall k :: 0 <= k < i ==>
            fresh(handles[k]) && handles[k].referenceShape == this &&
            handles[k].anchorPoint == Origin && handles[k].handleShape == null
          invariant forall j, k :: 0 <= j < k < i ==> handles[j] != handles[k]
        {
          var handle := new Handle(this, Origin);
          handles := handles + [handle];
          i := i + 1;
        }
      }
      result := handles;
    }

    /** The transform from world space to this shape's object space. */
    function GetWorldToObj(): (m: Affine)
      reads this
      ensures m == WorldToObj(center, rotation)
    {
      WorldToObj(center, rotation)
    }

    /** The transform from this shape's object space to world space. */
    function GetObjToWorld(): (m: Affine)
      reads this
      ensures m == ObjToWorld(center, rotation)
    {
      ObjToWorld(center, rotation)
    }

    /** Square.setSize. */
    method SetSize(size: real)
      requires variant.SquareVariant?
      modifies this`variant, this`notifications
      ensures variant == SquareVariant(size) && notifications == old(notifications) + 1
    {
      variant := SquareVariant(size);
      notifications := notifications + 1;
    }

    /** Square.pointInShape: `pt` is a world-space point; it is inside when its
        object-space image lies within half the size on both axes. The
        tolerance plays no part. */
    function PointInShape(pt: Point, tolerance: real): (inside: bool)
      reads this
      requires variant.SquareVariant?
      ensures inside <==> WithinHalfSize(Rotate(Negate(rotation), Sub(pt, center)), variant.size)
    {
      WorldToObjMaps(center, rotation, pt);
      var ptObj := Apply(GetWorldToObj(), pt);
      var halfSize := variant.size / 2.0;
      !(Abs(ptObj.x) > halfSize || Abs(ptObj.y) > halfSize)
    }

    /** Square.getMinimumY: the lowest object-space y of the square. */
    function GetMinimumY(): (minY: real)
      reads this
      requires variant.SquareVariant?
      ensures variant.size >= 0.0 ==> minY <= 0.0 && WithinHalfSize(Point(0.0, minY), variant.size)
    {
      -1.0 * (variant.size / 2.0)
    }

    /** Square.updateHandles: fetches the handle list through GetHandles, then
        asks every handle to update itself with the center as both anchor and
        target; the calls made are returned in order. */
    method UpdateHandles(zoomFactor: real) returns (calls: seq<HandleUpdate>)
      requires variant.SquareVariant?
      modifies this`handles
      ensures numHandles >= 0 ==> |handles| == numHandles
      ensures numHandles < 0 ==> handles == []
      ensures |old(handles)| == numHandles ==> handles == old(handles)
      ensures |old(handles)| != numHandles ==>
        (forall k :: 0 <= k < |handles| ==>
          fresh(handles[k]) && handles[k].referenceShape == this && handles[k].anchorPoint == Origin) &&
        (forall j, k :: 0 <= j < k < |handles| ==> handles[j] != handles[k])
      ensures |calls| == |handles|
      ensures forall k :: 0 <= k < |calls| ==> calls[k] == HandleUpdate(handles[k], center, center, zoomFactor)
    {
      var current := GetHandles();
      calls := [];
      for i := 0 to |current|
        invariant |calls| == i
        invariant forall k :: 0 <= k < i ==> calls[k] == HandleUpdate(current[k], center, center, zoomFactor)
      {
        calls := calls + [HandleUpdate(current[i], center, center, zoomFactor)];
      }
    }

    /** Line.setEnd (the Line class is known here only through its use):
        replaces the end point and notifies observers. */
    method SetEnd(end: Point)
      requires variant.LineVariant?
      modifies this`variant, this`notifications
      ensures variant == LineVariant(end) && notifications == old(notifications) + 1
    {
      variant := LineVariant(end);
      notifications := notifications + 1;
    }
  }

  /** A control point bound to one shape. The reference shape and the anchor
      point are fixed at construction; only the handle's own visual shape can
      be replaced. */
  class Handle {
    const referenceShape: Shape
    /** Object-space anchor on the reference shape. */
    const anchorPoint: Point
    var handleShape: Shape?

    constructor(referenceShape: Shape, anchorPoint: Point)
      ensures this.referenceShape == referenceShape && this.anchorPoint == anchorPoint
      ensures handleShape == null
    {
      this.referenceShape := referenceShape;
      this.anchorPoint := anchorPoint;
      handleShape := null;
    }

    function GetReferenceShape(): (s: Shape)
      ensures s == referenceShape
    {
      referenceShape
    }

    function GetAnchorPoint(): (p: Point)
      ensures p == anchorPoint
    {
      anchorPoint
    }

    function GetHandleShape(): (s: Shape?)
      reads this
      ensures s == handleShape
    {
      handleShape
    }

    method SetHandleShape(handleShape: Shape?)
      modifies this`handleShape
      ensures this.handleShape == handleShape
    {
      this.handleShape := handleShape;
    }
  }

  /** The drawing: an ordered collection of shapes addressed by index. */
  class DrawingCollection {
    var shapes: seq<Shape>

    constructor()
      ensures shapes == []
    {
      shapes := [];
    }

    /** Appends a shape and returns its index. */
    method AddShape(shape: Shape) returns (index: int)
      modifies this`shapes
      ensures shapes == old(shapes) + [shape] && index == |old(shapes)|
    {
      index := |shapes|;
      shapes := shapes + [shape];
    }

    function GetShape(index: int): (shape: Shape)
      reads this
      requires 0 <= index < |shapes|
      ensures shape == shapes[index]
    {
      shapes[index]
    }
  }

  /** A shape centred on the origin with no rotation has the identity as both of its transforms. */
  lemma IdentityAtOrigin(s: Shape)
    requires s.center == Origin && s.rotation == NoRotation
    ensures s.GetWorldToObj() == Identity && s.GetObjToWorld() == Identity
  {
    WorldToObjIdentityAtOrigin();
    ObjToWorldIdentityAtOrigin();
  }

  /** A square's object-space points are exactly the world-space points it
      contains, carried by its object-to-world transform, whatever its rotation. */
  lemma ContainsObjectSpacePoint(s: Shape, q: Point, tolerance: real)
    requires s.variant.SquareVariant?
    ensures s.PointInShape(Apply(s.GetObjToWorld(), q), tolerance) <==> WithinHalfSize(q, s.variant.size)
  {
    WorldToObjAfterObjToWorld(s.center, s.rotation, q);
    WorldToObjMaps(s.center, s.rotation, Apply(s.GetObjToWorld(), q));
  }

  /** A square of non-negative size contains its own center. */
  lemma CenterIsInside(s: Shape, tolerance: real)
    requires s.variant.SquareVariant? && s.variant.size >= 0.0
    ensures s.PointInShape(s.center, tolerance)
  {
    CenterIsObjectOrigin(s.center, s.rotation);
    WorldToObjMaps(s.center, s.rotation, s.center);
  }

  /** The tolerance argument never changes the answer for a square. */
  lemma ToleranceIgnored(s: Shape, pt: Point, tolerance1: real, tolerance2: real)
    requires s.variant.SquareVariant?
    ensures s.PointInShape(pt, tolerance1) == s.PointInShape(pt, tolerance2)
  {
  }

  /** The minimum y is a lower bound on the y of every object-space point of
      the square, and the square attains it whenever its size is non-negative. */
  lemma MinimumYIsLowest(s: Shape)
    requires s.variant.SquareVariant?
    ensures forall q :: WithinHalfSize(q, s.variant.size) ==> s.GetMinimumY() <= q.y
    ensures s.variant.size >= 0.0 ==> WithinHalfSize(Point(0.0, s.GetMinimumY()), s.variant.size)
  {
  }

  /** Without rotation, a square holds exactly the points whose offset from
      its center is within half the size on both axes. */
  lemma UnrotatedContainment(s: Shape, offset: Point, tolerance: real)
    requires s.variant.SquareVariant? && s.rotation == NoRotation
    ensures s.PointInShape(Add(offset, s.center), tolerance) <==> WithinHalfSize(offset, s.variant.size)
  {
    var pt := Add(offset, s.center);
    assert Sub(pt, s.center) == offset;
    RotateByNothing(offset);
  }

  /** The square of size 10 centred at (50, 50) without rotation. */
  predicate IsExampleSquare(s: Shape)
    reads s
  {
    s.variant == SquareVariant(10.0) && s.center == Point(50.0, 50.0) && s.rotation == NoRotation
  }

  /** The example square contains its center (50, 50). */
  lemma ExampleSquareContainsCenter(s: Shape)
    requires IsExampleSquare(s)
    ensures s.PointInShape(Point(50.0, 50.0), 0.0)
  {
    CenterIsInside(s, 0.0);
  }

  /** The example square contains (54, 54), inside its boundary on both axes. */
  lemma ExampleSquareContainsInnerPoint(s: Shape)
    requires IsExampleSquare(s)
    ensures s.PointInShape(Point(54.0, 54.0), 0.0)
  {
    assert WithinHalfSize(Point(4.0, 4.0), 10.0);
    assert Add(Point(4.0, 4.0), s.center) == Point(54.0, 54.0);
    UnrotatedContainment(s, Point(4.0, 4.0), 0.0);
  }

  /** The example square does not contain (56, 56), beyond half its size on both axes. */
  lemma ExampleSquareExcludesOuterPoint(s: Shape)
    requires IsExampleSquare(s)
    ensures !s.PointInShape(Point(56.0, 56.0), 0.0)
  {
    assert !WithinHalfSize(Point(6.0, 6.0), 10.0);
    assert Add(Point(6.0, 6.0), s.center) == Point(56.0, 56.0);
    UnrotatedContainment(s, Point(6.0, 6.0), 0.0);
  }

  /** The same square under any rotation contains the rotated image of the
      object-space offset (3, 3) but not that of (6, 6). */
  lemma RotatedSquareExample(s: Shape)
    requires s.variant == SquareVariant(10.0) && s.center == Point(50.0, 50.0)
    ensures s.PointInShape(Apply(s.GetObjToWorld(), Point(3.0, 3.0)), 0.0)
    ensures !s.PointInShape(Apply(s.GetObjToWorld(), Point(6.0, 6.0)), 0.0)
  {
    ContainsObjectSpacePoint(s, Point(3.0, 3.0), 0.0);
    ContainsObjectSpacePoint(s, Point(6.0, 6.0), 0.0);
  }
}
