# CS355Painter shape core in Dafny

CS355Painter is a small drawing program. This project models its shape
core:

- the `Shape` base class: color, center, rotation, selection flag and the
  handle list rebuilt lazily from a wanted handle count, with change
  notifications to observers and the two coordinate transforms between world
  space and a shape's object space;
- `Square`, a concrete shape whose containment test is done in object space;
- `Handle`, a control point bound to one shape;
- `LineController`, the mouse controller that authors line segments in the
  drawing.

The model is in three modules:

- `Geometry` (`geometry.dfy`) holds points, rotations and the affine
  transforms. It states the two transforms as the source builds them:
  world-to-object as the rotation by -θ concatenated with the translation by
  -center, object-to-world as the translation by center concatenated with
  the rotation by θ. It proves what they mean pointwise. It also proves that they
  are mutual inverses, map the center to the object origin and are the
  identity for a shape at the origin with no rotation.
- `Drawing` (`drawing.dfy`) holds one `Shape` class whose `variant` field
  carries what a concrete shape adds: a Square's size, or a Line's end point.
  It also has `Handle` and `DrawingCollection`, the drawing as an indexed
  list of shapes. The notifying setters (`SetColor`, `SetCenter`,
  `SetRotation`, `SetSelected`, `SetSize` and `SetEnd`) change their own
  field and add one to a `notifications` counter; `SetNumHandles` and
  `Handle.SetHandleShape` change their field without notifying. Each
  setter's frame (`modifies this`field`) says that nothing else changes.
  `GetHandles` is a loop proved to leave a matching
  list alone and to replace a mismatched one with `numHandles` fresh,
  distinct handles that point back at the shape. The Square's containment
  test is proved to be the inclusive half-size test on the object-space
  image of the point. Further lemmas prove that it ignores the tolerance,
  contains its center when its size is non-negative, and is the same square
  under every rotation.
- `Mouse` (`line_controller.dfy`) holds `LineController`. A press appends a
  Line that starts at the press point and records its index. A drag moves
  that Line's end to the pointer, in the Line's object space. If the shape
  at the index is not a Line, the drag returns a diagnostic and changes
  nothing.

Angles are represented by their cosine and sine, as a pair `(cos, sin)` of
reals with `cos² + sin² = 1`. Java builds exactly these matrix entries from
`Math.cos` and `Math.sin` of the stored angle. A rotation by `-θ` is the pair
`(cos, -sin)`.

## Model

| member | source | states |
|---|---|---|
| Drawing.Shape.Square | src/cs355/model/drawing/Square.java:25-35 | a new Square has the given color, center and size, rotation 0, is not selected, has an empty handle list, wants one handle and has notified no observer |
| Drawing.Shape.Line | src/cs355/model/drawing/Shape.java:44-51 | a new Line has the given color, its start as center, the given object-space end and the base-class defaults (rotation 0, not selected, no handles, no notification); its wanted handle count is left open |
| Drawing.Shape.SetColor | src/cs355/model/drawing/Shape.java:65-69 | the color becomes the argument, observers are notified exactly once, and no other field changes |
| Drawing.Shape.SetCenter | src/cs355/model/drawing/Shape.java:83-87 | the center becomes the argument, observers are notified exactly once, and no other field changes |
| Drawing.Shape.SetRotation | src/cs355/model/drawing/Shape.java:102-106 | the rotation becomes the argument, observers are notified exactly once, and no other field changes |
| Drawing.Shape.SetSelected | src/cs355/model/drawing/Shape.java:119-123 | the selection flag becomes the argument, observers are notified exactly once, and no other field changes |
| Drawing.Shape.SetNumHandles | src/cs355/model/drawing/Shape.java:160 | only the wanted handle count changes; the handle list is not rebuilt and no observer is notified |
| Drawing.Shape.GetHandles | src/cs355/model/drawing/Shape.java:130-154 | returns the handle list, which afterwards has length `numHandles` (empty when `numHandles` is negative); a list whose length already matched is left as it was; a mismatched list is replaced by fresh, pairwise distinct handles that reference this shape, are anchored at the origin and have no handle shape |
| Geometry.WorldToObjMaps | src/cs355/model/drawing/Shape.java:166-191 | the world-to-object transform (rotation by -θ concatenated with translation by -center) maps p to the rotation by -θ of p - center |
| Geometry.ObjToWorldMaps | src/cs355/model/drawing/Shape.java:197-219 | the object-to-world transform (translation by center concatenated with rotation by θ) maps p to the rotation by θ of p, plus center |
| Geometry.WorldToObj | src/cs355/model/drawing/Shape.java:172-188 | the rotation by -θ concatenated with the translation by -center; its linear part is the rotation matrix of -θ (m00 = m11 = cos θ, m01 = sin θ, m10 = -sin θ); what it does to a point is proved in WorldToObjMaps |
| Geometry.ObjToWorld | src/cs355/model/drawing/Shape.java:202-216 | the translation by center concatenated with the rotation by θ; its linear part is the rotation matrix of θ (m00 = m11 = cos θ, m01 = -sin θ, m10 = sin θ); what it does to a point is proved in ObjToWorldMaps |
| Drawing.Shape.GetWorldToObj | src/cs355/model/drawing/Shape.java:166-191 | the shape's world-to-object transform is Geometry.WorldToObj of its current center and rotation, so WorldToObjMaps and the inverse lemmas apply to it |
| Drawing.Shape.GetObjToWorld | src/cs355/model/drawing/Shape.java:197-219 | the shape's object-to-world transform is Geometry.ObjToWorld of its current center and rotation, so ObjToWorldMaps and the inverse lemmas apply to it |
| Geometry.TransformsHaveUnitDeterminant | src/cs355/model/drawing/Shape.java:166-219 | both transforms have determinant 1, so neither is degenerate |
| Geometry.WorldToObjAfterObjToWorld | src/cs355/model/drawing/Shape.java:166-219 | mapping an object-space point to world space and back returns the point |
| Geometry.ObjToWorldAfterWorldToObj | src/cs355/model/drawing/Shape.java:166-219 | mapping a world-space point to object space and back returns the point |
| Geometry.TransformsAreInverse | src/cs355/model/drawing/Shape.java:166-219 | both concatenations of the two transforms are the identity matrix |
| Geometry.CenterIsObjectOrigin | src/cs355/model/drawing/Shape.java:179-188 | world-to-object sends the center to the origin, and object-to-world sends the origin to the center |
| Geometry.WorldToObjFixesAtOrigin | src/cs355/model/drawing/Shape.java:166-191 | with center (0, 0) and rotation 0, world-to-object leaves every point where it is |
| Geometry.ObjToWorldFixesAtOrigin | src/cs355/model/drawing/Shape.java:197-219 | with center (0, 0) and rotation 0, object-to-world leaves every point where it is |
| Geometry.UnrotatedWorldToObj | src/cs355/model/drawing/Shape.java:166-191 | with rotation 0, world-to-object is the translation p - center |
| Geometry.UnrotatedObjToWorld | src/cs355/model/drawing/Shape.java:197-219 | with rotation 0, object-to-world is the translation p + center |
| Geometry.ApplyConcatenate | src/cs355/model/drawing/Shape.java:188 | concatenation composes transforms with the right-hand operand applied first |
| Geometry.ConcatenateAssociative | src/cs355/model/drawing/Shape.java:188 | concatenation is associative |
| Geometry.NegateRotate | src/cs355/model/drawing/Shape.java:208-213 | rotating by θ undoes a rotation by -θ |
| Geometry.RotateNegate | src/cs355/model/drawing/Shape.java:172-177 | rotating by -θ undoes a rotation by θ |
| Geometry.WorldToObjIdentityAtOrigin | src/cs355/model/drawing/Shape.java:166-191 | for center (0, 0) and rotation 0, the world-to-object matrix is the identity |
| Geometry.ObjToWorldIdentityAtOrigin | src/cs355/model/drawing/Shape.java:197-219 | for center (0, 0) and rotation 0, the object-to-world matrix is the identity |
| Drawing.IdentityAtOrigin | src/cs355/model/drawing/Shape.java:166-219 | a shape centred at the origin with no rotation has the identity as both of its transforms |
| Drawing.Shape.SetSize | src/cs355/model/drawing/Square.java:49-54 | the size becomes the argument, observers are notified exactly once, and no other field changes |
| Drawing.Shape.PointInShape | src/cs355/model/drawing/Square.java:64-81 | a world point is inside exactly when its image under world-to-object lies within half the size on both axes, boundary included |
| Drawing.ContainsObjectSpacePoint | src/cs355/model/drawing/Square.java:64-81 | whatever the rotation, the world image of an object-space point q is inside exactly when q is within half the size on both axes |
| Drawing.UnrotatedContainment | src/cs355/model/drawing/Square.java:64-81 | with rotation 0, the point center + offset is inside exactly when the offset is within half the size on both axes |
| Drawing.CenterIsInside | src/cs355/model/drawing/Square.java:64-81 | a square of non-negative size contains its own center |
| Drawing.ToleranceIgnored | src/cs355/model/drawing/Square.java:64-81 | the answer does not depend on the tolerance |
| Drawing.ExampleSquareContainsCenter | src/cs355/model/drawing/Square.java:64-81 | the square of size 10 at (50, 50) with rotation 0 contains (50, 50) |
| Drawing.ExampleSquareContainsInnerPoint | src/cs355/model/drawing/Square.java:64-81 | that square contains (54, 54) |
| Drawing.ExampleSquareExcludesOuterPoint | src/cs355/model/drawing/Square.java:64-81 | that square does not contain (56, 56) |
| Drawing.RotatedSquareExample | src/cs355/model/drawing/Square.java:64-81 | under any rotation, the square of size 10 at (50, 50) contains the world image of (3, 3) and not that of (6, 6) |
| Drawing.Shape.GetMinimumY | src/cs355/model/drawing/Square.java:83-86 | for a square of non-negative size the result is at most 0 and the object-space point (0, result) lies on the square; that it is also the lowest y is MinimumYIsLowest |
| Drawing.MinimumYIsLowest | src/cs355/model/drawing/Square.java:83-86 | `-size/2` is at most the y of every object-space point of the square, and when the size is non-negative the square attains it at (0, -size/2) |
| Drawing.Shape.UpdateHandles | src/cs355/model/drawing/Square.java:88-93 | the handle list is first brought up to date as GetHandles does; then every handle, in order, gets one `updateHandle(center, center, zoomFactor)` call |
| Drawing.Shape.SetEnd | src/cs355/controller/mouse/LineController.java:78 | the Line's end becomes the argument and observers are notified exactly once; nothing else changes (the Line class is not part of this model, see Left out) |
| Drawing.Handle.constructor | src/cs355/model/drawing/selectable/Handle.java:26-30 | the new handle has the given reference shape and anchor point and no handle shape |
| Drawing.Handle.GetReferenceShape | src/cs355/model/drawing/selectable/Handle.java:37 | returns the reference shape, which is fixed at construction |
| Drawing.Handle.GetAnchorPoint | src/cs355/model/drawing/selectable/Handle.java:44 | returns the anchor point, which is fixed at construction |
| Drawing.Handle.GetHandleShape | src/cs355/model/drawing/selectable/Handle.java:51 | returns the current handle shape (none until one is set) |
| Drawing.Handle.SetHandleShape | src/cs355/model/drawing/selectable/Handle.java:58 | only the handle shape changes |
| Drawing.DrawingCollection.AddShape | src/cs355/controller/mouse/LineController.java:44 | appends the shape to the drawing and returns its index, the old number of shapes |
| Drawing.DrawingCollection.GetShape | src/cs355/controller/mouse/LineController.java:63 | returns the shape at a valid index |
| Mouse.EventPoint | src/cs355/controller/mouse/LineController.java:35-36 | the press point is the event's integer pointer position, as real coordinates |
| Mouse.LineController.constructor | src/cs355/controller/mouse/LineController.java:23-25 | a new controller has index -1 |
| Mouse.LineController.MousePressed | src/cs355/controller/mouse/LineController.java:32-45 | exactly one shape is appended to the drawing: a fresh Line of the current color, centred on the press point, with object-space end (0, 0), rotation 0, not selected, no handles and no notification; the controller's index becomes the Line's index |
| Mouse.LineController.MouseDragged | src/cs355/controller/mouse/LineController.java:60-79 | if the shape at the index is a Line, its end becomes the world-to-object image of the pointer and its observers are notified once; otherwise an invalid-shape diagnostic naming the index is returned and the shape is unchanged; the index and the drawing's list never change |
| Mouse.LineController.MouseClicked | src/cs355/controller/mouse/LineController.java:28-29 | changes neither the controller nor the drawing |
| Mouse.LineController.MouseReleased | src/cs355/controller/mouse/LineController.java:48-49 | changes neither the controller nor the drawing |
| Mouse.LineController.MouseEntered | src/cs355/controller/mouse/LineController.java:52-53 | changes neither the controller nor the drawing |
| Mouse.LineController.MouseExited | src/cs355/controller/mouse/LineController.java:56-57 | changes neither the controller nor the drawing |
| Mouse.LineController.MouseMoved | src/cs355/controller/mouse/LineController.java:82-83 | changes neither the controller nor the drawing |
| Mouse.LineController.Close | src/cs355/controller/mouse/LineController.java:86-88 | changes nothing |
| Mouse.AuthorSegment | src/cs355/controller/mouse/LineController.java:32-79 | a press followed by a drag appends one Line of the current color that starts at the press point and whose object-space end is the drag point minus the press point |
| Mouse.DragOntoSquare | src/cs355/controller/mouse/LineController.java:63-67 | a drag whose remembered index names a Square returns the invalid-shape diagnostic for that index and leaves the Square unchanged |

## Left out

- The rotation is stored as its (cos, sin) pair rather than as a `double` angle. `Math.cos`, `Math.sin` and floating-point rounding are not modelled; all coordinates are exact reals.
- The locals `m02` and `m12` in `getWorldToObj` are computed and never used, so they are not modelled. The `protected static` field `HANDLE_OFFSET` is not read by Shape or Square; subclasses that might read it are not part of this model, so it is left out.
- `java.util.Observable` is reduced to a count of notifications. Registered observers and what they do are not modelled.
- `getHandles` returns the shape's own `ArrayList`, so a caller that adds or removes elements changes the shape's list (and a length change forces the next rebuild). Drawing.Shape.GetHandles returns the list as a value, so that aliasing is not modelled.
- `Point2D.Double` is a mutable object in Java and the shape keeps the caller's object, so a caller could still move the center after `setCenter` or the constructor. Points are values here, so that aliasing is not modelled.
- `java.awt.Color` is an opaque value. `getColor`, `getCenter`, `getRotation`, `getSelected` and `getSize` are plain field reads, so the model reads the fields directly.
- Abstract Shape subclasses are one class with a `variant` field, since Dafny here has no inheritance. Members that only Square defines (`SetSize`, `PointInShape`, `GetMinimumY`, `UpdateHandles`) require the Square variant. `SetEnd` requires the Line variant.
- `CircleHandleFactory` and `CircleHandle` are not part of this model. A handle built by the factory is a `Handle` whose reference shape is this shape and whose anchor is (0, 0); the factory's second point argument is dropped.
- Drawing.Shape.GetHandles: a rebuilt handle is promised to have no handle shape, because it is built with the `Handle` constructor. A `CircleHandle` may set its own handle shape through the protected `setHandleShape`, and that code is not part of this model.
- Drawing.Shape.UpdateHandles: `CircleHandle.updateHandle` is not part of this model, so the method returns the calls it makes rather than modelling what each call does; its frame (`modifies this`handles`) lets a caller conclude that no Handle changes only because what `updateHandle` does to each handle (repositioning and resizing it) is not modelled.
- `Handle.pointInside` is abstract in Handle. Its implementations are not part of this model.
- `Line` and `CS355Drawing` are not part of this model. A Line is assumed to take its start point as its center and to notify observers once in `setEnd`. How many handles a Line asks for is not known: the comment in `getHandles` suggests a Line needs more than one. The model therefore promises nothing about a new Line's `numHandles`. The drawing is assumed to append in `addShape` and return the new index. `removeShape` and the drawing's other operations are left out.
- Mouse.LineController.MouseDragged requires the remembered index to be valid in the drawing. What `getShape` does with an invalid index, including the initial -1, depends on `CS355Drawing`, which is not part of this model.
- `GUIFunctions.printf` becomes the returned `InvalidShape(index)` diagnostic. The message text and its display are not modelled.
- Mouse events carry only their integer pointer position; buttons, modifiers and timing are not modelled.
- `LineDrawable` and the application entry point, `CS355.java`, are not part of this model.
