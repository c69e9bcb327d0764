/** The mouse controller that authors line segments: a press adds a Line whose
    start is the press point and remembers its index in the drawing; each
    drag moves that Line's end to the pointer, in the Line's object space. */
module Mouse {
  import opened Geometry
  import opened Drawing

  /** The pointer position of a java.awt.event.MouseEvent: integer pixels. */
  datatype MouseEvent = MouseEvent(x: int, y: int)

  /** What the controller reports to the user instead of acting. */
  datatype Diagnostic = InvalidShape(index: int)

  datatype Option<T> = None | Some(value: T)

  /** The event's pointer position as a world-space point. */
  function EventPoint(e: MouseEvent): (p: Point)
    ensures p.x == e.x as real && p.y == e.y as real
  {
    Point(e.x as real, e.y as real)
  }

  class LineController {
    /** Index in the drawing of the Line being authored; -1 before any press. */
    var index: int

    constructor()
      ensures index == -1
    {
      index := -1;
    }

    /** Adds a Line of the current color from the press point, with end
        (0, 0) in object space, and remembers its index. */
    method MousePressed(e: MouseEvent, model: DrawingCollection, c: Color)
      modifies this`index, model`shapes
      ensures |model.shapes| == |old(model.shapes)| + 1
      ensures index == |old(model.shapes)|
      ensures model.shapes == old(model.shapes) + [model.shapes[index]]
      ensures var line := model.shapes[index];
        fresh(line) && line.color == c && line.center == EventPoint(e) &&
        line.variant == LineVariant(Origin) && line.rotation == NoRotation &&
        !line.selected && line.handles == [] && line.notifications == 0
    {
      var initialCoordinates := EventPoint(e);
      var endPoint := Origin;
      var line := new Shape.Line(c, initialCoordinates, endPoint);
      index := model.AddShape(line);
    }

    /** Moves the end of the Line at the remembered index to the pointer,
        expressed in the Line's object space; when the shape there is not a
        Line, reports that instead and changes nothing. Neither the index nor
        the drawing's list of shapes changes. */
    method MouseDragged(e: MouseEvent, model: DrawingCollection, c: Color) returns (diagnostic: Option<Diagnostic>)
      requires 0 <= index < |model.shapes|
      modifies model.GetShape(index)`variant, model.GetShape(index)`notifications
      ensures index == old(index) && model.shapes == old(model.shapes)
      ensures var shape := model.shapes[index];
        if old(shape.variant).LineVariant? then
          diagnostic == None &&
          shape.variant == LineVariant(Rotate(Negate(shape.rotation), Sub(EventPoint(e), shape.center))) &&
          shape.notifications == old(shape.notifications) + 1
        else
          diagnostic == Some(InvalidShape(index)) && unchanged(shape)
    {
      var shape := model.GetShape(index);
      if !shape.variant.LineVariant? {
        diagnostic := Some(InvalidShape(index));
        return;
      }
      var worldToObj := shape.GetWorldToObj();
      WorldToObjMaps(shape.center, shape.rotation, EventPoint(e));
      var currentCoordinates := Apply(worldToObj, EventPoint(e));
      shape.SetEnd(currentCoordinates);
      diagnostic := None;
    }

    method MouseClicked(e: MouseEvent, model: DrawingCollection, c: Color)
      ensures unchanged(this, model)
    {
    }

    method MouseReleased(e: MouseEvent, model: DrawingCollection, c: Color)
      ensures unchanged(this, model)
    {
    }

    method MouseEntered(e: MouseEvent, model: DrawingCollection, c: Color)
      ensures unchanged(this, model)
    {
    }

    method MouseExited(e: MouseEvent, model: DrawingCollection, c: Color)
      ensures unchanged(this, model)
    {
    }

    method MouseMoved(e: MouseEvent, model: DrawingCollection, c: Color)
      ensures unchanged(this, model)
    {
    }

    method Close()
      ensures unchanged(this)
    {
    }
  }

  /** Authoring a segment: a press followed by a drag leaves, as the last
      shape of the drawing, a Line that starts at the press point and whose
      object-space end is the offset from the press point to the drag point
      (a fresh Line is not rotated). */
  method AuthorSegment(model: DrawingCollection, press: MouseEvent, drag: MouseEvent, c: Color) returns (line: Shape)
    modifies model`shapes
    ensures model.shapes == old(model.shapes) + [line]
    ensures line.color == c && line.center == EventPoint(press)
    ensures line.variant == LineVariant(Sub(EventPoint(drag), EventPoint(press)))
  {
    var controller := new LineController();
    controller.MousePressed(press, model, c);
    line := model.shapes[controller.index];
    var diagnostic := controller.MouseDragged(drag, model, c);
    RotateByNothing(Sub(EventPoint(drag), line.center));
  }

  /** A drag after the drawing has a non-Line at the remembered index (here a
      different drawing whose first shape is a Square) reports the index and
      leaves that shape as it was. */
  method DragOntoSquare(square: Shape) returns (diagnostic: Option<Diagnostic>)
    requires square.variant.SquareVariant?
    modifies square
    ensures diagnostic == Some(InvalidShape(0))
    ensures unchanged(square)
  {
    var lines := new DrawingCollection();
    var controller := new LineController();
    controller.MousePressed(MouseEvent(5, 5), lines, Color(0));
    var other := new DrawingCollection();
    var _ := other.AddShape(square);
    diagnostic := controller.MouseDragged(MouseEvent(7, 7), other, Color(0));
  }
}
