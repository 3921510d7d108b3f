/**
 * Painting the exclusion mask with the mouse: `mousedown` starts a stroke at the
 * pointer, every `mousemove` while the button is held strokes a red line from the
 * last point to the pointer, and `mouseup` or `mouseout` ends the stroke. The lines
 * are recorded as segments; how the canvas rasterises them is not modelled.
 */
module MaskPainter {

  datatype Point = Point(x: int, y: int)
  datatype Segment = Segment(from: Point, to: Point)

  datatype MouseEvent =
    | MouseDown(at: Point)
    | MouseMove(at: Point)
    | MouseUp
    | MouseOut

  /** `drawing` together with `[lastX, lastY]`. */
  datatype PenState = PenState(drawing: bool, last: Point)

  datatype Transition = Transition(state: PenState, emitted: seq<Segment>)

  const Initial: PenState := PenState(false, Point(0, 0))

  /** One event as the registered listeners handle it. */
  function Step(s: PenState, e: MouseEvent): Transition {
    match e
    case MouseDown(p) => Transition(PenState(true, p), [])
    case MouseMove(p) =>
      if s.drawing then Transition(PenState(true, p), [Segment(s.last, p)])
      else Transition(s, [])
    case MouseUp => Transition(PenState(false, s.last), [])
    case MouseOut => Transition(PenState(false, s.last), [])
  }

  /** A run of events, handled in order. */
  function Replay(s: PenState, es: seq<MouseEvent>): Transition {
    if es == [] then Transition(s, [])
    else
      var prev := Replay(s, es[..|es| - 1]);
      var t := Step(prev.state, es[|es| - 1]);
      Transition(t.state, prev.emitted + t.emitted)
  }

  predicate NoMouseDown(es: seq<MouseEvent>) {
    forall i :: 0 <= i < |es| ==> !es[i].MouseDown?
  }

  /** Without a press, nothing is painted and the pen stays up and where it was. */
  lemma {:induction false} IdleEventsPaintNothing(s: PenState, es: seq<MouseEvent>)
    requires !s.drawing
    requires NoMouseDown(es)
    ensures Replay(s, es) == Transition(s, [])
  {
    if es != [] {
      IdleEventsPaintNothing(s, es[..|es| - 1]);
    }
  }

  function Moves(ps: seq<Point>): (es: seq<MouseEvent>)
    ensures |es| == |ps|
    ensures forall i :: 0 <= i < |ps| ==> es[i] == MouseMove(ps[i])
  {
    if ps == [] then [] else Moves(ps[..|ps| - 1]) + [MouseMove(ps[|ps| - 1])]
  }

  /**
   * Dragging with the button held paints a connected polyline: one segment per move,
   * the first from the press point, each next one from where the previous ended.
   */
  lemma {:induction false} DragPaintsPolyline(s: PenState, ps: seq<Point>)
    requires s.drawing
    ensures var t := Replay(s, Moves(ps));
      |t.emitted| == |ps| &&
      t.state == PenState(true, if ps == [] then s.last else ps[|ps| - 1]) &&
      (|ps| > 0 ==> t.emitted[0].from == s.last) &&
      (forall i :: 0 <= i < |ps| ==> t.emitted[i].to == ps[i]) &&
      (forall i :: 0 < i < |ps| ==> t.emitted[i].from == ps[i - 1])
  {
    if ps != [] {
      var init := ps[..|ps| - 1];
      assert Moves(ps)[..|ps| - 1] == Moves(init);
      DragPaintsPolyline(s, init);
    }
  }

  /** After a press, a release and any number of moves paint nothing more. */
  lemma ClickThenMovePaintsNothing(s: PenState, p: Point, ps: seq<Point>)
    ensures Replay(s, [MouseDown(p), MouseUp] + Moves(ps)).emitted == []
  {
    var pre := [MouseDown(p), MouseUp];
    ReplayAppend(s, pre, Moves(ps));
    assert pre[..1] == [MouseDown(p)];
    assert [MouseDown(p)][..0] == [];
    assert Replay(s, [MouseDown(p)]) == Transition(PenState(true, p), []);
    assert Replay(s, pre) == Transition(PenState(false, p), []);
    assert NoMouseDown(Moves(ps));
    IdleEventsPaintNothing(PenState(false, p), Moves(ps));
  }

  lemma {:induction false} ReplayAppend(s: PenState, a: seq<MouseEvent>, b: seq<MouseEvent>)
    ensures Replay(s, a + b) ==
      var ta := Replay(s, a);
      var tb := Replay(ta.state, b);
      Transition(tb.state, ta.emitted + tb.emitted)
    decreases |b|
  {
    if b == [] {
      assert a + b == a;
    } else {
      var init := b[..|b| - 1];
      assert (a + b)[..|a + b| - 1] == a + init;
      assert (a + b)[|a + b| - 1] == b[|b| - 1];
      ReplayAppend(s, a, init);
    }
  }

  /** The handlers' shared state. */
  class Painter {
    var drawing: bool
    var lastX: int
    var lastY: int
    /** Every line stroked onto the mask so far, in order. */
    ghost var strokes: seq<Segment>

    function State(): PenState
      reads this
    {
      PenState(drawing, Point(lastX, lastY))
    }

    constructor ()
      ensures State() == Initial && strokes == []
    {
      drawing := false;
      lastX, lastY := 0, 0;
      strokes := [];
    }

    method OnMouseDown(offsetX: int, offsetY: int)
      modifies this
      ensures drawing && lastX == offsetX && lastY == offsetY
      ensures strokes == old(strokes)
      ensures State() == Step(old(State()), MouseDown(Point(offsetX, offsetY))).state
    {
      drawing := true;
      lastX, lastY := offsetX, offsetY;
    }

    /** `draw`: strokes a line only while the button is held. */
    method OnMouseMove(offsetX: int, offsetY: int)
      modifies this
      ensures !old(drawing) ==> State() == old(State()) && strokes == old(strokes)
      ensures old(drawing) ==>
        drawing && lastX == offsetX && lastY == offsetY &&
        strokes == old(strokes) + [Segment(Point(old(lastX), old(lastY)), Point(offsetX, offsetY))]
      ensures var t := Step(old(State()), MouseMove(Point(offsetX, offsetY)));
        State() == t.state && strokes == old(strokes) + t.emitted
    {
      if !drawing {
        return;
      }
      strokes := strokes + [Segment(Point(lastX, lastY), Point(offsetX, offsetY))];
      lastX, lastY := offsetX, offsetY;
    }

    method OnMouseUp()
      modifies this
      ensures !drawing && lastX == old(lastX) && lastY == old(lastY) && strokes == old(strokes)
      ensures State() == Step(old(State()), MouseUp).state
    {
      drawing := false;
    }

    method OnMouseOut()
      modifies this
      ensures !drawing && lastX == old(lastX) && lastY == old(lastY) && strokes == old(strokes)
      ensures State() == Step(old(State()), MouseOut).state
    {
      drawing := false;
    }
  }
}
