/*
 * The drawing session: the list of polylines, the one being built, the
 * palette cursor that colours new polylines, and the per-frame update
 * (left click: close or extend the open shape; right click: start over)
 * followed by rendering.
 *
 * Input is passed in: the cursor position and whether each mouse button was
 * pressed this frame. Rendering returns the draw commands of the frame.
 */
module App {
  import opened Polylines

  /** The palette new polylines take their colours from, in order, cyclically. */
  const Palette: seq<Color> := [Red, Green, Blue, Pink, Orange, Green]

  /** A click within this distance of the open shape's first point closes it. */
  const POINT_CLICK_RADIUS: int := 6

  /** The palette cursor after one colour is handed out from `idx`. */
  function Advance(idx: int): (r: int)
    requires 0 <= idx < |Palette|
    ensures 0 <= r < |Palette|
    ensures idx < |Palette| - 1 ==> r == idx + 1
    ensures idx == |Palette| - 1 ==> r == 0
  {
    (idx + 1) % |Palette|
  }

  /** The palette cursor after `k` colours were handed out, starting from 0. */
  function IndexAfter(k: nat): (r: int)
    ensures 0 <= r < |Palette|
  {
    if k == 0 then 0 else Advance(IndexAfter(k - 1))
  }

  /** The colour handed out `k`-th (from 0) in a session. */
  function ColorOfCreation(k: nat): Color
  {
    Palette[IndexAfter(k)]
  }

  /** Handing out colours one at a time walks the palette modulo its size. */
  lemma {:induction false} IndexAfterIsRemainder(k: nat)
    ensures IndexAfter(k) == k % |Palette|
  {
    if k > 0 {
      IndexAfterIsRemainder(k - 1);
    }
  }

  /** The `k`-th and `(k + |Palette|)`-th polylines created get the same colour. */
  lemma {:induction false} ColorsRepeat(k: nat)
    ensures ColorOfCreation(k + |Palette|) == ColorOfCreation(k)
  {
    IndexAfterIsRemainder(k);
    IndexAfterIsRemainder(k + |Palette|);
  }

  /** The commands that draw every polyline of `ls` in turn. */
  function ShapeCommands(ls: seq<Polyline>): seq<DrawCommand>
    reads ls
  {
    if ls == [] then []
    else ShapeCommands(ls[..|ls| - 1]) + DrawCommands(ls[|ls| - 1].points, ls[|ls| - 1].color)
  }

  /** The highlight drawn at the cursor when clicking there would close the open shape. */
  function HighlightCommands(open: seq<Point>, cursor: Point): seq<DrawCommand>
  {
    if CloseToStart(open, cursor, POINT_CLICK_RADIUS) then [Rect(cursor, POINT_CLICK_RADIUS, Yellow)] else []
  }

  class Session {
    /** Every polyline of the session, in creation order. */
    var lines: seq<Polyline>
    /** The polyline that receives new points. */
    var lineBeingBuilt: Polyline?
    /** Index into `Palette` of the next colour to hand out. */
    var nextColorIndex: int
    /** How many colours have been handed out so far. */
    ghost var issued: nat

    ghost predicate Valid()
      reads this, lines
    {
      && |lines| > 0
      && lineBeingBuilt == lines[|lines| - 1]
      && 0 <= nextColorIndex < |Palette|
      && nextColorIndex == IndexAfter(issued)
      && issued >= 1
      && lineBeingBuilt.color == ColorOfCreation(issued - 1)
      && (forall i, j :: 0 <= i < j < |lines| ==> lines[i] != lines[j])
      && (forall i :: 0 <= i < |lines| - 1 ==> IsClosedShape(lines[i].points))
    }

    /** Hands out the colour at the cursor and advances the cursor cyclically. */
    method GetNextLineColor() returns (c: Color)
      requires 0 <= nextColorIndex < |Palette| && nextColorIndex == IndexAfter(issued)
      modifies this`nextColorIndex, this`issued
      ensures c == Palette[old(nextColorIndex)] && c == ColorOfCreation(old(issued))
      ensures nextColorIndex == (old(nextColorIndex) + 1) % |Palette|
      ensures issued == old(issued) + 1 && nextColorIndex == IndexAfter(issued)
    {
      c := Palette[nextColorIndex];
      nextColorIndex := (nextColorIndex + 1) % |Palette|;
      issued := issued + 1;
    }

    /** The start-up state: one open polyline in the first palette colour with the points (10,10) and (30,30). */
    constructor ()
      ensures Valid()
      ensures |lines| == 1 && fresh(lineBeingBuilt)
      ensures lineBeingBuilt.points == [Point(10, 10), Point(30, 30)]
      ensures lineBeingBuilt.color == Palette[0] && nextColorIndex == 1
    {
      lines := [];
      lineBeingBuilt := null;
      nextColorIndex := 0;
      issued := 0;
      new;
      var c := GetNextLineColor();
      var first := new Polyline(c);
      lines := lines + [first];
      lines[0].AddPoint(Point(10, 10));
      lines[0].AddPoint(Point(30, 30));
      lineBeingBuilt := lines[|lines| - 1];
    }

    /**
     * A left click at `cursor`: close the open shape if the cursor is within
     * the click radius of its first point and open a new empty polyline in
     * the next colour; otherwise add the cursor to the open shape.
     */
    method LeftClick(cursor: Point)
      requires Valid()
      modifies this, lineBeingBuilt
      ensures Valid()
      ensures old(CloseToStart(lineBeingBuilt.points, cursor, POINT_CLICK_RADIUS)) ==>
        && old(lineBeingBuilt).points == old(lineBeingBuilt.points) + [old(lineBeingBuilt.points)[0]]
        && lines == old(lines) + [lineBeingBuilt]
        && fresh(lineBeingBuilt) && lineBeingBuilt.points == []
        && lineBeingBuilt.color == Palette[old(nextColorIndex)]
        && nextColorIndex == (old(nextColorIndex) + 1) % |Palette|
      ensures !old(CloseToStart(lineBeingBuilt.points, cursor, POINT_CLICK_RADIUS)) ==>
        && lines == old(lines) && lineBeingBuilt == old(lineBeingBuilt)
        && lineBeingBuilt.points == old(lineBeingBuilt.points) + [cursor]
        && nextColorIndex == old(nextColorIndex)
      ensures forall i :: 0 <= i < |old(lines)| - 1 ==> lines[i].points == old(lines[i].points)
    {
      if lineBeingBuilt.IsCloseToFirstPoint(cursor, POINT_CLICK_RADIUS) {
        var outcome := lineBeingBuilt.Finish();
        // The open shape is close to the cursor, so it has a first point:
        // finishing it never raises its logic error.
        assert outcome == Pass;
        var c := GetNextLineColor();
        var next := new Polyline(c);
        lines := lines + [next];
        lineBeingBuilt := lines[|lines| - 1];
      } else {
        lineBeingBuilt.AddPoint(cursor);
      }
    }

    /**
     * A right click: discard every polyline and open a single new empty one
     * in the next colour; the palette cursor keeps cycling.
     */
    method RightClick()
      requires Valid()
      modifies this
      ensures Valid()
      ensures |lines| == 1 && lineBeingBuilt == lines[0]
      ensures fresh(lineBeingBuilt) && lineBeingBuilt.points == []
      ensures lineBeingBuilt.color == Palette[old(nextColorIndex)]
      ensures nextColorIndex == (old(nextColorIndex) + 1) % |Palette|
      ensures issued == old(issued) + 1
    {
      lines := [];
      var c := GetNextLineColor();
      var start := new Polyline(c);
      lines := lines + [start];
      lineBeingBuilt := lines[|lines| - 1];
    }

    /**
     * The frame's drawing: every polyline, then the preview segment from the
     * open shape to the cursor, then the highlight at the cursor when the
     * cursor is close to the open shape's first point.
     */
    method Render(cursor: Point) returns (cmds: seq<DrawCommand>)
      requires Valid()
      ensures cmds == ShapeCommands(lines)
                      + PreviewCommands(lineBeingBuilt.points, cursor, LightGray)
                      + HighlightCommands(lineBeingBuilt.points, cursor)
    {
      cmds := [];
      for i := 0 to |lines|
        invariant cmds == ShapeCommands(lines[..i])
      {
        var drawn := lines[i].Draw();
        assert lines[..i + 1][..i] == lines[..i];
        cmds := cmds + drawn;
      }
      assert lines[..|lines|] == lines;
      if lineBeingBuilt != null {
        cmds := cmds + lineBeingBuilt.DrawPreview(cursor, LightGray);
      }
      // Valid() keeps lineBeingBuilt non-null, so this dereference is safe.
      if lineBeingBuilt.IsCloseToFirstPoint(cursor, POINT_CLICK_RADIUS) {
        cmds := cmds + [Rect(cursor, POINT_CLICK_RADIUS, Yellow)];
      }
    }

    /**
     * The update part of one frame: the left-click step, then the
     * right-click step; both may fire in the same frame.
     */
    method Update(cursor: Point, leftPressed: bool, rightPressed: bool)
      requires Valid()
      modifies this, lineBeingBuilt
      ensures Valid()
      ensures !leftPressed && !rightPressed ==>
        && lines == old(lines) && lineBeingBuilt == old(lineBeingBuilt)
        && lineBeingBuilt.points == old(lineBeingBuilt.points)
        && nextColorIndex == old(nextColorIndex)
      ensures leftPressed && !rightPressed && old(CloseToStart(lineBeingBuilt.points, cursor, POINT_CLICK_RADIUS)) ==>
        && old(lineBeingBuilt).points == old(lineBeingBuilt.points) + [old(lineBeingBuilt.points)[0]]
        && lines == old(lines) + [lineBeingBuilt]
        && fresh(lineBeingBuilt) && lineBeingBuilt.points == []
        && lineBeingBuilt.color == Palette[old(nextColorIndex)]
        && nextColorIndex == (old(nextColorIndex) + 1) % |Palette|
      ensures leftPressed && !rightPressed && !old(CloseToStart(lineBeingBuilt.points, cursor, POINT_CLICK_RADIUS)) ==>
        && lines == old(lines) && lineBeingBuilt == old(lineBeingBuilt)
        && lineBeingBuilt.points == old(lineBeingBuilt.points) + [cursor]
        && nextColorIndex == old(nextColorIndex)
      ensures !rightPressed ==> forall i :: 0 <= i < |old(lines)| - 1 ==> lines[i].points == old(lines[i].points)
      ensures leftPressed && rightPressed ==>
        old(lineBeingBuilt).points == old(lineBeingBuilt.points)
          + (if old(CloseToStart(lineBeingBuilt.points, cursor, POINT_CLICK_RADIUS))
             then [old(lineBeingBuilt.points)[0]] else [cursor])
      ensures rightPressed ==>
        && |lines| == 1 && lineBeingBuilt == lines[0]
        && fresh(lineBeingBuilt) && lineBeingBuilt.points == []
        && var handedOut := if leftPressed && old(CloseToStart(lineBeingBuilt.points, cursor, POINT_CLICK_RADIUS)) then 2 else 1;
           && lineBeingBuilt.color == Palette[(old(nextColorIndex) + handedOut - 1) % |Palette|]
           && nextColorIndex == (old(nextColorIndex) + handedOut) % |Palette|
    {
      ghost var idx0 := nextColorIndex;
      ghost var closes := leftPressed && CloseToStart(lineBeingBuilt.points, cursor, POINT_CLICK_RADIUS);
      if lineBeingBuilt != null && leftPressed {
        LeftClick(cursor);
      }
      ghost var idx1 := nextColorIndex;
      assert idx1 == (idx0 + (if closes then 1 else 0)) % |Palette|;
      if rightPressed {
        RightClick();
        assert nextColorIndex == (idx1 + 1) % |Palette|;
        assert nextColorIndex == (idx0 + (if closes then 2 else 1)) % |Palette|;
      }
    }

    /** One frame: the update for this frame's clicks, then rendering of the new state. */
    method Frame(cursor: Point, leftPressed: bool, rightPressed: bool) returns (cmds: seq<DrawCommand>)
      requires Valid()
      modifies this, lineBeingBuilt
      ensures Valid()
      ensures cmds == ShapeCommands(lines)
                      + PreviewCommands(lineBeingBuilt.points, cursor, LightGray)
                      + HighlightCommands(lineBeingBuilt.points, cursor)
    {
      Update(cursor, leftPressed, rightPressed);
      cmds := Render(cursor);
    }
  }

  /** Start-up, then a click on the first seed point: the seed closes and a second, empty line opens. */
  method ScenarioCloseSeed() {
    var s := new Session();
    var seed := s.lineBeingBuilt;
    s.LeftClick(Point(10, 10));
    assert seed.points == [Point(10, 10), Point(30, 30), Point(10, 10)];
    assert |s.lines| == 2 && s.lineBeingBuilt.points == [];
    assert s.lineBeingBuilt.color == Palette[1];
  }

  /**
   * Start-up, then one frame with both buttons pressed on the first seed
   * point: the seed closes, the line opened for it is discarded at once with
   * the rest, and the remaining line takes the third palette colour.
   */
  method ScenarioCloseAndReset() {
    var s := new Session();
    var seed := s.lineBeingBuilt;
    s.Update(Point(10, 10), true, true);
    var cmds := s.Render(Point(10, 10));
    assert seed.points == [Point(10, 10), Point(30, 30), Point(10, 10)];
    assert |s.lines| == 1 && s.lineBeingBuilt.points == [];
    assert s.lineBeingBuilt.color == Palette[2] && s.nextColorIndex == 3;
    assert cmds == [];
  }

  /** After a right click, three clicks of which the last is far from the first: nothing closes. */
  method ScenarioOpenShape() {
    var s := new Session();
    s.RightClick();
    s.LeftClick(Point(100, 100));
    s.LeftClick(Point(200, 50));
    s.LeftClick(Point(300, 300));
    assert s.lineBeingBuilt.points == [Point(100, 100), Point(200, 50), Point(300, 300)];
    assert |s.lines| == 1;
  }
}
