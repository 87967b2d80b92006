/*
 * A polyline: an ordered, append-only sequence of screen points drawn in one
 * fixed colour, which can be closed by repeating its first point.
 *
 * Points are integer pairs (the program only ever stores mouse coordinates,
 * which are integers converted to float). Drawing is modelled as the list of
 * primitive draw commands the polyline would issue, in issue order.
 */
module Polylines {

  datatype Point = Point(x: int, y: int)

  /** The named colours the program uses; their RGBA values are not modelled. */
  datatype Color = Red | Green | Blue | Pink | Orange | LightGray | Yellow

  /** A draw primitive: a filled square of side `size` centred on `center`, or a segment. */
  datatype DrawCommand =
    | Rect(center: Point, size: int, color: Color)
    | Line(from: Point, to: Point, color: Color)

  /** The result of an operation that may fail with a logic error. */
  datatype Outcome = Pass | LogicError(message: string)

  /** Side of the square marker drawn on every point of a polyline. */
  const POINT_WIDTH: int := 5

  const FINISH_EMPTY_MESSAGE: string := "Cannot finish a polyline with no points."

  function SquaredDistance(a: Point, b: Point): (r: int)
    ensures r >= 0
    ensures r == 0 <==> a == b
  {
    (a.x - b.x) * (a.x - b.x) + (a.y - b.y) * (a.y - b.y)
  }

  /** Whether the Euclidean distance from `a` to `b` is at most `d`, computed without square roots. */
  predicate WithinDistance(a: Point, b: Point, d: int)
  {
    0 <= d && SquaredDistance(a, b) <= d * d
  }

  /** Whether `p` lies within distance `d` of the first point of `pts`; never on an empty line. */
  predicate CloseToStart(pts: seq<Point>, p: Point, d: int)
  {
    |pts| > 0 && WithinDistance(pts[0], p, d)
  }

  /**
   * The commands drawing the points `pts` in colour `c`: for every point in
   * order a marker, and after every point but the first a segment from the
   * previous point to it.
   */
  function DrawCommands(pts: seq<Point>, c: Color): (r: seq<DrawCommand>)
    ensures |r| == if |pts| == 0 then 0 else 2 * |pts| - 1
    ensures forall k :: 0 <= k < |r| ==> r[k].color == c
    ensures forall k :: 0 <= k < |r| && r[k].Rect? ==> r[k].size == POINT_WIDTH
  {
    if |pts| == 0 then []
    else
      var last := pts[|pts| - 1];
      DrawCommands(pts[..|pts| - 1], c)
        + [Rect(last, POINT_WIDTH, c)]
        + (if |pts| == 1 then [] else [Line(pts[|pts| - 2], last, c)])
  }

  /** The preview segment from the last point of `pts` to `q`, in colour `c`; nothing on an empty line. */
  function PreviewCommands(pts: seq<Point>, q: Point, c: Color): seq<DrawCommand>
  {
    if |pts| == 0 then [] else [Line(pts[|pts| - 1], q, c)]
  }

  /** The marker commands of `cmds`, in order. */
  function Markers(cmds: seq<DrawCommand>): seq<DrawCommand>
  {
    if cmds == [] then []
    else (if cmds[0].Rect? then [cmds[0]] else []) + Markers(cmds[1..])
  }

  /** The segment commands of `cmds`, in order. */
  function Segments(cmds: seq<DrawCommand>): seq<DrawCommand>
  {
    if cmds == [] then []
    else (if cmds[0].Line? then [cmds[0]] else []) + Segments(cmds[1..])
  }

  lemma {:induction false} MarkersAppend(a: seq<DrawCommand>, b: seq<DrawCommand>)
    ensures Markers(a + b) == Markers(a) + Markers(b)
  {
    if a != [] {
      assert (a + b)[1..] == a[1..] + b;
      MarkersAppend(a[1..], b);
    } else {
      assert a + b == b;
    }
  }

  lemma {:induction false} SegmentsAppend(a: seq<DrawCommand>, b: seq<DrawCommand>)
    ensures Segments(a + b) == Segments(a) + Segments(b)
  {
    if a != [] {
      assert (a + b)[1..] == a[1..] + b;
      SegmentsAppend(a[1..], b);
    } else {
      assert a + b == b;
    }
  }

  /** Drawing N points issues exactly N markers, the i-th centred on point i, in order. */
  lemma {:induction false} DrawMarkersInOrder(pts: seq<Point>, c: Color)
    ensures |Markers(DrawCommands(pts, c))| == |pts|
    ensures forall i :: 0 <= i < |pts| ==> Markers(DrawCommands(pts, c))[i] == Rect(pts[i], POINT_WIDTH, c)
  {
    if |pts| > 0 {
      var n := |pts|;
      var pre := pts[..n - 1];
      var tail: seq<DrawCommand> := if n == 1 then [] else [Line(pts[n - 2], pts[n - 1], c)];
      DrawMarkersInOrder(pre, c);
      MarkersAppend(DrawCommands(pre, c) + [Rect(pts[n - 1], POINT_WIDTH, c)], tail);
      MarkersAppend(DrawCommands(pre, c), [Rect(pts[n - 1], POINT_WIDTH, c)]);
      assert Markers(tail) == [] by {
        if n > 1 { assert tail[1..] == []; }
      }
      assert [Rect(pts[n - 1], POINT_WIDTH, c)][1..] == [];
      assert Markers(DrawCommands(pts, c))
             == Markers(DrawCommands(pre, c)) + [Rect(pts[n - 1], POINT_WIDTH, c)];
      forall i | 0 <= i < n - 1 ensures pre[i] == pts[i] { }
    }
  }

  /**
   * Drawing N points issues exactly max(N-1, 0) segments; the one issued
   * i-th (from 1) joins point i-1 to point i.
   */
  lemma {:induction false} DrawSegmentsInOrder(pts: seq<Point>, c: Color)
    ensures |Segments(DrawCommands(pts, c))| == if |pts| == 0 then 0 else |pts| - 1
    ensures forall i :: 1 <= i < |pts| ==> Segments(DrawCommands(pts, c))[i - 1] == Line(pts[i - 1], pts[i], c)
  {
    if |pts| > 0 {
      var n := |pts|;
      var pre := pts[..n - 1];
      var marker := [Rect(pts[n - 1], POINT_WIDTH, c)];
      var tail: seq<DrawCommand> := if n == 1 then [] else [Line(pts[n - 2], pts[n - 1], c)];
      DrawSegmentsInOrder(pre, c);
      SegmentsAppend(DrawCommands(pre, c) + marker, tail);
      SegmentsAppend(DrawCommands(pre, c), marker);
      assert marker[1..] == [];
      assert Segments(marker) == [];
      assert Segments(tail) == tail by {
        if n > 1 { assert tail[1..] == []; }
      }
      assert Segments(DrawCommands(pts, c)) == Segments(DrawCommands(pre, c)) + tail;
      forall i | 0 <= i < n - 1 ensures pre[i] == pts[i] { }
    }
  }

  /**
   * The preview to `q` is exactly the segment that committing `q` adds:
   * drawing the line extended by `q` is the old drawing, `q`'s marker and
   * the preview segment (taken in the line's own colour).
   */
  lemma DrawAfterAppend(pts: seq<Point>, q: Point, c: Color)
    ensures DrawCommands(pts + [q], c)
            == DrawCommands(pts, c) + [Rect(q, POINT_WIDTH, c)] + PreviewCommands(pts, q, c)
  {
  }

  /** Squaring is monotone on non-negative reals; used to compare distances through their squares. */
  lemma SquareMonotone(a: real, b: real)
    requires 0.0 <= a <= b
    ensures a * a <= b * b
  {
  }

  lemma SquareStrictlyMonotone(a: real, b: real)
    requires 0.0 <= a < b
    ensures a * a < b * b
  {
    var ab := a * b;
    assert a * a <= ab;
    assert (b - a) * b > 0.0;
    assert ab < b * b;
  }

  lemma SquareCast(d: int)
    ensures (d * d) as real == (d as real) * (d as real)
  {
  }

  /**
   * The integer test agrees with the Euclidean one: for the true distance
   * `dist` from the first point to `p`, the line is close to `p` exactly when
   * `dist <= d`, the case `dist == d` included.
   */
  lemma CloseIffWithinEuclideanDistance(pts: seq<Point>, p: Point, d: int, dist: real)
    requires |pts| > 0
    requires 0.0 <= dist && dist * dist == SquaredDistance(pts[0], p) as real
    ensures CloseToStart(pts, p, d) <==> dist <= d as real
  {
    var sq := SquaredDistance(pts[0], p);
    var dr := d as real;
    assert CloseToStart(pts, p, d) <==> 0 <= d && sq <= d * d;
    if d >= 0 {
      SquareCast(d);
      if dist <= dr {
        SquareMonotone(dist, dr);
        assert sq as real <= (d * d) as real;
      } else {
        SquareStrictlyMonotone(dr, dist);
        assert (d * d) as real < sq as real;
      }
    }
  }

  /** A closed outline: at least two points and the last repeats the first. */
  predicate IsClosedShape(pts: seq<Point>)
  {
    |pts| >= 2 && pts[|pts| - 1] == pts[0]
  }

  class Polyline {
    /** The points in insertion order. */
    var points: seq<Point>
    /** Chosen when the polyline is created and never changed. */
    const color: Color

    /** An empty polyline drawn in `color`. */
    constructor (color: Color)
      ensures points == [] && this.color == color
    {
      this.color := color;
      points := [];
    }

    /** Appends `position` as the new last point. */
    method AddPoint(position: Point)
      modifies this
      ensures points == old(points) + [position]
    {
      points := points + [position];
    }

    /**
     * Closes the outline by appending a copy of the first point; a line with
     * no points is a logic error and is left unchanged.
     */
    method Finish() returns (r: Outcome)
      modifies this
      ensures old(points) == [] ==> r == LogicError(FINISH_EMPTY_MESSAGE) && points == old(points)
      ensures old(points) != [] ==> r == Pass && points == old(points) + [old(points)[0]]
      ensures old(points) != [] ==> IsClosedShape(points)
    {
      if |points| == 0 {
        return LogicError(FINISH_EMPTY_MESSAGE);
      }
      AddPoint(points[0]);
      r := Pass;
    }

    /** Whether `point` is within `targetDistance` of the first point; false on an empty line. */
    predicate IsCloseToFirstPoint(point: Point, targetDistance: int)
      reads this
      ensures IsCloseToFirstPoint(point, targetDistance) ==> points != []
    {
      CloseToStart(points, point, targetDistance)
    }

    /** Issues a marker per point and a segment between each pair of neighbours. */
    method Draw() returns (cmds: seq<DrawCommand>)
      ensures cmds == DrawCommands(points, color)
    {
      cmds := [];
      for i := 0 to |points|
        invariant cmds == DrawCommands(points[..i], color)
      {
        var cur := points[i];
        assert points[..i + 1][..i] == points[..i];
        cmds := cmds + [Rect(cur, POINT_WIDTH, color)];
        if i != 0 {
          cmds := cmds + [Line(points[i - 1], cur, color)];
        }
      }
      assert points[..|points|] == points;
    }

    /** The segment from the last point to `point` in `previewColor`; nothing on an empty line. */
    function DrawPreview(point: Point, previewColor: Color): (r: seq<DrawCommand>)
      reads this
      ensures points == [] ==> r == []
      ensures points != [] ==> r == [Line(points[|points| - 1], point, previewColor)]
    {
      PreviewCommands(points, point, previewColor)
    }
  }
}
