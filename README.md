# Polylines: a verified model of the drawing session

The program is a small interactive drawing tool. Each left click adds a
vertex to the open polyline. A click within 6 pixels of the open polyline's
first point closes it instead, and a new polyline in the next palette colour
opens. A right click throws every polyline away and starts one fresh polyline.
Every frame draws all polylines, a preview segment from the open polyline to
the cursor, and a yellow highlight when the cursor is close enough to close.

The model has two modules:

- `Polylines` (`polyline.dfy`): points (integer pairs), colours (the named
  colours the program uses), draw commands (`Rect`, `Line`), the pure
  specification functions (`CloseToStart`, `DrawCommands`,
  `PreviewCommands`) with their lemmas, and the class `Polyline`, whose
  `points` field its methods update in place.
- `App` (`app.dfy`): the palette and its cursor arithmetic, and the class
  `Session`. It holds the program's globals: the list of polylines, the
  polyline being built and the palette cursor. Its methods are the
  start-up code, the left-click step, the right-click step, the update of
  one frame (both steps in order), rendering and a whole frame. `Session.Valid()` is the session invariant:
  - the list is never empty;
  - the polyline being built is its last element, so never null;
  - the palette cursor is in range and equals the cursor after `issued`
    colours were handed out;
  - the polylines are distinct objects;
  - every polyline except the open one is closed (at least two points, the
    last equal to the first).

Drawing is modelled as the list of commands issued, in order. Mouse input
is passed in as parameters, as is the cursor position.

Distance: mouse coordinates are integers, so points are integer pairs. The
click radius is the integer 6. "Distance at most d" is decided as "squared
distance at most d·d, and d ≥ 0". `CloseIffWithinEuclideanDistance` proves
this is the same as comparing the true Euclidean distance with `d`, boundary
included. For integer coordinates of screen size, the program's
single-precision computation gives the same answer: the squares are exact,
and a correctly rounded square root of an integer compares with the integer
6 exactly as the real root does.

In three places the model makes a choice the code forces or leaves open:

- `AddPoint`: the model implements the documented intent (append the
  point, as the comment at `src/main.cpp:36-39` and its use in `Finish`
  describe), not the empty `TODO` stub at `src/main.cpp:84-87`.
- A polyline with a single point closes when clicked near that point. It
  then becomes a two-point outline of one repeated point. There is no
  minimum-size threshold.
- One frame can run both a left-click step and a right-click step, left
  first. A closing left click followed by a right click hands out two
  colours in that frame; the first belongs to a line that is discarded at
  once.

`ScenarioCloseSeed`, `ScenarioCloseAndReset` and `ScenarioOpenShape` in
`app.dfy` are client methods. They show that the contracts alone determine
three click sequences: closing the seed shape, closing it and resetting in
the same frame, and three clicks that do not close.

## Model

| member | source | states |
|---|---|---|
| `Polylines.SquaredDistance` | src/main.cpp:135 | squared distance is non-negative, and zero exactly when the two points coincide |
| `Polylines.CloseIffWithinEuclideanDistance` | src/main.cpp:129-137 | on a non-empty line, the closeness test holds exactly when the Euclidean distance from point 0 is at most the target distance, the boundary included |
| `Polylines.Polyline.IsCloseToFirstPoint` | src/main.cpp:129-137 | the test is false on an empty line: a true answer implies there is a first point |
| `Polylines.Polyline.constructor` | src/main.cpp:72-77 | a new polyline has no points and the given colour (a `const`, never changed afterwards) |
| `Polylines.Polyline.AddPoint` | src/main.cpp:36-39 | the point list becomes the old list followed by the new point; the colour is a constant field and is untouched |
| `Polylines.Polyline.Finish` | src/main.cpp:121-127 | on an empty line it returns the logic error and changes nothing; otherwise it returns success and appends exactly one copy of point 0, leaving a closed outline |
| `Polylines.DrawCommands` | src/main.cpp:89-108 | drawing N points issues 2N−1 commands (none for N = 0), every one in the line's colour, every marker of side 5 |
| `Polylines.Polyline.Draw` | src/main.cpp:89-108 | the loop issues exactly `DrawCommands(points, color)` |
| `Polylines.DrawMarkersInOrder` | src/main.cpp:94-98 | drawing N points issues exactly N markers, the i-th centred on point i |
| `Polylines.DrawSegmentsInOrder` | src/main.cpp:100-106 | drawing N points issues exactly max(N−1, 0) segments, the i-th joining point i−1 to point i |
| `Polylines.Polyline.DrawPreview` | src/main.cpp:110-119 | the result is empty when the line has no points, and otherwise is exactly one segment from the last point to the given point in the preview colour |
| `Polylines.DrawAfterAppend` | src/main.cpp:84-119 | the drawing after appending q is the old drawing, q's marker and the preview segment to q: the preview shows what committing the point adds |
| `App.Advance` | src/main.cpp:159 | the palette cursor stays in range and steps to the next entry, wrapping from the last entry to 0 |
| `App.IndexAfter` | src/main.cpp:143-161 | after any number of colours handed out, the cursor is a valid palette index |
| `App.IndexAfterIsRemainder` | src/main.cpp:156-161 | after k colours the cursor is k modulo the palette size |
| `App.ColorsRepeat` | src/main.cpp:143-161 | the k-th and (k + palette size)-th created polylines get the same colour |
| `App.Session.GetNextLineColor` | src/main.cpp:156-161 | returns the palette entry at the cursor and advances the cursor by one modulo the palette size |
| `App.Session.constructor` | src/main.cpp:182-185 | start-up yields one open polyline with points (10,10) and (30,30) in palette colour 0, cursor 1, and the session invariant |
| `App.Session.LeftClick` | src/main.cpp:200-213 | when close, the open line gains a copy of its first point (Finish never fails there) and a fresh empty line in the next colour is appended and becomes the open one; otherwise only the open line changes, gaining the cursor point; earlier lines are untouched; the invariant is kept |
| `App.Session.RightClick` | src/main.cpp:216-228 | the list becomes exactly one fresh empty line, which is the open one, in the next palette colour; the cursor is not reset; the invariant is kept |
| `App.Session.Render` | src/main.cpp:237-249 | the frame draws every polyline in order, then the preview from the open line to the cursor, then the highlight exactly when the cursor is close to the open line's first point; the dereference of the open line is safe under the invariant |
| `App.Session.Update` | src/main.cpp:199-228 | the left-click step runs first, then the right-click step: with no click nothing changes; a left click alone closes or extends the open line exactly as `LeftClick` states, earlier lines untouched; with a right click the list is one fresh empty open line, coloured by the palette entry after one (or, after a closing left click, two) colours were handed out this frame, and the cursor advances by that many; the invariant is kept |
| `App.Session.Frame` | src/main.cpp:193-249 | a frame applies `Update` and then draws the new state as `Render` states, keeping the invariant |

## Left out

- Window and frame lifecycle (`SetConfigFlags`, `InitWindow`, `SetTargetFPS`, `WindowShouldClose`, `BeginDrawing`, `ClearBackground`, `EndDrawing`, `CloseWindow`): raylib I/O plumbing. The main loop is modelled one frame at a time by `Session.Frame`.
- Input polling (`GetMouseX`, `GetMouseY`, `IsMouseButtonPressed`): these become the parameters of `Session.Frame`.
- Concrete raylib drawing and colour values: commands are abstract, and a marker is given by its centre and side. The float-to-int offset arithmetic that turns a centre into a rectangle corner is not modelled.
- Floating point: `Vector2Distance` and the redundant `abs` are replaced by exact integer arithmetic, as argued above. A non-integer target distance is not modelled.
- `Polylines.Polyline.AddPoint`: modelled as the intended append; the source's stub at `src/main.cpp:84-87` does nothing, so the program as written never stores a point.
- `App.Session.Frame`: its contract gives the drawing of the new state only; the new state itself is stated by `Update`, which `Frame` calls.
- Manual memory management: the raw point array and count, `new`/`delete`, the deletion loop on right click and the unimplemented destructor. Points are a `seq`. The discarded polylines are simply dropped from the list.
