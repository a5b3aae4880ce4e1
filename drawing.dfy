/**
 * The stream decoder and clipper of byte_drawer/drawer.py, as functions of an explicit
 * session state. Each function is the effect of one piece of `Drawer`: the tokenizer,
 * the four command handlers, the per-point clipping state machine, the edge-point
 * computation and the main dispatch loop. The class in drawer.dfy runs the same steps
 * imperatively and is proved to agree with these functions.
 */
module Drawing {
  import opened Failures
  import opened Coders
  import opened Geometry
  import opened Commands

  /** `Drawer.default_canvas`: the full range of the codec on both axes. */
  const DefaultCanvas: Canvas := NewCanvas(-8192, 8191, -8192, 8191, None)

  // ---------------------------------------------------------------------------
  // Tokens
  // ---------------------------------------------------------------------------

  /** `_get_op_codes`: successive two-character slices; an odd last character is a token of its own. */
  function Tokens(s: string): seq<string>
    decreases |s|
  {
    if s == [] then []
    else
      var n := if |s| < 2 then |s| else 2;
      [s[..n]] + Tokens(s[n..])
  }

  function Concat(tokens: seq<string>): string
    decreases |tokens|
  {
    if tokens == [] then [] else tokens[0] + Concat(tokens[1..])
  }

  /**
   * The tokens partition the input: their concatenation is the input, every token has
   * two characters except that an odd-length input ends with a one-character token.
   */
  lemma {:induction false} TokensPartition(s: string)
    ensures Concat(Tokens(s)) == s
    ensures |Tokens(s)| == (|s| + 1) / 2
    ensures forall i :: 0 <= i < |Tokens(s)| ==> |Tokens(s)[i]| == (if 2 * i + 1 == |s| then 1 else 2)
    decreases |s|
  {
    if s != [] {
      var n := if |s| < 2 then |s| else 2;
      TokensPartition(s[n..]);
      var t := Tokens(s);
      assert t == [s[..n]] + Tokens(s[n..]);
      assert t[1..] == Tokens(s[n..]);
      assert s == s[..n] + s[n..];
      forall i | 0 <= i < |t|
        ensures |t[i]| == (if 2 * i + 1 == |s| then 1 else 2)
      {
        if i > 0 {
          assert t[i] == Tokens(s[n..])[i - 1];
        }
      }
    }
  }

  /** Conversely, a stream written as two-character tokens splits back into those tokens. */
  lemma {:induction false} TokensOfConcat(tokens: seq<string>)
    requires forall i :: 0 <= i < |tokens| ==> |tokens[i]| == 2
    ensures Tokens(Concat(tokens)) == tokens
    decreases |tokens|
  {
    if tokens != [] {
      var s := Concat(tokens);
      TokensOfConcat(tokens[1..]);
      assert s == tokens[0] + Concat(tokens[1..]);
      assert s[..2] == tokens[0];
      assert s[2..] == Concat(tokens[1..]);
    }
  }

  /** The three op codes that end a move's coordinate run. */
  predicate IsCommandOp(token: string) {
    token == "F0" || token == "A0" || token == "80"
  }

  // ---------------------------------------------------------------------------
  // Session state
  // ---------------------------------------------------------------------------

  /**
   * The fields of a `Drawer` that its handlers read and write. `penUpPoints` can hold
   * `None`: a pen-up command before any position records the absent point.
   * `currentColor` is the list a clear command stores and nothing reads.
   */
  datatype State = State(
    commands: seq<Command>,
    lines: seq<Line>,
    penDownPoints: seq<Point>,
    penUpPoints: seq<Option<Point>>,
    current: Option<Point>,
    penDown: bool,
    outOfBounds: bool,
    wasDrawing: bool,
    color: Color,
    currentColor: seq<int>)

  /** The canvas a drawer uses: the one given, or the default canvas. */
  function ChosenCanvas(canvas: Option<Canvas>): Canvas {
    if canvas.Some? then canvas.value else DefaultCanvas
  }

  /**
   * `Drawer.__init__`: empty lists, no position, pen up, in bounds, the canvas default
   * colour; with the default canvas the four border lines come first in the line list.
   */
  function InitialState(canvas: Option<Canvas>): (st: State)
    ensures st.commands == [] && st.penDownPoints == [] && st.penUpPoints == []
    ensures st.current.None? && !st.penDown && !st.outOfBounds && !st.wasDrawing
    ensures st.color == ChosenCanvas(canvas).defaultColor
    ensures canvas.Some? ==> st.lines == []
    ensures canvas.None? ==> st.lines == DefaultCanvas.Borders() && |st.lines| == 4
  {
    State([], if canvas.Some? then [] else DefaultCanvas.Borders(), [], [], None,
          false, false, false, ChosenCanvas(canvas).defaultColor, [])
  }

  // ---------------------------------------------------------------------------
  // Geometry of a crossing
  // ---------------------------------------------------------------------------

  /** `_out_of_bounds`: not strictly inside the canvas. */
  predicate OutOfBounds(c: Canvas, p: Point) {
    !c.ContainsPoint(p)
  }

  /** Python's `int()` of a number: truncation toward zero. */
  function Trunc(r: real): int {
    if r >= 0.0 then r.Floor else -((-r).Floor)
  }

  /** `Trunc` moves a number toward zero by less than one. */
  lemma TruncTowardZero(r: real)
    ensures r >= 0.0 ==> Trunc(r) as real <= r < Trunc(r) as real + 1.0
    ensures r < 0.0 ==> Trunc(r) as real - 1.0 < r <= Trunc(r) as real
  {
  }

  /** Slope of the line through two points with different x. */
  function Slope(inner: Point, outer: Point): real
    requires outer.x != inner.x
  {
    (outer.y - inner.y) as real / (outer.x - inner.x) as real
  }

  /** Intercept of that line with the y axis: `b = inner.y - slope * inner.x`. */
  function Intercept(inner: Point, outer: Point): real
    requires outer.x != inner.x
  {
    inner.y as real - Slope(inner, outer) * inner.x as real
  }

  /**
   * `_build_edge_point`, in exact rational arithmetic. The cases are tried in the order
   * of the source: right edge (A), bottom edge (B), left edge (C, which writes `minY`
   * as the x coordinate), then the corners (E, F, G, H) only when the intercept is zero.
   * The source's top-edge case (D) repeats B's condition, so it can never be taken and
   * is left out here. A vertical segment divides by zero before any case is tried.
   */
  function EdgePoint(c: Canvas, inner: Point, outer: Point): (r: Result<Point>)
    ensures r == Err(ZeroDivisionError) <==> outer.x == inner.x
    ensures r.Err? ==> r.error == ZeroDivisionError || r.error == RuntimeError
  {
    if outer.x == inner.x then Err(ZeroDivisionError)
    else
      var slope := Slope(inner, outer);
      var b := Intercept(inner, outer);
      if outer.x > c.maxX && outer.y > c.minY && outer.y < c.maxY then
        Ok(Point(c.maxX, Trunc(slope * c.maxX as real + b)))
      else if outer.y < c.minY && outer.x > c.minX && outer.x < c.maxX then
        var x := if slope == 0.0 then c.minY as real - b else (c.minY as real - b) / slope;
        Ok(Point(Trunc(x), c.minY))
      else if outer.x < c.minX && outer.y > c.minY && outer.y < c.maxY then
        Ok(Point(c.minY, Trunc(slope * c.minX as real + b)))
      else if b == 0.0 then
        if outer.x > inner.x && outer.y > inner.y then Ok(Point(c.maxX, c.maxY))
        else if outer.x > inner.x && outer.y < inner.y then Ok(Point(c.maxX, c.minY))
        else if outer.x < inner.x && outer.y < inner.y then Ok(Point(c.minX, c.minY))
        else if outer.x < inner.x && outer.y > inner.y then Ok(Point(c.minX, c.maxY))
        else Err(RuntimeError)
      else Err(RuntimeError)
  }

  // ---------------------------------------------------------------------------
  // Command handlers
  // ---------------------------------------------------------------------------

  /**
   * `_handle_clear_command`: emit a clear, store the unused colour list, move to the
   * canvas centre and lift the pen. The drawing colour and the out-of-bounds flags are
   * left as they are.
   */
  function ClearStep(c: Canvas, st: State): (st': State)
    ensures st'.commands == st.commands + [Clear]
    ensures st'.current == Some(Point(0, 0)) && !st'.penDown
    ensures st'.color == st.color && st'.outOfBounds == st.outOfBounds && st'.wasDrawing == st.wasDrawing
    ensures st'.lines == st.lines && st'.penDownPoints == st.penDownPoints && st'.penUpPoints == st.penUpPoints
  {
    st.(commands := st.commands + [Clear], currentColor := [0, 0, 0, 225],
        current := Some(c.Center()), penDown := false)
  }

  /** `_handle_color_command`: the eight tokens after the op code are four byte pairs. */
  function ColorStep(tokens: seq<string>, ptr: nat, st: State): (r: Result<State>)
    ensures ptr + 8 >= |tokens| ==> r == Err(IndexError)
    ensures r.Err? ==> r.error == IndexError || r.error == ValueError
    ensures ptr + 8 < |tokens| ==>
      var command := ColorCommand((tokens[ptr + 1], tokens[ptr + 2]), (tokens[ptr + 3], tokens[ptr + 4]),
                                  (tokens[ptr + 5], tokens[ptr + 6]), (tokens[ptr + 7], tokens[ptr + 8]));
      && (r.Ok? <==> command.Ok?)
      && (command.Err? ==> r == Err(ValueError))
      && (r.Ok? ==> SetColor(r.value.color) == command.value)
    ensures r.Ok? ==> ptr + 9 <= |tokens| && |r.value.commands| == |st.commands| + 1
                      && r.value.commands[..|st.commands|] == st.commands
                      && r.value.commands[|st.commands|] == SetColor(r.value.color)
                      && r.value == st.(commands := r.value.commands, color := r.value.color)
  {
    if ptr + 8 >= |tokens| then Err(IndexError)
    else
      var command :- ColorCommand((tokens[ptr + 1], tokens[ptr + 2]), (tokens[ptr + 3], tokens[ptr + 4]),
                                  (tokens[ptr + 5], tokens[ptr + 6]), (tokens[ptr + 7], tokens[ptr + 8]));
      Ok(st.(color := command.color, commands := st.commands + [command]))
  }

  /**
   * `_handle_pen_command`: decode the pair into a pen command, then apply it.
   */
  function PenStep(tokens: seq<string>, ptr: nat, st: State): (r: Result<State>)
    ensures ptr + 2 >= |tokens| ==> r == Err(IndexError)
    ensures r.Ok? ==> ptr + 3 <= |tokens|
    ensures ptr + 2 < |tokens| ==>
      var command := PenCommand((tokens[ptr + 1], tokens[ptr + 2]));
      && (command.Err? ==> r == Err(ValueError))
      && (command.Ok? ==> r == SetPen(st, command.value.isDown))
  {
    if ptr + 2 >= |tokens| then Err(IndexError)
    else
      var command :- PenCommand((tokens[ptr + 1], tokens[ptr + 2]));
      SetPen(st, command.isDown)
  }

  /**
   * The checks and updates of `_handle_pen_command` once the pen command is decoded: a
   * pen-down request fails while out of bounds or before any position exists; otherwise
   * the command is appended and the current point recorded in the pen-down or pen-up list.
   */
  function SetPen(st: State, isDown: bool): (r: Result<State>)
    ensures r.Err? <==> isDown && (st.outOfBounds || st.current.None?)
    ensures r.Err? ==> r.error == ValueError
    ensures r.Ok? ==> r.value.commands == st.commands + [Pen(isDown)] && r.value.penDown == isDown
    ensures r.Ok? && isDown ==> r.value.penDownPoints == st.penDownPoints + [st.current.value]
                                && r.value.penUpPoints == st.penUpPoints
    ensures r.Ok? && !isDown ==> r.value.penUpPoints == st.penUpPoints + [st.current]
                                 && r.value.penDownPoints == st.penDownPoints
    ensures r.Ok? ==> r.value == st.(commands := r.value.commands, penDown := isDown,
                                     penDownPoints := r.value.penDownPoints, penUpPoints := r.value.penUpPoints)
  {
    if st.outOfBounds && isDown then Err(ValueError)
    else if st.current.None? && isDown then Err(ValueError)
    else
      Ok(st.(commands := st.commands + [Pen(isDown)],
             penDown := isDown,
             penDownPoints := if isDown then st.penDownPoints + [st.current.value] else st.penDownPoints,
             penUpPoints := if isDown then st.penUpPoints else st.penUpPoints + [st.current]))
  }

  /** The offset coded by the four tokens after position `mp`: (dx, dy). */
  function OffsetAt(tokens: seq<string>, mp: nat): Result<(int, int)>
    requires mp + 4 < |tokens|
  {
    var dx :- DecodeBytes((tokens[mp + 1], tokens[mp + 2]));
    var dy :- DecodeBytes((tokens[mp + 3], tokens[mp + 4]));
    Ok((dx, dy))
  }

  /**
   * The coordinate loop of `_handle_move_command`, from move pointer `mp` with running
   * position `cur`, after collecting the points `collected`. It stops before an F0, A0
   * or 80 token, after the point that uses the last four tokens, and right after a
   * point equal to (0, 0).
   */
  function MovePoints(tokens: seq<string>, mp: nat, cur: Option<Point>, collected: seq<Point>): Result<seq<Point>>
    requires mp + 1 < |tokens|
    decreases |tokens| - mp, 1
  {
    if IsCommandOp(tokens[mp + 1]) then Ok(collected)
    else if mp + 4 >= |tokens| then Err(IndexError)
    else MovePointsFrom(tokens, mp, cur, collected, OffsetAt(tokens, mp))
  }

  /** The rest of one pass of the coordinate loop, once the group's offset is decoded. */
  function MovePointsFrom(tokens: seq<string>, mp: nat, cur: Option<Point>, collected: seq<Point>,
                          offset: Result<(int, int)>): Result<seq<Point>>
    requires mp + 4 < |tokens|
    decreases |tokens| - mp, 0
  {
    var offset :- offset;
    if cur.None? then Err(AttributeError)
    else
      var p := Point(offset.0 + cur.value.x, offset.1 + cur.value.y);
      if mp + 5 == |tokens| || (p.x == 0 && p.y == 0) then Ok(collected + [p])
      else MovePoints(tokens, mp + 4, Some(p), collected + [p])
  }

  /**
   * The points the coordinate loop collects extend `collected`, and each uses four
   * tokens of the stream.
   */
  lemma {:induction false} MovePointsBound(tokens: seq<string>, mp: nat, cur: Option<Point>, collected: seq<Point>)
    requires mp + 1 < |tokens|
    ensures var r := MovePoints(tokens, mp, cur, collected);
      r.Ok? ==> |collected| <= |r.value| && r.value[..|collected|] == collected
                && mp + 4 * (|r.value| - |collected|) + 1 <= |tokens|
    decreases |tokens| - mp
  {
    if !IsCommandOp(tokens[mp + 1]) && mp + 4 < |tokens| && OffsetAt(tokens, mp).Ok? && cur.Some? {
      var offset := OffsetAt(tokens, mp).value;
      var p := Point(offset.0 + cur.value.x, offset.1 + cur.value.y);
      if !(mp + 5 == |tokens| || (p.x == 0 && p.y == 0)) {
        MovePointsBound(tokens, mp + 4, Some(p), collected + [p]);
        var r := MovePoints(tokens, mp + 4, Some(p), collected + [p]);
        if r.Ok? {
          assert r.value[..|collected|] == (r.value[..|collected| + 1])[..|collected|];
        }
      }
    }
  }

  /**
   * One iteration of `_build_move_command`'s loop: the state and the accumulated move
   * points after considering `next`.
   */
  function ClipPoint(c: Canvas, st: State, valid: seq<Point>, next: Point): Result<(State, seq<Point>)>
  {
    if st.penDown then
      if st.current.None? then Err(AttributeError)
      else
        var cur := st.current.value;
        if !OutOfBounds(c, cur) && OutOfBounds(c, next) then
          // leaving the canvas: finish the move at the edge and lift the pen
          var edge :- EdgePoint(c, cur, next);
          Ok((st.(commands := st.commands + [Move(valid + [edge]), Pen(false)],
                  penDown := false,
                  lines := st.lines + [Line(cur, edge, st.color)],
                  penUpPoints := st.penUpPoints + [Some(edge)],
                  outOfBounds := true,
                  wasDrawing := true,
                  current := Some(next)),
              []))
        else if !OutOfBounds(c, cur) && !OutOfBounds(c, next) then
          Ok((st.(lines := st.lines + [Line(cur, next, st.color)], current := Some(next)), valid + [next]))
        else
          Ok((st, valid))
    else if st.outOfBounds then
      if st.current.None? then Err(AttributeError)
      else
        var cur := st.current.value;
        if OutOfBounds(c, cur) && !OutOfBounds(c, next) && st.wasDrawing then
          // coming back in: move to the edge, put the pen down, continue from next
          var edge :- EdgePoint(c, next, cur);
          Ok((st.(commands := st.commands + [Move(valid + [edge]), Pen(true)],
                  penDown := true,
                  lines := st.lines + [Line(next, edge, st.color)],
                  penDownPoints := st.penDownPoints + [edge],
                  outOfBounds := false,
                  wasDrawing := false,
                  current := Some(next)),
              [next]))
        else if OutOfBounds(c, cur) && OutOfBounds(c, next) then
          Ok((st.(current := Some(next)), valid))
        else
          Ok((st, valid))
    else
      Ok((st.(current := Some(next)), valid + [next]))
  }

  /** The final flush of `_build_move_command`: leftover points become one move. */
  function Flush(st: State, valid: seq<Point>): State {
    if valid != [] then st.(commands := st.commands + [Move(valid)]) else st
  }

  /** `_build_move_command` from accumulated points `valid` over the remaining `points`. */
  function ClipAll(c: Canvas, st: State, valid: seq<Point>, points: seq<Point>): Result<State>
    decreases |points|
  {
    if points == [] then Ok(Flush(st, valid))
    else
      var step :- ClipPoint(c, st, valid, points[0]);
      ClipAll(c, step.0, step.1, points[1..])
  }

  /**
   * `_handle_move_command`: collect the points from the running position, restore the
   * position, advance past the op code and four tokens per point, then clip. A C0 that
   * is the last token reads nothing and does not advance.
   */
  function MoveStep(c: Canvas, tokens: seq<string>, ptr: nat, st: State): (r: Result<(State, nat)>)
    requires ptr < |tokens|
    ensures r.Ok? ==> ptr <= r.value.1 <= |tokens|
    ensures r.Ok? && r.value.1 == ptr ==> r.value.0 == st && ptr + 1 == |tokens|
  {
    if ptr + 1 < |tokens| then
      MovePointsBound(tokens, ptr, st.current, []);
      var points :- MovePoints(tokens, ptr, st.current, []);
      var st' :- ClipAll(c, st, [], points);
      Ok((st', ptr + 4 * |points| + 1))
    else
      Ok((st, ptr))
  }

  /** One iteration of `_decode_input_stream`: dispatch on the token at `ptr`. */
  function Step(c: Canvas, tokens: seq<string>, ptr: nat, st: State): (r: Result<(State, nat)>)
    requires ptr < |tokens|
    ensures r.Ok? ==> ptr <= r.value.1 <= |tokens|
    ensures r.Ok? && r.value.1 == ptr ==> r.value.0 == st && tokens[ptr] == "C0" && ptr + 1 == |tokens|
  {
    var op := tokens[ptr];
    if op == "F0" then Ok((ClearStep(c, st), ptr + 1))
    else if op == "A0" then
      var st' :- ColorStep(tokens, ptr, st);
      Ok((st', ptr + 9))
    else if op == "80" then
      var st' :- PenStep(tokens, ptr, st);
      Ok((st', ptr + 3))
    else if op == "C0" then MoveStep(c, tokens, ptr, st)
    else Ok((st, ptr + 1))
  }

  /**
   * The main loop of `_decode_input_stream` from position `ptr`. A step that does not
   * advance leaves the state unchanged, so the source loop would repeat it forever:
   * that outcome is `NonTermination`.
   */
  function Run(c: Canvas, tokens: seq<string>, ptr: nat, st: State): Result<State>
    requires ptr <= |tokens|
    decreases |tokens| - ptr
  {
    if ptr == |tokens| then Ok(st)
    else
      var next :- Step(c, tokens, ptr, st);
      if next.1 == ptr then Err(NonTermination)
      else Run(c, tokens, next.1, next.0)
  }

  /** `Drawer(arg_stream, canvas)` followed by `_decode_input_stream`. */
  function Draw(input: string, canvas: Option<Canvas>): Result<State> {
    Run(ChosenCanvas(canvas), Tokens(input), 0, InitialState(canvas))
  }

  /** `parse`'s result: the text form of every command, in order. */
  function RenderAll(commands: seq<Command>): (texts: seq<string>)
    ensures |texts| == |commands|
    ensures forall i :: 0 <= i < |commands| ==> texts[i] == Render(commands[i])
  {
    seq(|commands|, i requires 0 <= i < |commands| => Render(commands[i]))
  }
}
