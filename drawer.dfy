/**
 * The `Drawer` object of byte_drawer/drawer.py, with the fields its methods update in
 * place. Every method runs the same loops and branches as its Python counterpart, and
 * its contract says that the drawer's state afterwards is the one the specification
 * functions of module Drawing compute from the state before.
 *
 * A method that fails returns the error instead of raising it; what the drawer's
 * fields hold after a failure is not specified.
 */
module Drawers {
  import opened Failures
  import opened Coders
  import opened Geometry
  import opened Commands
  import opened Drawing

  class Drawer {
    const canvas: Canvas
    var commands: seq<Command>
    var drawLines: seq<Line>
    var penDownPoints: seq<Point>
    var penUpPoints: seq<Option<Point>>
    var currentPoint: Option<Point>
    var wasDrawing: bool
    var drawerOutOfBounds: bool
    var penDown: bool
    var color: Color
    var currentColor: seq<int>
    var inputStream: string
    var rawOpCodes: seq<string>
    var currentOpCodePointer: nat
    var result: Option<seq<string>>

    /** The fields the command handlers read and write, as one value. */
    function Snapshot(): State
      reads this
    {
      State(commands, drawLines, penDownPoints, penUpPoints, currentPoint,
            penDown, drawerOutOfBounds, wasDrawing, color, currentColor)
    }

    /** The drawer's state is the value `r` holds, or `err` is the error `r` holds. */
    predicate Agrees(err: Option<Error>, r: Result<State>)
      reads this
    {
      match r
      case Ok(st) => err.None? && Snapshot() == st
      case Err(e) => err == Some(e)
    }

    /** As `Agrees`, for a step that also yields the next op-code position. */
    predicate StepAgrees(err: Option<Error>, r: Result<(State, nat)>)
      reads this
    {
      match r
      case Ok(next) => err.None? && Snapshot() == next.0 && currentOpCodePointer == next.1
      case Err(e) => err == Some(e)
    }

    /**
     * `Drawer.__init__`. The stream is `argStream` when it is non-empty and otherwise
     * the first line of the draw file, which is passed in as `fileLine`. Without a
     * custom canvas the default canvas is used and its borders are copied, one by one,
     * into the line list.
     */
    constructor (argStream: string, fileLine: string, customCanvas: Option<Canvas>)
      ensures canvas == ChosenCanvas(customCanvas)
      ensures Snapshot() == InitialState(customCanvas)
      ensures inputStream == (if argStream != "" then argStream else fileLine)
      ensures rawOpCodes == [] && currentOpCodePointer == 0 && result.None?
    {
      commands := [];
      drawLines := [];
      penDownPoints := [];
      penUpPoints := [];
      currentPoint := None;
      wasDrawing := false;
      drawerOutOfBounds := false;
      penDown := false;
      canvas := ChosenCanvas(customCanvas);
      color := ChosenCanvas(customCanvas).defaultColor;
      currentColor := [];
      inputStream := if argStream != "" then argStream else fileLine;
      rawOpCodes := [];
      currentOpCodePointer := 0;
      result := None;
      new;
      if customCanvas.None? {
        var borders := canvas.Borders();
        for i := 0 to |borders|
          invariant drawLines == borders[..i]
          modifies this`drawLines
        {
          drawLines := drawLines + [borders[i]];
        }
      }
    }

    /** `_get_op_codes`: consume the input stream two characters at a time. */
    method GetOpCodes() returns (codes: seq<string>)
      modifies this`inputStream
      ensures codes == Tokens(old(inputStream))
      ensures inputStream == ""
    {
      codes := [];
      while inputStream != ""
        invariant codes + Tokens(inputStream) == Tokens(old(inputStream))
        decreases |inputStream|
      {
        var n := if |inputStream| < 2 then |inputStream| else 2;
        codes := codes + [inputStream[..n]];
        inputStream := inputStream[n..];
      }
    }

    /** `_handle_clear_command`. */
    method HandleClear()
      modifies this`commands, this`currentOpCodePointer, this`currentColor, this`currentPoint, this`penDown
      ensures Snapshot() == ClearStep(canvas, old(Snapshot()))
      ensures currentOpCodePointer == old(currentOpCodePointer) + 1
    {
      var clearCommand := Clear;
      commands := commands + [clearCommand];
      currentOpCodePointer := currentOpCodePointer + Offset(clearCommand).value;
      currentColor := [0, 0, 0, 225];
      currentPoint := Some(canvas.Center());
      penDown := false;
    }

    /** `_handle_color_command`. */
    method HandleColor() returns (err: Option<Error>)
      modifies this`commands, this`color, this`currentOpCodePointer
      ensures Agrees(err, ColorStep(rawOpCodes, old(currentOpCodePointer), old(Snapshot())))
      ensures err.None? ==> currentOpCodePointer == old(currentOpCodePointer) + 9
    {
      var ptr := currentOpCodePointer;
      if ptr + 8 >= |rawOpCodes| {
        return Some(IndexError);
      }
      var colorCommand := ColorCommand((rawOpCodes[ptr + 1], rawOpCodes[ptr + 2]), (rawOpCodes[ptr + 3], rawOpCodes[ptr + 4]),
                                       (rawOpCodes[ptr + 5], rawOpCodes[ptr + 6]), (rawOpCodes[ptr + 7], rawOpCodes[ptr + 8]));
      if colorCommand.Err? {
        return Some(colorCommand.error);
      }
      color := colorCommand.value.color;
      commands := commands + [colorCommand.value];
      currentOpCodePointer := currentOpCodePointer + Offset(colorCommand.value).value;
      err := None;
    }

    /** `_handle_pen_command`. */
    method HandlePen() returns (err: Option<Error>)
      modifies this`commands, this`currentOpCodePointer, this`penDown, this`penDownPoints, this`penUpPoints
      ensures Agrees(err, PenStep(rawOpCodes, old(currentOpCodePointer), old(Snapshot())))
      ensures err.None? ==> currentOpCodePointer == old(currentOpCodePointer) + 3
    {
      var ptr := currentOpCodePointer;
      if ptr + 2 >= |rawOpCodes| {
        return Some(IndexError);
      }
      var penCommand := PenCommand((rawOpCodes[ptr + 1], rawOpCodes[ptr + 2]));
      if penCommand.Err? {
        return Some(penCommand.error);
      }
      err := ApplyPen(penCommand.value.isDown);
      if err.None? {
        currentOpCodePointer := ptr + Offset(penCommand.value).value;
      }
    }

    /** `_handle_pen_command` after decoding: check the request, then record the pen change. */
    method ApplyPen(isDown: bool) returns (err: Option<Error>)
      modifies this`commands, this`penDown, this`penDownPoints, this`penUpPoints
      ensures Agrees(err, SetPen(old(Snapshot()), isDown))
    {
      if drawerOutOfBounds && isDown {
        return Some(ValueError);
      }
      if currentPoint.None? && isDown {
        return Some(ValueError);
      }
      commands := commands + [Pen(isDown)];
      penDown := isDown;
      if penDown {
        penDownPoints := penDownPoints + [currentPoint.value];
      } else {
        penUpPoints := penUpPoints + [currentPoint];
      }
      err := None;
    }

    /**
     * `_handle_move_command`: collect the points of the move from the running position,
     * restore the position, advance the op-code pointer past the op code and four tokens
     * per point, then clip the collected points. A C0 that is the last token does nothing.
     */
    method HandleMove() returns (err: Option<Error>)
      requires currentOpCodePointer < |rawOpCodes|
      modifies this`commands, this`drawLines, this`penDownPoints, this`penUpPoints, this`currentPoint,
               this`wasDrawing, this`drawerOutOfBounds, this`penDown, this`currentOpCodePointer
      ensures StepAgrees(err, MoveStep(canvas, rawOpCodes, old(currentOpCodePointer), old(Snapshot())))
    {
      err := None;
      if currentOpCodePointer + 1 < |rawOpCodes| {
        var originalCurrentPoint := currentPoint;
        var newPoints;
        newPoints, err := CollectMovePoints();
        if err.Some? {
          return;
        }
        currentPoint := originalCurrentPoint;
        currentOpCodePointer := currentOpCodePointer + 4 * |newPoints| + 1;
        err := BuildMoveCommand(newPoints);
      }
    }

    /**
     * The coordinate loop of `_handle_move_command`: decode four tokens per point,
     * each an offset from the running position, until a command op code, the end of
     * the stream or the origin. The running position is left at the last point.
     */
    method CollectMovePoints() returns (newPoints: seq<Point>, err: Option<Error>)
      requires currentOpCodePointer + 1 < |rawOpCodes|
      modifies this`currentPoint
      ensures var r := MovePoints(rawOpCodes, currentOpCodePointer, old(currentPoint), []);
        if r.Ok? then err.None? && newPoints == r.value else err == Some(r.error)
    {
      newPoints := [];
      err := None;
      var tokens := rawOpCodes;
      ghost var start := MovePoints(tokens, currentOpCodePointer, currentPoint, []);
      var movePointer := currentOpCodePointer;
      var nextMoveOp := tokens[movePointer + 1];
      while !IsCommandOp(nextMoveOp) && movePointer + 1 < |tokens|
        invariant movePointer + 1 < |tokens| && nextMoveOp == tokens[movePointer + 1]
        invariant err.None? && start == MovePoints(tokens, movePointer, currentPoint, newPoints)
        decreases |tokens| - movePointer
      {
        var done;
        newPoints, done, err := CollectNextPoint(tokens, movePointer, newPoints);
        if done {
          return;
        }
        movePointer := movePointer + 4;
        nextMoveOp := tokens[movePointer + 1];
      }
    }

    /**
     * One pass of the coordinate loop at move pointer `mp`: decode the next offset and
     * append the point it leads to; `done` when the loop stops here, with an error or
     * at the end of the stream or the origin.
     */
    method CollectNextPoint(tokens: seq<string>, mp: nat, collected: seq<Point>)
      returns (points: seq<Point>, done: bool, err: Option<Error>)
      requires mp + 1 < |tokens| && !IsCommandOp(tokens[mp + 1])
      modifies this`currentPoint
      ensures !done ==> err.None? && mp + 5 < |tokens|
      ensures var r := MovePoints(tokens, mp, old(currentPoint), collected);
        if done then (if r.Ok? then err.None? && points == r.value else err == Some(r.error))
        else r == MovePoints(tokens, mp + 4, currentPoint, points)
    {
      points, done, err := collected, true, None;
      if mp + 4 >= |tokens| {
        return points, true, Some(IndexError);
      }
      var offset := OffsetAt(tokens, mp);
      if offset.Err? {
        return points, true, Some(offset.error);
      }
      if currentPoint.None? {
        return points, true, Some(AttributeError);
      }
      var newPoint := Point(offset.value.0 + currentPoint.value.x, offset.value.1 + currentPoint.value.y);
      points := points + [newPoint];
      currentPoint := Some(newPoint);
      done := mp + 5 == |tokens| || (newPoint.x == 0 && newPoint.y == 0);
    }

    /**
     * `_build_move_command`: run the clipping state machine over the points, emitting
     * moves, pen commands and lines, and flush the points left over as a final move.
     */
    method BuildMoveCommand(newPoints: seq<Point>) returns (err: Option<Error>)
      modifies this`commands, this`drawLines, this`penDownPoints, this`penUpPoints, this`currentPoint,
               this`wasDrawing, this`drawerOutOfBounds, this`penDown
      ensures Agrees(err, ClipAll(canvas, old(Snapshot()), [], newPoints))
    {
      var validMovePoints: seq<Point> := [];
      for i := 0 to |newPoints|
        invariant ClipAll(canvas, Snapshot(), validMovePoints, newPoints[i..])
               == ClipAll(canvas, old(Snapshot()), [], newPoints)
      {
        assert newPoints[i..][1..] == newPoints[i + 1..];
        validMovePoints, err := ClipNextPoint(validMovePoints, newPoints[i]);
        if err.Some? {
          return;
        }
      }
      if validMovePoints != [] {
        commands := commands + [Move(validMovePoints)];
      }
      err := None;
    }

    /**
     * One pass of the loop of `_build_move_command`, for the point `nextPoint` with the
     * move points `validMovePoints` accumulated so far:
     * - pen down, leaving the canvas: finish the move at the edge point, lift the pen,
     *   draw up to the edge and mark the drawer out of bounds;
     * - pen down, staying inside: draw to the point and add it to the move;
     * - pen up and out of bounds, coming back in after drawing: move to the edge point,
     *   put the pen down, draw from the point to the edge and start a new move;
     * - pen up and out of bounds, staying outside: only follow the point;
     * - pen up and in bounds: follow the point and add it to the move, wherever it is;
     * - otherwise the point is ignored.
     */
    method ClipNextPoint(validMovePoints: seq<Point>, nextPoint: Point) returns (valid: seq<Point>, err: Option<Error>)
      modifies this`commands, this`drawLines, this`penDownPoints, this`penUpPoints, this`currentPoint,
               this`wasDrawing, this`drawerOutOfBounds, this`penDown
      ensures var r := ClipPoint(canvas, old(Snapshot()), validMovePoints, nextPoint);
        if r.Ok? then err.None? && Snapshot() == r.value.0 && valid == r.value.1 else err == Some(r.error)
    {
      if penDown {
        valid, err := ClipPenDown(validMovePoints, nextPoint);
      } else {
        valid, err := ClipPenUp(validMovePoints, nextPoint);
      }
    }

    /** The pen-down half of `ClipNextPoint`: draw inside, or leave through an edge. */
    method ClipPenDown(validMovePoints: seq<Point>, nextPoint: Point) returns (valid: seq<Point>, err: Option<Error>)
      requires penDown
      modifies this`commands, this`drawLines, this`penDownPoints, this`penUpPoints, this`currentPoint,
               this`wasDrawing, this`drawerOutOfBounds, this`penDown
      ensures var r := ClipPoint(canvas, old(Snapshot()), validMovePoints, nextPoint);
        if r.Ok? then err.None? && Snapshot() == r.value.0 && valid == r.value.1 else err == Some(r.error)
    {
      valid := validMovePoints;
      err := None;
      if currentPoint.None? {
        return valid, Some(AttributeError);
      }
      var cur := currentPoint.value;
      if !OutOfBounds(canvas, cur) && OutOfBounds(canvas, nextPoint) {
        var edgePoint := EdgePoint(canvas, cur, nextPoint);
        if edgePoint.Err? {
          return valid, Some(edgePoint.error);
        }
        valid := valid + [edgePoint.value];
        commands := commands + [Move(valid)];
        penDown := false;
        commands := commands + [Pen(false)];
        drawLines := drawLines + [Line(cur, edgePoint.value, color)];
        penUpPoints := penUpPoints + [Some(edgePoint.value)];
        drawerOutOfBounds := true;
        wasDrawing := true;
        currentPoint := Some(nextPoint);
        valid := [];
      } else if !OutOfBounds(canvas, cur) && !OutOfBounds(canvas, nextPoint) {
        valid := valid + [nextPoint];
        drawLines := drawLines + [Line(cur, nextPoint, color)];
        currentPoint := Some(nextPoint);
      }
    }

    /** The pen-up half of `ClipNextPoint`: move freely, or come back in through an edge. */
    method ClipPenUp(validMovePoints: seq<Point>, nextPoint: Point) returns (valid: seq<Point>, err: Option<Error>)
      requires !penDown
      modifies this`commands, this`drawLines, this`penDownPoints, this`penUpPoints, this`currentPoint,
               this`wasDrawing, this`drawerOutOfBounds, this`penDown
      ensures var r := ClipPoint(canvas, old(Snapshot()), validMovePoints, nextPoint);
        if r.Ok? then err.None? && Snapshot() == r.value.0 && valid == r.value.1 else err == Some(r.error)
    {
      valid := validMovePoints;
      err := None;
      if drawerOutOfBounds {
        if currentPoint.None? {
          return valid, Some(AttributeError);
        }
        var cur := currentPoint.value;
        if OutOfBounds(canvas, cur) && !OutOfBounds(canvas, nextPoint) && wasDrawing {
          var edgePoint := EdgePoint(canvas, nextPoint, cur);
          if edgePoint.Err? {
            return valid, Some(edgePoint.error);
          }
          valid := valid + [edgePoint.value];
          commands := commands + [Move(valid)];
          penDown := true;
          commands := commands + [Pen(true)];
          drawLines := drawLines + [Line(nextPoint, edgePoint.value, color)];
          penDownPoints := penDownPoints + [edgePoint.value];
          drawerOutOfBounds := false;
          wasDrawing := false;
          currentPoint := Some(nextPoint);
          valid := [nextPoint];
        } else if OutOfBounds(canvas, cur) && OutOfBounds(canvas, nextPoint) {
          currentPoint := Some(nextPoint);
        }
      } else {
        valid := valid + [nextPoint];
        currentPoint := Some(nextPoint);
      }
    }

    /**
     * One pass of the `_decode_input_stream` loop: dispatch on the op code at the
     * pointer; an unknown op code is skipped.
     */
    method DispatchOpCode() returns (err: Option<Error>)
      requires currentOpCodePointer < |rawOpCodes|
      modifies this`commands, this`drawLines, this`penDownPoints, this`penUpPoints, this`currentPoint,
               this`wasDrawing, this`drawerOutOfBounds, this`penDown, this`currentOpCodePointer,
               this`currentColor, this`color
      ensures StepAgrees(err, Step(canvas, rawOpCodes, old(currentOpCodePointer), old(Snapshot())))
    {
      var nextOpCode := rawOpCodes[currentOpCodePointer];
      err := None;
      if nextOpCode == "F0" {
        HandleClear();
      } else if nextOpCode == "A0" {
        err := HandleColor();
      } else if nextOpCode == "80" {
        err := HandlePen();
      } else if nextOpCode == "C0" {
        err := HandleMove();
      } else {
        currentOpCodePointer := currentOpCodePointer + 1;
      }
    }

    /**
     * `_decode_input_stream`: tokenize, then dispatch on the op code at the pointer until
     * the pointer reaches the end. Unknown op codes are skipped. A handler that leaves
     * the pointer where it was (a C0 as the last token) would make the source loop
     * forever; here that outcome is reported as `NonTermination`.
     */
    method DecodeInputStream() returns (err: Option<Error>)
      modifies this
      ensures result == old(result)
      ensures rawOpCodes == Tokens(old(inputStream))
      ensures Agrees(err, Run(canvas, rawOpCodes, 0, old(Snapshot())))
    {
      ghost var start := Snapshot();
      rawOpCodes := GetOpCodes();
      currentOpCodePointer := 0;
      ghost var tokens := rawOpCodes;
      while currentOpCodePointer < |rawOpCodes|
        invariant rawOpCodes == tokens && result == old(result)
        invariant currentOpCodePointer <= |rawOpCodes|
        invariant Run(canvas, tokens, currentOpCodePointer, Snapshot()) == Run(canvas, tokens, 0, start)
        decreases |rawOpCodes| - currentOpCodePointer
      {
        var ptr := currentOpCodePointer;
        err := DispatchOpCode();
        if err.Some? {
          return;
        }
        if currentOpCodePointer == ptr {
          return Some(NonTermination);
        }
      }
      err := None;
    }

    /** `parse`: decode the stream, then render every command as text. */
    method Parse() returns (err: Option<Error>)
      modifies this
      ensures Agrees(err, Run(canvas, Tokens(old(inputStream)), 0, old(Snapshot())))
      ensures err.None? ==> result == Some(RenderAll(commands))
    {
      err := DecodeInputStream();
      if err.None? {
        result := Some(RenderAll(commands));
      }
    }
  }

  /**
   * A new drawer that parses a stream ends in the state `Draw` computes, and its result
   * is the text form of that state's commands. The stream is `argStream`, or the draw
   * file's first line `fileLine` when `argStream` is empty.
   */
  method DrawStream(argStream: string, fileLine: string, customCanvas: Option<Canvas>)
    returns (texts: Result<seq<string>>)
    ensures var d := Draw(if argStream != "" then argStream else fileLine, customCanvas);
      && (d.Ok? <==> texts.Ok?)
      && (texts.Ok? ==> texts.value == RenderAll(d.value.commands))
      && (texts.Err? ==> texts.error == d.error)
  {
    var drawer := new Drawer(argStream, fileLine, customCanvas);
    var err := drawer.Parse();
    if err.Some? {
      return Err(err.value);
    }
    texts := Ok(drawer.result.value);
  }
}
