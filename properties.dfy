/**
 * Properties of the stream decoder and clipper of byte_drawer/drawer.py, stated over the
 * functions of module Drawing (which the `Drawer` class is proved to agree with).
 */
module DrawingProperties {
  import opened Failures
  import opened Coders
  import opened Geometry
  import opened Commands
  import opened Drawing

  // ---------------------------------------------------------------------------
  // The flag invariant
  // ---------------------------------------------------------------------------

  /**
   * The clipper's flags move together: the drawer is out of bounds exactly when it left
   * the canvas while drawing, and a pen that is down is in bounds at a known position.
   */
  predicate Inv(st: State) {
    st.outOfBounds == st.wasDrawing
    && (st.penDown ==> !st.outOfBounds && st.current.Some?)
  }

  /** Every clipping run that succeeds keeps the invariant. */
  lemma {:induction false} ClipAllInv(c: Canvas, st: State, valid: seq<Point>, points: seq<Point>)
    requires Inv(st)
    ensures var r := ClipAll(c, st, valid, points); r.Ok? ==> Inv(r.value)
    decreases |points|
  {
    if points != [] {
      var step := ClipPoint(c, st, valid, points[0]);
      if step.Ok? {
        assert Inv(step.value.0);
        ClipAllInv(c, step.value.0, step.value.1, points[1..]);
      }
    }
  }

  /** Every handler that succeeds keeps the invariant. */
  lemma StepInv(c: Canvas, tokens: seq<string>, ptr: nat, st: State)
    requires ptr < |tokens| && Inv(st)
    ensures var r := Step(c, tokens, ptr, st); r.Ok? ==> Inv(r.value.0)
  {
    if tokens[ptr] == "C0" && ptr + 1 < |tokens| {
      var points := MovePoints(tokens, ptr, st.current, []);
      if points.Ok? {
        ClipAllInv(c, st, [], points.value);
      }
    }
  }

  /** The invariant holds in every state the main loop reaches from a state that has it. */
  lemma {:induction false} RunInv(c: Canvas, tokens: seq<string>, ptr: nat, st: State)
    requires ptr <= |tokens| && Inv(st)
    ensures var r := Run(c, tokens, ptr, st); r.Ok? ==> Inv(r.value)
    decreases |tokens| - ptr
  {
    if ptr < |tokens| {
      StepInv(c, tokens, ptr, st);
      var next := Step(c, tokens, ptr, st);
      if next.Ok? && next.value.1 != ptr {
        RunInv(c, tokens, next.value.1, next.value.0);
      }
    }
  }

  /** A new drawer starts with the invariant, so every drawing that succeeds ends with it. */
  lemma DrawInv(input: string, canvas: Option<Canvas>)
    ensures var r := Draw(input, canvas); r.Ok? ==> Inv(r.value)
  {
    RunInv(ChosenCanvas(canvas), Tokens(input), 0, InitialState(canvas));
  }

  // ---------------------------------------------------------------------------
  // The output only grows
  // ---------------------------------------------------------------------------

  /**
   * `st'` extends `st`: the command, line, pen-down and pen-up lists are extended at the
   * end only, and every line added starts at a point strictly inside the canvas.
   */
  predicate Extends(c: Canvas, st: State, st': State) {
    && |st.commands| <= |st'.commands| && st'.commands[..|st.commands|] == st.commands
    && |st.lines| <= |st'.lines| && st'.lines[..|st.lines|] == st.lines
    && |st.penDownPoints| <= |st'.penDownPoints| && st'.penDownPoints[..|st.penDownPoints|] == st.penDownPoints
    && |st.penUpPoints| <= |st'.penUpPoints| && st'.penUpPoints[..|st.penUpPoints|] == st.penUpPoints
    && (forall i :: |st.lines| <= i < |st'.lines| ==> c.ContainsPoint(st'.lines[i].start))
  }

  lemma ExtendsTransitive(c: Canvas, st0: State, st1: State, st2: State)
    requires Extends(c, st0, st1) && Extends(c, st1, st2)
    ensures Extends(c, st0, st2)
  {
    assert st2.commands[..|st0.commands|] == st2.commands[..|st1.commands|][..|st0.commands|];
    assert st2.lines[..|st0.lines|] == st2.lines[..|st1.lines|][..|st0.lines|];
    assert st2.penDownPoints[..|st0.penDownPoints|] == st2.penDownPoints[..|st1.penDownPoints|][..|st0.penDownPoints|];
    assert st2.penUpPoints[..|st0.penUpPoints|] == st2.penUpPoints[..|st1.penUpPoints|][..|st0.penUpPoints|];
    forall i | |st0.lines| <= i < |st2.lines|
      ensures c.ContainsPoint(st2.lines[i].start)
    {
      if i < |st1.lines| {
        assert st2.lines[i] == st2.lines[..|st1.lines|][i];
      }
    }
  }

  /** One clipping step adds lines only from a point inside the canvas. */
  lemma ClipPointExtends(c: Canvas, st: State, valid: seq<Point>, next: Point)
    ensures var r := ClipPoint(c, st, valid, next); r.Ok? ==> Extends(c, st, r.value.0)
  {
  }

  lemma {:induction false} ClipAllExtends(c: Canvas, st: State, valid: seq<Point>, points: seq<Point>)
    ensures var r := ClipAll(c, st, valid, points); r.Ok? ==> Extends(c, st, r.value)
    decreases |points|
  {
    if points == [] {
      assert Extends(c, st, Flush(st, valid));
    } else {
      var step := ClipPoint(c, st, valid, points[0]);
      if step.Ok? {
        ClipPointExtends(c, st, valid, points[0]);
        ClipAllExtends(c, step.value.0, step.value.1, points[1..]);
        var r := ClipAll(c, step.value.0, step.value.1, points[1..]);
        if r.Ok? {
          ExtendsTransitive(c, st, step.value.0, r.value);
        }
      }
    }
  }

  lemma StepExtends(c: Canvas, tokens: seq<string>, ptr: nat, st: State)
    requires ptr < |tokens|
    ensures var r := Step(c, tokens, ptr, st); r.Ok? ==> Extends(c, st, r.value.0)
  {
    var op := tokens[ptr];
    if op == "C0" && ptr + 1 < |tokens| {
      var points := MovePoints(tokens, ptr, st.current, []);
      if points.Ok? {
        ClipAllExtends(c, st, [], points.value);
      }
    } else if op == "A0" || op == "80" || op == "F0" {
    } else {
      assert Extends(c, st, st);
    }
  }

  /**
   * The main loop only appends: no command, line or pen point is ever removed or
   * rewritten, and every line drawn starts strictly inside the canvas.
   */
  lemma {:induction false} RunExtends(c: Canvas, tokens: seq<string>, ptr: nat, st: State)
    requires ptr <= |tokens|
    ensures var r := Run(c, tokens, ptr, st); r.Ok? ==> Extends(c, st, r.value)
    decreases |tokens| - ptr
  {
    if ptr == |tokens| {
      assert Extends(c, st, st);
    } else {
      StepExtends(c, tokens, ptr, st);
      var next := Step(c, tokens, ptr, st);
      if next.Ok? && next.value.1 != ptr {
        RunExtends(c, tokens, next.value.1, next.value.0);
        var r := Run(c, tokens, next.value.1, next.value.0);
        if r.Ok? {
          ExtendsTransitive(c, st, next.value.0, r.value);
        }
      }
    }
  }

  // ---------------------------------------------------------------------------
  // The clipping cases
  // ---------------------------------------------------------------------------

  /** Pen down inside the canvas, next point inside: the point is kept and a line drawn to it. */
  lemma ClipDrawInside(c: Canvas, st: State, valid: seq<Point>, next: Point)
    requires st.penDown && st.current.Some? && c.ContainsPoint(st.current.value) && c.ContainsPoint(next)
    ensures ClipPoint(c, st, valid, next)
         == Ok((st.(lines := st.lines + [Line(st.current.value, next, st.color)], current := Some(next)),
                valid + [next]))
  {
  }

  /** Pen up and in bounds: the point is kept, with no line, wherever it is. */
  lemma ClipMoveFree(c: Canvas, st: State, valid: seq<Point>, next: Point)
    requires !st.penDown && !st.outOfBounds
    ensures ClipPoint(c, st, valid, next) == Ok((st.(current := Some(next)), valid + [next]))
  {
  }

  /** Out of bounds, from outside to outside: only the position moves. */
  lemma ClipStayOutside(c: Canvas, st: State, valid: seq<Point>, next: Point)
    requires !st.penDown && st.outOfBounds && st.current.Some?
    requires !c.ContainsPoint(st.current.value) && !c.ContainsPoint(next)
    ensures ClipPoint(c, st, valid, next) == Ok((st.(current := Some(next)), valid))
  {
  }

  /**
   * Leaving while drawing: the move so far ends at the edge point, the pen is lifted,
   * a line is drawn to the edge, the edge is recorded as a pen-up point, and the drawer
   * is out of bounds at the outside point with no points gathered.
   */
  lemma ClipExit(c: Canvas, st: State, valid: seq<Point>, next: Point, edge: Point)
    requires st.penDown && st.current.Some? && c.ContainsPoint(st.current.value) && !c.ContainsPoint(next)
    requires EdgePoint(c, st.current.value, next) == Ok(edge)
    ensures ClipPoint(c, st, valid, next)
         == Ok((st.(commands := st.commands + [Move(valid + [edge]), Pen(false)],
                    penDown := false,
                    lines := st.lines + [Line(st.current.value, edge, st.color)],
                    penUpPoints := st.penUpPoints + [Some(edge)],
                    outOfBounds := true,
                    wasDrawing := true,
                    current := Some(next)),
                []))
  {
  }

  /**
   * Coming back in after leaving while drawing: the move so far ends at the edge point,
   * the pen is put down, a line is drawn from the inside point to the edge, the edge is
   * recorded as a pen-down point, and gathering restarts from the inside point.
   */
  lemma ClipReenter(c: Canvas, st: State, valid: seq<Point>, next: Point, edge: Point)
    requires !st.penDown && st.outOfBounds && st.wasDrawing && st.current.Some?
    requires !c.ContainsPoint(st.current.value) && c.ContainsPoint(next)
    requires EdgePoint(c, next, st.current.value) == Ok(edge)
    ensures ClipPoint(c, st, valid, next)
         == Ok((st.(commands := st.commands + [Move(valid + [edge]), Pen(true)],
                    penDown := true,
                    lines := st.lines + [Line(next, edge, st.color)],
                    penDownPoints := st.penDownPoints + [edge],
                    outOfBounds := false,
                    wasDrawing := false,
                    current := Some(next)),
                [next]))
  {
  }

  /** The points gathered by a move's clipping are flushed as one final move. */
  lemma {:induction false} ClipAllFlushes(c: Canvas, st: State, valid: seq<Point>, points: seq<Point>, st': State,
                                          valid': seq<Point>)
    requires points != [] && ClipPoint(c, st, valid, points[0]) == Ok((st', valid'))
    ensures ClipAll(c, st, valid, points) == ClipAll(c, st', valid', points[1..])
    ensures points[1..] == [] ==> ClipAll(c, st, valid, points)
                                  == Ok(if valid' != [] then st'.(commands := st'.commands + [Move(valid')]) else st')
  {
  }

  /** The lines a pen draws from `from` through `points` in turn: one per point. */
  function Segments(from: Point, points: seq<Point>, color: Color): (lines: seq<Line>)
    ensures |lines| == |points|
    ensures forall i :: 0 <= i < |points| ==>
              lines[i] == Line(if i == 0 then from else points[i - 1], points[i], color)
    decreases |points|
  {
    if points == [] then [] else [Line(from, points[0], color)] + Segments(points[0], points[1..], color)
  }

  /**
   * A move with the pen down that stays inside the canvas draws one line per point,
   * ends at the last point, and emits all its points as one move.
   */
  lemma {:induction false} ClipAllInside(c: Canvas, st: State, valid: seq<Point>, points: seq<Point>)
    requires st.penDown && st.current.Some? && c.ContainsPoint(st.current.value)
    requires forall i :: 0 <= i < |points| ==> c.ContainsPoint(points[i])
    ensures ClipAll(c, st, valid, points)
         == Ok(Flush(st.(lines := st.lines + Segments(st.current.value, points, st.color),
                         current := if points == [] then st.current else Some(points[|points| - 1])),
                     valid + points))
    decreases |points|
  {
    if points == [] {
      assert st.lines + [] == st.lines && valid + [] == valid;
    } else {
      var cur, p := st.current.value, points[0];
      ClipDrawInside(c, st, valid, p);
      var st1 := st.(lines := st.lines + [Line(cur, p, st.color)], current := Some(p));
      ClipAllInside(c, st1, valid + [p], points[1..]);
      assert st1.lines + Segments(p, points[1..], st.color) == st.lines + Segments(cur, points, st.color);
      assert valid + [p] + points[1..] == valid + points;
    }
  }

  // ---------------------------------------------------------------------------
  // States in which the clipper ignores every point
  // ---------------------------------------------------------------------------

  /**
   * The two configurations the clipper's branches do not handle: the pen is down at a
   * position outside the canvas, or the drawer is out of bounds with the pen up at a
   * position inside the canvas. Neither moves the position.
   */
  predicate IgnoresPoints(c: Canvas, st: State) {
    st.current.Some?
    && ((st.penDown && OutOfBounds(c, st.current.value))
        || (!st.penDown && st.outOfBounds && !OutOfBounds(c, st.current.value)))
  }

  /** In such a state a move changes nothing except flushing the points already gathered. */
  lemma {:induction false} IgnoredMove(c: Canvas, st: State, valid: seq<Point>, points: seq<Point>)
    requires IgnoresPoints(c, st)
    ensures ClipAll(c, st, valid, points) == Ok(Flush(st, valid))
    decreases |points|
  {
    if points != [] {
      assert ClipPoint(c, st, valid, points[0]) == Ok((st, valid));
      IgnoredMove(c, st, valid, points[1..]);
    }
  }

  /**
   * Stranded: out of bounds with the pen up at a position inside the canvas, on a
   * canvas that contains the centre.
   */
  predicate Stranded(c: Canvas, st: State) {
    st.outOfBounds && !st.penDown && st.current.Some?
    && c.ContainsPoint(st.current.value) && c.ContainsPoint(Point(0, 0))
  }

  /**
   * A clear does not reset the out-of-bounds flag, so a clear issued after the pen
   * left the canvas strands the drawer.
   */
  lemma ClearStrands(c: Canvas, st: State)
    requires st.outOfBounds && c.ContainsPoint(Point(0, 0))
    ensures Stranded(c, ClearStep(c, st))
  {
  }

  /**
   * From a stranded state every step either fails or stays stranded, adds no line and
   * no pen-down point; a pen-down request fails with ValueError.
   */
  lemma StepStranded(c: Canvas, tokens: seq<string>, ptr: nat, st: State)
    requires ptr < |tokens| && Stranded(c, st)
    ensures var r := Step(c, tokens, ptr, st);
      && (r.Ok? ==> Stranded(c, r.value.0) && r.value.0.lines == st.lines
                    && r.value.0.penDownPoints == st.penDownPoints)
      && ((tokens[ptr] == "80" && ptr + 2 < |tokens|
           && PenCommand((tokens[ptr + 1], tokens[ptr + 2])) == Ok(Pen(true))) ==> r == Err(ValueError))
  {
    if tokens[ptr] == "C0" && ptr + 1 < |tokens| {
      var points := MovePoints(tokens, ptr, st.current, []);
      if points.Ok? {
        IgnoredMove(c, st, [], points.value);
      }
    }
  }

  /** Once stranded, the rest of the stream draws nothing. */
  lemma {:induction false} RunStranded(c: Canvas, tokens: seq<string>, ptr: nat, st: State)
    requires ptr <= |tokens| && Stranded(c, st)
    ensures var r := Run(c, tokens, ptr, st);
      r.Ok? ==> Stranded(c, r.value) && r.value.lines == st.lines && r.value.penDownPoints == st.penDownPoints
    decreases |tokens| - ptr
  {
    if ptr < |tokens| {
      StepStranded(c, tokens, ptr, st);
      var next := Step(c, tokens, ptr, st);
      if next.Ok? && next.value.1 != ptr {
        RunStranded(c, tokens, next.value.1, next.value.0);
      }
    }
  }

  // ---------------------------------------------------------------------------
  // The coordinate loop of a move
  // ---------------------------------------------------------------------------

  /**
   * `points` are the positions the coordinate loop computes from `cur`, reading a group
   * of four tokens after each move pointer from `mp` on: no group starts with a stop op
   * code, each point is the previous one plus its group's offset, and every point but
   * the last is not the origin and leaves at least one more group's first token.
   */
  predicate FollowsOffsets(tokens: seq<string>, mp: nat, cur: Point, points: seq<Point>)
    decreases |points|
  {
    points == [] ||
    (mp + 4 < |tokens| && !IsCommandOp(tokens[mp + 1])
     && OffsetAt(tokens, mp) == Ok((points[0].x - cur.x, points[0].y - cur.y))
     && (|points| > 1 ==> points[0] != Point(0, 0) && mp + 5 < |tokens|)
     && FollowsOffsets(tokens, mp + 4, points[0], points[1..]))
  }

  /**
   * Why the loop stopped at move pointer `e`: the last point used the last four tokens,
   * the last point is the origin, or the next token is F0, A0 or 80.
   */
  predicate StopsAt(tokens: seq<string>, e: nat, points: seq<Point>) {
    e + 1 == |tokens|
    || (points != [] && points[|points| - 1] == Point(0, 0))
    || (e + 1 < |tokens| && IsCommandOp(tokens[e + 1]))
  }

  /** The points a move collects follow the offsets from the running position. */
  lemma {:induction false} MovePointsFollow(tokens: seq<string>, mp: nat, cur: Option<Point>, collected: seq<Point>,
                                            points: seq<Point>)
    requires mp + 1 < |tokens| && MovePoints(tokens, mp, cur, collected) == Ok(collected + points)
    ensures points != [] ==> cur.Some? && FollowsOffsets(tokens, mp, cur.value, points)
    decreases |points|
  {
    if points != [] {
      var p, more := MovePointsFirst(tokens, mp, cur, collected, points);
      if more {
        MovePointsFollow(tokens, mp + 4, Some(p), collected + [p], points[1..]);
      }
    }
  }

  /**
   * The first pass of the coordinate loop when it collects something: the first point
   * and whether the loop went on to another pass.
   */
  lemma MovePointsFirst(tokens: seq<string>, mp: nat, cur: Option<Point>, collected: seq<Point>, points: seq<Point>)
    returns (p: Point, more: bool)
    requires mp + 1 < |tokens| && MovePoints(tokens, mp, cur, collected) == Ok(collected + points)
    requires points != []
    ensures mp + 4 < |tokens| && !IsCommandOp(tokens[mp + 1]) && cur.Some?
    ensures OffsetAt(tokens, mp) == Ok((p.x - cur.value.x, p.y - cur.value.y)) && points[0] == p
    ensures more <==> !(mp + 5 == |tokens| || p == Point(0, 0))
    ensures !more ==> points == [p]
    ensures more ==> MovePoints(tokens, mp + 4, Some(p), collected + [p]) == Ok(collected + [p] + points[1..])
  {
    assert |collected + points| > |collected|;
    var offset := OffsetAt(tokens, mp);
    assert MovePoints(tokens, mp, cur, collected) == MovePointsFrom(tokens, mp, cur, collected, offset);
    p := Point(offset.value.0 + cur.value.x, offset.value.1 + cur.value.y);
    more := !(mp + 5 == |tokens| || p == Point(0, 0));
    assert points == (collected + points)[|collected|..];
    if more {
      MovePointsBound(tokens, mp + 4, Some(p), collected + [p]);
      assert (collected + points)[..|collected| + 1] == collected + [p];
      assert points[0] == (collected + points)[|collected|];
      assert collected + points == collected + [p] + points[1..];
    }
  }

  /** The coordinate loop ends for one of the three reasons, at the pointer past its last group. */
  lemma {:induction false} MovePointsStop(tokens: seq<string>, mp: nat, cur: Option<Point>, collected: seq<Point>,
                                          points: seq<Point>)
    requires mp + 1 < |tokens| && MovePoints(tokens, mp, cur, collected) == Ok(collected + points)
    ensures StopsAt(tokens, mp + 4 * |points|, points)
    decreases |points|
  {
    if points == [] {
      MovePointsGrows(tokens, mp, cur, collected);
    } else {
      var p, more := MovePointsFirst(tokens, mp, cur, collected, points);
      if more {
        var rest := points[1..];
        MovePointsStop(tokens, mp + 4, Some(p), collected + [p], rest);
        if rest != [] {
          assert points[|points| - 1] == rest[|rest| - 1];
        }
      }
    }
  }

  /** A pass of the coordinate loop that does not stop at a command op code collects a point. */
  lemma MovePointsGrows(tokens: seq<string>, mp: nat, cur: Option<Point>, collected: seq<Point>)
    requires mp + 1 < |tokens|
    ensures var r := MovePoints(tokens, mp, cur, collected);
      r.Ok? && !IsCommandOp(tokens[mp + 1]) ==> |r.value| > |collected|
  {
    if !IsCommandOp(tokens[mp + 1]) && mp + 4 < |tokens| {
      var offset := OffsetAt(tokens, mp);
      assert MovePoints(tokens, mp, cur, collected) == MovePointsFrom(tokens, mp, cur, collected, offset);
      if offset.Ok? && cur.Some? {
        var p := Point(offset.value.0 + cur.value.x, offset.value.1 + cur.value.y);
        if !(mp + 5 == |tokens| || p == Point(0, 0)) {
          MovePointsBound(tokens, mp + 4, Some(p), collected + [p]);
        }
      }
    }
  }

  /**
   * The coordinate loop from a move op code at `ptr`: the points it collects follow the
   * offsets from the running position and end for one of the three reasons.
   */
  lemma MovePointsShape(tokens: seq<string>, ptr: nat, cur: Option<Point>)
    requires ptr + 1 < |tokens|
    ensures var r := MovePoints(tokens, ptr, cur, []);
      r.Ok? ==> && (r.value != [] ==> cur.Some? && FollowsOffsets(tokens, ptr, cur.value, r.value))
                && StopsAt(tokens, ptr + 4 * |r.value|, r.value)
  {
    var r := MovePoints(tokens, ptr, cur, []);
    if r.Ok? {
      assert [] + r.value == r.value;
      MovePointsFollow(tokens, ptr, cur, [], r.value);
      MovePointsStop(tokens, ptr, cur, [], r.value);
    }
  }

  /** Conversely, points that follow the offsets and stop for one of the reasons are what the loop collects. */
  lemma {:induction false} MovePointsComplete(tokens: seq<string>, mp: nat, cur: Point, collected: seq<Point>,
                                              points: seq<Point>)
    requires mp + 1 < |tokens|
    requires FollowsOffsets(tokens, mp, cur, points) && StopsAt(tokens, mp + 4 * |points|, points)
    ensures MovePoints(tokens, mp, Some(cur), collected) == Ok(collected + points)
    decreases |points|
  {
    if points == [] {
      assert collected + points == collected;
    } else {
      var p := points[0];
      assert MovePoints(tokens, mp, Some(cur), collected)
          == MovePointsFrom(tokens, mp, Some(cur), collected, OffsetAt(tokens, mp));
      if mp + 5 == |tokens| || (p.x == 0 && p.y == 0) {
        assert points == [p];
      } else {
        var rest := points[1..];
        assert points == [p] + rest;
        MovePointsComplete(tokens, mp + 4, p, collected + [p], rest);
        assert collected + [p] + rest == collected + points;
      }
    }
  }

  // ---------------------------------------------------------------------------
  // Dispatch
  // ---------------------------------------------------------------------------

  /**
   * How far one pass of the main loop moves the pointer: 1 for a clear, 9 for a colour,
   * 3 for a pen, 1 plus 4 per point for a move, and not at all for a C0 that is the last
   * token; any other token is skipped by one position with the state unchanged.
   */
  lemma StepAdvance(c: Canvas, tokens: seq<string>, ptr: nat, st: State)
    requires ptr < |tokens|
    ensures var r := Step(c, tokens, ptr, st);
      && (tokens[ptr] == "F0" ==> r == Ok((ClearStep(c, st), ptr + 1)))
      && (tokens[ptr] == "A0" && r.Ok? ==> r.value.1 == ptr + 9)
      && (tokens[ptr] == "80" && r.Ok? ==> r.value.1 == ptr + 3)
      && (tokens[ptr] == "C0" && ptr + 1 == |tokens| ==> r == Ok((st, ptr)))
      && (tokens[ptr] == "C0" && ptr + 1 < |tokens| && r.Ok? ==>
            var points := MovePoints(tokens, ptr, st.current, []);
            points.Ok? && r.value.1 == ptr + 1 + 4 * |points.value|)
      && (tokens[ptr] !in {"F0", "A0", "80", "C0"} ==> r == Ok((st, ptr + 1)))
  {
  }

  /** A C0 as the last token: the source's main loop would repeat it forever. */
  lemma TrailingMoveHangs(c: Canvas, tokens: seq<string>, st: State)
    requires |tokens| > 0 && tokens[|tokens| - 1] == "C0"
    ensures Run(c, tokens, |tokens| - 1, st) == Err(NonTermination)
  {
  }
}
