/**
 * The end-to-end examples of byte_drawer/tests.py: four op-code streams, the commands
 * a drawer on the default canvas decodes from them, and their text forms.
 */
module DrawerVectors {
  import opened Failures
  import opened Geometry
  import opened Commands
  import opened Drawing
  import opened DrawingProperties
  import EdgeProperties

  // ---------------------------------------------------------------------------
  // One step of a run, for known tokens
  // ---------------------------------------------------------------------------

  /** A step that moves the pointer leaves the rest of the run to the new state. */
  lemma RunOn(c: Canvas, tokens: seq<string>, ptr: nat, st: State, next: (State, nat))
    requires ptr < |tokens| && Step(c, tokens, ptr, st) == Ok(next) && next.1 != ptr
    ensures Run(c, tokens, ptr, st) == Run(c, tokens, next.1, next.0)
  {
  }

  /** A clear op code. */
  lemma ClearAt(c: Canvas, tokens: seq<string>, ptr: nat, st: State)
    requires ptr < |tokens| && tokens[ptr] == "F0"
    ensures Run(c, tokens, ptr, st) == Run(c, tokens, ptr + 1, ClearStep(c, st))
  {
    RunOn(c, tokens, ptr, st, (ClearStep(c, st), ptr + 1));
  }

  /** A colour op code whose four pairs decode to `color`. */
  lemma ColorAt(c: Canvas, tokens: seq<string>, ptr: nat, st: State,
                r: BytePair, g: BytePair, b: BytePair, a: BytePair, color: Color)
    requires ptr + 8 < |tokens| && tokens[ptr] == "A0"
    requires tokens[ptr + 1] == r.0 && tokens[ptr + 2] == r.1 && tokens[ptr + 3] == g.0 && tokens[ptr + 4] == g.1
    requires tokens[ptr + 5] == b.0 && tokens[ptr + 6] == b.1 && tokens[ptr + 7] == a.0 && tokens[ptr + 8] == a.1
    requires ColorCommand(r, g, b, a) == Ok(SetColor(color))
    ensures Run(c, tokens, ptr, st)
         == Run(c, tokens, ptr + 9, st.(color := color, commands := st.commands + [SetColor(color)]))
  {
    RunOn(c, tokens, ptr, st, (st.(color := color, commands := st.commands + [SetColor(color)]), ptr + 9));
  }

  /** A pen op code whose pair decodes to `isDown`, accepted in state `st`. */
  lemma PenAt(c: Canvas, tokens: seq<string>, ptr: nat, st: State, pair: BytePair, isDown: bool, st': State)
    requires ptr + 2 < |tokens| && tokens[ptr] == "80" && tokens[ptr + 1] == pair.0 && tokens[ptr + 2] == pair.1
    requires PenCommand(pair) == Ok(Pen(isDown)) && SetPen(st, isDown) == Ok(st')
    ensures Run(c, tokens, ptr, st) == Run(c, tokens, ptr + 3, st')
  {
    RunOn(c, tokens, ptr, st, (st', ptr + 3));
  }

  /** `80 40 01`: the pen goes down at the current position. */
  lemma PenDownAt(c: Canvas, tokens: seq<string>, ptr: nat, st: State)
    requires ptr + 2 < |tokens| && tokens[ptr] == "80" && tokens[ptr + 1] == "40" && tokens[ptr + 2] == "01"
    requires st.current.Some? && !st.outOfBounds
    ensures Run(c, tokens, ptr, st)
         == Run(c, tokens, ptr + 3, st.(commands := st.commands + [Pen(true)], penDown := true,
                                        penDownPoints := st.penDownPoints + [st.current.value]))
  {
    PenVectors();
    PenAt(c, tokens, ptr, st, ("40", "01"), true,
          st.(commands := st.commands + [Pen(true)], penDown := true, penDownPoints := st.penDownPoints + [st.current.value]));
  }

  /** `80 40 00` as the last three tokens: the pen goes up and the stream ends. */
  lemma PenUpLast(c: Canvas, tokens: seq<string>, ptr: nat, st: State)
    requires ptr + 3 == |tokens| && tokens[ptr] == "80" && tokens[ptr + 1] == "40" && tokens[ptr + 2] == "00"
    ensures Run(c, tokens, ptr, st)
         == Ok(st.(commands := st.commands + [Pen(false)], penDown := false, penUpPoints := st.penUpPoints + [st.current]))
  {
    PenVectors();
    PenAt(c, tokens, ptr, st, ("40", "00"), false,
          st.(commands := st.commands + [Pen(false)], penDown := false, penUpPoints := st.penUpPoints + [st.current]));
  }

  /** A token that is no op code is skipped. */
  lemma SkipAt(c: Canvas, tokens: seq<string>, ptr: nat, st: State)
    requires ptr < |tokens| && tokens[ptr] != "F0" && tokens[ptr] != "A0" && tokens[ptr] != "80" && tokens[ptr] != "C0"
    ensures Run(c, tokens, ptr, st) == Run(c, tokens, ptr + 1, st)
  {
    RunOn(c, tokens, ptr, st, (st, ptr + 1));
  }

  /** A move op code whose points are known and clip to a known state. */
  lemma MoveAt(c: Canvas, tokens: seq<string>, ptr: nat, st: State, points: seq<Point>, st': State)
    requires ptr + 1 < |tokens| && tokens[ptr] == "C0" && points != []
    requires MovePoints(tokens, ptr, st.current, []) == Ok(points)
    requires ClipAll(c, st, [], points) == Ok(st')
    ensures ptr + 4 * |points| + 1 <= |tokens|
    ensures Run(c, tokens, ptr, st) == Run(c, tokens, ptr + 4 * |points| + 1, st')
  {
    MovePointsBound(tokens, ptr, st.current, []);
    RunOn(c, tokens, ptr, st, (st', ptr + 4 * |points| + 1));
  }

  /** A group of four tokens of a move after which collection goes on. */
  lemma GroupOn(tokens: seq<string>, mp: nat, cur: Point, collected: seq<Point>,
                x: BytePair, y: BytePair, dx: int, dy: int)
    requires mp + 5 < |tokens| && tokens[mp + 1] == x.0 && tokens[mp + 2] == x.1
    requires tokens[mp + 3] == y.0 && tokens[mp + 4] == y.1 && !IsCommandOp(x.0)
    requires DecodeBytes(x) == Ok(dx) && DecodeBytes(y) == Ok(dy) && Point(cur.x + dx, cur.y + dy) != Point(0, 0)
    ensures MovePoints(tokens, mp, Some(cur), collected)
         == MovePoints(tokens, mp + 4, Some(Point(cur.x + dx, cur.y + dy)), collected + [Point(cur.x + dx, cur.y + dy)])
  {
  }

  /** The last group of four tokens of a move: a command op code follows. */
  lemma GroupLast(tokens: seq<string>, mp: nat, cur: Point, collected: seq<Point>,
                  x: BytePair, y: BytePair, dx: int, dy: int)
    requires mp + 5 < |tokens| && tokens[mp + 1] == x.0 && tokens[mp + 2] == x.1
    requires tokens[mp + 3] == y.0 && tokens[mp + 4] == y.1 && !IsCommandOp(x.0) && IsCommandOp(tokens[mp + 5])
    requires DecodeBytes(x) == Ok(dx) && DecodeBytes(y) == Ok(dy)
    ensures MovePoints(tokens, mp, Some(cur), collected) == Ok(collected + [Point(cur.x + dx, cur.y + dy)])
  {
    var p := Point(cur.x + dx, cur.y + dy);
    assert MovePoints(tokens, mp + 4, Some(p), collected + [p]) == Ok(collected + [p]);
  }

  /** A group of four tokens of a move that reaches the origin, which ends the move. */
  lemma GroupOrigin(tokens: seq<string>, mp: nat, cur: Point, collected: seq<Point>,
                    x: BytePair, y: BytePair, dx: int, dy: int)
    requires mp + 4 < |tokens| && tokens[mp + 1] == x.0 && tokens[mp + 2] == x.1
    requires tokens[mp + 3] == y.0 && tokens[mp + 4] == y.1 && !IsCommandOp(x.0)
    requires DecodeBytes(x) == Ok(dx) && DecodeBytes(y) == Ok(dy) && cur.x + dx == 0 && cur.y + dy == 0
    ensures MovePoints(tokens, mp, Some(cur), collected) == Ok(collected + [Point(0, 0)])
  {
  }

  // ---------------------------------------------------------------------------
  // Byte pairs
  // ---------------------------------------------------------------------------

  // Each byte pair of the examples, decoded.

  lemma Pair4000()
    ensures DecodeBytes(("40", "00")) == Ok(0)
  {
    assert Coders.ParseHex("40") == Some(64) && Coders.ParseHex("00") == Some(0);
  }

  lemma Pair417F()
    ensures DecodeBytes(("41", "7F")) == Ok(255)
  {
    assert Coders.ParseHex("41") == Some(65) && Coders.ParseHex("7F") == Some(127);
  }

  lemma Pair4100()
    ensures DecodeBytes(("41", "00")) == Ok(128)
  {
    assert Coders.ParseHex("41") == Some(65) && Coders.ParseHex("00") == Some(0);
  }

  lemma Pair5F20()
    ensures DecodeBytes(("5F", "20")) == Ok(4000)
  {
    assert Coders.ParseHex("5F") == Some(95) && Coders.ParseHex("20") == Some(32);
  }

  lemma Pair6708()
    ensures DecodeBytes(("67", "08")) == Ok(5000)
  {
    assert Coders.ParseHex("67") == Some(103) && Coders.ParseHex("08") == Some(8);
  }

  lemma Pair1878()
    ensures DecodeBytes(("18", "78")) == Ok(-5000)
  {
    assert Coders.ParseHex("18") == Some(24) && Coders.ParseHex("78") == Some(120);
  }

  lemma Pair2C3C()
    ensures DecodeBytes(("2C", "3C")) == Ok(-2500)
  {
    assert Coders.ParseHex("2C") == Some(44) && Coders.ParseHex("3C") == Some(60);
  }

  lemma Pair0140()
    ensures DecodeBytes(("01", "40")) == Ok(-8000)
  {
    assert Coders.ParseHex("01") == Some(1) && Coders.ParseHex("40") == Some(64);
  }

  lemma Pair7E40()
    ensures DecodeBytes(("7E", "40")) == Ok(8000)
  {
    assert Coders.ParseHex("7E") == Some(126) && Coders.ParseHex("40") == Some(64);
  }

  lemma Pair5B2C()
    ensures DecodeBytes(("5B", "2C")) == Ok(3500)
  {
    assert Coders.ParseHex("5B") == Some(91) && Coders.ParseHex("2C") == Some(44);
  }

  // ---------------------------------------------------------------------------
  // The green line
  // ---------------------------------------------------------------------------

  const GreenTokens: seq<string> :=
    ["F0", "A0", "40", "00", "41", "7F", "40", "00", "41", "7F", "C0", "40", "00", "40", "00",
     "80", "40", "01", "C0", "5F", "20", "5F", "20", "80", "40", "00"]

  const Green: Color := Color(0, 255, 0, 255)

  lemma GreenColor(t: seq<string>, st: State)
    requires |t| == 26 && t[1] == "A0" && t[2] == "40" && t[3] == "00" && t[4] == "41" && t[5] == "7F"
    requires t[6] == "40" && t[7] == "00" && t[8] == "41" && t[9] == "7F"
    ensures Run(DefaultCanvas, t, 1, st)
         == Run(DefaultCanvas, t, 10, st.(color := Green, commands := st.commands + [SetColor(Green)]))
  {
    Pair4000();
    Pair417F();
    ColorAt(DefaultCanvas, t, 1, st, ("40", "00"), ("41", "7F"), ("40", "00"), ("41", "7F"), Green);
  }

  /** A move from the origin by (0, 0): the move stops at once, at the origin. */
  lemma OriginPoints(t: seq<string>)
    requires 14 < |t| && t[11] == "40" && t[12] == "00" && t[13] == "40" && t[14] == "00"
    ensures MovePoints(t, 10, Some(Point(0, 0)), []) == Ok([Point(0, 0)])
  {
    Pair4000();
    GroupOrigin(t, 10, Point(0, 0), [], ("40", "00"), ("40", "00"), 0, 0);
    assert [] + [Point(0, 0)] == [Point(0, 0)];
  }

  /** Moving to the origin with the pen up from the origin: only a move command. */
  lemma OriginClip(st: State)
    requires st.current == Some(Point(0, 0)) && !st.penDown && !st.outOfBounds
    ensures ClipAll(DefaultCanvas, st, [], [Point(0, 0)]) == Ok(st.(commands := st.commands + [Move([Point(0, 0)])]))
  {
    var origin := Point(0, 0);
    ClipMoveFree(DefaultCanvas, st, [], origin);
    assert [] + [origin] == [origin];
    ClipAllFlushes(DefaultCanvas, st, [], [origin], st.(current := Some(origin)), [origin]);
  }

  lemma GreenOrigin(t: seq<string>, st: State)
    requires |t| == 26 && t[10] == "C0" && t[11] == "40" && t[12] == "00" && t[13] == "40" && t[14] == "00"
    requires st.current == Some(Point(0, 0)) && !st.penDown && !st.outOfBounds
    ensures Run(DefaultCanvas, t, 10, st)
         == Run(DefaultCanvas, t, 15, st.(commands := st.commands + [Move([Point(0, 0)])]))
  {
    OriginPoints(t);
    OriginClip(st);
    MoveAt(DefaultCanvas, t, 10, st, [Point(0, 0)], st.(commands := st.commands + [Move([Point(0, 0)])]));
  }

  lemma GreenPenDown(t: seq<string>, st: State)
    requires |t| == 26 && t[15] == "80" && t[16] == "40" && t[17] == "01"
    requires st.current == Some(Point(0, 0)) && !st.outOfBounds
    ensures Run(DefaultCanvas, t, 15, st)
         == Run(DefaultCanvas, t, 18, st.(commands := st.commands + [Pen(true)], penDown := true,
                                         penDownPoints := st.penDownPoints + [Point(0, 0)]))
  {
    PenDownAt(DefaultCanvas, t, 15, st);
  }

  lemma GreenStrokePoints(t: seq<string>)
    requires |t| == 26 && t[19] == "5F" && t[20] == "20" && t[21] == "5F" && t[22] == "20" && t[23] == "80"
    ensures MovePoints(t, 18, Some(Point(0, 0)), []) == Ok([Point(4000, 4000)])
  {
    Pair5F20();
    GroupLast(t, 18, Point(0, 0), [], ("5F", "20"), ("5F", "20"), 4000, 4000);
    assert [] + [Point(4000, 4000)] == [Point(4000, 4000)];
  }

  lemma GreenStrokeClip(st: State)
    requires st.current == Some(Point(0, 0)) && st.penDown
    ensures ClipAll(DefaultCanvas, st, [], [Point(4000, 4000)])
         == Ok(st.(commands := st.commands + [Move([Point(4000, 4000)])], current := Some(Point(4000, 4000)),
                   lines := st.lines + [Line(Point(0, 0), Point(4000, 4000), st.color)]))
  {
    var p := Point(4000, 4000);
    ClipDrawInside(DefaultCanvas, st, [], p);
    assert [] + [p] == [p];
    var st' := st.(lines := st.lines + [Line(Point(0, 0), p, st.color)], current := Some(p));
    ClipAllFlushes(DefaultCanvas, st, [], [p], st', [p]);
  }

  lemma GreenStroke(t: seq<string>, st: State)
    requires |t| == 26 && t[18] == "C0" && t[19] == "5F" && t[20] == "20" && t[21] == "5F" && t[22] == "20"
    requires t[23] == "80"
    requires st.current == Some(Point(0, 0)) && st.penDown
    ensures Run(DefaultCanvas, t, 18, st)
         == Run(DefaultCanvas, t, 23, st.(commands := st.commands + [Move([Point(4000, 4000)])],
                                         current := Some(Point(4000, 4000)),
                                         lines := st.lines + [Line(Point(0, 0), Point(4000, 4000), st.color)]))
  {
    GreenStrokePoints(t);
    GreenStrokeClip(st);
    MoveAt(DefaultCanvas, t, 18, st, [Point(4000, 4000)],
           st.(commands := st.commands + [Move([Point(4000, 4000)])], current := Some(Point(4000, 4000)),
               lines := st.lines + [Line(Point(0, 0), Point(4000, 4000), st.color)]));
  }

  lemma GreenPenUp(t: seq<string>, st: State)
    requires |t| == 26 && t[23] == "80" && t[24] == "40" && t[25] == "00"
    ensures Run(DefaultCanvas, t, 23, st)
         == Ok(st.(commands := st.commands + [Pen(false)], penDown := false, penUpPoints := st.penUpPoints + [st.current]))
  {
    PenUpLast(DefaultCanvas, t, 23, st);
  }

  /** The state the green line leaves, from the state after its clear. */
  function GreenEnd(s1: State): State {
    var s3 := s1.(color := Green, commands := s1.commands + [SetColor(Green)] + [Move([Point(0, 0)])]);
    var s4 := s3.(commands := s3.commands + [Pen(true)], penDown := true, penDownPoints := s3.penDownPoints + [Point(0, 0)]);
    var s5 := s4.(commands := s4.commands + [Move([Point(4000, 4000)])], current := Some(Point(4000, 4000)),
                  lines := s4.lines + [Line(Point(0, 0), Point(4000, 4000), Green)]);
    s5.(commands := s5.commands + [Pen(false)], penDown := false, penUpPoints := s5.penUpPoints + [s5.current])
  }

  /** The green line on any state after a clear, for tokens that hold the green stream. */
  lemma GreenFrom(t: seq<string>, s1: State)
    requires |t| == 26 && t[0] == "F0" && t[1] == "A0" && t[2] == "40" && t[3] == "00" && t[4] == "41"
    requires t[5] == "7F" && t[6] == "40" && t[7] == "00" && t[8] == "41" && t[9] == "7F" && t[10] == "C0"
    requires t[11] == "40" && t[12] == "00" && t[13] == "40" && t[14] == "00" && t[15] == "80" && t[16] == "40"
    requires t[17] == "01" && t[18] == "C0" && t[19] == "5F" && t[20] == "20" && t[21] == "5F" && t[22] == "20"
    requires t[23] == "80" && t[24] == "40" && t[25] == "00"
    requires s1.current == Some(Point(0, 0)) && !s1.penDown && !s1.outOfBounds
    ensures Run(DefaultCanvas, t, 1, s1) == Ok(GreenEnd(s1))
  {
    var s2 := s1.(color := Green, commands := s1.commands + [SetColor(Green)]);
    GreenColor(t, s1);
    var s3 := s2.(commands := s2.commands + [Move([Point(0, 0)])]);
    GreenOrigin(t, s2);
    var s4 := s3.(commands := s3.commands + [Pen(true)], penDown := true, penDownPoints := s3.penDownPoints + [Point(0, 0)]);
    GreenPenDown(t, s3);
    var s5 := s4.(commands := s4.commands + [Move([Point(4000, 4000)])], current := Some(Point(4000, 4000)),
                  lines := s4.lines + [Line(Point(0, 0), Point(4000, 4000), s4.color)]);
    GreenStroke(t, s4);
    GreenPenUp(t, s5);
  }

  /** The commands of the green line, after its clear. */
  lemma GreenEndCommands(s1: State)
    requires s1.commands == [Clear]
    ensures GreenEnd(s1).commands
         == [Clear, SetColor(Green), Move([Point(0, 0)]), Pen(true), Move([Point(4000, 4000)]), Pen(false)]
    ensures GreenEnd(s1).lines == s1.lines + [Line(Point(0, 0), Point(4000, 4000), Green)]
  {
  }

  /** The tokens of the green line: the clear and colour commands. */
  lemma GreenTokensHead(t: seq<string>)
    requires t == GreenTokens
    ensures t[0] == "F0" && t[1] == "A0" && t[2] == "40" && t[3] == "00" && t[4] == "41"
  {
  }

  /** The tokens of the green line: the rest of the colour and the first move. */
  lemma GreenTokensMiddle(t: seq<string>)
    requires t == GreenTokens
    ensures t[5] == "7F" && t[6] == "40" && t[7] == "00" && t[8] == "41" && t[9] == "7F"
    ensures t[10] == "C0" && t[11] == "40" && t[12] == "00"
  {
  }

  /** The tokens of the green line, second half. */
  lemma GreenTokensTail(t: seq<string>)
    requires t == GreenTokens
    ensures t[13] == "40" && t[14] == "00" && t[15] == "80" && t[16] == "40" && t[17] == "01" && t[18] == "C0"
    ensures t[19] == "5F" && t[20] == "20" && t[21] == "5F" && t[22] == "20" && t[23] == "80" && t[24] == "40"
    ensures t[25] == "00"
  {
  }

  /** The green line: clear, set green, move to the origin, pen down, draw to (4000, 4000), pen up. */
  lemma GreenRun()
    ensures var r := Run(DefaultCanvas, GreenTokens, 0, InitialState(None));
      && r.Ok?
      && r.value.commands
         == [Clear, SetColor(Green), Move([Point(0, 0)]), Pen(true), Move([Point(4000, 4000)]), Pen(false)]
      && r.value.lines == DefaultCanvas.Borders() + [Line(Point(0, 0), Point(4000, 4000), Green)]
  {
    var t := GreenTokens;
    GreenTokensHead(t);
    GreenTokensMiddle(t);
    GreenTokensTail(t);
    var s1 := ClearStep(DefaultCanvas, InitialState(None));
    ClearAt(DefaultCanvas, t, 0, InitialState(None));
    GreenFrom(t, s1);
    GreenEndCommands(s1);
  }
  // ---------------------------------------------------------------------------
  // The first move of the red and orange examples: (5000, 5000), then pen down
  // ---------------------------------------------------------------------------

  lemma ApproachPoints(t: seq<string>)
    requires 15 < |t| && t[11] == "67" && t[12] == "08" && t[13] == "67" && t[14] == "08" && t[15] == "80"
    ensures MovePoints(t, 10, Some(Point(0, 0)), []) == Ok([Point(5000, 5000)])
  {
    Pair6708();
    GroupLast(t, 10, Point(0, 0), [], ("67", "08"), ("67", "08"), 5000, 5000);
    assert [] + [Point(5000, 5000)] == [Point(5000, 5000)];
  }

  lemma ApproachClip(st: State)
    requires st.current == Some(Point(0, 0)) && !st.penDown && !st.outOfBounds
    ensures ClipAll(DefaultCanvas, st, [], [Point(5000, 5000)])
         == Ok(st.(commands := st.commands + [Move([Point(5000, 5000)])], current := Some(Point(5000, 5000))))
  {
    var p := Point(5000, 5000);
    ClipMoveFree(DefaultCanvas, st, [], p);
    assert [] + [p] == [p];
    ClipAllFlushes(DefaultCanvas, st, [], [p], st.(current := Some(p)), [p]);
  }

  // ---------------------------------------------------------------------------
  // The red clipping
  // ---------------------------------------------------------------------------

  const RedTokens: seq<string> :=
    ["F0", "A0", "41", "7F", "40", "00", "40", "00", "41", "7F", "C0", "67", "08", "67", "08", "80", "40",
     "01", "C0", "67", "08", "40", "00", "40", "00", "18", "78", "18", "78", "40", "00", "80", "40", "00"]

  const Red: Color := Color(255, 0, 0, 255)

  lemma RedColor(t: seq<string>, st: State)
    requires |t| == 34 && t[1] == "A0" && t[2] == "41" && t[3] == "7F" && t[4] == "40" && t[5] == "00"
    requires t[6] == "40" && t[7] == "00" && t[8] == "41" && t[9] == "7F"
    ensures Run(DefaultCanvas, t, 1, st)
         == Run(DefaultCanvas, t, 10, st.(color := Red, commands := st.commands + [SetColor(Red)]))
  {
    Pair4000();
    Pair417F();
    ColorAt(DefaultCanvas, t, 1, st, ("41", "7F"), ("40", "00"), ("40", "00"), ("41", "7F"), Red);
  }

  lemma RedApproach(t: seq<string>, st: State)
    requires |t| == 34 && t[10] == "C0" && t[11] == "67" && t[12] == "08" && t[13] == "67" && t[14] == "08"
    requires t[15] == "80"
    requires st.current == Some(Point(0, 0)) && !st.penDown && !st.outOfBounds
    ensures Run(DefaultCanvas, t, 10, st)
         == Run(DefaultCanvas, t, 15, st.(commands := st.commands + [Move([Point(5000, 5000)])],
                                         current := Some(Point(5000, 5000))))
  {
    ApproachPoints(t);
    ApproachClip(st);
    MoveAt(DefaultCanvas, t, 10, st, [Point(5000, 5000)],
           st.(commands := st.commands + [Move([Point(5000, 5000)])], current := Some(Point(5000, 5000))));
  }

  lemma RedPenDown(t: seq<string>, st: State)
    requires |t| == 34 && t[15] == "80" && t[16] == "40" && t[17] == "01"
    requires st.current == Some(Point(5000, 5000)) && !st.outOfBounds
    ensures Run(DefaultCanvas, t, 15, st)
         == Run(DefaultCanvas, t, 18, st.(commands := st.commands + [Pen(true)], penDown := true,
                                         penDownPoints := st.penDownPoints + [Point(5000, 5000)]))
  {
    PenDownAt(DefaultCanvas, t, 15, st);
  }

  lemma RedStrokeLast(t: seq<string>)
    requires |t| == 34 && t[27] == "18" && t[28] == "78" && t[29] == "40" && t[30] == "00" && t[31] == "80"
    ensures MovePoints(t, 26, Some(Point(10000, 0)), [Point(10000, 5000), Point(10000, 0)])
         == Ok([Point(10000, 5000), Point(10000, 0), Point(5000, 0)])
  {
    var a, b, c := Point(10000, 5000), Point(10000, 0), Point(5000, 0);
    Pair4000();
    Pair1878();
    GroupLast(t, 26, b, [a, b], ("18", "78"), ("40", "00"), -5000, 0);
    assert [a, b] + [c] == [a, b, c];
  }

  lemma RedStrokeDown(t: seq<string>)
    requires |t| == 34 && t[23] == "40" && t[24] == "00" && t[25] == "18" && t[26] == "78" && t[27] == "18"
    requires t[28] == "78" && t[29] == "40" && t[30] == "00" && t[31] == "80"
    ensures MovePoints(t, 22, Some(Point(10000, 5000)), [Point(10000, 5000)])
         == Ok([Point(10000, 5000), Point(10000, 0), Point(5000, 0)])
  {
    var a, b := Point(10000, 5000), Point(10000, 0);
    Pair4000();
    Pair1878();
    GroupOn(t, 22, a, [a], ("40", "00"), ("18", "78"), 0, -5000);
    assert [a] + [b] == [a, b];
    RedStrokeLast(t);
  }

  lemma RedStrokePoints(t: seq<string>)
    requires |t| == 34 && t[19] == "67" && t[20] == "08" && t[21] == "40" && t[22] == "00" && t[23] == "40"
    requires t[24] == "00" && t[25] == "18" && t[26] == "78" && t[27] == "18" && t[28] == "78" && t[29] == "40"
    requires t[30] == "00" && t[31] == "80"
    ensures MovePoints(t, 18, Some(Point(5000, 5000)), [])
         == Ok([Point(10000, 5000), Point(10000, 0), Point(5000, 0)])
  {
    var a := Point(10000, 5000);
    Pair6708();
    Pair4000();
    GroupOn(t, 18, Point(5000, 5000), [], ("67", "08"), ("40", "00"), 5000, 0);
    assert [] + [a] == [a];
    RedStrokeDown(t);
  }

  /** Leaving to the right along y = 5000. */
  lemma RedExitEdge()
    ensures EdgePoint(DefaultCanvas, Point(5000, 5000), Point(10000, 5000)) == Ok(Point(8191, 5000))
  {
    EdgeProperties.RightExit(DefaultCanvas, Point(5000, 5000), Point(10000, 5000));
    assert EdgeProperties.LineHeight(Point(5000, 5000), Point(10000, 5000), 8191) == 5000.0;
  }

  /** Coming back from the right along y = 0. */
  lemma RedReenterEdge()
    ensures EdgePoint(DefaultCanvas, Point(5000, 0), Point(10000, 0)) == Ok(Point(8191, 0))
  {
    EdgeProperties.RightExit(DefaultCanvas, Point(5000, 0), Point(10000, 0));
    assert EdgeProperties.LineHeight(Point(5000, 0), Point(10000, 0), 8191) == 0.0;
  }

  /** The red stroke clipped: out through the right edge, along outside, back in through it. */
  function RedClip(st: State): State {
    var exit, back := Point(8191, 5000), Point(8191, 0);
    var s1 := st.(commands := st.commands + [Move([exit]), Pen(false)], penDown := false,
                  lines := st.lines + [Line(Point(5000, 5000), exit, st.color)],
                  penUpPoints := st.penUpPoints + [Some(exit)], outOfBounds := true, wasDrawing := true,
                  current := Some(Point(10000, 5000)));
    var s2 := s1.(current := Some(Point(10000, 0)));
    var s3 := s2.(commands := s2.commands + [Move([back]), Pen(true)], penDown := true,
                  lines := s2.lines + [Line(Point(5000, 0), back, st.color)],
                  penDownPoints := s2.penDownPoints + [back], outOfBounds := false, wasDrawing := false,
                  current := Some(Point(5000, 0)));
    s3.(commands := s3.commands + [Move([Point(5000, 0)])])
  }

  lemma RedStrokeClip(st: State)
    requires st.current == Some(Point(5000, 5000)) && st.penDown
    ensures ClipAll(DefaultCanvas, st, [], [Point(10000, 5000), Point(10000, 0), Point(5000, 0)]) == Ok(RedClip(st))
  {
    var c := DefaultCanvas;
    var a, b, d := Point(10000, 5000), Point(10000, 0), Point(5000, 0);
    var exit, back := Point(8191, 5000), Point(8191, 0);
    RedExitEdge();
    ClipExit(c, st, [], a, exit);
    assert [] + [exit] == [exit];
    var s1 := st.(commands := st.commands + [Move([exit]), Pen(false)], penDown := false,
                  lines := st.lines + [Line(Point(5000, 5000), exit, st.color)],
                  penUpPoints := st.penUpPoints + [Some(exit)], outOfBounds := true, wasDrawing := true,
                  current := Some(a));
    ClipAllFlushes(c, st, [], [a, b, d], s1, []);
    ClipStayOutside(c, s1, [], b);
    var s2 := s1.(current := Some(b));
    ClipAllFlushes(c, s1, [], [b, d], s2, []);
    RedReenterEdge();
    ClipReenter(c, s2, [], d, back);
    assert [] + [back] == [back];
    var s3 := s2.(commands := s2.commands + [Move([back]), Pen(true)], penDown := true,
                  lines := s2.lines + [Line(d, back, st.color)],
                  penDownPoints := s2.penDownPoints + [back], outOfBounds := false, wasDrawing := false,
                  current := Some(d));
    ClipAllFlushes(c, s2, [], [d], s3, [d]);
  }

  lemma RedStroke(t: seq<string>, st: State)
    requires |t| == 34 && t[18] == "C0" && t[19] == "67" && t[20] == "08" && t[21] == "40" && t[22] == "00"
    requires t[23] == "40" && t[24] == "00" && t[25] == "18" && t[26] == "78" && t[27] == "18" && t[28] == "78"
    requires t[29] == "40" && t[30] == "00" && t[31] == "80"
    requires st.current == Some(Point(5000, 5000)) && st.penDown
    ensures Run(DefaultCanvas, t, 18, st) == Run(DefaultCanvas, t, 31, RedClip(st))
  {
    RedStrokePoints(t);
    RedStrokeClip(st);
    MoveAt(DefaultCanvas, t, 18, st, [Point(10000, 5000), Point(10000, 0), Point(5000, 0)], RedClip(st));
  }

  lemma RedPenUp(t: seq<string>, st: State)
    requires |t| == 34 && t[31] == "80" && t[32] == "40" && t[33] == "00"
    ensures Run(DefaultCanvas, t, 31, st)
         == Ok(st.(commands := st.commands + [Pen(false)], penDown := false, penUpPoints := st.penUpPoints + [st.current]))
  {
    PenUpLast(DefaultCanvas, t, 31, st);
  }

  /** The state the red clipping leaves, from the state after its clear. */
  function RedEnd(s1: State): State {
    var s3 := s1.(color := Red, commands := s1.commands + [SetColor(Red)] + [Move([Point(5000, 5000)])],
                  current := Some(Point(5000, 5000)));
    var s4 := s3.(commands := s3.commands + [Pen(true)], penDown := true,
                  penDownPoints := s3.penDownPoints + [Point(5000, 5000)]);
    var s5 := RedClip(s4);
    s5.(commands := s5.commands + [Pen(false)], penDown := false, penUpPoints := s5.penUpPoints + [s5.current])
  }

  /** The red clipping on any state after a clear, for tokens that hold the red stream. */
  lemma RedFrom(t: seq<string>, s1: State)
    requires |t| == 34
    requires t[0] == "F0" && t[1] == "A0" && t[2] == "41" && t[3] == "7F" && t[4] == "40" && t[5] == "00"
    requires t[6] == "40" && t[7] == "00" && t[8] == "41" && t[9] == "7F" && t[10] == "C0" && t[11] == "67"
    requires t[12] == "08" && t[13] == "67" && t[14] == "08" && t[15] == "80" && t[16] == "40" && t[17] == "01"
    requires t[18] == "C0" && t[19] == "67" && t[20] == "08" && t[21] == "40" && t[22] == "00" && t[23] == "40"
    requires t[24] == "00" && t[25] == "18" && t[26] == "78" && t[27] == "18" && t[28] == "78" && t[29] == "40"
    requires t[30] == "00" && t[31] == "80" && t[32] == "40" && t[33] == "00"
    requires s1.current == Some(Point(0, 0)) && !s1.penDown && !s1.outOfBounds
    ensures Run(DefaultCanvas, t, 1, s1) == Ok(RedEnd(s1))
  {
    var s2 := s1.(color := Red, commands := s1.commands + [SetColor(Red)]);
    RedColor(t, s1);
    var s3 := s2.(commands := s2.commands + [Move([Point(5000, 5000)])], current := Some(Point(5000, 5000)));
    RedApproach(t, s2);
    var s4 := s3.(commands := s3.commands + [Pen(true)], penDown := true,
                  penDownPoints := s3.penDownPoints + [Point(5000, 5000)]);
    RedPenDown(t, s3);
    RedStroke(t, s4);
    RedPenUp(t, RedClip(s4));
  }

  /** The commands and the lines of the red clipping, after its clear. */
  lemma RedEndCommands(s1: State)
    requires s1.commands == [Clear]
    ensures RedEnd(s1).commands
         == [Clear, SetColor(Red), Move([Point(5000, 5000)]), Pen(true), Move([Point(8191, 5000)]), Pen(false),
             Move([Point(8191, 0)]), Pen(true), Move([Point(5000, 0)]), Pen(false)]
    ensures RedEnd(s1).lines
         == s1.lines + [Line(Point(5000, 5000), Point(8191, 5000), Red), Line(Point(5000, 0), Point(8191, 0), Red)]
  {
  }

  // The tokens of the red clipping, five at a time.

  lemma RedTokens0(t: seq<string>)
    requires t == RedTokens
    ensures t[0] == "F0" && t[1] == "A0" && t[2] == "41" && t[3] == "7F" && t[4] == "40"
  {
  }

  lemma RedTokens1(t: seq<string>)
    requires t == RedTokens
    ensures t[5] == "00" && t[6] == "40" && t[7] == "00" && t[8] == "41" && t[9] == "7F"
  {
  }

  lemma RedTokens2(t: seq<string>)
    requires t == RedTokens
    ensures t[10] == "C0" && t[11] == "67" && t[12] == "08" && t[13] == "67" && t[14] == "08"
  {
  }

  lemma RedTokens3(t: seq<string>)
    requires t == RedTokens
    ensures t[15] == "80" && t[16] == "40" && t[17] == "01" && t[18] == "C0" && t[19] == "67"
  {
  }

  lemma RedTokens4(t: seq<string>)
    requires t == RedTokens
    ensures t[20] == "08" && t[21] == "40" && t[22] == "00" && t[23] == "40" && t[24] == "00"
  {
  }

  lemma RedTokens5(t: seq<string>)
    requires t == RedTokens
    ensures t[25] == "18" && t[26] == "78" && t[27] == "18" && t[28] == "78" && t[29] == "40"
  {
  }

  lemma RedTokens6(t: seq<string>)
    requires t == RedTokens
    ensures t[30] == "00" && t[31] == "80" && t[32] == "40" && t[33] == "00"
  {
  }

  /**
   * The red clipping: from (5000, 5000) the pen draws right, leaves the canvas at
   * (8191, 5000), travels outside to (10000, 0), and comes back in at (8191, 0) to end at
   * (5000, 0). Only the two parts inside the canvas are drawn.
   */
  lemma RedRun()
    ensures var r := Run(DefaultCanvas, RedTokens, 0, InitialState(None));
      && r.Ok?
      && r.value.commands
         == [Clear, SetColor(Red), Move([Point(5000, 5000)]), Pen(true), Move([Point(8191, 5000)]), Pen(false),
             Move([Point(8191, 0)]), Pen(true), Move([Point(5000, 0)]), Pen(false)]
      && r.value.lines
         == DefaultCanvas.Borders()
            + [Line(Point(5000, 5000), Point(8191, 5000), Red), Line(Point(5000, 0), Point(8191, 0), Red)]
  {
    var t := RedTokens;
    RedTokens0(t);
    RedTokens1(t);
    RedTokens2(t);
    RedTokens3(t);
    RedTokens4(t);
    RedTokens5(t);
    RedTokens6(t);
    var s1 := ClearStep(DefaultCanvas, InitialState(None));
    ClearAt(DefaultCanvas, t, 0, InitialState(None));
    RedFrom(t, s1);
    RedEndCommands(s1);
  }
  // ---------------------------------------------------------------------------
  // The orange diagonal clipping
  // ---------------------------------------------------------------------------

  const OrangeTokens: seq<string> :=
    ["F0", "A0", "41", "7F", "41", "00", "40", "00", "41", "7F", "C0", "67", "08", "67", "08", "80", "40",
     "01", "C0", "67", "08", "2C", "3C", "18", "78", "2C", "3C", "80", "40", "00"]

  const Orange: Color := Color(255, 128, 0, 255)

  lemma OrangeColor(t: seq<string>, st: State)
    requires |t| == 30 && t[1] == "A0" && t[2] == "41" && t[3] == "7F" && t[4] == "41" && t[5] == "00"
    requires t[6] == "40" && t[7] == "00" && t[8] == "41" && t[9] == "7F"
    ensures Run(DefaultCanvas, t, 1, st)
         == Run(DefaultCanvas, t, 10, st.(color := Orange, commands := st.commands + [SetColor(Orange)]))
  {
    Pair4000();
    Pair417F();
    Pair4100();
    ColorAt(DefaultCanvas, t, 1, st, ("41", "7F"), ("41", "00"), ("40", "00"), ("41", "7F"), Orange);
  }

  lemma OrangeApproach(t: seq<string>, st: State)
    requires |t| == 30 && t[10] == "C0" && t[11] == "67" && t[12] == "08" && t[13] == "67" && t[14] == "08"
    requires t[15] == "80"
    requires st.current == Some(Point(0, 0)) && !st.penDown && !st.outOfBounds
    ensures Run(DefaultCanvas, t, 10, st)
         == Run(DefaultCanvas, t, 15, st.(commands := st.commands + [Move([Point(5000, 5000)])],
                                         current := Some(Point(5000, 5000))))
  {
    ApproachPoints(t);
    ApproachClip(st);
    MoveAt(DefaultCanvas, t, 10, st, [Point(5000, 5000)],
           st.(commands := st.commands + [Move([Point(5000, 5000)])], current := Some(Point(5000, 5000))));
  }

  lemma OrangePenDown(t: seq<string>, st: State)
    requires |t| == 30 && t[15] == "80" && t[16] == "40" && t[17] == "01"
    requires st.current == Some(Point(5000, 5000)) && !st.outOfBounds
    ensures Run(DefaultCanvas, t, 15, st)
         == Run(DefaultCanvas, t, 18, st.(commands := st.commands + [Pen(true)], penDown := true,
                                         penDownPoints := st.penDownPoints + [Point(5000, 5000)]))
  {
    PenDownAt(DefaultCanvas, t, 15, st);
  }

  lemma OrangeStrokeLast(t: seq<string>)
    requires |t| == 30 && t[23] == "18" && t[24] == "78" && t[25] == "2C" && t[26] == "3C" && t[27] == "80"
    ensures MovePoints(t, 22, Some(Point(10000, 2500)), [Point(10000, 2500)])
         == Ok([Point(10000, 2500), Point(5000, 0)])
  {
    var a, b := Point(10000, 2500), Point(5000, 0);
    Pair1878();
    Pair2C3C();
    GroupLast(t, 22, a, [a], ("18", "78"), ("2C", "3C"), -5000, -2500);
    assert [a] + [b] == [a, b];
  }

  lemma OrangeStrokePoints(t: seq<string>)
    requires |t| == 30 && t[19] == "67" && t[20] == "08" && t[21] == "2C" && t[22] == "3C" && t[23] == "18"
    requires t[24] == "78" && t[25] == "2C" && t[26] == "3C" && t[27] == "80"
    ensures MovePoints(t, 18, Some(Point(5000, 5000)), []) == Ok([Point(10000, 2500), Point(5000, 0)])
  {
    var a := Point(10000, 2500);
    Pair6708();
    Pair2C3C();
    GroupOn(t, 18, Point(5000, 5000), [], ("67", "08"), ("2C", "3C"), 5000, -2500);
    assert [] + [a] == [a];
    OrangeStrokeLast(t);
  }

  /** Leaving to the right on the line y = -x/2 + 7500, at height 3404.5. */
  lemma OrangeExitEdge()
    ensures EdgePoint(DefaultCanvas, Point(5000, 5000), Point(10000, 2500)) == Ok(Point(8191, 3404))
  {
    EdgeProperties.RightExit(DefaultCanvas, Point(5000, 5000), Point(10000, 2500));
    assert EdgeProperties.LineHeight(Point(5000, 5000), Point(10000, 2500), 8191) == 3404.5;
    assert Trunc(3404.5) == 3404;
  }

  /** Coming back from the right on the line y = x/2 - 2500, at height 1595.5. */
  lemma OrangeReenterEdge()
    ensures EdgePoint(DefaultCanvas, Point(5000, 0), Point(10000, 2500)) == Ok(Point(8191, 1595))
  {
    EdgeProperties.RightExit(DefaultCanvas, Point(5000, 0), Point(10000, 2500));
    assert EdgeProperties.LineHeight(Point(5000, 0), Point(10000, 2500), 8191) == 1595.5;
    assert Trunc(1595.5) == 1595;
  }

  /** The orange stroke clipped: out through the right edge, then straight back in through it. */
  function OrangeClip(st: State): State {
    var exit, back := Point(8191, 3404), Point(8191, 1595);
    var s1 := st.(commands := st.commands + [Move([exit]), Pen(false)], penDown := false,
                  lines := st.lines + [Line(Point(5000, 5000), exit, st.color)],
                  penUpPoints := st.penUpPoints + [Some(exit)], outOfBounds := true, wasDrawing := true,
                  current := Some(Point(10000, 2500)));
    var s2 := s1.(commands := s1.commands + [Move([back]), Pen(true)], penDown := true,
                  lines := s1.lines + [Line(Point(5000, 0), back, st.color)],
                  penDownPoints := s1.penDownPoints + [back], outOfBounds := false, wasDrawing := false,
                  current := Some(Point(5000, 0)));
    s2.(commands := s2.commands + [Move([Point(5000, 0)])])
  }

  lemma OrangeStrokeClip(st: State)
    requires st.current == Some(Point(5000, 5000)) && st.penDown
    ensures ClipAll(DefaultCanvas, st, [], [Point(10000, 2500), Point(5000, 0)]) == Ok(OrangeClip(st))
  {
    var c := DefaultCanvas;
    var a, d := Point(10000, 2500), Point(5000, 0);
    var exit, back := Point(8191, 3404), Point(8191, 1595);
    OrangeExitEdge();
    ClipExit(c, st, [], a, exit);
    assert [] + [exit] == [exit];
    var s1 := st.(commands := st.commands + [Move([exit]), Pen(false)], penDown := false,
                  lines := st.lines + [Line(Point(5000, 5000), exit, st.color)],
                  penUpPoints := st.penUpPoints + [Some(exit)], outOfBounds := true, wasDrawing := true,
                  current := Some(a));
    ClipAllFlushes(c, st, [], [a, d], s1, []);
    OrangeReenterEdge();
    ClipReenter(c, s1, [], d, back);
    assert [] + [back] == [back];
    var s2 := s1.(commands := s1.commands + [Move([back]), Pen(true)], penDown := true,
                  lines := s1.lines + [Line(d, back, st.color)],
                  penDownPoints := s1.penDownPoints + [back], outOfBounds := false, wasDrawing := false,
                  current := Some(d));
    ClipAllFlushes(c, s1, [], [d], s2, [d]);
  }

  lemma OrangeStroke(t: seq<string>, st: State)
    requires |t| == 30 && t[18] == "C0" && t[19] == "67" && t[20] == "08" && t[21] == "2C" && t[22] == "3C"
    requires t[23] == "18" && t[24] == "78" && t[25] == "2C" && t[26] == "3C" && t[27] == "80"
    requires st.current == Some(Point(5000, 5000)) && st.penDown
    ensures Run(DefaultCanvas, t, 18, st) == Run(DefaultCanvas, t, 27, OrangeClip(st))
  {
    OrangeStrokePoints(t);
    OrangeStrokeClip(st);
    MoveAt(DefaultCanvas, t, 18, st, [Point(10000, 2500), Point(5000, 0)], OrangeClip(st));
  }

  lemma OrangePenUp(t: seq<string>, st: State)
    requires |t| == 30 && t[27] == "80" && t[28] == "40" && t[29] == "00"
    ensures Run(DefaultCanvas, t, 27, st)
         == Ok(st.(commands := st.commands + [Pen(false)], penDown := false, penUpPoints := st.penUpPoints + [st.current]))
  {
    PenUpLast(DefaultCanvas, t, 27, st);
  }

  /** The state the orange clipping leaves, from the state after its clear. */
  function OrangeEnd(s1: State): State {
    var s3 := s1.(color := Orange, commands := s1.commands + [SetColor(Orange)] + [Move([Point(5000, 5000)])],
                  current := Some(Point(5000, 5000)));
    var s4 := s3.(commands := s3.commands + [Pen(true)], penDown := true,
                  penDownPoints := s3.penDownPoints + [Point(5000, 5000)]);
    var s5 := OrangeClip(s4);
    s5.(commands := s5.commands + [Pen(false)], penDown := false, penUpPoints := s5.penUpPoints + [s5.current])
  }

  /** The orange clipping on any state after a clear, for tokens that hold the orange stream. */
  lemma OrangeFrom(t: seq<string>, s1: State)
    requires |t| == 30
    requires t[0] == "F0" && t[1] == "A0" && t[2] == "41" && t[3] == "7F" && t[4] == "41" && t[5] == "00"
    requires t[6] == "40" && t[7] == "00" && t[8] == "41" && t[9] == "7F" && t[10] == "C0" && t[11] == "67"
    requires t[12] == "08" && t[13] == "67" && t[14] == "08" && t[15] == "80" && t[16] == "40" && t[17] == "01"
    requires t[18] == "C0" && t[19] == "67" && t[20] == "08" && t[21] == "2C" && t[22] == "3C" && t[23] == "18"
    requires t[24] == "78" && t[25] == "2C" && t[26] == "3C" && t[27] == "80" && t[28] == "40" && t[29] == "00"
    requires s1.current == Some(Point(0, 0)) && !s1.penDown && !s1.outOfBounds
    ensures Run(DefaultCanvas, t, 1, s1) == Ok(OrangeEnd(s1))
  {
    var s2 := s1.(color := Orange, commands := s1.commands + [SetColor(Orange)]);
    OrangeColor(t, s1);
    var s3 := s2.(commands := s2.commands + [Move([Point(5000, 5000)])], current := Some(Point(5000, 5000)));
    OrangeApproach(t, s2);
    var s4 := s3.(commands := s3.commands + [Pen(true)], penDown := true,
                  penDownPoints := s3.penDownPoints + [Point(5000, 5000)]);
    OrangePenDown(t, s3);
    OrangeStroke(t, s4);
    OrangePenUp(t, OrangeClip(s4));
  }

  /** The commands and the lines of the orange clipping, after its clear. */
  lemma OrangeEndCommands(s1: State)
    requires s1.commands == [Clear]
    ensures OrangeEnd(s1).commands
         == [Clear, SetColor(Orange), Move([Point(5000, 5000)]), Pen(true), Move([Point(8191, 3404)]), Pen(false),
             Move([Point(8191, 1595)]), Pen(true), Move([Point(5000, 0)]), Pen(false)]
    ensures OrangeEnd(s1).lines
         == s1.lines + [Line(Point(5000, 5000), Point(8191, 3404), Orange), Line(Point(5000, 0), Point(8191, 1595), Orange)]
  {
  }

  // The tokens of the orange clipping, five at a time.

  lemma OrangeTokens0(t: seq<string>)
    requires t == OrangeTokens
    ensures t[0] == "F0" && t[1] == "A0" && t[2] == "41" && t[3] == "7F" && t[4] == "41"
  {
  }

  lemma OrangeTokens1(t: seq<string>)
    requires t == OrangeTokens
    ensures t[5] == "00" && t[6] == "40" && t[7] == "00" && t[8] == "41" && t[9] == "7F"
  {
  }

  lemma OrangeTokens2(t: seq<string>)
    requires t == OrangeTokens
    ensures t[10] == "C0" && t[11] == "67" && t[12] == "08" && t[13] == "67" && t[14] == "08"
  {
  }

  lemma OrangeTokens3(t: seq<string>)
    requires t == OrangeTokens
    ensures t[15] == "80" && t[16] == "40" && t[17] == "01" && t[18] == "C0" && t[19] == "67"
  {
  }

  lemma OrangeTokens4(t: seq<string>)
    requires t == OrangeTokens
    ensures t[20] == "08" && t[21] == "2C" && t[22] == "3C" && t[23] == "18" && t[24] == "78"
  {
  }

  lemma OrangeTokens5(t: seq<string>)
    requires t == OrangeTokens
    ensures t[25] == "2C" && t[26] == "3C" && t[27] == "80" && t[28] == "40" && t[29] == "00"
  {
  }

  /**
   * The orange clipping: from (5000, 5000) the pen draws down to the right, leaves the
   * canvas at (8191, 3404), and comes straight back in at (8191, 1595) to end at
   * (5000, 0). Both edge heights are truncated toward zero from a half.
   */
  lemma OrangeRun()
    ensures var r := Run(DefaultCanvas, OrangeTokens, 0, InitialState(None));
      && r.Ok?
      && r.value.commands
         == [Clear, SetColor(Orange), Move([Point(5000, 5000)]), Pen(true), Move([Point(8191, 3404)]), Pen(false),
             Move([Point(8191, 1595)]), Pen(true), Move([Point(5000, 0)]), Pen(false)]
      && r.value.lines
         == DefaultCanvas.Borders()
            + [Line(Point(5000, 5000), Point(8191, 3404), Orange), Line(Point(5000, 0), Point(8191, 1595), Orange)]
  {
    var t := OrangeTokens;
    OrangeTokens0(t);
    OrangeTokens1(t);
    OrangeTokens2(t);
    OrangeTokens3(t);
    OrangeTokens4(t);
    OrangeTokens5(t);
    var s1 := ClearStep(DefaultCanvas, InitialState(None));
    ClearAt(DefaultCanvas, t, 0, InitialState(None));
    OrangeFrom(t, s1);
    OrangeEndCommands(s1);
  }
  // ---------------------------------------------------------------------------
  // The blue square
  // ---------------------------------------------------------------------------

  /** Blue square stream: the clear, the colour and the move to the origin. */
  const BlueOpening: seq<string> := ["F0", "A0", "40", "00", "40", "00", "41", "7F", "41", "7F", "C0", "40", "00", "40", "00"]

  /** Blue square stream: eleven tokens that are no op codes. */
  const BlueSkipped: seq<string> := ["90", "40", "00", "47", "68", "4F", "50", "57", "38", "40", "00"]

  /** Blue square stream: pen down and the first moves of the square. */
  const BlueFirstSides: seq<string> := ["80", "40", "01", "C0", "5F", "20", "40", "00", "40", "00", "01", "40", "01", "40"]

  /** Blue square stream: the last moves of the square and pen up. */
  const BlueLastSides: seq<string> := ["40", "00", "40", "00", "7E", "40", "5B", "2C", "40", "00", "80", "40", "00"]

  const BlueTokens: seq<string> := BlueOpening + BlueSkipped + BlueFirstSides + BlueLastSides

  const Blue: Color := Color(0, 0, 255, 255)

  /** The corners of the blue square, and the point it ends at. */
  const BlueSquare: seq<Point> := [Point(4000, 0), Point(4000, -8000), Point(-4000, -8000), Point(-4000, 0), Point(-500, 0)]

  lemma BlueColor(t: seq<string>, st: State)
    requires |t| == 53 && t[1] == "A0" && t[2] == "40" && t[3] == "00" && t[4] == "40" && t[5] == "00"
    requires t[6] == "41" && t[7] == "7F" && t[8] == "41" && t[9] == "7F"
    ensures Run(DefaultCanvas, t, 1, st)
         == Run(DefaultCanvas, t, 10, st.(color := Blue, commands := st.commands + [SetColor(Blue)]))
  {
    Pair4000();
    Pair417F();
    ColorAt(DefaultCanvas, t, 1, st, ("40", "00"), ("40", "00"), ("41", "7F"), ("41", "7F"), Blue);
  }

  lemma BlueOrigin(t: seq<string>, st: State)
    requires |t| == 53 && t[10] == "C0" && t[11] == "40" && t[12] == "00" && t[13] == "40" && t[14] == "00"
    requires st.current == Some(Point(0, 0)) && !st.penDown && !st.outOfBounds
    ensures Run(DefaultCanvas, t, 10, st)
         == Run(DefaultCanvas, t, 15, st.(commands := st.commands + [Move([Point(0, 0)])]))
  {
    OriginPoints(t);
    OriginClip(st);
    MoveAt(DefaultCanvas, t, 10, st, [Point(0, 0)], st.(commands := st.commands + [Move([Point(0, 0)])]));
  }

  /** The six tokens after the move to the origin are no op codes. */
  lemma BlueSkipsHead(t: seq<string>, st: State)
    requires |t| == 53
    requires t[15] == "90" && t[16] == "40" && t[17] == "00" && t[18] == "47" && t[19] == "68" && t[20] == "4F"
    ensures Run(DefaultCanvas, t, 15, st) == Run(DefaultCanvas, t, 21, st)
  {
    SkipAt(DefaultCanvas, t, 15, st);
    SkipAt(DefaultCanvas, t, 16, st);
    SkipAt(DefaultCanvas, t, 17, st);
    SkipAt(DefaultCanvas, t, 18, st);
    SkipAt(DefaultCanvas, t, 19, st);
    SkipAt(DefaultCanvas, t, 20, st);
  }

  /** Nor are the five after those. */
  lemma BlueSkipsTail(t: seq<string>, st: State)
    requires |t| == 53
    requires t[21] == "50" && t[22] == "57" && t[23] == "38" && t[24] == "40" && t[25] == "00"
    ensures Run(DefaultCanvas, t, 21, st) == Run(DefaultCanvas, t, 26, st)
  {
    SkipAt(DefaultCanvas, t, 21, st);
    SkipAt(DefaultCanvas, t, 22, st);
    SkipAt(DefaultCanvas, t, 23, st);
    SkipAt(DefaultCanvas, t, 24, st);
    SkipAt(DefaultCanvas, t, 25, st);
  }

  lemma BluePenDown(t: seq<string>, st: State)
    requires |t| == 53 && t[26] == "80" && t[27] == "40" && t[28] == "01"
    requires st.current == Some(Point(0, 0)) && !st.outOfBounds
    ensures Run(DefaultCanvas, t, 26, st)
         == Run(DefaultCanvas, t, 29, st.(commands := st.commands + [Pen(true)], penDown := true,
                                         penDownPoints := st.penDownPoints + [Point(0, 0)]))
  {
    PenDownAt(DefaultCanvas, t, 26, st);
  }

  lemma BlueSide5(t: seq<string>)
    requires |t| == 53
    requires t[46] == "5B" && t[47] == "2C" && t[48] == "40" && t[49] == "00" && t[50] == "80"
    ensures MovePoints(t, 45, Some(Point(-4000, 0)), [Point(4000, 0), Point(4000, -8000), Point(-4000, -8000), Point(-4000, 0)]) == Ok(BlueSquare)
  {
    Pair5B2C();
    Pair4000();
    GroupLast(t, 45, Point(-4000, 0), [Point(4000, 0), Point(4000, -8000), Point(-4000, -8000), Point(-4000, 0)], ("5B", "2C"), ("40", "00"), 3500, 0);
    assert [Point(4000, 0), Point(4000, -8000), Point(-4000, -8000), Point(-4000, 0)] + [Point(-500, 0)] == BlueSquare;
  }

  lemma BlueSide4(t: seq<string>)
    requires |t| == 53
    requires t[42] == "40" && t[43] == "00" && t[44] == "7E" && t[45] == "40" && t[46] == "5B" && t[47] == "2C"
    requires t[48] == "40" && t[49] == "00" && t[50] == "80"
    ensures MovePoints(t, 41, Some(Point(-4000, -8000)), [Point(4000, 0), Point(4000, -8000), Point(-4000, -8000)]) == Ok(BlueSquare)
  {
    Pair4000();
    Pair7E40();
    GroupOn(t, 41, Point(-4000, -8000), [Point(4000, 0), Point(4000, -8000), Point(-4000, -8000)], ("40", "00"), ("7E", "40"), 0, 8000);
    assert [Point(4000, 0), Point(4000, -8000), Point(-4000, -8000)] + [Point(-4000, 0)] == [Point(4000, 0), Point(4000, -8000), Point(-4000, -8000), Point(-4000, 0)];
    BlueSide5(t);
  }

  lemma BlueSide3(t: seq<string>)
    requires |t| == 53
    requires t[38] == "01" && t[39] == "40" && t[40] == "40" && t[41] == "00" && t[42] == "40" && t[43] == "00"
    requires t[44] == "7E" && t[45] == "40" && t[46] == "5B" && t[47] == "2C" && t[48] == "40" && t[49] == "00"
    requires t[50] == "80"
    ensures MovePoints(t, 37, Some(Point(4000, -8000)), [Point(4000, 0), Point(4000, -8000)]) == Ok(BlueSquare)
  {
    Pair0140();
    Pair4000();
    GroupOn(t, 37, Point(4000, -8000), [Point(4000, 0), Point(4000, -8000)], ("01", "40"), ("40", "00"), -8000, 0);
    assert [Point(4000, 0), Point(4000, -8000)] + [Point(-4000, -8000)] == [Point(4000, 0), Point(4000, -8000), Point(-4000, -8000)];
    BlueSide4(t);
  }

  lemma BlueSide2(t: seq<string>)
    requires |t| == 53
    requires t[34] == "40" && t[35] == "00" && t[36] == "01" && t[37] == "40" && t[38] == "01" && t[39] == "40"
    requires t[40] == "40" && t[41] == "00" && t[42] == "40" && t[43] == "00" && t[44] == "7E" && t[45] == "40"
    requires t[46] == "5B" && t[47] == "2C" && t[48] == "40" && t[49] == "00" && t[50] == "80"
    ensures MovePoints(t, 33, Some(Point(4000, 0)), [Point(4000, 0)]) == Ok(BlueSquare)
  {
    Pair4000();
    Pair0140();
    GroupOn(t, 33, Point(4000, 0), [Point(4000, 0)], ("40", "00"), ("01", "40"), 0, -8000);
    assert [Point(4000, 0)] + [Point(4000, -8000)] == [Point(4000, 0), Point(4000, -8000)];
    BlueSide3(t);
  }

  lemma BlueSquarePoints(t: seq<string>)
    requires |t| == 53
    requires t[30] == "5F" && t[31] == "20" && t[32] == "40" && t[33] == "00" && t[34] == "40" && t[35] == "00"
    requires t[36] == "01" && t[37] == "40" && t[38] == "01" && t[39] == "40" && t[40] == "40" && t[41] == "00"
    requires t[42] == "40" && t[43] == "00" && t[44] == "7E" && t[45] == "40" && t[46] == "5B" && t[47] == "2C"
    requires t[48] == "40" && t[49] == "00" && t[50] == "80"
    ensures MovePoints(t, 29, Some(Point(0, 0)), []) == Ok(BlueSquare)
  {
    Pair5F20();
    Pair4000();
    GroupOn(t, 29, Point(0, 0), [], ("5F", "20"), ("40", "00"), 4000, 0);
    assert [] + [Point(4000, 0)] == [Point(4000, 0)];
    BlueSide2(t);
  }

  /** The blue square drawn: five lines inside the canvas and one move through all the corners. */
  function BlueClip(st: State): State {
    st.(lines := st.lines + [Line(Point(0, 0), Point(4000, 0), st.color), Line(Point(4000, 0), Point(4000, -8000), st.color),
                             Line(Point(4000, -8000), Point(-4000, -8000), st.color), Line(Point(-4000, -8000), Point(-4000, 0), st.color), Line(Point(-4000, 0), Point(-500, 0), st.color)],
        current := Some(Point(-500, 0)), commands := st.commands + [Move(BlueSquare)])
  }

  /** Every point of the blue square is inside the default canvas. */
  lemma BlueInside()
    ensures forall i :: 0 <= i < |BlueSquare| ==> DefaultCanvas.ContainsPoint(BlueSquare[i])
  {
  }

  /** The five sides the pen draws. */
  lemma BlueSegments(color: Color)
    ensures Segments(Point(0, 0), BlueSquare, color)
         == [Line(Point(0, 0), Point(4000, 0), color), Line(Point(4000, 0), Point(4000, -8000), color), Line(Point(4000, -8000), Point(-4000, -8000), color),
             Line(Point(-4000, -8000), Point(-4000, 0), color), Line(Point(-4000, 0), Point(-500, 0), color)]
  {
  }

  lemma BlueSquareClip(st: State)
    requires st.current == Some(Point(0, 0)) && st.penDown
    ensures ClipAll(DefaultCanvas, st, [], BlueSquare) == Ok(BlueClip(st))
  {
    BlueInside();
    ClipAllInside(DefaultCanvas, st, [], BlueSquare);
    assert [] + BlueSquare == BlueSquare;
    BlueSegments(st.color);
  }

  lemma BlueSquareStroke(t: seq<string>, st: State)
    requires |t| == 53 && t[29] == "C0"
    requires t[30] == "5F" && t[31] == "20" && t[32] == "40" && t[33] == "00" && t[34] == "40" && t[35] == "00"
    requires t[36] == "01" && t[37] == "40" && t[38] == "01" && t[39] == "40" && t[40] == "40" && t[41] == "00"
    requires t[42] == "40" && t[43] == "00" && t[44] == "7E" && t[45] == "40" && t[46] == "5B" && t[47] == "2C"
    requires t[48] == "40" && t[49] == "00" && t[50] == "80"
    requires st.current == Some(Point(0, 0)) && st.penDown
    ensures Run(DefaultCanvas, t, 29, st) == Run(DefaultCanvas, t, 50, BlueClip(st))
  {
    BlueSquarePoints(t);
    BlueSquareClip(st);
    MoveAt(DefaultCanvas, t, 29, st, BlueSquare, BlueClip(st));
  }

  lemma BluePenUp(t: seq<string>, st: State)
    requires |t| == 53 && t[50] == "80" && t[51] == "40" && t[52] == "00"
    ensures Run(DefaultCanvas, t, 50, st)
         == Ok(st.(commands := st.commands + [Pen(false)], penDown := false, penUpPoints := st.penUpPoints + [st.current]))
  {
    PenUpLast(DefaultCanvas, t, 50, st);
  }

  /** The state the blue square leaves, from the state after its clear. */
  function BlueEnd(s1: State): State {
    var s3 := s1.(color := Blue, commands := s1.commands + [SetColor(Blue)] + [Move([Point(0, 0)])]);
    var s4 := s3.(commands := s3.commands + [Pen(true)], penDown := true, penDownPoints := s3.penDownPoints + [Point(0, 0)]);
    var s5 := BlueClip(s4);
    s5.(commands := s5.commands + [Pen(false)], penDown := false, penUpPoints := s5.penUpPoints + [s5.current])
  }

  /** The blue square on any state after a clear, for tokens that hold the blue stream. */
  lemma BlueFrom(t: seq<string>, s1: State)
    requires |t| == 53
    requires t[0] == "F0" && t[1] == "A0" && t[2] == "40" && t[3] == "00" && t[4] == "40" && t[5] == "00"
    requires t[6] == "41" && t[7] == "7F" && t[8] == "41" && t[9] == "7F" && t[10] == "C0" && t[11] == "40"
    requires t[12] == "00" && t[13] == "40" && t[14] == "00" && t[15] == "90" && t[16] == "40" && t[17] == "00"
    requires t[18] == "47" && t[19] == "68" && t[20] == "4F" && t[21] == "50" && t[22] == "57" && t[23] == "38"
    requires t[24] == "40" && t[25] == "00" && t[26] == "80" && t[27] == "40" && t[28] == "01" && t[29] == "C0"
    requires t[30] == "5F" && t[31] == "20" && t[32] == "40" && t[33] == "00" && t[34] == "40" && t[35] == "00"
    requires t[36] == "01" && t[37] == "40" && t[38] == "01" && t[39] == "40" && t[40] == "40" && t[41] == "00"
    requires t[42] == "40" && t[43] == "00" && t[44] == "7E" && t[45] == "40" && t[46] == "5B" && t[47] == "2C"
    requires t[48] == "40" && t[49] == "00" && t[50] == "80" && t[51] == "40" && t[52] == "00"
    requires s1.current == Some(Point(0, 0)) && !s1.penDown && !s1.outOfBounds
    ensures Run(DefaultCanvas, t, 1, s1) == Ok(BlueEnd(s1))
  {
    var s2 := s1.(color := Blue, commands := s1.commands + [SetColor(Blue)]);
    BlueColor(t, s1);
    var s3 := s2.(commands := s2.commands + [Move([Point(0, 0)])]);
    BlueOrigin(t, s2);
    BlueSkipsHead(t, s3);
    BlueSkipsTail(t, s3);
    var s4 := s3.(commands := s3.commands + [Pen(true)], penDown := true, penDownPoints := s3.penDownPoints + [Point(0, 0)]);
    BluePenDown(t, s3);
    BlueSquareStroke(t, s4);
    BluePenUp(t, BlueClip(s4));
  }

  /** The commands and the lines of the blue square, after its clear. */
  lemma BlueEndCommands(s1: State)
    requires s1.commands == [Clear]
    ensures BlueEnd(s1).commands
         == [Clear, SetColor(Blue), Move([Point(0, 0)]), Pen(true), Move([Point(4000, 0), Point(4000, -8000), Point(-4000, -8000), Point(-4000, 0), Point(-500, 0)]), Pen(false)]
    ensures BlueEnd(s1).lines
         == s1.lines + [Line(Point(0, 0), Point(4000, 0), Blue), Line(Point(4000, 0), Point(4000, -8000), Blue),
                        Line(Point(4000, -8000), Point(-4000, -8000), Blue), Line(Point(-4000, -8000), Point(-4000, 0), Blue), Line(Point(-4000, 0), Point(-500, 0), Blue)]
  {
  }

  // The tokens of the blue square, five at a time.

  lemma BlueTokens0(t: seq<string>)
    requires t == BlueTokens
    ensures t[0] == "F0" && t[1] == "A0" && t[2] == "40" && t[3] == "00" && t[4] == "40"
  {
  }

  lemma BlueTokens1(t: seq<string>)
    requires t == BlueTokens
    ensures t[5] == "00" && t[6] == "41" && t[7] == "7F" && t[8] == "41" && t[9] == "7F"
  {
  }

  lemma BlueTokens2(t: seq<string>)
    requires t == BlueTokens
    ensures t[10] == "C0" && t[11] == "40" && t[12] == "00" && t[13] == "40" && t[14] == "00"
  {
  }

  lemma BlueTokens3(t: seq<string>)
    requires t == BlueTokens
    ensures t[15] == "90" && t[16] == "40" && t[17] == "00" && t[18] == "47" && t[19] == "68"
  {
  }

  lemma BlueTokens4(t: seq<string>)
    requires t == BlueTokens
    ensures t[20] == "4F" && t[21] == "50" && t[22] == "57" && t[23] == "38" && t[24] == "40"
  {
  }

  lemma BlueTokens5(t: seq<string>)
    requires t == BlueTokens
    ensures t[25] == "00" && t[26] == "80" && t[27] == "40" && t[28] == "01" && t[29] == "C0"
  {
  }

  lemma BlueTokens6(t: seq<string>)
    requires t == BlueTokens
    ensures t[30] == "5F" && t[31] == "20" && t[32] == "40" && t[33] == "00" && t[34] == "40"
  {
  }

  lemma BlueTokens7(t: seq<string>)
    requires t == BlueTokens
    ensures t[35] == "00" && t[36] == "01" && t[37] == "40" && t[38] == "01" && t[39] == "40"
  {
  }

  lemma BlueTokens8(t: seq<string>)
    requires t == BlueTokens
    ensures t[40] == "40" && t[41] == "00" && t[42] == "40" && t[43] == "00" && t[44] == "7E"
  {
  }

  lemma BlueTokens9(t: seq<string>)
    requires t == BlueTokens
    ensures t[45] == "40" && t[46] == "5B" && t[47] == "2C" && t[48] == "40" && t[49] == "00"
  {
  }

  lemma BlueTokens10(t: seq<string>)
    requires t == BlueTokens
    ensures t[50] == "80" && t[51] == "40" && t[52] == "00"
  {
  }

  /**
   * The blue square: after a move to the origin, eleven tokens that are no op codes are
   * skipped; then the pen draws the square's sides and a last stroke to (-500, 0), all
   * inside the canvas, as one move.
   */
  lemma BlueRun()
    ensures var r := Run(DefaultCanvas, BlueTokens, 0, InitialState(None));
      && r.Ok?
      && r.value.commands
         == [Clear, SetColor(Blue), Move([Point(0, 0)]), Pen(true), Move([Point(4000, 0), Point(4000, -8000), Point(-4000, -8000), Point(-4000, 0), Point(-500, 0)]), Pen(false)]
      && r.value.lines
         == DefaultCanvas.Borders()
            + [Line(Point(0, 0), Point(4000, 0), Blue), Line(Point(4000, 0), Point(4000, -8000), Blue), Line(Point(4000, -8000), Point(-4000, -8000), Blue),
               Line(Point(-4000, -8000), Point(-4000, 0), Blue), Line(Point(-4000, 0), Point(-500, 0), Blue)]
  {
    var t := BlueTokens;
    BlueTokens0(t);
    BlueTokens1(t);
    BlueTokens2(t);
    BlueTokens3(t);
    BlueTokens4(t);
    BlueTokens5(t);
    BlueTokens6(t);
    BlueTokens7(t);
    BlueTokens8(t);
    BlueTokens9(t);
    BlueTokens10(t);
    var s1 := ClearStep(DefaultCanvas, InitialState(None));
    ClearAt(DefaultCanvas, t, 0, InitialState(None));
    BlueFrom(t, s1);
    BlueEndCommands(s1);
  }
}
