/**
 * The four examples of byte_drawer/tests.py as the parser reports them: the input stream
 * (written as the concatenation of its two-character op codes) goes through `Draw`, and
 * the text forms of the decoded commands are exactly the strings the tests expect.
 */
module DrawerTexts {
  import opened Failures
  import opened Geometry
  import opened Commands
  import opened Drawing
  import opened DrawerVectors

  // ---------------------------------------------------------------------------
  // `str()` of the numbers that occur in the examples
  // ---------------------------------------------------------------------------

  lemma ColorComponentTexts()
    ensures IntText(0) == "0" && IntText(128) == "128" && IntText(255) == "255"
  {
    assert NatText(12) == "12";
    assert NatText(25) == "25";
  }

  lemma ThousandsTexts()
    ensures IntText(4000) == "4000" && IntText(5000) == "5000" && IntText(8000) == "8000"
  {
    assert NatText(40) == "40" && NatText(400) == "400";
    assert NatText(50) == "50" && NatText(500) == "500";
    assert NatText(80) == "80" && NatText(800) == "800";
  }

  lemma NegativeTexts()
    ensures IntText(-4000) == "-4000" && IntText(-8000) == "-8000" && IntText(-500) == "-500"
  {
    ThousandsTexts();
    assert NatText(50) == "50";
  }

  lemma EdgeTexts()
    ensures IntText(8191) == "8191" && IntText(3404) == "3404" && IntText(1595) == "1595"
  {
    assert NatText(81) == "81" && NatText(819) == "819";
    assert NatText(34) == "34" && NatText(340) == "340";
    assert NatText(15) == "15" && NatText(159) == "159";
  }

  // ---------------------------------------------------------------------------
  // Every example stream is made of two-character op codes
  // ---------------------------------------------------------------------------

  lemma GreenPairs()
    ensures forall i :: 0 <= i < |GreenTokens| ==> |GreenTokens[i]| == 2
  {
    assert forall x :: x in GreenTokens ==> |x| == 2;
  }

  lemma RedPairs()
    ensures forall i :: 0 <= i < |RedTokens| ==> |RedTokens[i]| == 2
  {
    assert forall x :: x in RedTokens ==> |x| == 2;
  }

  lemma OrangePairs()
    ensures forall i :: 0 <= i < |OrangeTokens| ==> |OrangeTokens[i]| == 2
  {
    assert forall x :: x in OrangeTokens ==> |x| == 2;
  }

  lemma BluePairs()
    ensures forall i :: 0 <= i < |BlueTokens| ==> |BlueTokens[i]| == 2
  {
    assert forall x :: x in BlueTokens ==> |x| == 2;
  }

  // ---------------------------------------------------------------------------
  // The text forms of the decoded commands
  // ---------------------------------------------------------------------------

  /** The text of a colour command, from the texts of its four components. */
  lemma ColorCommandText(c: Color, rs: string, gs: string, bs: string, as_: string)
    requires IntText(c.r) == rs && IntText(c.g) == gs && IntText(c.b) == bs && IntText(c.a) == as_
    ensures Render(SetColor(c)) == "CO " + rs + " " + gs + " " + bs + " " + as_ + ";"
  {
  }

  /** The text of a point, from the texts of its coordinates. */
  lemma PointTextOf(x: int, y: int, xs: string, ys: string)
    requires IntText(x) == xs && IntText(y) == ys
    ensures PointText(Point(x, y)) == "(" + xs + ", " + ys + ")"
  {
  }

  /** The text of a one-point move, from the texts of its coordinates. */
  lemma MoveOneText(x: int, y: int, xs: string, ys: string)
    requires IntText(x) == xs && IntText(y) == ys
    ensures Render(Move([Point(x, y)])) == "MV (" + xs + ", " + ys + ");"
  {
  }

  /** A move's point texts: the first one, a space, then the rest. */
  lemma JoinCons(p: Point, rest: seq<Point>)
    requires rest != []
    ensures JoinPoints([p] + rest) == PointText(p) + " " + JoinPoints(rest)
  {
    assert ([p] + rest)[1..] == rest;
  }

  /** The point texts of a five-point move, separated by single spaces. */
  lemma JoinFive(p0: Point, p1: Point, p2: Point, p3: Point, p4: Point)
    ensures JoinPoints([p0, p1, p2, p3, p4])
         == PointText(p0) + " " + (PointText(p1) + " " + (PointText(p2) + " " + (PointText(p3) + " " + PointText(p4))))
  {
    assert [p3, p4] == [p3] + [p4];
    JoinCons(p3, [p4]);
    assert [p2, p3, p4] == [p2] + [p3, p4];
    JoinCons(p2, [p3, p4]);
    assert [p1, p2, p3, p4] == [p1] + [p2, p3, p4];
    JoinCons(p1, [p2, p3, p4]);
    assert [p0, p1, p2, p3, p4] == [p0] + [p1, p2, p3, p4];
    JoinCons(p0, [p1, p2, p3, p4]);
  }

  lemma GreenColorText()
    ensures Render(SetColor(Green)) == "CO 0 255 0 255;"
  {
    ColorComponentTexts();
    ColorCommandText(Green, "0", "255", "0", "255");
  }

  lemma RedColorText()
    ensures Render(SetColor(Red)) == "CO 255 0 0 255;"
  {
    ColorComponentTexts();
    ColorCommandText(Red, "255", "0", "0", "255");
  }

  lemma OrangeColorText()
    ensures Render(SetColor(Orange)) == "CO 255 128 0 255;"
  {
    ColorComponentTexts();
    ColorCommandText(Orange, "255", "128", "0", "255");
  }

  lemma BlueColorText()
    ensures Render(SetColor(Blue)) == "CO 0 0 255 255;"
  {
    ColorComponentTexts();
    ColorCommandText(Blue, "0", "0", "255", "255");
  }

  lemma OriginText()
    ensures Render(Move([Point(0, 0)])) == "MV (0, 0);"
  {
    ColorComponentTexts();
    MoveOneText(0, 0, "0", "0");
  }

  lemma GreenMoveText()
    ensures Render(Move([Point(4000, 4000)])) == "MV (4000, 4000);"
  {
    ThousandsTexts();
    MoveOneText(4000, 4000, "4000", "4000");
  }

  lemma ApproachText()
    ensures Render(Move([Point(5000, 5000)])) == "MV (5000, 5000);"
  {
    ThousandsTexts();
    MoveOneText(5000, 5000, "5000", "5000");
  }

  lemma BackText()
    ensures Render(Move([Point(5000, 0)])) == "MV (5000, 0);"
  {
    ColorComponentTexts();
    ThousandsTexts();
    MoveOneText(5000, 0, "5000", "0");
  }

  lemma RedExitText()
    ensures Render(Move([Point(8191, 5000)])) == "MV (8191, 5000);"
  {
    ThousandsTexts();
    EdgeTexts();
    MoveOneText(8191, 5000, "8191", "5000");
  }

  lemma RedReenterText()
    ensures Render(Move([Point(8191, 0)])) == "MV (8191, 0);"
  {
    ColorComponentTexts();
    EdgeTexts();
    MoveOneText(8191, 0, "8191", "0");
  }

  lemma OrangeExitText()
    ensures Render(Move([Point(8191, 3404)])) == "MV (8191, 3404);"
  {
    EdgeTexts();
    MoveOneText(8191, 3404, "8191", "3404");
  }

  lemma OrangeReenterText()
    ensures Render(Move([Point(8191, 1595)])) == "MV (8191, 1595);"
  {
    EdgeTexts();
    MoveOneText(8191, 1595, "8191", "1595");
  }

  /** The first corners of the blue square as text. */
  lemma BlueCornerTextsHead()
    ensures PointText(Point(4000, 0)) == "(4000, 0)" && PointText(Point(4000, -8000)) == "(4000, -8000)"
  {
    ColorComponentTexts();
    ThousandsTexts();
    NegativeTexts();
    PointTextOf(4000, 0, "4000", "0");
    PointTextOf(4000, -8000, "4000", "-8000");
  }

  /** The last corners of the blue square as text. */
  lemma BlueCornerTextsTail()
    ensures PointText(Point(-4000, -8000)) == "(-4000, -8000)" && PointText(Point(-4000, 0)) == "(-4000, 0)"
    ensures PointText(Point(-500, 0)) == "(-500, 0)"
  {
    ColorComponentTexts();
    NegativeTexts();
    PointTextOf(-4000, -8000, "-4000", "-8000");
    PointTextOf(-4000, 0, "-4000", "0");
    PointTextOf(-500, 0, "-500", "0");
  }

  /** Regrouping a five-point move text around its second and third points. */
  lemma MoveFiveRegroup(t0: string, t1: string, t2: string, t3: string, t4: string)
    ensures "MV " + (t0 + " " + (t1 + " " + (t2 + " " + (t3 + " " + t4)))) + ";"
         == ("MV " + (t0 + " " + (t1 + " "))) + ((t2 + " " + (t3 + " " + t4)) + ";")
  {
    var rest := t2 + " " + (t3 + " " + t4);
    assert t0 + " " + (t1 + " " + rest) == t0 + " " + (t1 + " ") + rest;
  }

  // The blue square's move text, assembled from literal pieces short enough to compare.

  lemma BlueSquareTextFront()
    ensures "MV " + ("(4000, 0)" + " " + ("(4000, -8000)" + " ")) == "MV (4000, 0) (4000, -8000) "
  {
  }

  lemma BlueSquareTextBack()
    ensures "(-4000, -8000)" + " " + ("(-4000, 0)" + " " + "(-500, 0)") + ";" == "(-4000, -8000) (-4000, 0) (-500, 0);"
  {
  }

  lemma BlueSquareTextHalves()
    ensures "MV (4000, 0) (4000, -8000) " + "(-4000, -8000) (-4000, 0) (-500, 0);"
         == "MV (4000, 0) (4000, -8000) (-4000, -8000) (-4000, 0) (-500, 0);"
  {
  }

  /** The move of the blue square: five points in one command. */
  lemma BlueSquareText()
    ensures Render(Move(BlueSquare)) == "MV (4000, 0) (4000, -8000) (-4000, -8000) (-4000, 0) (-500, 0);"
  {
    BlueCornerTextsHead();
    BlueCornerTextsTail();
    JoinFive(Point(4000, 0), Point(4000, -8000), Point(-4000, -8000), Point(-4000, 0), Point(-500, 0));
    MoveFiveRegroup("(4000, 0)", "(4000, -8000)", "(-4000, -8000)", "(-4000, 0)", "(-500, 0)");
    BlueSquareTextFront();
    BlueSquareTextBack();
    BlueSquareTextHalves();
  }

  /** The parser's list for a line-drawing session of six commands, from the text of each. */
  lemma RenderSix(c0: Command, c1: Command, c2: Command, c3: Command, c4: Command, c5: Command,
                  t0: string, t1: string, t2: string, t3: string, t4: string, t5: string)
    requires Render(c0) == t0 && Render(c1) == t1 && Render(c2) == t2
    requires Render(c3) == t3 && Render(c4) == t4 && Render(c5) == t5
    ensures RenderAll([c0, c1, c2, c3, c4, c5]) == [t0, t1, t2, t3, t4, t5]
  {
  }

  lemma GreenTexts()
    ensures RenderAll([Clear, SetColor(Green), Move([Point(0, 0)]), Pen(true), Move([Point(4000, 4000)]), Pen(false)])
         == ["CLR;", "CO 0 255 0 255;", "MV (0, 0);", "PEN DOWN;", "MV (4000, 4000);", "PEN UP;"]
  {
    GreenColorText();
    OriginText();
    GreenMoveText();
  }

  lemma RedTexts()
    ensures RenderAll([Clear, SetColor(Red), Move([Point(5000, 5000)]), Pen(true), Move([Point(8191, 5000)]), Pen(false),
                       Move([Point(8191, 0)]), Pen(true), Move([Point(5000, 0)]), Pen(false)])
         == ["CLR;", "CO 255 0 0 255;", "MV (5000, 5000);", "PEN DOWN;", "MV (8191, 5000);", "PEN UP;",
             "MV (8191, 0);", "PEN DOWN;", "MV (5000, 0);", "PEN UP;"]
  {
    RedColorText();
    ApproachText();
    RedExitText();
    RedReenterText();
    BackText();
  }

  lemma OrangeTexts()
    ensures RenderAll([Clear, SetColor(Orange), Move([Point(5000, 5000)]), Pen(true), Move([Point(8191, 3404)]), Pen(false),
                       Move([Point(8191, 1595)]), Pen(true), Move([Point(5000, 0)]), Pen(false)])
         == ["CLR;", "CO 255 128 0 255;", "MV (5000, 5000);", "PEN DOWN;", "MV (8191, 3404);", "PEN UP;",
             "MV (8191, 1595);", "PEN DOWN;", "MV (5000, 0);", "PEN UP;"]
  {
    OrangeColorText();
    ApproachText();
    OrangeExitText();
    OrangeReenterText();
    BackText();
  }

  lemma BlueTexts()
    ensures RenderAll([Clear, SetColor(Blue), Move([Point(0, 0)]), Pen(true), Move(BlueSquare), Pen(false)])
         == ["CLR;", "CO 0 0 255 255;", "MV (0, 0);", "PEN DOWN;",
             "MV (4000, 0) (4000, -8000) (-4000, -8000) (-4000, 0) (-500, 0);", "PEN UP;"]
  {
    BlueColorText();
    OriginText();
    BlueSquareText();
    RenderSix(Clear, SetColor(Blue), Move([Point(0, 0)]), Pen(true), Move(BlueSquare), Pen(false),
              "CLR;", "CO 0 0 255 255;", "MV (0, 0);", "PEN DOWN;",
              "MV (4000, 0) (4000, -8000) (-4000, -8000) (-4000, 0) (-500, 0);", "PEN UP;");
  }

  // ---------------------------------------------------------------------------
  // The parser's result for each example stream
  // ---------------------------------------------------------------------------

  /** The green line (byte_drawer/tests.py:60-71). */
  lemma GreenParse()
    ensures var r := Draw(Concat(GreenTokens), None);
      && r.Ok?
      && RenderAll(r.value.commands)
         == ["CLR;", "CO 0 255 0 255;", "MV (0, 0);", "PEN DOWN;", "MV (4000, 4000);", "PEN UP;"]
  {
    GreenPairs();
    TokensOfConcat(GreenTokens);
    GreenRun();
    GreenTexts();
  }

  /** The red clipping (byte_drawer/tests.py:84-99). */
  lemma RedParse()
    ensures var r := Draw(Concat(RedTokens), None);
      && r.Ok?
      && RenderAll(r.value.commands)
         == ["CLR;", "CO 255 0 0 255;", "MV (5000, 5000);", "PEN DOWN;", "MV (8191, 5000);", "PEN UP;",
             "MV (8191, 0);", "PEN DOWN;", "MV (5000, 0);", "PEN UP;"]
  {
    RedPairs();
    TokensOfConcat(RedTokens);
    RedRun();
    RedTexts();
  }

  /** The orange diagonal clipping (byte_drawer/tests.py:100-115). */
  lemma OrangeParse()
    ensures var r := Draw(Concat(OrangeTokens), None);
      && r.Ok?
      && RenderAll(r.value.commands)
         == ["CLR;", "CO 255 128 0 255;", "MV (5000, 5000);", "PEN DOWN;", "MV (8191, 3404);", "PEN UP;",
             "MV (8191, 1595);", "PEN DOWN;", "MV (5000, 0);", "PEN UP;"]
  {
    OrangePairs();
    TokensOfConcat(OrangeTokens);
    OrangeRun();
    OrangeTexts();
  }

  /** The blue square (byte_drawer/tests.py:72-83). */
  lemma BlueParse()
    ensures var r := Draw(Concat(BlueTokens), None);
      && r.Ok?
      && RenderAll(r.value.commands)
         == ["CLR;", "CO 0 0 255 255;", "MV (0, 0);", "PEN DOWN;",
             "MV (4000, 0) (4000, -8000) (-4000, -8000) (-4000, 0) (-500, 0);", "PEN UP;"]
  {
    BluePairs();
    TokensOfConcat(BlueTokens);
    BlueRun();
    BlueTexts();
  }
}
