# byte-drawer in Dafny

byte-drawer turns a stream of hexadecimal op codes into drawing commands for a
plotter. The stream is read two characters at a time. `F0` clears the canvas. `A0`
sets the colour from four 14-bit values. `80` lifts or lowers the pen. `C0` moves
through a run of relative 14-bit offsets. Each 14-bit value is two bytes with their
top bits clear, biased by 8192. When the pen is down and a move leaves the canvas, the
drawer clips it: it finishes the move at the edge, lifts the pen, and puts the pen
down again at the edge where the path comes back in. Each command also has a text
form (`CLR;`, `CO r g b a;`, `PEN UP;`, `PEN DOWN;`, `MV (x, y) ...;`).

The project models:

- the codec of `byte_drawer/coders.py`: `Coders`, in coders.dfy;
- the points, colours, lines and canvas of `byte_drawer/canvas.py`: `Geometry`, in canvas.dfy;
- the four commands of `byte_drawer/command.py` and their text: `Commands`, in command.dfy;
- the stream decoder and clipper of `byte_drawer/drawer.py`.

The drawer is modelled twice:

- `Drawing` (drawing.dfy) has one specification function per handler over an explicit
  session `State`. It has the tokenizer, the clear, colour, pen and move handlers, the
  clipping state machine, the edge-point computation and the main loop.
- `Drawers` (drawer.dfy) has the `Drawer` class. Its fields are updated in place by
  methods that run the same loops as the source. Each method is proved to leave the
  state the specification function computes.

Properties of the drawer are proved over the functions:

- `DrawingProperties` (properties.dfy): the clipper's invariant, append-only growth,
  the clipping cases, the "stranded" state a clear can leave, and the shape of a move's
  coordinate run.
- `EdgeProperties` (edges.dfy): the edge-point cases.
- `DrawerVectors` (vectors.dfy): the examples of `byte_drawer/tests.py` worked through
  the main loop, command by command, with the lines they draw.
- `DrawerTexts` (texts.dfy): the same examples from the stream to the parser's list of
  command texts, as the tests compare them.

Python exceptions become the error values of `Failures.Error` (failures.dfy):
`ValueError`, `IndexError`, `AttributeError`, `ZeroDivisionError`, `RuntimeError`.
One more value, `NonTermination`, stands for the one way the source loops forever.

## Model

| member | source | states |
|---|---|---|
| Coders.HexValue | byte_drawer/coders.py:38-39 | the digits parse exactly when every character is a hexadecimal digit, and the value is below 16 to the power of the length |
| Coders.ParseHex | byte_drawer/coders.py:38-39 | `int(token, base=16)` succeeds exactly on a non-empty string of hex digits, and the value is below 16 to the power of the length |
| Coders.HexDigits | byte_drawer/coders.py:24 | `hex()` digits: at least one digit, all lower-case hexadecimal, and a leading zero only for zero |
| Coders.HexDigitsRoundTrip | byte_drawer/coders.py:24 | parsing the digits `hex()` prints gives back the value |
| Coders.ByteTokenRoundTrip | byte_drawer/coders.py:38-39 | a byte printed as a two-digit token parses back to itself |
| Coders.EncodeValue | byte_drawer/coders.py:17-24 | the masked and shifted value fits in two bytes, and bit 7 of the result is always clear |
| Coders.Encoder | byte_drawer/coders.py:13-24 | encoding succeeds exactly on -8192..8191 and raises ValueError otherwise; the text is `hex()` of the encoded value: `0x`, then unpadded lower-case digits that parse back to the value |
| Coders.DecoderBytes | byte_drawer/coders.py:36-39 | constructing a decoder succeeds exactly when both tokens are hex, else ValueError; the bytes are the tokens' values, high first |
| Coders.DecoderValidate | byte_drawer/coders.py:41-44 | the range check only fails with ValueError, and passes for every pair of parsed bytes |
| Coders.Decoder | byte_drawer/coders.py:36-49 | decoding succeeds exactly when both tokens are hex and the low one is at most 8191, else ValueError; the result is `low + (high << 7) - 8192` of the parsed tokens, for tokens of any length |
| Coders.EncodeDecodeRoundTrip | byte_drawer/coders.py:17-24 | for every value in range, decoding the high and low byte of its encoding gives it back |
| Coders.DecodeEncodeRoundTrip | byte_drawer/coders.py:46-49 | for every pair of 7-bit bytes, the decoded value is in range and encodes back to the pair |
| Coders.TokenRoundTrip | byte_drawer/coders.py:13-49 | the two byte tokens of an encoded value decode to the value |
| Coders.ValidationIsVacuous | byte_drawer/coders.py:41-44 | for two-digit tokens the range check never fails, so the decoder is the bare formula |
| Coders.HexDigitsAppend | byte_drawer/coders.py:24 | appending a digit to a hex number appends its character |
| Coders.EncodeValueOf | byte_drawer/coders.py:17-24 | a value whose biased form splits into 7-bit halves encodes to those halves as bytes |
| Coders.EncodeVectors | byte_drawer/tests.py:9-22 | the five encoder examples give the expected hex text; 8191 and -8192 encode; 8192 and -8193 raise ValueError |
| Coders.DecodeVectors | byte_drawer/tests.py:24-37 | the five decoder examples give the expected values |
| Geometry.Canvas.Center | byte_drawer/canvas.py:73 | the centre point of every canvas is the origin |
| Geometry.Canvas.Borders | byte_drawer/canvas.py:95-110 | four lines in the canvas default colour, top, right, bottom, left, joined end to start into a closed loop through the four corners |
| Geometry.NewCanvas | byte_drawer/canvas.py:76-93 | the bounds are kept; without a colour the default is opaque black |
| Geometry.BoundaryNotContained | byte_drawer/canvas.py:112-128 | a point on a bound is not contained: containment is strict |
| Geometry.BordersOutside | byte_drawer/canvas.py:95-128 | no end point of a border line is contained in the canvas |
| Geometry.ContainsVectors | byte_drawer/tests.py:40-54 | the five containment examples on the canvas -10..10 |
| Geometry.NatTextRoundTrip | byte_drawer/canvas.py:10-14 | the decimal text of a natural number reads back as that number |
| Geometry.IntTextRoundTrip | byte_drawer/canvas.py:10-14 | the text of an integer starts with a minus exactly when it is negative, and its digits read back as its magnitude |
| Geometry.NatTextNoSign | byte_drawer/canvas.py:10-14 | the text of a natural number starts with a digit |
| Commands.DecodeBytes | byte_drawer/command.py:25-35 | decoding a byte pair succeeds exactly when both are hex, and gives the decoder formula; two-digit tokens decode into -8192..24703 |
| Commands.DecodeBytesIsDecoder | byte_drawer/command.py:25-35 | for two-digit tokens the command wrapper and the standalone decoder agree |
| Commands.ColorCommand | byte_drawer/command.py:46-76 | a colour command succeeds exactly when all four pairs decode, and its colour is the four decoded values |
| Commands.PenCommand | byte_drawer/command.py:91-105 | a pen command succeeds exactly when its pair decodes, and the pen is down exactly when the value is non-zero |
| Commands.RenderShape | byte_drawer/command.py:38-105 | every text form ends with a semicolon, and its first two characters tell exactly which command it is |
| Commands.PenVectors | byte_drawer/command.py:91-105 | `40 00` is pen up, `40 01` is pen down, a non-hex pair raises ValueError |
| Commands.ColorNotClamped | byte_drawer/command.py:46-76 | colour values are not clamped to 0..255: `FF FF` decodes to 24703 and is kept |
| Drawing.TokensPartition | byte_drawer/drawer.py:83-89 | the tokens concatenate to the input, there are half as many as characters rounded up, and all have two characters except an odd last one |
| Drawing.TokensOfConcat | byte_drawer/drawer.py:83-89 | a stream written as two-character op codes splits back into exactly those op codes |
| Drawing.InitialState | byte_drawer/drawer.py:14-38 | a new drawer has no commands, no position, the pen up, is in bounds, uses the canvas colour, and starts its lines with the default canvas borders when no canvas is given |
| Drawing.TruncTowardZero | byte_drawer/drawer.py:435 | `int()` of a number moves it toward zero by less than one |
| Drawing.EdgePoint | byte_drawer/drawer.py:369-437 | the edge point fails with ZeroDivisionError exactly for a vertical segment; otherwise it fails only with RuntimeError |
| Drawing.ClearStep | byte_drawer/drawer.py:91-106 | a clear appends CLR, moves to the centre, lifts the pen, and leaves the colour, the out-of-bounds flags, the lines and the pen points as they were |
| Drawing.ColorStep | byte_drawer/drawer.py:108-139 | a colour op code with fewer than eight tokens after it raises IndexError; otherwise it succeeds exactly when the four pairs decode, raising ValueError when one does not; on success the colour is the decoded one and only the command list and the colour change |
| Drawing.PenStep | byte_drawer/drawer.py:141-172 | a pen op code with fewer than two tokens after it raises IndexError; a pair that does not decode raises ValueError; otherwise the decoded pen command is applied |
| Drawing.SetPen | byte_drawer/drawer.py:156-172 | a pen-down request fails with ValueError exactly when the drawer is out of bounds or has no position; otherwise the pen command is appended, the pen flag set, and the position recorded in the pen-down or pen-up list, with nothing else changed |
| Drawing.MovePointsBound | byte_drawer/drawer.py:183-230 | the coordinate loop only extends the collected points, and each point uses four tokens of the stream |
| Drawing.MoveStep | byte_drawer/drawer.py:174-231 | the pointer never moves back or past the end, and it stays put only with the state unchanged, when C0 is the last token |
| Drawing.Step | byte_drawer/drawer.py:68-81 | one pass of the main loop never moves the pointer back or past the end; it stays put only for a trailing C0, with the state unchanged |
| Drawing.RenderAll | byte_drawer/drawer.py:51-53 | the result has one text per command, each the command's own text, in order |
| Drawers.Drawer.constructor | byte_drawer/drawer.py:14-45 | the new drawer is in the initial state for its canvas, and its stream is the argument stream or else the file's first line |
| Drawers.Drawer.GetOpCodes | byte_drawer/drawer.py:83-89 | the op codes are the two-character tokens of the stream, which is consumed |
| Drawers.Drawer.HandleClear | byte_drawer/drawer.py:91-106 | the new state is `ClearStep` of the old, and the pointer advances by one |
| Drawers.Drawer.HandleColor | byte_drawer/drawer.py:108-139 | the new state or the error is `ColorStep`'s, and on success the pointer advances by nine |
| Drawers.Drawer.HandlePen | byte_drawer/drawer.py:141-172 | the new state or the error is `PenStep`'s, and on success the pointer advances by three |
| Drawers.Drawer.ApplyPen | byte_drawer/drawer.py:156-172 | the new state or the error is `SetPen`'s |
| Drawers.Drawer.HandleMove | byte_drawer/drawer.py:174-231 | the new state, pointer or error is `MoveStep`'s |
| Drawers.Drawer.CollectMovePoints | byte_drawer/drawer.py:183-224 | the loop collects the points `MovePoints` computes from the old position, or raises its error |
| Drawers.Drawer.CollectNextPoint | byte_drawer/drawer.py:192-224 | one pass either ends the loop with `MovePoints`'s outcome or leaves the same outcome to the next group |
| Drawers.Drawer.BuildMoveCommand | byte_drawer/drawer.py:233-331 | the new state or the error is `ClipAll`'s over the points |
| Drawers.Drawer.ClipNextPoint | byte_drawer/drawer.py:243-326 | the new state and move points or the error are `ClipPoint`'s |
| Drawers.Drawer.ClipPenDown | byte_drawer/drawer.py:243-280 | with the pen down, the new state and move points or the error are `ClipPoint`'s |
| Drawers.Drawer.ClipPenUp | byte_drawer/drawer.py:282-326 | with the pen up, the new state and move points or the error are `ClipPoint`'s |
| Drawers.Drawer.DispatchOpCode | byte_drawer/drawer.py:68-81 | the new state, pointer or error is `Step`'s |
| Drawers.Drawer.DecodeInputStream | byte_drawer/drawer.py:62-81 | the op codes are the stream's tokens and the final state or error is `Run`'s from the first token |
| Drawers.Drawer.Parse | byte_drawer/drawer.py:51-53 | the final state or error is `Run`'s, and on success the result is the text of every command |
| Drawers.DrawStream | byte_drawer/drawer.py:14-53 | a new drawer that parses ends in the state `Draw` computes, with the texts of its commands as result |
| DrawingProperties.ClipAllInv | byte_drawer/drawer.py:233-331 | clipping keeps the invariant: out of bounds exactly after leaving while drawing, and a pen that is down is in bounds at a known position |
| DrawingProperties.StepInv | byte_drawer/drawer.py:68-231 | every handler that succeeds keeps the invariant |
| DrawingProperties.RunInv | byte_drawer/drawer.py:62-81 | the main loop keeps the invariant |
| DrawingProperties.DrawInv | byte_drawer/drawer.py:14-81 | every drawing that succeeds ends in a state with the invariant |
| DrawingProperties.ExtendsTransitive | byte_drawer/drawer.py:233-331 | append-only growth composes |
| DrawingProperties.ClipPointExtends | byte_drawer/drawer.py:243-326 | one clipping step only appends, and draws lines only from points inside the canvas |
| DrawingProperties.ClipAllExtends | byte_drawer/drawer.py:233-331 | a whole move only appends, and draws lines only from points inside the canvas |
| DrawingProperties.StepExtends | byte_drawer/drawer.py:68-231 | every handler only appends to the commands, lines and pen points |
| DrawingProperties.RunExtends | byte_drawer/drawer.py:62-81 | the main loop never removes or rewrites a command, line or pen point, and every line starts strictly inside the canvas |
| DrawingProperties.ClipDrawInside | byte_drawer/drawer.py:273-280 | pen down, from inside to inside: the point joins the move and a line is drawn to it |
| DrawingProperties.ClipMoveFree | byte_drawer/drawer.py:323-326 | pen up and in bounds: the point joins the move, with no line, wherever it is |
| DrawingProperties.ClipStayOutside | byte_drawer/drawer.py:318-322 | out of bounds, from outside to outside: only the position changes |
| DrawingProperties.ClipExit | byte_drawer/drawer.py:245-271 | leaving while drawing: the move ends at the edge point, PEN UP follows, a line is drawn to the edge, and the drawer is out of bounds |
| DrawingProperties.ClipReenter | byte_drawer/drawer.py:287-316 | coming back in: the move ends at the edge point, PEN DOWN follows, a line is drawn from the point to the edge, and the move restarts at the point |
| DrawingProperties.ClipAllFlushes | byte_drawer/drawer.py:242-331 | the clipper goes point by point, and the points left at the end become one final move |
| DrawingProperties.Segments | byte_drawer/drawer.py:273-280 | one line per point, each from the previous position to that point in the given colour |
| DrawingProperties.ClipAllInside | byte_drawer/drawer.py:242-331 | a move that stays inside with the pen down draws every segment, ends at its last point and becomes one move command |
| DrawingProperties.IgnoredMove | byte_drawer/drawer.py:243-326 | with the pen down outside, or out of bounds with the pen up inside, a move changes nothing but the final flush |
| DrawingProperties.ClearStrands | byte_drawer/drawer.py:91-106 | a clear after the pen left the canvas leaves the drawer out of bounds at the centre |
| DrawingProperties.StepStranded | byte_drawer/drawer.py:68-231 | from a stranded state every step fails or stays stranded, draws no line, and a pen-down request raises ValueError |
| DrawingProperties.RunStranded | byte_drawer/drawer.py:62-81 | once stranded, the rest of the stream draws nothing |
| DrawingProperties.MovePointsFollow | byte_drawer/drawer.py:192-224 | the collected points are the running sums of the decoded offsets |
| DrawingProperties.MovePointsFirst | byte_drawer/drawer.py:192-224 | the first pass of the coordinate loop: its point, and whether the loop goes on |
| DrawingProperties.MovePointsStop | byte_drawer/drawer.py:192-224 | the loop stops at the end of the stream, after the origin, or before F0, A0 or 80 |
| DrawingProperties.MovePointsGrows | byte_drawer/drawer.py:192-224 | a pass that does not stop at a command op code collects a point or fails |
| DrawingProperties.MovePointsShape | byte_drawer/drawer.py:183-224 | from a move op code the points follow the offsets and end for one of the three reasons |
| DrawingProperties.MovePointsComplete | byte_drawer/drawer.py:192-224 | conversely, points that follow the offsets and stop for one of the reasons are exactly what the loop collects |
| DrawingProperties.StepAdvance | byte_drawer/drawer.py:68-231 | the pointer advances by 1 for a clear, 9 for a colour, 3 for a pen, 1 plus 4 per point for a move, 1 for an unknown op code |
| DrawingProperties.TrailingMoveHangs | byte_drawer/drawer.py:68-78 | a C0 as the last token makes the main loop repeat forever |
| EdgeProperties.TruncBetween | byte_drawer/drawer.py:435 | truncation keeps a number between two integer bounds |
| EdgeProperties.RightExit | byte_drawer/drawer.py:377-382 | leaving through the right edge gives a point on the right border at the truncated height of the line there |
| EdgeProperties.RightExitBetween | byte_drawer/drawer.py:377-382 | the right-edge point lies between the heights of the two ends, so strictly within the border's extent |
| EdgeProperties.HeightFromInner | byte_drawer/drawer.py:369-371 | `slope * m + b` is the height measured from the inner point |
| EdgeProperties.HeightBetween | byte_drawer/drawer.py:369-382 | between the two ends, the truncated height lies between their heights |
| EdgeProperties.BottomExit | byte_drawer/drawer.py:384-393 | leaving through the bottom edge gives a point at the bottom bound |
| EdgeProperties.LeftExit | byte_drawer/drawer.py:395-400 | leaving through the left edge writes the bottom bound `min_y` as the x coordinate |
| EdgeProperties.LeftExitOffBorder | byte_drawer/drawer.py:395-400 | on a canvas -10..10 by -20..20 the left-edge point is off the left border |
| EdgeProperties.TopExitFails | byte_drawer/drawer.py:402-437 | leaving through the top edge with a non-zero intercept raises RuntimeError: the top case tests the bottom condition |
| EdgeProperties.CornerCases | byte_drawer/drawer.py:413-437 | outside the edge cases a point exists only for a zero intercept and a sloped segment, and it is the corner the segment points to |
| DrawerVectors.ClearAt | byte_drawer/drawer.py:71-72 | an F0 token hands the rest of the stream the cleared state one token on |
| DrawerVectors.ColorAt | byte_drawer/drawer.py:73-74 | an A0 token with four decoding pairs hands on the state with that colour nine tokens on |
| DrawerVectors.PenAt | byte_drawer/drawer.py:75-76 | an 80 token with an accepted pair hands on the pen state three tokens on |
| DrawerVectors.SkipAt | byte_drawer/drawer.py:79-81 | any other op code is skipped with the state unchanged |
| DrawerVectors.MoveAt | byte_drawer/drawer.py:77-78 | a C0 token with known points hands on the clipped state past four tokens per point |
| DrawerVectors.GreenRun | byte_drawer/tests.py:60-71 | the green-line stream produces clear, green, move to the origin, pen down, move to (4000, 4000), pen up, and draws one green line after the four borders |
| DrawerVectors.PenDownAt | byte_drawer/drawer.py:141-172 | `80 40 01` with a known position in bounds lowers the pen, records the position and hands on three tokens later |
| DrawerVectors.PenUpLast | byte_drawer/drawer.py:141-172 | `80 40 00` as the last three tokens lifts the pen, records the position and ends the run |
| DrawerVectors.OriginPoints | byte_drawer/drawer.py:192-224 | a move by (0, 0) from the origin stops at once with the origin as its only point |
| DrawerVectors.ApproachPoints | byte_drawer/drawer.py:192-224 | a move by (5000, 5000) from the origin followed by `80` collects the one point (5000, 5000) |
| DrawerVectors.RedExitEdge | byte_drawer/drawer.py:377-382 | leaving to the right along y = 5000 ends at (8191, 5000) |
| DrawerVectors.RedReenterEdge | byte_drawer/drawer.py:377-382 | coming back from the right along y = 0 enters at (8191, 0) |
| DrawerVectors.OrangeExitEdge | byte_drawer/drawer.py:377-382 | leaving to the right on the diagonal reaches height 3404.5, truncated to (8191, 3404) |
| DrawerVectors.OrangeReenterEdge | byte_drawer/drawer.py:377-382 | coming back on the other diagonal reaches height 1595.5, truncated to (8191, 1595) |
| DrawerVectors.BlueRun | byte_drawer/tests.py:72-83 | the blue-square stream, whose eleven op codes from 90 on are skipped, produces clear, blue, move to the origin, pen down, one move through (4000, 0), (4000, -8000), (-4000, -8000), (-4000, 0), (-500, 0), pen up, and draws the five sides after the borders |
| DrawerVectors.RedRun | byte_drawer/tests.py:84-99 | the red stream leaves through the right edge, lifts the pen, and puts it down again at (8191, 0) on the way back; two red lines are drawn |
| DrawerVectors.OrangeRun | byte_drawer/tests.py:100-115 | the orange stream is clipped at the truncated heights 3404 and 1595 on the right edge; two orange lines are drawn |
| DrawerTexts.JoinCons | byte_drawer/command.py:87-88 | for every point and non-empty rest, a move's point texts are the first point's text, one space, then the rest's texts |
| DrawerTexts.BlueSquareText | byte_drawer/command.py:87-88 | the blue square's move is the one text "MV (4000, 0) (4000, -8000) (-4000, -8000) (-4000, 0) (-500, 0);" |
| DrawerTexts.GreenTexts | byte_drawer/command.py:42-105 | the text forms of the green commands are the strings the test expects |
| DrawerTexts.RedTexts | byte_drawer/command.py:42-105 | the text forms of the red commands are the strings the test expects |
| DrawerTexts.OrangeTexts | byte_drawer/command.py:42-105 | the text forms of the orange commands are the strings the test expects |
| DrawerTexts.BlueTexts | byte_drawer/command.py:42-105 | the text forms of the blue commands are the strings the test expects |
| DrawerTexts.GreenParse | byte_drawer/tests.py:60-71 | drawing the green-line stream succeeds and the parser's result is exactly the test's list of six texts |
| DrawerTexts.BlueParse | byte_drawer/tests.py:72-83 | drawing the blue-square stream succeeds and the parser's result is exactly the test's list of six texts |
| DrawerTexts.RedParse | byte_drawer/tests.py:84-99 | drawing the red-clipping stream succeeds and the parser's result is exactly the test's list of ten texts |
| DrawerTexts.OrangeParse | byte_drawer/tests.py:100-115 | drawing the orange-clipping stream succeeds and the parser's result is exactly the test's list of ten texts |

## Left out

- File reading (`draw_file`), `display`, the `Parser` base class, `processor.py`, `byte-drawer.py` and the Flask app `app.py` are not part of this model. The first line of the draw file is a parameter of the constructor.
- Python's `int(s, base=16)` also accepts surrounding white space, a sign, `0x` prefixes and underscores. The model accepts only plain hex digits, which is all the two-character op codes hold.
- Floating point: `_build_edge_point` works on Python floats. The model computes in exact rationals and truncates toward zero, as `int()` does. Rounding of the float computation is not modelled.
- `_decode_input_stream` loops forever when C0 is the last token. The model reports `NonTermination` instead of looping.
- Branch D of `_build_edge_point` repeats branch B's condition and can never be taken, so it is not written out. `EdgeProperties.TopExitFails` shows the effect.
- The state of a drawer after a method fails is not specified. The source raises part-way through a handler, and that state is not observable in the model.
- Drawers.Drawer.HandlePen: advances the op-code pointer after the checks and updates rather than between them. The source's order is only observable after an exception.
- DrawerTexts.GreenParse: gives the test's stream as the concatenation of its two-character op codes (`Concat(GreenTokens)`), not as one string literal: tying a literal of this length to its op codes is beyond what the verifier proves at a reasonable cost. The same holds for `DrawerTexts.BlueParse`, `DrawerTexts.RedParse` and `DrawerTexts.OrangeParse`.
