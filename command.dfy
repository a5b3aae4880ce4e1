/**
 * The command model (byte_drawer/command.py): the four instruction kinds a drawer emits,
 * each with its fixed text form and the number of op-code tokens it consumes.
 */
module Commands {
  import opened Failures
  import opened Coders
  import opened Geometry

  datatype Command =
    | Clear
    | SetColor(color: Color)
    | Pen(isDown: bool)
    | Move(points: seq<Point>)

  /** Two tokens, high byte first, as the handlers slice them from the stream. */
  type BytePair = (string, string)

  /**
   * `BaseCommand.decode_bytes`: build a `Decoder` on the two tokens and run `parse`
   * (no validation). Fails with ValueError when either token is not hexadecimal.
   */
  function DecodeBytes(pair: BytePair): (r: Result<int>)
    ensures r.Ok? <==> ParseHex(pair.0).Some? && ParseHex(pair.1).Some?
    ensures r.Err? ==> r.error == ValueError
    ensures r.Ok? ==> r.value == Decode(ParseHex(pair.0).value, ParseHex(pair.1).value)
    ensures r.Ok? && |pair.0| <= 2 && |pair.1| <= 2 ==> -8192 <= r.value <= 24703
  {
    var bytes :- DecoderBytes(pair.0, pair.1);
    assert Pow16(0) == 1 && Pow16(1) == 16 && Pow16(2) == 256;
    assert |pair.0| <= 2 ==> Pow16(|pair.0|) <= 256;
    assert |pair.1| <= 2 ==> Pow16(|pair.1|) <= 256;
    Ok(Decode(bytes.0, bytes.1))
  }

  /** The codec round trip through the command layer: `decode_bytes` is the codec's decoder. */
  lemma DecodeBytesIsDecoder(pair: BytePair)
    requires |pair.0| <= 2 && |pair.1| <= 2
    ensures DecodeBytes(pair) == Decoder(pair.0, pair.1)
  {
    if ParseHex(pair.0).Some? && ParseHex(pair.1).Some? {
      ValidationIsVacuous(pair.0, pair.1);
    }
  }

  /**
   * `ColorCommand._process`: each component is decoded on its own, in the order r, g, b,
   * a, with no clamping to 0..255.
   */
  function ColorCommand(rBytes: BytePair, gBytes: BytePair, bBytes: BytePair, aBytes: BytePair): (r: Result<Command>)
    ensures r.Ok? <==> DecodeBytes(rBytes).Ok? && DecodeBytes(gBytes).Ok?
                       && DecodeBytes(bBytes).Ok? && DecodeBytes(aBytes).Ok?
    ensures r.Ok? ==> r.value.SetColor?
                      && r.value.color == Color(DecodeBytes(rBytes).value, DecodeBytes(gBytes).value,
                                                DecodeBytes(bBytes).value, DecodeBytes(aBytes).value)
  {
    var red :- DecodeBytes(rBytes);
    var green :- DecodeBytes(gBytes);
    var blue :- DecodeBytes(bBytes);
    var alpha :- DecodeBytes(aBytes);
    Ok(SetColor(Color(red, green, blue, alpha)))
  }

  /** `PenCommand._process`: the pen is down exactly when the decoded pair is non-zero. */
  function PenCommand(penBytes: BytePair): (r: Result<Command>)
    ensures r.Ok? <==> DecodeBytes(penBytes).Ok?
    ensures r.Ok? ==> r.value.Pen? && (r.value.isDown <==> DecodeBytes(penBytes).value != 0)
  {
    var level :- DecodeBytes(penBytes);
    Ok(Pen(level != 0))
  }

  /** `current_point_offset`: the tokens a command consumes; a move's width is not fixed. */
  function Offset(c: Command): Option<nat> {
    match c
    case Clear => Some(1)
    case SetColor(_) => Some(9)
    case Pen(_) => Some(3)
    case Move(_) => None
  }

  /** The points of a move, each as "(x, y)", separated by single spaces. */
  function JoinPoints(points: seq<Point>): string
  {
    if points == [] then ""
    else if |points| == 1 then PointText(points[0])
    else PointText(points[0]) + " " + JoinPoints(points[1..])
  }

  /** `raw_command`: the text form of each kind. */
  function Render(c: Command): string {
    match c
    case Clear => "CLR;"
    case SetColor(color) => "CO " + ColorText(color) + ";"
    case Pen(isDown) => if isDown then "PEN DOWN;" else "PEN UP;"
    case Move(points) => "MV " + JoinPoints(points) + ";"
  }

  /** Every text form ends with ';', and its first two characters name its kind. */
  lemma RenderShape(c: Command)
    ensures var t := Render(c);
      && |t| >= 4 && t[|t| - 1] == ';'
      && (t[..2] == "CL" <==> c.Clear?)
      && (t[..2] == "CO" <==> c.SetColor?)
      && (t[..2] == "PE" <==> c.Pen?)
      && (t[..2] == "MV" <==> c.Move?)
  {
    var t := Render(c);
    match c
    case Clear =>
      assert t[..2] == "CL";
    case SetColor(color) =>
      assert t == "CO " + (ColorText(color) + ";");
      assert t[..2] == "CO" && t[..2][1] != 'L';
    case Pen(isDown) =>
      assert t[..2] == "PE";
    case Move(points) =>
      assert t == "MV " + (JoinPoints(points) + ";");
      assert t[..2] == "MV";
  }

  /** The two pen pairs the clipper synthesizes decode to pen up and pen down. */
  lemma PenVectors()
    ensures PenCommand(("40", "00")) == Ok(Pen(false))
    ensures PenCommand(("40", "01")) == Ok(Pen(true))
    ensures PenCommand(("4G", "00")) == Err(ValueError)
  {
    assert ParseHex("40") == Some(64) && ParseHex("00") == Some(0) && ParseHex("01") == Some(1);
  }

  /** Components are not clamped to 0..255: the largest two-digit pair decodes to 24703. */
  lemma ColorNotClamped()
    ensures ColorCommand(("FF", "FF"), ("7F", "7F"), ("41", "7F"), ("41", "00"))
         == Ok(SetColor(Color(24703, 8191, 255, 128)))
  {
    assert ParseHex("FF") == Some(255) && ParseHex("7F") == Some(127);
    assert ParseHex("41") == Some(65) && ParseHex("00") == Some(0);
  }
}
