/**
 * The LED pattern of decideRgb and setPattern: two severity levels and an
 * ambient-light reading become eight 24-bit colours, which are sent to the
 * strip as bytes in green, red, blue order.
 */
module Renderer {

  /** A colour 0xRRGGBB; JS applies `>>` and `&` to it as a 32-bit integer. */
  type Color = bv32
  type Byte = bv8

  /** Number of pixels on the strip (`neoPixels`). */
  const PixelCount: nat := 8

  const Off: Color := 0
  /** Greens from brightest to dimmest, yellows bright and dim, and the fixed red. */
  const SignalG: seq<Color> := [0x008000, 0x004000, 0x002000, 0x001000]
  const SignalY: seq<Color> := [0x422c00, 0x1e1400]
  const SignalR: Color := 0x800000

  /** Light-sensor reading decideRgb uses when its caller passes none. */
  const DefaultCds: real := 500.0

  /** For each level 0..5, its four pixels as palette indices: 0 off, 1 green, 2 yellow, 3 red. */
  const Signal: seq<seq<nat>> :=
    [[1, 0, 0, 1], [0, 0, 0, 1], [2, 0, 0, 1], [0, 0, 2, 0], [2, 0, 0, 2], [0, 3, 0, 0]]

  lemma SignalShape()
    ensures |Signal| == 6
    ensures forall level, i :: 0 <= level < 6 && 0 <= i < 4 ==> |Signal[level]| == 4 && Signal[level][i] < 4
  {
  }

  /** `rygValue`: off, then the green and yellow chosen by the light reading, then red. */
  function Palette(cds: real): (ryg: seq<Color>)
    ensures |ryg| == 4
    ensures ryg[0] == Off && ryg[3] == SignalR
    ensures ryg[1] in SignalG && ryg[2] in SignalY
  {
    if cds < 200.0 then [Off, SignalG[0], SignalY[0], SignalR]
    else if cds < 400.0 then [Off, SignalG[1], SignalY[0], SignalR]
    else if cds < 600.0 then [Off, SignalG[2], SignalY[1], SignalR]
    else [Off, SignalG[3], SignalY[1], SignalR]
  }

  /** The four colours of one level's block. */
  function Block(level: nat, ryg: seq<Color>): (block: seq<Color>)
    requires level <= 5 && |ryg| == 4
    ensures |block| == 4
    ensures forall i :: 0 <= i < 4 ==> block[i] in ryg
  {
    SignalShape();
    var row := Signal[level];
    [ryg[row[0]], ryg[row[1]], ryg[row[2]], ryg[row[3]]]
  }

  /** The eight colours decideRgb sends: the heat level on pixels 0-3, the CO2 level on pixels 4-7. */
  function Compose(wbgtSignal: nat, co2Signal: nat, cds: real): (pattern: seq<Color>)
    requires wbgtSignal <= 5 && co2Signal <= 5
    ensures |pattern| == PixelCount
  {
    Block(wbgtSignal, Palette(cds)) + Block(co2Signal, Palette(cds))
  }

  /** The channels setPattern extracts: `color >> 16 & 0xff` and so on. */
  function Red(color: Color): Byte { ((color >> 16) & 0xff) as Byte }
  function Green(color: Color): Byte { ((color >> 8) & 0xff) as Byte }
  function Blue(color: Color): Byte { (color & 0xff) as Byte }

  /** The colour `(r << 16) | (g << 8) | b`. */
  function Pack(r: Byte, g: Byte, b: Byte): Color
  {
    ((r as Color) << 16) | ((g as Color) << 8) | (b as Color)
  }

  /** Unpacking keeps exactly the low 24 bits of a colour. */
  lemma PackChannels(color: Color)
    ensures Pack(Red(color), Green(color), Blue(color)) == color & 0xFF_FFFF
  {
  }

  /** Packing loses nothing: each byte comes back. */
  lemma ChannelsOfPack(r: Byte, g: Byte, b: Byte)
    ensures Red(Pack(r, g, b)) == r && Green(Pack(r, g, b)) == g && Blue(Pack(r, g, b)) == b
  {
  }

  /** The bytes setPattern sends for a pattern: g, r, b for each colour in turn. */
  function GrbBytes(pattern: seq<Color>): (bytes: seq<Byte>)
    ensures |bytes| == 3 * |pattern|
  {
    if pattern == [] then []
    else
      var last := pattern[|pattern| - 1];
      GrbBytes(pattern[..|pattern| - 1]) + [Green(last), Red(last), Blue(last)]
  }

  /** Colour k occupies bytes 3k, 3k+1, 3k+2, as green, red, blue. */
  lemma {:induction false} GrbBytesAt(pattern: seq<Color>, k: nat)
    requires k < |pattern|
    ensures GrbBytes(pattern)[3 * k] == Green(pattern[k])
    ensures GrbBytes(pattern)[3 * k + 1] == Red(pattern[k])
    ensures GrbBytes(pattern)[3 * k + 2] == Blue(pattern[k])
  {
    var n := |pattern| - 1;
    if k < n {
      GrbBytesAt(pattern[..n], k);
    }
  }

  /** Reads a g, r, b byte stream back as colours. */
  function Reassemble(bytes: seq<Byte>): (colors: seq<Color>)
    requires |bytes| % 3 == 0
    ensures |colors| == |bytes| / 3
  {
    seq(|bytes| / 3, k requires 0 <= k < |bytes| / 3 => Pack(bytes[3 * k + 1], bytes[3 * k], bytes[3 * k + 2]))
  }

  /** Each colour masked to its low 24 bits. */
  function Low24(pattern: seq<Color>): (masked: seq<Color>)
    ensures |masked| == |pattern|
  {
    seq(|pattern|, k requires 0 <= k < |pattern| => pattern[k] & 0xFF_FFFF)
  }

  /** Colour k of the decoded stream is colour k of the pattern, masked. */
  lemma GrbRoundTripAt(pattern: seq<Color>, k: nat)
    requires k < |pattern|
    ensures |GrbBytes(pattern)| / 3 == |pattern|
    ensures Reassemble(GrbBytes(pattern))[k] == pattern[k] & 0xFF_FFFF
  {
    var bytes := GrbBytes(pattern);
    assert Reassemble(bytes)[k] == Pack(bytes[3 * k + 1], bytes[3 * k], bytes[3 * k + 2]);
    GrbBytesAt(pattern, k);
    PackChannels(pattern[k]);
  }

  /** Decoding the byte stream recovers every colour's low 24 bits. */
  lemma GrbRoundTrip(pattern: seq<Color>)
    ensures Reassemble(GrbBytes(pattern)) == Low24(pattern)
  {
    var back := Reassemble(GrbBytes(pattern));
    forall k | 0 <= k < |pattern|
      ensures back[k] == Low24(pattern)[k]
    {
      GrbRoundTripAt(pattern, k);
    }
  }

  /** Encoding a decoded byte stream gives the same bytes back. */
  lemma ReassembleRoundTrip(bytes: seq<Byte>)
    requires |bytes| % 3 == 0
    ensures GrbBytes(Reassemble(bytes)) == bytes
  {
    var colors := Reassemble(bytes);
    var again := GrbBytes(colors);
    forall k | 0 <= k < |colors|
      ensures again[3 * k] == bytes[3 * k] && again[3 * k + 1] == bytes[3 * k + 1] && again[3 * k + 2] == bytes[3 * k + 2]
    {
      var r, g, b := bytes[3 * k + 1], bytes[3 * k], bytes[3 * k + 2];
      assert colors[k] == Pack(r, g, b);
      GrbBytesAt(colors, k);
      ChannelsOfPack(r, g, b);
    }
    forall j | 0 <= j < |bytes|
      ensures again[j] == bytes[j]
    {
      var k := j / 3;
      assert j == 3 * k || j == 3 * k + 1 || j == 3 * k + 2;
    }
  }

  /** Appending a colour appends its three bytes. */
  lemma GrbBytesSnoc(pattern: seq<Color>, color: Color)
    ensures GrbBytes(pattern + [color]) == GrbBytes(pattern) + [Green(color), Red(color), Blue(color)]
  {
    assert (pattern + [color])[..|pattern|] == pattern;
  }

  /** setPattern: one g, r, b triple per colour, pushed in a counted loop. */
  method SetPattern(pattern: seq<Color>) returns (grbArray: seq<Byte>)
    ensures grbArray == GrbBytes(pattern)
  {
    grbArray := [];
    for k := 0 to |pattern|
      invariant grbArray == GrbBytes(pattern[..k])
    {
      var color := pattern[k];
      var r := Red(color);
      var g := Green(color);
      var b := Blue(color);
      grbArray := grbArray + [g];
      grbArray := grbArray + [r];
      grbArray := grbArray + [b];
      assert pattern[..k + 1] == pattern[..k] + [color];
      GrbBytesSnoc(pattern[..k], color);
    }
    assert pattern[..|pattern|] == pattern;
  }

  /** One of decideRgb's two counted loops: push the four colours of a level's block. */
  method PushBlock(sendRgb: seq<Color>, rygValue: array<Color>, level: nat) returns (pushed: seq<Color>)
    requires level <= 5 && rygValue.Length == 4
    ensures pushed == sendRgb + Block(level, rygValue[..])
  {
    SignalShape();
    ghost var block := Block(level, rygValue[..]);
    pushed := sendRgb;
    for i := 0 to 4
      invariant pushed == sendRgb + block[..i]
    {
      pushed := pushed + [rygValue[Signal[level][i]]];
    }
    assert block[..4] == block;
  }

  /** The first half of decideRgb: `rygValue` filled from the light reading. */
  method FillPalette(cds: real) returns (rygValue: array<Color>)
    ensures fresh(rygValue) && rygValue[..] == Palette(cds)
  {
    rygValue := new Color[4];
    rygValue[0], rygValue[1], rygValue[2], rygValue[3] := 0, 0, 0, SignalR;
    if cds < 200.0 {
      rygValue[1] := SignalG[0];
      rygValue[2] := SignalY[0];
    } else if cds < 400.0 {
      rygValue[1] := SignalG[1];
      rygValue[2] := SignalY[0];
    } else if cds < 600.0 {
      rygValue[1] := SignalG[2];
      rygValue[2] := SignalY[1];
    } else {
      rygValue[1] := SignalG[3];
      rygValue[2] := SignalY[1];
    }
  }

  /**
   * decideRgb: fill `rygValue` from the light reading, push the heat level's
   * four colours and then the CO2 level's, and hand the result to setPattern.
   */
  method DecideRgb(wbgtSignal: nat, co2Signal: nat, cds: real) returns (sendRgb: seq<Color>, grb: seq<Byte>)
    requires wbgtSignal <= 5 && co2Signal <= 5
    ensures sendRgb == Compose(wbgtSignal, co2Signal, cds)
    ensures grb == GrbBytes(sendRgb)
  {
    sendRgb := [];
    var rygValue := FillPalette(cds);
    sendRgb := PushBlock(sendRgb, rygValue, wbgtSignal);
    sendRgb := PushBlock(sendRgb, rygValue, co2Signal);
    grb := SetPattern(sendRgb);
  }

  /** Every pixel is off, the chosen green, the chosen yellow, or red. */
  lemma ComposeColours(wbgtSignal: nat, co2Signal: nat, cds: real, i: nat)
    requires wbgtSignal <= 5 && co2Signal <= 5 && i < PixelCount
    ensures Compose(wbgtSignal, co2Signal, cds)[i] in Palette(cds)
  {
    SignalShape();
  }

  /** Which pixels are red does not depend on the light reading. */
  lemma RedIgnoresLight(wbgtSignal: nat, co2Signal: nat, cds1: real, cds2: real, i: nat)
    requires wbgtSignal <= 5 && co2Signal <= 5 && i < PixelCount
    ensures Compose(wbgtSignal, co2Signal, cds1)[i] == SignalR <==> Compose(wbgtSignal, co2Signal, cds2)[i] == SignalR
  {
    SignalShape();
    var p1, p2 := Palette(cds1), Palette(cds2);
    assert forall j :: 0 <= j < 4 ==> (p1[j] == SignalR <==> j == 3) && (p2[j] == SignalR <==> j == 3);
  }

  /** Level 5 shows off, red, off, off in its block, whatever the light. */
  lemma LevelFiveBlock(wbgtSignal: nat, co2Signal: nat, cds: real)
    requires wbgtSignal <= 5 && co2Signal <= 5
    ensures wbgtSignal == 5 ==> Compose(wbgtSignal, co2Signal, cds)[..4] == [Off, SignalR, Off, Off]
    ensures co2Signal == 5 ==> Compose(wbgtSignal, co2Signal, cds)[4..] == [Off, SignalR, Off, Off]
  {
    var ryg := Palette(cds);
    var p := Compose(wbgtSignal, co2Signal, cds);
    assert p[..4] == Block(wbgtSignal, ryg) && p[4..] == Block(co2Signal, ryg);
  }

  /** With the default reading, green is 0x002000 and yellow 0x1e1400; levels 0 and 0 give green end markers. */
  lemma DefaultLight()
    ensures Palette(DefaultCds) == [Off, 0x002000, 0x1e1400, SignalR]
    ensures Compose(0, 0, DefaultCds) == [0x002000, Off, Off, 0x002000, 0x002000, Off, Off, 0x002000]
  {
  }

  /** A larger `cds` reading never selects a numerically larger green or yellow. */
  lemma PaletteDimsWithLight(cds1: real, cds2: real)
    requires cds1 <= cds2
    ensures Palette(cds2)[1] <= Palette(cds1)[1] && Palette(cds2)[2] <= Palette(cds1)[2]
  {
  }

  /** setPattern on a full pattern sends 24 bytes. */
  lemma FullPatternBytes(wbgtSignal: nat, co2Signal: nat, cds: real)
    requires wbgtSignal <= 5 && co2Signal <= 5
    ensures |GrbBytes(Compose(wbgtSignal, co2Signal, cds))| == 3 * PixelCount == 24
  {
  }
}
