/**
 * `Color` from the colour helper: an immutable red/green/blue/brightness value
 * whose constructor clamps every part into range, and which converts to the
 * pixel's green-red-blue order with the brightness applied.  Brightness is an
 * exact real; binary floating-point rounding is not modelled.
 */
module Colors {

  datatype Color = Color(red: int, green: int, blue: int, brightness: real)

  /** What `==` may compare a colour with. */
  datatype Operand = AColor(color: Color) | ATuple(items: seq<int>) | SomethingElse

  function Min(a: int, b: int): int { if a <= b then a else b }
  function Max(a: int, b: int): int { if a >= b then a else b }
  function MinReal(a: real, b: real): real { if a <= b then a else b }
  function MaxReal(a: real, b: real): real { if a >= b then a else b }

  predicate ChannelInRange(x: int) { 0 <= x <= 255 }

  /** Every colour the constructor builds satisfies this. */
  predicate Valid(c: Color) {
    ChannelInRange(c.red) && ChannelInRange(c.green) && ChannelInRange(c.blue) &&
    0.0 <= c.brightness <= 1.0
  }

  /** A channel pushed into [0, 255]: kept when inside, the nearer end otherwise. */
  function ClampChannel(x: int): (r: int)
    ensures ChannelInRange(r)
    ensures ChannelInRange(x) ==> r == x
    ensures x < 0 ==> r == 0
    ensures x > 255 ==> r == 255
  {
    Min(255, Max(0, x))
  }

  /** A brightness pushed into [0.0, 1.0]: kept when inside, the nearer end otherwise. */
  function ClampBrightness(b: real): (r: real)
    ensures 0.0 <= r <= 1.0
    ensures 0.0 <= b <= 1.0 ==> r == b
    ensures b < 0.0 ==> r == 0.0
    ensures b > 1.0 ==> r == 1.0
  {
    MinReal(1.0, MaxReal(0.0, b))
  }

  /** `Color(red, green, blue, brightness)` */
  function NewColor(red: int, green: int, blue: int, brightness: real := 1.0): (c: Color)
    ensures Valid(c)
    ensures (ChannelInRange(red) && ChannelInRange(green) && ChannelInRange(blue) &&
             0.0 <= brightness <= 1.0) ==> c == Color(red, green, blue, brightness)
  {
    Color(ClampChannel(red), ClampChannel(green), ClampChannel(blue), ClampBrightness(brightness))
  }

  /** Python's `int()` on a number: truncation toward zero. */
  function Trunc(x: real): (r: int)
    ensures 0.0 <= x ==> r as real <= x < r as real + 1.0
    ensures x < 0.0 ==> r as real - 1.0 < x <= r as real
  {
    if x >= 0.0 then x.Floor else -((-x).Floor)
  }

  /** One channel scaled by the brightness. */
  function Scale(channel: int, brightness: real): int {
    Trunc(channel as real * brightness)
  }

  /** `to_grb()`: green, red, blue, each scaled by the brightness and truncated. */
  function ToGrb(c: Color): (int, int, int) {
    (Scale(c.green, c.brightness), Scale(c.red, c.brightness), Scale(c.blue, c.brightness))
  }

  /** `__eq__`: a tuple is compared with the unscaled channels in green-red-blue
      order and brightness is ignored; a colour must agree on all four parts;
      anything else is unequal. */
  function Equals(c: Color, other: Operand): bool {
    match other
    case ATuple(items) => items == [c.green, c.red, c.blue]
    case AColor(o) => c.red == o.red && c.green == o.green && c.blue == o.blue && c.brightness == o.brightness
    case SomethingElse => false
  }

  const OFF := NewColor(0, 0, 0)
  const RED := NewColor(255, 0, 0)
  const GREEN := NewColor(0, 255, 0)
  const BLUE := NewColor(0, 0, 255)
  const ORANGE := NewColor(255, 165, 0)
  const RED_LOW := NewColor(255, 0, 0, 0.25)
  const GREEN_LOW := NewColor(0, 255, 0, 0.25)
  const BLUE_LOW := NewColor(0, 0, 255, 0.25)
  const ORANGE_LOW := NewColor(255, 165, 0, 0.25)

  lemma MulNonNegative(a: real, b: real)
    requires 0.0 <= a && 0.0 <= b
    ensures 0.0 <= a * b
  {
  }

  /** A scaled channel of a valid colour lies between 0 and the unscaled channel. */
  lemma ScaleBounds(channel: int, brightness: real)
    requires ChannelInRange(channel) && 0.0 <= brightness <= 1.0
    ensures 0 <= Scale(channel, brightness) <= channel
  {
    var ch := channel as real;
    var x := ch * brightness;
    MulNonNegative(ch, brightness);
    MulNonNegative(ch, 1.0 - brightness);
    assert ch - x == ch * (1.0 - brightness);
  }

  /** Every channel of `to_grb()` lies between 0 and the channel it comes from. */
  lemma ToGrbBounds(c: Color)
    requires Valid(c)
    ensures 0 <= ToGrb(c).0 <= c.green
    ensures 0 <= ToGrb(c).1 <= c.red
    ensures 0 <= ToGrb(c).2 <= c.blue
  {
    ScaleBounds(c.green, c.brightness);
    ScaleBounds(c.red, c.brightness);
    ScaleBounds(c.blue, c.brightness);
  }

  /** At full brightness `to_grb()` is the channels reordered, unchanged. */
  lemma ScaleFull(channel: int)
    ensures Scale(channel, 1.0) == channel
  {
    assert channel as real * 1.0 == channel as real;
  }

  lemma FullBrightnessReorders(c: Color)
    requires c.brightness == 1.0
    ensures ToGrb(c) == (c.green, c.red, c.blue)
  {
    ScaleFull(c.green);
    ScaleFull(c.red);
    ScaleFull(c.blue);
  }

  /** The quarter-brightness presets truncate 255 to 63 and 165 to 41. */
  lemma QuarterBrightnessPresets()
    ensures ToGrb(RED_LOW) == (0, 63, 0)
    ensures ToGrb(GREEN_LOW) == (63, 0, 0)
    ensures ToGrb(BLUE_LOW) == (0, 0, 63)
    ensures ToGrb(ORANGE_LOW) == (41, 63, 0)
    ensures ToGrb(NewColor(255, 0, 0, 1.0)) == (0, 255, 0)
  {
  }

  /** Equality with a tuple: exactly the unscaled green-red-blue triple, whatever the brightness. */
  lemma EqualsTuple(c: Color, t: seq<int>)
    ensures Equals(c, ATuple(t)) <==> |t| == 3 && t[0] == c.green && t[1] == c.red && t[2] == c.blue
  {
  }

  /** Equality with a colour: all four parts; anything else is never equal. */
  lemma EqualsColor(c: Color, o: Color)
    ensures Equals(c, AColor(o)) <==> c == o
    ensures !Equals(c, SomethingElse)
  {
  }

  /** Two colours differing only in brightness equal the same tuple but not each other. */
  lemma BrightnessIgnoredForTuples()
    ensures Equals(RED_LOW, ATuple([0, 255, 0])) && Equals(RED, ATuple([0, 255, 0]))
    ensures !Equals(RED_LOW, AColor(RED))
  {
  }
}
