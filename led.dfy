/**
 * The single-pixel indicator (`LEDController`).  Colours are raw tuples in
 * the pixel's green-red-blue order.  The pixel itself is modelled by the list
 * of every value written to it, oldest first, so that a flash pattern or a
 * "red, then green" sequence can be stated; the pixel shows the last one.
 */
module Led {

  datatype Grb = Grb(green: int, red: int, blue: int)

  const COLOR_OFF := 0
  const COLOR_LOW := 64

  const OFF := Grb(COLOR_OFF, COLOR_OFF, COLOR_OFF)
  const RED_LOW := Grb(COLOR_OFF, COLOR_LOW, COLOR_OFF)
  const GREEN_LOW := Grb(COLOR_LOW, COLOR_OFF, COLOR_OFF)
  const BLUE_LOW := Grb(COLOR_OFF, COLOR_OFF, COLOR_LOW)
  const ORANGE_LOW := Grb(10, 128, COLOR_OFF)
  /** Only the older, interrupt-driven controller uses pink. */
  const PINK_LOW := Grb(COLOR_OFF, COLOR_LOW, COLOR_LOW)

  /** The controller's fields as a value: the colour to come back to, whether
      the pixel is lit, and what has been written to the pixel. */
  datatype Indicator = Indicator(currentColor: Grb, isOn: bool, written: seq<Grb>)
  {
    /** What the pixel shows now; its buffer starts dark. */
    function Pixel(): Grb {
      if written == [] then OFF else written[|written| - 1]
    }

    /** The pixel shows the current colour when on and nothing when off. */
    predicate Consistent() {
      Pixel() == if isOn then currentColor else OFF
    }

    function SetColor(c: Grb): Indicator {
      Indicator(c, true, written + [c])
    }

    function TurnOff(): Indicator {
      this.(isOn := false, written := written + [OFF])
    }

    function Toggle(): Indicator {
      if isOn then TurnOff() else SetColor(currentColor)
    }

    /** `n` rounds of "show `c`, then go dark", as the training feedback loops do. */
    function Flash(c: Grb, n: nat): Indicator {
      if n == 0 then this else Flash(c, n - 1).SetColor(c).TurnOff()
    }
  }

  /** The fresh controller: green remembered and marked on, pixel not yet written. */
  const Fresh := Indicator(GREEN_LOW, true, [])

  /** The values `n` flash rounds of colour `c` write to the pixel. */
  function FlashWrites(c: Grb, n: nat): seq<Grb> {
    if n == 0 then [] else FlashWrites(c, n - 1) + [c, OFF]
  }

  lemma SetColorShows(s: Indicator, c: Grb)
    ensures s.SetColor(c).isOn && s.SetColor(c).currentColor == c
    ensures s.SetColor(c).Pixel() == c && s.SetColor(c).Consistent()
  {
  }

  lemma TurnOffKeepsColor(s: Indicator)
    ensures s.TurnOff().currentColor == s.currentColor
    ensures !s.TurnOff().isOn && s.TurnOff().Pixel() == OFF && s.TurnOff().Consistent()
  {
  }

  /** Toggling twice restores the remembered colour, the on/off flag and, when the
      indicator was consistent, what the pixel shows; toggling keeps consistency. */
  lemma ToggleTwice(s: Indicator)
    ensures s.Toggle().Toggle().currentColor == s.currentColor
    ensures s.Toggle().Toggle().isOn == s.isOn
    ensures s.Consistent() ==> s.Toggle().Consistent() && s.Toggle().Toggle().Pixel() == s.Pixel()
  {
  }

  /** Toggling an unlit indicator re-shows exactly the remembered colour. */
  lemma ToggleRestoresLastColor(s: Indicator)
    requires !s.isOn
    ensures s.Toggle().Pixel() == s.currentColor && s.Toggle().isOn
  {
  }

  /** Toggling a lit indicator turns it off and keeps the remembered colour. */
  lemma ToggleWhenOn(s: Indicator)
    requires s.isOn
    ensures s.Toggle() == s.TurnOff()
    ensures !s.Toggle().isOn && s.Toggle().currentColor == s.currentColor && s.Toggle().Pixel() == OFF
  {
  }

  /** Flashing writes `c` and dark `n` times over and leaves the pixel dark with `c` remembered. */
  lemma {:induction false} FlashPattern(s: Indicator, c: Grb, n: nat)
    ensures s.Flash(c, n).written == s.written + FlashWrites(c, n)
    ensures n > 0 ==> !s.Flash(c, n).isOn && s.Flash(c, n).currentColor == c
    ensures n > 0 ==> s.Flash(c, n).Pixel() == OFF && s.Flash(c, n).Consistent()
  {
    if n > 0 {
      FlashPattern(s, c, n - 1);
    }
  }

  /** The object the controllers own; its methods update the fields in place. */
  class LEDController {
    var currentColor: Grb
    var isOn: bool
    /** every value written to the pixel, oldest first */
    var written: seq<Grb>

    function View(): Indicator
      reads this
    {
      Indicator(currentColor, isOn, written)
    }

    constructor ()
      ensures View() == Fresh
    {
      currentColor := GREEN_LOW;
      isOn := true;
      written := [];
    }

    method SetColor(color: Grb)
      modifies this
      ensures View() == old(View()).SetColor(color)
    {
      currentColor := color;
      written := written + [color];
      isOn := true;
    }

    method TurnOff()
      modifies this
      ensures View() == old(View()).TurnOff()
    {
      written := written + [OFF];
      isOn := false;
    }

    method Toggle()
      modifies this
      ensures View() == old(View()).Toggle()
    {
      if isOn {
        TurnOff();
      } else {
        SetColor(currentColor);
      }
    }
  }
}
