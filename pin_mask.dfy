/**
 * GPIO port masks: the pin filter the trigger code applies in its GPIO
 * callback and the one-pin mask it registers the callback for.
 */
module PinMask {

  /** A pin number (gpio_pin_t, 8 bits) of a GPIO port whose pins fit a 32-bit port mask. */
  type Pin = p: bv8 | p < 32

  /** BIT(pin): the 32-bit GPIO port mask selecting one pin. */
  function Bit(pin: Pin): bv32
  {
    (1 as bv32) << pin
  }

  /** The filter of the GPIO callback: `(pin_mask & BIT(pin)) != 0`. */
  function PinSelected(pinMask: bv32, pin: Pin): bool
  {
    pinMask & Bit(pin) != 0
  }

  /** The port mask reporting exactly the pins listed. */
  function MaskOf(pins: seq<Pin>): bv32
  {
    if pins == [] then 0 else Bit(pins[0]) | MaskOf(pins[1..])
  }

  /** A one-pin mask passes the filter exactly for its own pin. */
  lemma SinglePinSelected(p: Pin, pin: Pin)
    ensures PinSelected(Bit(p), pin) <==> p == pin
  {
  }

  /** Masks combine by union: a test mask meets `a | b` exactly when it meets `a` or `b`. */
  lemma AndOverOr(a: bv32, b: bv32, m: bv32)
    ensures (a | b) & m != 0 <==> a & m != 0 || b & m != 0
  {
    assert (a | b) & m == (a & m) | (b & m);
  }

  /** Adding one pin to a mask adds exactly that pin to what the filter passes. */
  lemma PinSelectedCons(pins: seq<Pin>, pin: Pin)
    requires pins != []
    ensures PinSelected(MaskOf(pins), pin) <==> pins[0] == pin || PinSelected(MaskOf(pins[1..]), pin)
  {
    var head, tail := Bit(pins[0]), MaskOf(pins[1..]);
    assert MaskOf(pins) == head | tail;
    AndOverOr(head, tail, Bit(pin));
    SinglePinSelected(pins[0], pin);
  }

  /** The filter passes a port mask exactly when the configured pin is among the pins it reports. */
  lemma {:induction false} PinSelectedIffListed(pins: seq<Pin>, pin: Pin)
    ensures PinSelected(MaskOf(pins), pin) <==> pin in pins
    decreases |pins|
  {
    if pins == [] {
      assert MaskOf(pins) == 0;
    } else {
      PinSelectedIffListed(pins[1..], pin);
      PinSelectedCons(pins, pin);
      assert pin in pins <==> pins[0] == pin || pin in pins[1..];
    }
  }
}
