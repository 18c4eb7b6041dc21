/** The colour LED strip (examples/led_strip): a task fades the shown colour
    towards a target colour channel by channel and writes it to every pixel of
    the strip; a push button flips the lightbulb's on characteristic. The
    HSI-to-RGB conversion (floating point) is not modelled: its result is an
    input of the fade step, and so is the on flag the task reads. Channels are
    uint8_t, so additions wrap modulo 256, and C's `/` truncates toward zero;
    both are written out. */
module LedStrip {
  import opened Common

  /** Number of WS2812B pixels on the strip. */
  const LedCount: int := 15

  type Byte = x: int | 0 <= x < 256

  datatype Pixel = Pixel(red: Byte, green: Byte, blue: Byte, white: Byte)

  const Black: Pixel := Pixel(0, 0, 0, 0)

  /** The colour `hsi2rgb` produces from hue, saturation and brightness. The
      conversion always sets the white byte to 0, so only the three colour
      bytes are inputs of the model. */
  datatype Rgb = Rgb(red: Byte, green: Byte, blue: Byte)

  /** Conversion of an int to uint8_t. */
  function ToByte(x: int): (r: Byte)
    ensures 0 <= x < 256 ==> r == x
  {
    x % 256
  }

  /** One colour channel of the fade: the level on the strip (`rgb1`) and the
      level at which the fade last settled (`current_color`). */
  datatype Channel = Channel(shown: Byte, settled: Byte)

  /** One fade step of a channel towards `target`, as `led_string_set` computes
      it: a channel that has settled on the target is left alone; otherwise the
      shown level moves by a twentieth of its distance from the target (at
      least 1), and on reaching or passing the target both levels become the
      target. */
  function FadeChannel(ch: Channel, target: Byte): (r: Channel)
    ensures ch.settled == target ==> r == ch
    ensures ch.settled < target ==> r.shown <= target
    ensures ch.settled > target ==> r.shown >= target
    ensures r.settled == target <==> r.shown == target || ch.settled == target
    ensures r.settled == ch.settled || r.settled == target
  {
    if ch.settled < target then
      var x := TruncDiv(target - ch.shown, 20);
      var shown := ToByte(ch.shown + (if x < 1 then 1 else x));
      if shown >= target then Channel(target, target) else Channel(shown, ch.settled)
    else if ch.settled > target then
      var x := TruncDiv(ch.shown - target, 20);
      var shown := ToByte(ch.shown - (if x < 1 then 1 else x));
      if shown <= target then Channel(target, target) else Channel(shown, ch.settled)
    else
      ch
  }

  /** The shown level sits at an end of the range only when the fade has
      settled there. This holds from power-up (both 0) and rules out the uint8_t
      wrap-around. */
  predicate Anchored(ch: Channel)
  {
    && (ch.shown == 255 ==> ch.settled == 255)
    && (ch.shown == 0 ==> ch.settled == 0)
  }

  /** Distance still to travel towards the target, measured in the direction in
      which the fade is heading (negative when the shown level is already past
      the target). */
  function Ahead(ch: Channel, target: Byte): int
  {
    if ch.settled < target then target - ch.shown else ch.shown - target
  }

  /** The fade step stated without machine arithmetic: settle when at most 1
      remains, otherwise move the shown level towards the target by a twentieth
      of the distance, at least 1. */
  function IdealFade(ch: Channel, target: Byte): Channel
  {
    if ch.settled == target then ch
    else
      var d := Ahead(ch, target);
      if d <= 1 then Channel(target, target)
      else
        var step := if d / 20 < 1 then 1 else d / 20;
        if ch.settled < target then Channel(ch.shown + step, ch.settled)
        else Channel(ch.shown - step, ch.settled)
  }

  /** On an anchored channel the uint8_t step never wraps: it is the ideal step,
      and it keeps the channel anchored. */
  lemma FadeIsIdeal(ch: Channel, target: Byte)
    requires Anchored(ch)
    ensures FadeChannel(ch, target) == IdealFade(ch, target)
    ensures Anchored(FadeChannel(ch, target))
  {
    var d := Ahead(ch, target);
    if ch.settled < target {
      var x := TruncDiv(target - ch.shown, 20);
      if d >= 1 {
        assert x * 20 <= d;
        assert x <= d;
      } else {
        assert ch.shown != 255;
      }
    } else if ch.settled > target {
      var x := TruncDiv(ch.shown - target, 20);
      if d >= 1 {
        assert x * 20 <= d;
        assert x <= d;
      } else {
        assert ch.shown != 0;
      }
    }
  }

  /** `n` fade steps towards a fixed target. */
  function FadeN(ch: Channel, target: Byte, n: nat): Channel
    decreases n
  {
    if n == 0 then ch else FadeN(FadeChannel(ch, target), target, n - 1)
  }

  /** Steps an anchored channel needs at most to settle on the target. */
  function Remaining(ch: Channel, target: Byte): nat
  {
    if ch.settled == target then 0
    else if Ahead(ch, target) <= 1 then 1
    else Ahead(ch, target)
  }

  /** With the target held, an anchored channel settles on it, the strip showing
      exactly the target, within `Remaining` steps (at most 255). */
  lemma {:induction false} FadeSettles(ch: Channel, target: Byte, n: nat)
    requires Anchored(ch) && n >= Remaining(ch, target)
    decreases n
    ensures FadeN(ch, target, n).settled == target
    ensures FadeN(ch, target, n).shown == target || (ch.settled == target && FadeN(ch, target, n) == ch)
  {
    if n == 0 {
    } else {
      FadeIsIdeal(ch, target);
      var next := FadeChannel(ch, target);
      if ch.settled == target {
        FadeStaysSettled(ch, target, n - 1);
      } else if Ahead(ch, target) <= 1 {
        assert next == Channel(target, target);
        FadeStaysSettled(next, target, n - 1);
      } else {
        assert Remaining(next, target) <= Remaining(ch, target) - 1;
        FadeSettles(next, target, n - 1);
      }
    }
  }

  /** A settled channel is never touched again while the target holds. */
  lemma {:induction false} FadeStaysSettled(ch: Channel, target: Byte, n: nat)
    requires ch.settled == target
    decreases n
    ensures FadeN(ch, target, n) == ch
  {
    if n > 0 {
      FadeStaysSettled(FadeChannel(ch, target), target, n - 1);
    }
  }

  /** Whatever the state of an anchored channel, 255 steps towards a held
      target are enough to settle on it. */
  lemma FadeSettlesWithin255(ch: Channel, target: Byte, n: nat)
    requires Anchored(ch) && n >= 255
    ensures FadeN(ch, target, n).settled == target
  {
    FadeSettles(ch, target, n);
  }

  /** The fade step of one channel as `led_string_set` performs it on the red
      channel (examples/led_strip/main/main.c:250-264; green and blue repeat
      it), statement by statement; proved to compute `FadeChannel`. */
  method StepChannel(shown: Byte, settled: Byte, target: Byte) returns (newShown: Byte, newSettled: Byte)
    ensures Channel(newShown, newSettled) == FadeChannel(Channel(shown, settled), target)
  {
    newShown, newSettled := shown, settled;
    if settled < target {
      var x := TruncDiv(target - shown, 20);
      newShown := ToByte(shown + (if x < 1 then 1 else x));
      if newShown >= target {
        newShown := target;
        newSettled := target;
      }
    } else if settled > target {
      var x := TruncDiv(shown - target, 20);
      newShown := ToByte(shown - (if x < 1 then 1 else x));
      if newShown <= target {
        newShown := target;
        newSettled := target;
      }
    }
  }

  /** The colour the task fades towards: the converted colour, with the white
      byte 0 that `hsi2rgb` writes, while on; black while off. */
  function TargetColor(on: bool, rgb: Rgb): (c: Pixel)
    ensures c.white == 0
    ensures on ==> c.red == rgb.red && c.green == rgb.green && c.blue == rgb.blue
    ensures !on ==> c == Black
  {
    if on then Pixel(rgb.red, rgb.green, rgb.blue, 0) else Black
  }

  /** With the on flag and the converted colour held, 255 fade steps settle
      every colour channel on the converted colour while on, and on 0 while
      off. */
  lemma FadeReachesTargetColor(red: Channel, green: Channel, blue: Channel, on: bool, rgb: Rgb, n: nat)
    requires Anchored(red) && Anchored(green) && Anchored(blue) && n >= 255
    ensures FadeN(red, TargetColor(on, rgb).red, n).settled == (if on then rgb.red else 0)
    ensures FadeN(green, TargetColor(on, rgb).green, n).settled == (if on then rgb.green else 0)
    ensures FadeN(blue, TargetColor(on, rgb).blue, n).settled == (if on then rgb.blue else 0)
  {
    var c := TargetColor(on, rgb);
    FadeSettlesWithin255(red, c.red, n);
    FadeSettlesWithin255(green, c.green, n);
    FadeSettlesWithin255(blue, c.blue, n);
  }

  class Strip {
    /** The pixel buffer sent to the strip. */
    const pixels: array<Pixel>
    /** `rgb1`: the colour on the strip. */
    var shown: Pixel
    /** `current_color`: where each channel's fade last settled. */
    var settled: Pixel
    /** `target_color`. */
    var target: Pixel
    /** The on-board indicator LED lit. */
    var indicator: bool
    /** The lightbulb's on characteristic. */
    var lightbulbOn: bool
    /** Values notified on the on characteristic, oldest first. */
    ghost var events: seq<bool>

    /** The strip's length, the fade's anchoring, and a white channel that
        stays dark. */
    ghost predicate Valid()
      reads this
    {
      && pixels.Length == LedCount
      && shown.white == 0 && settled.white == 0 && target.white == 0
      && Anchored(Channel(shown.red, settled.red))
      && Anchored(Channel(shown.green, settled.green))
      && Anchored(Channel(shown.blue, settled.blue))
    }

    /** Power-up: every colour and every pixel black, the lightbulb off. */
    constructor ()
      ensures Valid() && fresh(pixels)
      ensures shown == Black && settled == Black && target == Black
      ensures forall k :: 0 <= k < pixels.Length ==> pixels[k] == Black
      ensures !lightbulbOn && !indicator && events == []
    {
      pixels := new Pixel[LedCount](_ => Black);
      shown, settled, target := Black, Black, Black;
      lightbulbOn, indicator := false, false;
      events := [];
    }

    /** `led_string_fill`: every pixel takes colour `rgb`. */
    method Fill(rgb: Pixel)
      modifies pixels
      ensures forall k :: 0 <= k < pixels.Length ==> pixels[k] == rgb
    {
      for i := 0 to pixels.Length
        invariant forall k :: 0 <= k < i ==> pixels[k] == rgb
      {
        pixels[i] := rgb;
      }
    }

    /** One pass of the `led_string_set` loop: pick the target colour, light
        the indicator while on, fade red, green and blue one step, and fill the
        strip with the result. White is not faded. */
    method FadeStep(on: bool, rgb: Rgb)
      requires Valid()
      modifies this, pixels
      ensures Valid()
      ensures target == TargetColor(on, rgb) && indicator == on
      ensures Channel(shown.red, settled.red) == FadeChannel(Channel(old(shown.red), old(settled.red)), target.red)
      ensures Channel(shown.green, settled.green) == FadeChannel(Channel(old(shown.green), old(settled.green)), target.green)
      ensures Channel(shown.blue, settled.blue) == FadeChannel(Channel(old(shown.blue), old(settled.blue)), target.blue)
      ensures shown.white == old(shown.white) && settled.white == old(settled.white)
      ensures forall k :: 0 <= k < pixels.Length ==> pixels[k] == shown
      ensures lightbulbOn == old(lightbulbOn) && events == old(events)
    {
      if on {
        target := Pixel(rgb.red, rgb.green, rgb.blue, 0);
        indicator := true;
      } else {
        target := Black;
        indicator := false;
      }
      var s, c := StepChannel(shown.red, settled.red, target.red);
      FadeIsIdeal(Channel(shown.red, settled.red), target.red);
      shown, settled := shown.(red := s), settled.(red := c);
      s, c := StepChannel(shown.green, settled.green, target.green);
      FadeIsIdeal(Channel(shown.green, settled.green), target.green);
      shown, settled := shown.(green := s), settled.(green := c);
      s, c := StepChannel(shown.blue, settled.blue, target.blue);
      FadeIsIdeal(Channel(shown.blue, settled.blue), target.blue);
      shown, settled := shown.(blue := s), settled.(blue := c);
      Fill(shown);
    }

    /** `button_callback`: a single press flips the on characteristic and
        notifies it; other presses change nothing. */
    method ButtonCallback(e: ButtonEvent)
      modifies this`lightbulbOn, this`events
      ensures e == SinglePress ==> lightbulbOn == !old(lightbulbOn) && events == old(events) + [lightbulbOn]
      ensures e != SinglePress ==> lightbulbOn == old(lightbulbOn) && events == old(events)
    {
      match e {
        case SinglePress =>
          lightbulbOn := !lightbulbOn;
          events := events + [lightbulbOn];
        case _ =>
      }
    }
  }
}
