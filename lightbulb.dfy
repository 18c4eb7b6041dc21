/** The single LED lightbulb (examples/5.lightbulb/led): the on characteristic
    has its own getter and a setter that checks the value's format before
    driving the LED pin. */
module Lightbulb {

  /** A characteristic value as the protocol layer hands it over, tagged with
      its format. */
  datatype HomeKitValue =
    | BoolValue(boolValue: bool)
    | IntValue(intValue: int)
    | FloatValue(floatValue: real)
    | StringValue(stringValue: string)

  class Led {
    /** The global `led_on`. */
    var ledOn: bool
    /** Level written to the LED pin. */
    var pin: bool

    /** The pin shows `led_on`. */
    ghost predicate Valid()
      reads this
    {
      pin == ledOn
    }

    /** Power-up: `led_on` starts false; the pin holds whatever level it had
        until `led_init`. */
    constructor (pinAtReset: bool)
      ensures !ledOn && pin == pinAtReset
    {
      ledOn := false;
      pin := pinAtReset;
    }

    /** `led_init`: write the pin from `led_on`. */
    method LedInit()
      modifies this`pin
      ensures Valid() && ledOn == old(ledOn)
    {
      pin := ledOn;
    }

    /** `led_on_get`: report `led_on` as a bool value. */
    method LedOnGet() returns (v: HomeKitValue)
      ensures v.BoolValue? && v.boolValue == ledOn
    {
      v := BoolValue(ledOn);
    }

    /** `led_on_set`: a value of any format other than bool is rejected and
        changes nothing; a bool value is stored and written to the pin. */
    method LedOnSet(v: HomeKitValue)
      modifies this
      ensures !v.BoolValue? ==> unchanged(this)
      ensures v.BoolValue? ==> ledOn == v.boolValue && Valid()
    {
      if !v.BoolValue? {
        return;
      }
      ledOn := v.boolValue;
      pin := ledOn;
    }
  }

  /** Every accepted write is read back unchanged, and a rejected write leaves
      what is read back as it was. */
  method SetThenGet(l: Led, v: HomeKitValue) returns (r: HomeKitValue)
    modifies l
    ensures v.BoolValue? ==> r == v && l.Valid()
    ensures !v.BoolValue? ==> r == BoolValue(old(l.ledOn))
  {
    l.LedOnSet(v);
    r := l.LedOnGet();
  }
}
