/** The relay switch (examples/button_toggle): the switch's on characteristic
    drives a relay, and both a push button and a toggle switch flip it. */
module ButtonToggle {
  import opened Common

  class Switch {
    /** The on characteristic (`switch_on`). */
    var on: bool
    /** Level written to the relay pin. */
    var relay: bool
    /** Values notified on the on characteristic, oldest first. */
    ghost var events: seq<bool>

    /** The relay shows the switch state. */
    ghost predicate Valid()
      reads this
    {
      relay == on
    }

    /** Power-up: the characteristic starts off; the relay pin holds whatever
        level it had until `relay_init` writes it. */
    constructor (relayAtReset: bool)
      ensures !on && relay == relayAtReset && events == []
    {
      on := false;
      relay := relayAtReset;
      events := [];
    }

    /** `relay_init`: write the relay from the switch state. */
    method RelayInit()
      modifies this`relay
      ensures Valid() && on == old(on)
    {
      relay := on;
    }

    /** `switch_on_callback`: after a write of the on characteristic, write the
        relay from it. */
    method SwitchOnCallback()
      modifies this`relay
      ensures Valid() && on == old(on)
    {
      relay := on;
    }

    /** A write of the on characteristic from the controller app: the value is
        stored and the change callback runs. */
    method OnWrite(v: bool)
      modifies this`on, this`relay
      ensures Valid() && on == v
      ensures events == old(events)
    {
      on := v;
      SwitchOnCallback();
    }

    /** `toggle_callback`: flip the switch, write the relay and notify. */
    method ToggleCallback()
      modifies this`on, this`relay, this`events
      ensures Valid() && on == !old(on)
      ensures events == old(events) + [on]
    {
      on := !on;
      relay := on;
      events := events + [on];
    }

    /** `button_callback`: a single press flips the switch like the toggle; a
        long press or any other event changes nothing. */
    method ButtonCallback(e: ButtonEvent)
      requires Valid()
      modifies this`on, this`relay, this`events
      ensures Valid()
      ensures e == SinglePress ==> on == !old(on) && events == old(events) + [on]
      ensures e != SinglePress ==> unchanged(this)
    {
      match e {
        case SinglePress =>
          on := !on;
          relay := on;
          events := events + [on];
        case _ =>
      }
    }
  }

  /** Two flips, each by the toggle or by a single press, restore the switch and
      the relay; both new values are notified. */
  method TwoFlipsRestore(s: Switch, firstByToggle: bool, secondByToggle: bool)
    requires s.Valid()
    modifies s
    ensures s.Valid() && s.on == old(s.on) && s.relay == old(s.relay)
    ensures s.events == old(s.events) + [!old(s.on), old(s.on)]
  {
    if firstByToggle { s.ToggleCallback(); } else { s.ButtonCallback(SinglePress); }
    if secondByToggle { s.ToggleCallback(); } else { s.ButtonCallback(SinglePress); }
  }
}
