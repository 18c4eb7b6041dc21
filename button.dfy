/** The stateless programmable switch (examples/button): a button event is published
    as a programmable-switch event value, or not at all. */
module Button {
  import opened Common

  /** The value `button_callback` notifies on the programmable switch event
      characteristic for event `e`; None when it notifies nothing. */
  function SwitchEventValue(e: ButtonEvent): (v: Option<int>)
    ensures v == Some(0) <==> e == SinglePress
    ensures v == Some(1) <==> e == DoublePress
    ensures v == Some(2) <==> e == LongPress
    ensures v == None <==> (e.TriplePress? || e.Other?)
  {
    match e
    case SinglePress => Some(0)
    case DoublePress => Some(1)
    case LongPress => Some(2)
    case _ => None
  }
}
