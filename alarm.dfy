/** The security system (examples/alarm). States, as the HomeKit security-system
    characteristics number them: 0 stay arm, 1 away arm, 2 night arm,
    3 disarmed, 4 alarm triggered. `update_state` runs after every write of the
    target state and moves the current state towards it through a guarded
    chain; entering night arm also draws "NIGHT" on the MAX7219 display. */
module Alarm {
  import opened Common

  const StayArm: int := 0
  const AwayArm: int := 1
  const NightArm: int := 2
  const Disarmed: int := 3
  const Triggered: int := 4

  /** What one pass of the chain decides: the new current state, or None when
      no branch fires. */
  function Transition(current: int, target: int): (r: Option<int>)
    ensures r.Some? ==> r.value == target
    ensures r.Some? <==>
      || (target == AwayArm && current != AwayArm)
      || (target == NightArm && current != NightArm)
      || ((target == Disarmed || target == Triggered) && current != NightArm)
      || (target == StayArm && current != StayArm)
  {
    if current != AwayArm && target == AwayArm then Some(AwayArm)
    else if current != NightArm && target == NightArm then Some(NightArm)
    else if current != NightArm && target == Disarmed then Some(Disarmed)
    else if current != NightArm && target == Triggered then Some(Triggered)
    else if current != StayArm && target == StayArm then Some(StayArm)
    else None
  }

  /** The state after the pass. */
  function NextState(current: int, target: int): (s: int)
    ensures s == current || s == target
  {
    match Transition(current, target)
    case Some(s) => s
    case None => current
  }

  /** What is observable outside the accessory. */
  datatype Event = CurrentStateNotified(state: int) | NightShown

  /** The notifications (and display action) one pass emits. */
  function Emitted(current: int, target: int): (es: seq<Event>)
    ensures |es| <= 2
    ensures |es| > 0 <==> Transition(current, target).Some?
  {
    match Transition(current, target)
    case None => []
    case Some(s) => [CurrentStateNotified(s)] + (if s == NightArm then [NightShown] else [])
  }

  /** From night arm, a request to disarm or to trigger the alarm is ignored. */
  lemma NightArmIgnoresDisarmAndTrigger(target: int)
    requires target == Disarmed || target == Triggered
    ensures Transition(NightArm, target) == None
    ensures NextState(NightArm, target) == NightArm
  {
  }

  /** Exactly one notification of the new state per effective pass, and the night
      display exactly when night arm is entered. */
  lemma OneNotificationPerPass(current: int, target: int)
    requires Transition(current, target).Some?
    ensures Emitted(current, target)[0] == CurrentStateNotified(target)
    ensures |Emitted(current, target)| == 2 <==> target == NightArm
    ensures forall i :: 1 <= i < |Emitted(current, target)| ==> Emitted(current, target)[i] == NightShown
  {
  }

  /** Repeating a pass with target 0, 1 or 2 changes and emits nothing; with
      target 3 or 4 (outside night arm) the state stays but is notified again. */
  lemma RepeatedPass(current: int, target: int)
    requires 0 <= target <= 4
    ensures target <= NightArm ==> Transition(NextState(current, target), target) == None
    ensures target >= Disarmed && current != NightArm ==>
      NextState(current, target) == target &&
      Emitted(NextState(current, target), target) == [CurrentStateNotified(target)]
  {
  }

  /** A target outside 0..4 never moves the state. */
  lemma UnknownTargetIgnored(current: int, target: int)
    requires target < StayArm || target > Triggered
    ensures Transition(current, target) == None
  {
  }

  class SecuritySystem {
    var current: int
    var target: int
    /** Notifications and display actions, oldest first. */
    ghost var events: seq<Event>

    /** Both characteristics start at 0 (stay arm). */
    constructor ()
      ensures current == StayArm && target == StayArm && events == []
    {
      current, target := StayArm, StayArm;
      events := [];
    }

    /** `update_state`. */
    method UpdateState()
      modifies this`current, this`events
      ensures current == NextState(old(current), target)
      ensures events == old(events) + Emitted(old(current), target)
    {
      if current != AwayArm && target == AwayArm {
        current := AwayArm;
        events := events + [CurrentStateNotified(current)];
      } else if current != NightArm && target == NightArm {
        current := NightArm;
        events := events + [CurrentStateNotified(current)];
        events := events + [NightShown];
      } else if current != NightArm && target == Disarmed {
        current := Disarmed;
        events := events + [CurrentStateNotified(current)];
      } else if current != NightArm && target == Triggered {
        current := Triggered;
        events := events + [CurrentStateNotified(current)];
      } else if current != StayArm && target == StayArm {
        current := StayArm;
        events := events + [CurrentStateNotified(current)];
      }
    }

    /** A write of the target state: the value is stored and the change callback
        `on_update` runs `update_state`. */
    method TargetWrite(v: int)
      modifies this
      ensures target == v
      ensures current == NextState(old(current), v)
      ensures events == old(events) + Emitted(old(current), v)
    {
      target := v;
      UpdateState();
    }
  }

  /** Writing away arm twice yields one transition and one notification. */
  method RedundantWriteSuppressed(s: SecuritySystem)
    requires s.current != AwayArm
    modifies s
    ensures s.current == AwayArm
    ensures s.events == old(s.events) + [CurrentStateNotified(AwayArm)]
  {
    s.TargetWrite(AwayArm);
    s.TargetWrite(AwayArm);
  }
}
