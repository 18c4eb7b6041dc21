/** The lock mechanism (examples/lock): a relay drives the bolt and the on-board
    LED shows when it is open. Unlocking arms a one-shot timer after which the
    lock relocks itself. Lock states, as the HomeKit lock characteristics number
    them: 0 unsecured, 1 secured, 2 jammed, 3 unknown. */
module Lock {
  import opened Common

  const Unsecured: int := 0
  const Secured: int := 1
  const Jammed: int := 2
  const Unknown: int := 3

  /** Seconds the lock stays open before relocking (0 would disable relocking). */
  const UnlockPeriod: int := 5
  /** The relay level that opens the lock (`relay_open_signal` = 1). */
  const RelayOpenSignal: bool := true

  datatype Event = CurrentStateNotified(state: int) | TargetStateNotified(state: int)

  class LockMechanism {
    var current: int
    var target: int
    /** Level written to the relay pin. */
    var relay: bool
    /** Whether the on-board LED is lit (the pin itself is active low). */
    var led: bool
    /** The relock timer: armed or not, and the period of the pending one-shot. */
    var timerArmed: bool
    var timerPeriodMs: int
    /** Notifications, oldest first. */
    ghost var events: seq<Event>

    /** The relay is at the open level exactly while the lock reports unsecured,
        the LED shows the same, and a relock deadline is pending only while
        unsecured. */
    ghost predicate Valid()
      reads this
    {
      && (relay == RelayOpenSignal <==> current == Unsecured)
      && (led <==> current == Unsecured)
      && (timerArmed ==> current == Unsecured && timerPeriodMs == UnlockPeriod * 1000)
    }

    /** Power-up: the characteristics' initial values (current unknown, target
        secured) and `gpio_init`, which turns the LED off and closes the relay. */
    constructor ()
      ensures Valid()
      ensures current == Unknown && target == Secured
      ensures relay == !RelayOpenSignal && !led && !timerArmed && events == []
    {
      current, target := Unknown, Secured;
      led := false;
      relay := !RelayOpenSignal;
      timerArmed, timerPeriodMs := false, 0;
      events := [];
    }

    method DisarmTimer()
      modifies this`timerArmed
      ensures !timerArmed
    {
      timerArmed := false;
    }

    /** Arming a one-shot replaces any pending deadline. */
    method ArmTimer(periodMs: int)
      modifies this`timerArmed, this`timerPeriodMs
      ensures timerArmed && timerPeriodMs == periodMs
    {
      timerArmed, timerPeriodMs := true, periodMs;
    }

    /** `lock_init`: report secured and disarm the timer. It does not touch the
        relay, so the invariant survives only when the lock was not open. */
    method LockInit()
      modifies this`current, this`events, this`timerArmed
      ensures current == Secured && !timerArmed
      ensures events == old(events) + [CurrentStateNotified(Secured)]
      ensures old(Valid()) ==> (Valid() <==> old(current) != Unsecured)
    {
      current := Secured;
      events := events + [CurrentStateNotified(current)];
      DisarmTimer();
    }

    /** `lock_lock`: disarm, close the relay, LED off, and report secured, with a
        notification only when the state changes. */
    method Lock()
      modifies this`timerArmed, this`relay, this`led, this`current, this`events
      ensures Valid()
      ensures current == Secured && relay == !RelayOpenSignal && !led && !timerArmed
      ensures events == old(events) + (if old(current) != Secured then [CurrentStateNotified(Secured)] else [])
    {
      DisarmTimer();
      relay := !RelayOpenSignal;
      led := false;
      if current != Secured {
        current := Secured;
        events := events + [CurrentStateNotified(current)];
      }
    }

    /** `lock_unlock`: open the relay, LED on, report unsecured (always notified)
        and restart the relock timer. */
    method Unlock()
      modifies this`relay, this`led, this`current, this`events, this`timerArmed, this`timerPeriodMs
      ensures Valid()
      ensures current == Unsecured && relay == RelayOpenSignal && led
      ensures timerArmed && timerPeriodMs == UnlockPeriod * 1000
      ensures events == old(events) + [CurrentStateNotified(Unsecured)]
    {
      relay := RelayOpenSignal;
      led := true;
      current := Unsecured;
      events := events + [CurrentStateNotified(current)];
      if UnlockPeriod != 0 {
        DisarmTimer();
        ArmTimer(UnlockPeriod * 1000);
      }
    }

    /** `lock_timeout`: the target becomes secured (notified only if it changes)
        and the lock is locked. */
    method Timeout()
      modifies this`target, this`timerArmed, this`relay, this`led, this`current, this`events
      ensures Valid()
      ensures target == Secured && current == Secured && !timerArmed
      ensures relay == !RelayOpenSignal && !led
      ensures events == old(events)
        + (if old(target) != Secured then [TargetStateNotified(Secured)] else [])
        + (if old(current) != Secured then [CurrentStateNotified(Secured)] else [])
    {
      if target != Secured {
        target := Secured;
        events := events + [TargetStateNotified(target)];
      }
      Lock();
    }

    /** The relock timer expires: a one-shot fires once, while armed, and runs
        `lock_timeout`. */
    method TimerFires()
      requires timerArmed
      modifies this`target, this`timerArmed, this`relay, this`led, this`current, this`events
      ensures Valid()
      ensures target == Secured && current == Secured && !timerArmed
      ensures events == old(events)
        + (if old(target) != Secured then [TargetStateNotified(Secured)] else [])
        + (if old(current) != Secured then [CurrentStateNotified(Secured)] else [])
    {
      timerArmed := false;
      Timeout();
    }

    /** `lock_target_state_setter`: store the requested state; 0 unlocks, any
        other value locks. */
    method TargetStateSetter(v: int)
      modifies this`target, this`timerArmed, this`timerPeriodMs, this`relay, this`led, this`current, this`events
      ensures Valid()
      ensures target == v
      ensures v == Unsecured ==> current == Unsecured && timerArmed && events == old(events) + [CurrentStateNotified(Unsecured)]
      ensures v != Unsecured ==> current == Secured && !timerArmed
      ensures v != Unsecured ==>
        events == old(events) + (if old(current) != Secured then [CurrentStateNotified(Secured)] else [])
    {
      target := v;
      if v == 0 {
        Unlock();
      } else {
        Lock();
      }
    }

    /** `button_callback`: a single press unlocks (the target state is left as
        it was); other presses change nothing. */
    method ButtonCallback(e: ButtonEvent)
      requires Valid()
      modifies this`timerArmed, this`timerPeriodMs, this`relay, this`led, this`current, this`events
      ensures Valid()
      ensures e == SinglePress ==> current == Unsecured && timerArmed && events == old(events) + [CurrentStateNotified(Unsecured)]
      ensures e != SinglePress ==> unchanged(this)
    {
      match e
      case SinglePress =>
        Unlock();
      case _ =>
    }
  }

  /** Locking an already secured lock publishes nothing. */
  method LockWhenSecuredIsSilent(l: LockMechanism)
    requires l.Valid() && l.current == Secured
    modifies l
    ensures l.events == old(l.events) && l.current == Secured
  {
    l.TargetStateSetter(Secured);
  }

  /** Auto-relock: after an unlock, the one pending deadline fires once and
      leaves the lock secured with no deadline pending. */
  method UnlockThenRelock(l: LockMechanism)
    requires l.Valid() && l.target == Secured
    modifies l
    ensures l.Valid() && l.current == Secured && l.target == Secured && !l.timerArmed
    ensures l.events == old(l.events) + [CurrentStateNotified(Unsecured), CurrentStateNotified(Secured)]
  {
    l.ButtonCallback(SinglePress);
    l.TimerFires();
  }
}
