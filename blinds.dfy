/** The two-blind window covering (examples/blinds). Each blind has a current
    and a target position (percent open) and a countdown timer in scheduler
    ticks. A HomeKit write of the target converts the position gap into a travel
    time; a poll loop drives the open or close motor output, counts the timer
    down and recomputes the current position from the time left; the wired
    remote nudges the target by one percent, or drives the motor past a limit.
    The scheduler tick is taken as 10 ms (`portTICK_PERIOD_MS`). */
module Blinds {
  import opened Common

  const TickPeriodMs: int := 10
  /** Ticks between two passes of the poll loop. */
  const PollTime: int := 50 / TickPeriodMs
  /** Ticks of motor travel a remote nudge adds. */
  const OnePctTime: int := (6400 / TickPeriodMs) / 100
  const LeftOpenTime: int := 4300 / TickPeriodMs
  const LeftCloseTime: int := 5900 / TickPeriodMs
  const RightOpenTime: int := 6000 / TickPeriodMs
  const RightCloseTime: int := 7000 / TickPeriodMs
  /** Bounds of the HomeKit target position characteristic. */
  const MinPosition: int := 0
  const MaxPosition: int := 100

  /** Ticks a blind takes to travel fully open and fully closed. */
  datatype Calibration = Calibration(openTime: int, closeTime: int)

  predicate ValidCalibration(cal: Calibration)
  {
    cal.openTime > 0 && cal.closeTime > 0
  }

  const LeftCalibration: Calibration := Calibration(LeftOpenTime, LeftCloseTime)
  const RightCalibration: Calibration := Calibration(RightOpenTime, RightCloseTime)

  /** The state of one blind: positions, timer and the two motor outputs. */
  datatype Cover = Cover(current: int, target: int, timer: int, openOut: bool, closeOut: bool)

  /** `TIMER_TO_PCT_*`: the percentage of full travel that `timer` ticks cover. */
  function TimerToPct(timer: int, fullTime: int): (pct: int)
    requires fullTime > 0
    ensures timer >= 0 ==> pct >= 0 && pct * fullTime <= timer * 100 < (pct + 1) * fullTime
    ensures timer >= 0 ==> (pct == 0 <==> timer * 100 < fullTime)
  {
    if timer >= 0 then PctBounds(timer, fullTime); timer * 100 / fullTime
    else TruncDiv(timer * 100, fullTime)
  }

  /** Bounds of the percentage for a non-negative timer. */
  lemma PctBounds(timer: int, fullTime: int)
    requires timer >= 0 && fullTime > 0
    ensures var pct := timer * 100 / fullTime;
            pct >= 0 && pct * fullTime <= timer * 100 < (pct + 1) * fullTime
            && (pct == 0 <==> timer * 100 < fullTime)
  {
    var a := timer * 100;
    var pct := a / fullTime;
    var rem := a % fullTime;
    assert a == pct * fullTime + rem && 0 <= rem < fullTime;
    assert (pct + 1) * fullTime == pct * fullTime + fullTime;
    if pct >= 1 {
      MulAtLeast(pct, fullTime);
    }
  }

  /** `x * k >= k` for a positive `x` and `k`. */
  lemma MulAtLeast(x: int, k: int)
    requires x >= 1 && k > 0
    ensures x * k >= k
  {
    assert x * k == (x - 1) * k + k;
  }

  /** `on_update_*`: the ticks of travel needed to close the gap between the
      current and the target position, using the open time when opening and
      the close time otherwise. */
  function TravelTime(current: int, target: int, cal: Calibration): (t: int)
    requires ValidCalibration(cal)
    ensures t >= 0
    ensures current < target ==> t * 100 <= cal.openTime * (target - current) < (t + 1) * 100
    ensures current >= target ==> t * 100 <= cal.closeTime * (current - target) < (t + 1) * 100
    ensures current == target ==> t == 0
  {
    var percent := current - target;
    if percent < 0 then TruncDiv(cal.openTime * -percent, 100)
    else TruncDiv(cal.closeTime * percent, 100)
  }

  /** `a * k < b * k` with `k > 0` gives `a < b`. */
  lemma MulCancel(a: int, b: int, k: int)
    requires k > 0 && a * k < b * k
    ensures a < b
  {
    assert (b - a) * k == b * k - a * k;
  }

  /** The arithmetic of the round trip: a time `t` rounded down from
      `full * gap / 100`, converted back by rounding `t * 100 / full` down. */
  lemma RoundTripArith(gap: int, full: int, t: int, pct: int)
    requires full >= 100
    requires t * 100 <= full * gap < (t + 1) * 100
    requires pct * full <= t * 100 < (pct + 1) * full
    ensures gap - 1 <= pct <= gap
  {
    assert full * gap == gap * full;
    assert (gap + 1) * full == gap * full + full;
    MulCancel(pct, gap + 1, full);
    assert (pct + 2) * full == (pct + 1) * full + full;
    MulCancel(gap, pct + 2, full);
  }

  /** For a blind whose full travel takes at least 100 ticks, the travel time of
      a gap converts back into the gap or one percent less. */
  lemma TravelTimeRoundTrip(current: int, target: int, cal: Calibration)
    requires ValidCalibration(cal) && cal.openTime >= 100 && cal.closeTime >= 100
    ensures var full := if current < target then cal.openTime else cal.closeTime;
            var gap := if current < target then target - current else current - target;
            gap - 1 <= TimerToPct(TravelTime(current, target, cal), full) <= gap
  {
    var full := if current < target then cal.openTime else cal.closeTime;
    var gap := if current < target then target - current else current - target;
    var t := TravelTime(current, target, cal);
    RoundTripArith(gap, full, t, TimerToPct(t, full));
  }

  /** One pass of the poll loop for one blind (the right blind's branch, then
      the left blind's, with that blind's calibration). */
  function TravelStep(c: Cover, cal: Calibration): (r: Cover)
    requires ValidCalibration(cal)
    ensures r.target == c.target
    ensures !(r.openOut && r.closeOut)
    ensures c.current == c.target ==> r == c.(openOut := false, closeOut := false)
    ensures c.current < c.target ==> r.openOut && !r.closeOut && r.current <= c.target
    ensures c.current > c.target ==> r.closeOut && !r.openOut && r.current >= c.target
    ensures c.current != c.target && c.timer <= 0 ==> r.timer == PollTime && r.current == c.current
    ensures c.current != c.target && c.timer > 0 ==>
              r.timer == (if c.timer > PollTime then c.timer - PollTime else 0)
    ensures c.current < c.target && c.timer > 0 ==>
              (c.target - r.current) * cal.openTime <= r.timer * 100 < (c.target - r.current + 1) * cal.openTime
    ensures c.current > c.target && c.timer > 0 ==>
              (r.current - c.target) * cal.closeTime <= r.timer * 100 < (r.current - c.target + 1) * cal.closeTime
    ensures c.current != c.target && c.timer > 0 && r.timer == 0 ==> r.current == c.target
  {
    if c.current < c.target then
      var moving := c.(openOut := true, closeOut := false);
      if c.timer > 0 then
        var t := if c.timer - PollTime <= 0 then 0 else c.timer - PollTime;
        var pct := TimerToPct(t, cal.openTime);
        if c.target != c.current + pct then moving.(timer := t, current := c.target - pct)
        else moving.(timer := t)
      else
        moving.(timer := PollTime)
    else if c.current > c.target then
      var moving := c.(openOut := false, closeOut := true);
      if c.timer > 0 then
        var t := if c.timer - PollTime <= 0 then 0 else c.timer - PollTime;
        var pct := TimerToPct(t, cal.closeTime);
        if c.target != c.current - pct then moving.(timer := t, current := c.target + pct)
        else moving.(timer := t)
      else
        moving.(timer := PollTime)
    else
      c.(openOut := false, closeOut := false)
  }

  /** The remote section of the poll loop for one blind. Close is checked
      before open. A press inside the limits moves a settled target one
      percent and adds a nudge's travel time; a press at the limit drives the
      motor directly and leaves the target alone. */
  function NudgeStep(c: Cover, closePressed: bool, openPressed: bool): (r: Cover)
    ensures r.current == c.current
    ensures !(c.openOut && c.closeOut) ==> !(r.openOut && r.closeOut)
    ensures r.target != c.target <==>
              c.target == c.current
              && (if closePressed then c.target > MinPosition else openPressed && c.target < MaxPosition)
    ensures r.target != c.target ==>
              r.timer == c.timer + OnePctTime
              && r.target == (if closePressed then c.target - 1 else c.target + 1)
    ensures r.target == c.target ==> r.timer == c.timer
    ensures MinPosition <= c.target <= MaxPosition ==> MinPosition <= r.target <= MaxPosition
    ensures closePressed && c.target <= MinPosition ==> !r.openOut && r.closeOut
    ensures !closePressed && openPressed && c.target >= MaxPosition ==> r.openOut && !r.closeOut
    ensures (r.openOut, r.closeOut) != (c.openOut, c.closeOut) ==>
              (closePressed && c.target <= MinPosition) || (!closePressed && openPressed && c.target >= MaxPosition)
  {
    if closePressed then
      if c.target > MinPosition then
        if c.target == c.current then c.(target := c.current - 1, timer := c.timer + OnePctTime) else c
      else
        c.(openOut := false, closeOut := true)
    else if openPressed then
      if c.target < MaxPosition then
        if c.target == c.current then c.(target := c.current + 1, timer := c.timer + OnePctTime) else c
      else
        c.(openOut := true, closeOut := false)
    else
      c
  }

  /** `n` passes of the poll loop with no write and no remote press. */
  function Run(c: Cover, cal: Calibration, n: nat): Cover
    requires ValidCalibration(cal)
    decreases n
  {
    if n == 0 then c else Run(TravelStep(c, cal), cal, n - 1)
  }

  /** Passes of the poll loop a blind needs at most to reach its target. */
  function PollsToTarget(c: Cover): nat
  {
    if c.current == c.target then 0
    else if c.timer <= 0 then 2
    else (c.timer + PollTime - 1) / PollTime
  }

  /** A blind at its target with both outputs off is left as it is. */
  lemma {:induction false} RunAtRest(c: Cover, cal: Calibration, n: nat)
    requires ValidCalibration(cal)
    requires c.current == c.target && !c.openOut && !c.closeOut
    decreases n
    ensures Run(c, cal, n) == c
  {
    if n > 0 {
      RunAtRest(TravelStep(c, cal), cal, n - 1);
    }
  }

  /** Each pass of a blind not at its target brings it one pass closer. */
  lemma PollsDecrease(c: Cover, cal: Calibration)
    requires ValidCalibration(cal) && c.current != c.target
    ensures PollsToTarget(TravelStep(c, cal)) < PollsToTarget(c)
  {
    var r := TravelStep(c, cal);
    if c.timer > 0 && r.timer > 0 && r.current != r.target {
      assert r.timer == c.timer - PollTime;
    }
  }

  /** Left to the poll loop, a blind reaches its target within
      `PollsToTarget` passes, and one pass later both motor outputs are off. */
  lemma {:induction false} RunReachesTarget(c: Cover, cal: Calibration, n: nat)
    requires ValidCalibration(cal) && n >= PollsToTarget(c)
    decreases n
    ensures Run(c, cal, n).current == c.target && Run(c, cal, n).target == c.target
    ensures n > PollsToTarget(c) ==> !Run(c, cal, n).openOut && !Run(c, cal, n).closeOut
  {
    if n > 0 {
      var next := TravelStep(c, cal);
      if c.current == c.target {
        RunAtRest(next, cal, n - 1);
      } else {
        PollsDecrease(c, cal);
        RunReachesTarget(next, cal, n - 1);
      }
    }
  }

  /** The number of passes is bounded by the timer alone. */
  lemma PollsToTargetBound(c: Cover)
    requires c.timer >= 0
    ensures PollsToTarget(c) <= c.timer / PollTime + 2
  {
  }

  /** A full opening of the left blind, ordered from HomeKit, ends at 100 after
      86 passes (4300 ms) and stops the motor on the pass after. */
  lemma LeftFullOpen()
    ensures var start := Cover(0, 100, TravelTime(0, 100, LeftCalibration), false, false);
            Run(start, LeftCalibration, 86).current == 100
            && !Run(start, LeftCalibration, 87).openOut
  {
    var start := Cover(0, 100, TravelTime(0, 100, LeftCalibration), false, false);
    assert start.timer == 430;
    RunReachesTarget(start, LeftCalibration, 86);
    RunReachesTarget(start, LeftCalibration, 87);
  }

  datatype Event = CurrentPositionNotified(position: int) | TargetPositionNotified(position: int)

  /** One blind: the characteristics' values, its timer and its motor outputs. */
  class Blind {
    const cal: Calibration
    var current: int
    var target: int
    var timer: int
    var openOut: bool
    var closeOut: bool
    /** Notifications sent, oldest first. */
    ghost var events: seq<Event>

    function State(): Cover
      reads this
    {
      Cover(current, target, timer, openOut, closeOut)
    }

    ghost predicate Valid()
      reads this
    {
      ValidCalibration(cal) && timer >= 0
    }

    /** Power-up: both positions 0, timer 0, outputs low. */
    constructor (cal: Calibration)
      requires ValidCalibration(cal)
      ensures Valid() && this.cal == cal
      ensures State() == Cover(0, 0, 0, false, false) && events == []
    {
      this.cal := cal;
      current, target, timer := 0, 0, 0;
      openOut, closeOut := false, false;
      events := [];
    }

    /** `on_update_*`: recompute the timer from the position gap. */
    method OnUpdate()
      requires ValidCalibration(cal)
      modifies this`timer
      ensures Valid()
      ensures timer == TravelTime(current, target, cal)
    {
      var percent := current - target;
      if percent < 0 {
        timer := TruncDiv(cal.openTime * -percent, 100);
      } else {
        timer := TruncDiv(cal.closeTime * percent, 100);
      }
    }

    /** A HomeKit write of the target: the setter stores it and the change
        callback recomputes the timer. */
    method TargetWrite(v: int)
      requires ValidCalibration(cal)
      modifies this`target, this`timer
      ensures Valid()
      ensures target == v && timer == TravelTime(current, v, cal)
    {
      target := v;
      OnUpdate();
    }

    /** This blind's branch of the poll loop; reports whether the current
        position was notified. */
    method Travel() returns (notified: bool)
      requires Valid()
      modifies this`current, this`timer, this`openOut, this`closeOut, this`events
      ensures Valid()
      ensures State() == TravelStep(old(State()), cal)
      ensures notified <==> current != old(current)
      ensures events == old(events) + (if notified then [CurrentPositionNotified(current)] else [])
    {
      notified := false;
      if current < target {
        openOut, closeOut := true, false;
        if timer > 0 {
          timer := timer - PollTime;
          if timer <= 0 {
            timer := 0;
          }
          if target != current + TimerToPct(timer, cal.openTime) {
            current := target - TimerToPct(timer, cal.openTime);
            events := events + [CurrentPositionNotified(current)];
            notified := true;
          }
        } else {
          timer := PollTime;
        }
      } else if current > target {
        openOut, closeOut := false, true;
        if timer > 0 {
          timer := timer - PollTime;
          if timer <= 0 {
            timer := 0;
          }
          if target != current - TimerToPct(timer, cal.closeTime) {
            current := target + TimerToPct(timer, cal.closeTime);
            events := events + [CurrentPositionNotified(current)];
            notified := true;
          }
        } else {
          timer := PollTime;
        }
      } else {
        openOut, closeOut := false, false;
      }
    }

    /** This blind's part of the remote section of the poll loop. */
    method Nudge(closePressed: bool, openPressed: bool)
      requires Valid()
      modifies this`target, this`timer, this`openOut, this`closeOut, this`events
      ensures Valid()
      ensures State() == NudgeStep(old(State()), closePressed, openPressed)
      ensures events == old(events) + (if target != old(target) then [TargetPositionNotified(target)] else [])
    {
      if closePressed {
        if target > MinPosition {
          if target == current {
            target := current - 1;
            events := events + [TargetPositionNotified(target)];
            timer := timer + OnePctTime;
          }
        } else {
          openOut, closeOut := false, true;
        }
      } else if openPressed {
        if target < MaxPosition {
          if target == current {
            target := current + 1;
            events := events + [TargetPositionNotified(target)];
            timer := timer + OnePctTime;
          }
        } else {
          openOut, closeOut := true, false;
        }
      }
    }
  }

  /** The accessory: two blinds and the activity LED. */
  class WindowCovering {
    const left: Blind
    const right: Blind
    /** The activity LED, lit on a pass that notified a position. */
    var led: bool

    ghost predicate Valid()
      reads this, left, right
    {
      && left != right
      && left.Valid() && right.Valid()
      && left.cal == LeftCalibration && right.cal == RightCalibration
    }

    constructor ()
      ensures Valid() && fresh(left) && fresh(right) && !led
      ensures left.State() == Cover(0, 0, 0, false, false) && right.State() == Cover(0, 0, 0, false, false)
    {
      left := new Blind(LeftCalibration);
      right := new Blind(RightCalibration);
      led := false;
    }

    /** One pass of the `main_task` loop, given the levels read from the four
        remote inputs. */
    method Tick(leftClose: bool, leftOpen: bool, rightClose: bool, rightOpen: bool)
      requires Valid()
      modifies this`led, left, right
      ensures Valid()
      ensures right.State() == NudgeStep(TravelStep(old(right.State()), RightCalibration), rightClose, rightOpen)
      ensures left.State() == NudgeStep(TravelStep(old(left.State()), LeftCalibration), leftClose, leftOpen)
      ensures led <==> left.current != old(left.current) || right.current != old(right.current)
      ensures left.events == old(left.events)
                + (if left.current != old(left.current) then [CurrentPositionNotified(left.current)] else [])
                + (if left.target != old(left.target) then [TargetPositionNotified(left.target)] else [])
      ensures right.events == old(right.events)
                + (if right.current != old(right.current) then [CurrentPositionNotified(right.current)] else [])
                + (if right.target != old(right.target) then [TargetPositionNotified(right.target)] else [])
      ensures !(left.openOut && left.closeOut) && !(right.openOut && right.closeOut)
      ensures old(left.current) == old(left.target) && !leftClose && !leftOpen ==> !left.openOut && !left.closeOut
      ensures old(right.current) == old(right.target) && !rightClose && !rightOpen ==> !right.openOut && !right.closeOut
    {
      led := false;
      var moved := right.Travel();
      if moved {
        led := true;
      }
      moved := left.Travel();
      if moved {
        led := true;
      }
      left.Nudge(leftClose, leftOpen);
      right.Nudge(rightClose, rightOpen);
    }
  }
}
