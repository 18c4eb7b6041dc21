/** The battery accessory (examples/battery): the ADC reading is turned into a
    battery percentage, and the charger's status pins (an MCP73871's STAT1, STAT2
    and PG) are decoded into a charging state and a low-battery status. The
    polling tasks around these decoders only read pins, sleep and notify; they
    are not modelled. */
module Battery {
  import opened Common

  /** Largest reading of the 12-bit ADC. */
  const AdcFullScale: int := 4095
  const U32Modulus: int := 0x1_0000_0000

  /** Conversion of a C int to uint32_t (two's complement). */
  function ToU32(x: int): (r: int)
    ensures 0 <= r < U32Modulus
    ensures 0 <= x < U32Modulus ==> r == x
  {
    x % U32Modulus
  }

  /** The percentage computed by `battery_level_task`: the int returned by the ADC
      is held in a uint32_t, multiplied by 100 in uint32_t arithmetic, divided by
      4095 and stored in a uint8_t. For any 12-bit reading no wrap-around occurs
      and the result is the proportional percentage. */
  function Percentage(raw: int): (p: int)
    ensures 0 <= p < 256
    ensures 0 <= raw <= AdcFullScale ==> p == 100 * raw / AdcFullScale && p <= 100
    ensures raw == AdcFullScale ==> p == 100
  {
    var reading := ToU32(raw);
    var product := ToU32(100 * reading);
    (product / AdcFullScale) % 256
  }

  /** The battery-level notification of one poll: the percentage when it is
      positive, nothing otherwise ("Couldnt find battery"). */
  function BatteryLevelNotification(raw: int): (n: Option<int>)
    ensures n.Some? <==> Percentage(raw) > 0
    ensures n.Some? ==> n.value == Percentage(raw)
    ensures n.Some? && 0 <= raw <= AdcFullScale ==> 1 <= n.value <= 100
  {
    var p := Percentage(raw);
    if p > 0 then Some(p) else None
  }

  lemma DivMonotone(x: int, y: int, d: int)
    requires 0 <= x <= y && d > 0
    ensures x / d <= y / d
  {
    var qx, qy := x / d, y / d;
    assert qx * d <= x;
    assert y < (qy + 1) * d;
  }

  /** A higher 12-bit reading never yields a lower percentage. */
  lemma PercentageMonotone(a: int, b: int)
    requires 0 <= a <= b <= AdcFullScale
    ensures Percentage(a) <= Percentage(b)
  {
    DivMonotone(100 * a, 100 * b, AdcFullScale);
  }

  /** Over the 12-bit range a battery level is published exactly for readings of
      at least 41, the smallest reading whose percentage is not truncated to 0. */
  lemma LevelPublishedFromReading41(raw: int)
    requires 0 <= raw <= AdcFullScale
    ensures BatteryLevelNotification(raw).Some? <==> raw >= 41
  {
    if raw >= 41 {
      PercentageMonotone(41, raw);
      assert Percentage(41) == 1;
    } else {
      assert 100 * raw < AdcFullScale;
    }
  }

  /** `adc1_get_raw` reports a failure as -1; held in a uint32_t this wraps to
      4294967295, and the wrapped product happens to give a percentage of 0, so a
      failed read publishes no battery level. */
  lemma AdcFailurePublishesNothing()
    ensures Percentage(-1) == 0
    ensures BatteryLevelNotification(-1) == None
  {
    assert ToU32(-1) == 4294967295;
    assert ToU32(100 * 4294967295) == 4294967196;
    assert 4294967196 / AdcFullScale == 1048832;
  }

  /** A sampled GPIO level: 0 (low) or 1 (high). */
  type Level = x: int | 0 <= x <= 1

  /** One sample of the charger's three status pins. */
  datatype ChargerPins = ChargerPins(stat1: Level, stat2: Level, pg: Level)

  /** `charging_state_task`: the charging-state value published for one sample,
      0 not charging (charge complete), 1 charging, 2 not chargeable (no
      battery); every other pattern publishes nothing. */
  function ChargingState(p: ChargerPins): (s: Option<int>)
    ensures s == Some(0) <==> p == ChargerPins(0, 1, 1)
    ensures s == Some(1) <==> p == ChargerPins(1, 0, 1)
    ensures s == Some(2) <==> p == ChargerPins(0, 0, 1)
    ensures s == None <==> p.pg == 0 || (p.stat1 == 1 && p.stat2 == 1)
  {
    if p.stat1 == 0 && p.stat2 == 1 && p.pg == 1 then Some(0)
    else if p.stat1 == 1 && p.stat2 == 0 && p.pg == 1 then Some(1)
    else if p.stat1 == 0 && p.stat2 == 0 && p.pg == 1 then Some(2)
    else None
  }

  /** `battery_status_task`: the low-battery status published for one sample,
      0 normal (charge complete) and 1 low (low-battery output, no input power);
      every other pattern publishes nothing. */
  function LowBatteryStatus(p: ChargerPins): (s: Option<int>)
    ensures s == Some(0) <==> p == ChargerPins(0, 1, 1)
    ensures s == Some(1) <==> p == ChargerPins(1, 0, 0)
    ensures s == None <==> p != ChargerPins(0, 1, 1) && p != ChargerPins(1, 0, 0)
  {
    if p.stat1 == 0 && p.stat2 == 1 && p.pg == 1 then Some(0)
    else if p.stat1 == 1 && p.stat2 == 0 && p.pg == 0 then Some(1)
    else None
  }

  /** The two decoders agree: a completed charge is reported as "not charging"
      together with a normal battery, and the low-battery pattern carries no
      charging state. */
  lemma DecodersAgree(p: ChargerPins)
    ensures ChargingState(p) == Some(0) <==> LowBatteryStatus(p) == Some(0)
    ensures LowBatteryStatus(p) == Some(1) ==> ChargingState(p) == None
  {
  }
}
