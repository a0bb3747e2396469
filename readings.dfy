/** Small rules the dashboard applies to single readings: the width of the
    battery gauge and the status badge of the temperature card. */
module Readings {

  /** The battery gauge width in percent: the level clamped to [0, 100]. */
  function BatteryWidth(level: real): (w: real)
    ensures 0.0 <= w <= 100.0
    ensures 0.0 <= level <= 100.0 ==> w == level
    ensures level < 0.0 ==> w == 0.0
    ensures level > 100.0 ==> w == 100.0
  {
    var capped := if level < 100.0 then level else 100.0;
    if capped > 0.0 then capped else 0.0
  }

  /** A wider gauge never stands for a lower level. */
  lemma BatteryWidthMonotone(a: real, b: real)
    requires a <= b
    ensures BatteryWidth(a) <= BatteryWidth(b)
  {
  }

  /** The temperature unit chosen in the settings. */
  datatype TempUnit = Celsius | Fahrenheit

  /** The unit a stored setting selects: "F" is Fahrenheit, anything else
      (an absent setting included) is Celsius. */
  function UnitOf(setting: string): (u: TempUnit)
    ensures u == Fahrenheit <==> setting == "F"
  {
    if setting == "F" then Fahrenheit else Celsius
  }

  /** A Celsius value expressed in the chosen unit. */
  function InUnit(unit: TempUnit, celsius: real): (v: real)
    ensures unit == Celsius ==> v == celsius
    // Fahrenheit converts back to the Celsius value exactly
    ensures unit == Fahrenheit ==> (v - 32.0) * 5.0 / 9.0 == celsius
  {
    match unit
    case Celsius => celsius
    case Fahrenheit => celsius * 9.0 / 5.0 + 32.0
  }

  /** Conversion keeps the order of readings, strictly, in either unit. */
  lemma InUnitStrictlyIncreasing(unit: TempUnit, a: real, b: real)
    ensures a < b <==> InUnit(unit, a) < InUnit(unit, b)
  {
  }

  /** The status badge of the temperature card. */
  datatype TempStatus = HighHeatAlert | Elevated | Optimal

  /** The badge for a reading: the reading and both thresholds (35 and 30
      degrees Celsius) are converted to the chosen unit and compared there. */
  function TemperatureStatus(unit: TempUnit, celsius: real): (st: TempStatus)
    ensures st == HighHeatAlert <==> celsius > 35.0
    ensures st == Elevated <==> 30.0 < celsius <= 35.0
    ensures st == Optimal <==> celsius <= 30.0
  {
    var current := InUnit(unit, celsius);
    if current > InUnit(unit, 35.0) then HighHeatAlert
    else if current > InUnit(unit, 30.0) then Elevated
    else Optimal
  }

  /** The chosen unit changes how the reading is shown, never its badge. */
  lemma StatusIndependentOfUnit(celsius: real)
    ensures TemperatureStatus(Celsius, celsius) == TemperatureStatus(Fahrenheit, celsius)
  {
  }
}
