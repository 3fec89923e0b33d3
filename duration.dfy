// Conversion between minutes and the display units days / hours / minutes
// (src/utils/duration.ts). Durations are whole minutes.
module Duration {
  import opened Text

  datatype Unit = Minutes | Hours | Days

  datatype DurationValue = DurationValue(value: int, unit: Unit)

  /** toMinutes */
  function ToMinutes(value: int, unit: Unit): int
  {
    match unit
    case Days => value * 1440
    case Hours => value * 60
    case Minutes => value
  }

  /** minutesToBestUnit: the largest unit that expresses `minutes` exactly, for one day or
    * more respectively one hour or more. */
  function MinutesToBestUnit(minutes: int): (r: DurationValue)
    ensures ToMinutes(r.value, r.unit) == minutes
    ensures r.unit != Minutes ==> r.value >= 1
    ensures r.unit == Hours ==> r.value % 24 != 0
  {
    if minutes >= 1440 && minutes % 1440 == 0 then
      DurationValue(minutes / 1440, Days)
    else if minutes >= 60 && minutes % 60 == 0 then
      DurationValue(minutes / 60, Hours)
    else
      DurationValue(minutes, Minutes)
  }

  /** The choice of unit, case by case. */
  lemma BestUnitChoice(m: int)
    ensures MinutesToBestUnit(m).unit == Days <==> m >= 1440 && m % 1440 == 0
    ensures MinutesToBestUnit(m).unit == Hours <==>
      !(m >= 1440 && m % 1440 == 0) && m >= 60 && m % 60 == 0
    ensures MinutesToBestUnit(m).unit == Minutes ==> MinutesToBestUnit(m).value == m
  {
  }

  /** Converting a positive whole number of days back to the best unit gives days. */
  lemma DaysRoundTrip(n: int)
    requires n >= 1
    ensures MinutesToBestUnit(ToMinutes(n, Days)) == DurationValue(n, Days)
  {
    var m := n * 1440;
    assert m >= 1440;
    assert m % 1440 == 0 && m / 1440 == n by {
      assert m == 1440 * n + 0;
    }
  }

  function Label(unit: Unit, singular: bool): string
  {
    match unit
    case Days => if singular then "dia" else "dias"
    case Hours => if singular then "hora" else "horas"
    case Minutes => if singular then "minuto" else "minutos"
  }

  /** formatDuration: the best-unit value, a space and the unit label. */
  function FormatDuration(minutes: int): string
  {
    var d := MinutesToBestUnit(minutes);
    var word := if d.value == 1 then Label(d.unit, true) else Label(d.unit, false);
    IntToString(d.value) + " " + word
  }

  /** The singular label is used iff the best-unit value is 1. */
  lemma FormatDurationSingular(minutes: int)
    ensures var d := MinutesToBestUnit(minutes);
      FormatDuration(minutes) == IntToString(d.value) + " " + Label(d.unit, true) <==> d.value == 1
  {
    var d := MinutesToBestUnit(minutes);
    var p := IntToString(d.value) + " ";
    if d.value != 1 {
      var s := Label(d.unit, true);
      var t := Label(d.unit, false);
      assert |t| == |s| + 1;
      assert |p + s| != |p + t|;
    }
  }

  lemma FormatDurationExamples()
    ensures FormatDuration(1440) == "1 dia"
    ensures FormatDuration(120) == "2 horas"
    ensures FormatDuration(90) == "90 minutos"
  {
    assert NatToString(90) == "90";
  }
}
