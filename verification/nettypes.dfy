/** The .NET value types the write operations take, reduced to what the
    client inspects: equality with `default(...)`, and for a TimeSpan its
    seconds component. Formatting done by the framework (`double.ToString`,
    `ColorTranslator.ToHtml`, Unix-time conversion through the local time
    zone, the date pattern) is supplied by the caller as `Formatters`. */
module NetTypes {
  import opened Conversions
  import opened Wrappers

  const TicksPerSecond: int := 10_000_000

  /** A `TimeSpan`: a signed count of 100-nanosecond ticks. */
  datatype TimeSpan = TimeSpan(ticks: int64)

  const DefaultTimeSpan := TimeSpan(0)

  /** `TimeSpan.Seconds`: the seconds component, not the total number of
      seconds. For a negative span both the division by ticks-per-second
      and the remainder by 60 truncate toward zero. */
  function SecondsComponent(span: TimeSpan): int {
    var t := span.ticks as int;
    if t >= 0 then (t / TicksPerSecond) % 60 else -(((-t) / TicksPerSecond) % 60)
  }

  /** The component is what C#'s truncating `/` and `%` compute
      (`ticks / TicksPerSecond % 60`); it lies in -59..59 and has the sign
      of the span. */
  lemma SecondsComponentRange(span: TimeSpan)
    ensures SecondsComponent(span) == TruncRem(TruncDiv(span.ticks as int, TicksPerSecond), 60)
    ensures -59 <= SecondsComponent(span) <= 59
    ensures span.ticks >= 0 ==> 0 <= SecondsComponent(span)
    ensures span.ticks <= 0 ==> SecondsComponent(span) <= 0
  {
    var t := span.ticks as int;
    var q := TruncDiv(t, TicksPerSecond);
    if t >= 0 {
      assert q == t / TicksPerSecond;
    } else {
      assert q == -((-t) / TicksPerSecond);
      var m := (-q) % 60;
      assert TruncRem(q, 60) == -m;
    }
  }

  /** The seconds component drops whole minutes: a span of m minutes and s
      seconds (s < 60) reports s, whatever m is. */
  lemma SecondsDropMinutes(minutes: nat, seconds: nat)
    requires seconds < 60
    requires (60 * minutes + seconds) * TicksPerSecond < 0x8000_0000_0000_0000
    ensures SecondsComponent(TimeSpan(((60 * minutes + seconds) * TicksPerSecond) as int64)) == seconds
  {
    var total := 60 * minutes + seconds;
    assert total * TicksPerSecond / TicksPerSecond == total;
  }

  /** A `DateTime`; equality compares ticks only, and `default(DateTime)`
      is tick 0. */
  datatype DateTime = DateTime(ticks: nat)

  const DefaultDateTime := DateTime(0)

  /** A `System.Drawing.Color`; equality compares all four fields, and
      `default(Color)` (`Color.Empty`) has them all zero or null. */
  datatype Color = Color(argb: int64, state: int, knownColor: int, name: Option<string>)

  const DefaultColor := Color(0, 0, 0, None)

  /** Framework formatting the client calls but does not define. */
  datatype Formatters = Formatters(
    doubleToString: real -> string,        // double.ToString()
    colorToHtml: Color -> string,          // ColorTranslator.ToHtml
    toUnixTime: DateTime -> int64,         // TwitchAlertsAPI.ToUnixTime
    createdAtString: DateTime -> string    // DateTime.ToString("MM/dd/yyyy h:mm t")
  )
}
