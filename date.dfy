/** The duration helpers of backend/src/utils/date.ts. Times are integer
    milliseconds since the epoch; the clock reading `Date.now()` is the
    parameter `now`. */
module Date {

  const MINUTE_MS: int := 60 * 1000
  const ONE_DAY_MS: int := 24 * 60 * 60 * 1000
  const FIFTEEN_MINUTES_MS: int := 15 * MINUTE_MS
  const THIRTY_DAYS_MS: int := 30 * ONE_DAY_MS
  const ONE_YEAR_MS: int := 365 * ONE_DAY_MS

  /** `oneYearFromNow()`: 365 days of 86,400,000 ms, no leap-year adjustment. */
  function OneYearFromNow(now: int): (t: int)
    ensures t == now + 31_536_000_000
  {
    now + 365 * 24 * 60 * 60 * 1000
  }

  /** `thirtyDaysFromNow()`. */
  function ThirtyDaysFromNow(now: int): (t: int)
    ensures t == now + 2_592_000_000
  {
    now + 30 * 24 * 60 * 60 * 1000
  }

  /** A JavaScript `Date` reduced to the one field the helper touches: its
      time value in milliseconds. Minutes are read in UTC. */
  class JsDate {
    var time: int

    constructor (time: int)
      ensures this.time == time
    {
      this.time := time;
    }

    /** `getMinutes()`: the minute-of-hour field, 0..59. */
    function Minutes(): (m: int)
      reads this
      ensures 0 <= m < 60
    {
      (time / MINUTE_MS) % 60
    }

    /** `setMinutes(m)`: replaces the minute field; a value outside 0..59
        carries into the hours, so the time moves by the difference. Seconds
        and milliseconds are kept. */
    method SetMinutes(m: int)
      modifies this
      ensures time == old(time) + (m - old(Minutes())) * MINUTE_MS
    {
      time := time - Minutes() * MINUTE_MS + m * MINUTE_MS;
    }
  }

  /** `fifteenMinutesFromNow()`: a fresh date at `now`, advanced in place by
      fifteen minutes through `setMinutes`. */
  method FifteenMinutesFromNow(now: int) returns (t: int)
    ensures t == now + 900_000
  {
    var d := new JsDate(now);
    d.SetMinutes(d.Minutes() + 15);
    t := d.time;
  }

  /** The offsets are strictly ordered: fifteen minutes < one day < thirty days < one year. */
  lemma OffsetsOrdered()
    ensures ONE_DAY_MS == 86_400_000
    ensures 0 < FIFTEEN_MINUTES_MS < ONE_DAY_MS < THIRTY_DAYS_MS < ONE_YEAR_MS
    ensures forall now: int :: now < now + FIFTEEN_MINUTES_MS < ThirtyDaysFromNow(now) < OneYearFromNow(now)
  {
  }
}
