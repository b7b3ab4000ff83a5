/**
 * Time as the Python code sees it: a naive `datetime` with microsecond
 * resolution, here counted in microseconds from an origin that falls on an
 * hour boundary (such as 1970-01-01T00:00:00).
 */
module Times {

  type Time = int

  const SecondUs: int := 1_000_000
  const MinuteUs: int := 60_000_000
  const HourUs: int := 3_600_000_000
  const DayUs: int := 86_400_000_000

  /** `t.replace(minute=0, second=0, microsecond=0)`: the hour boundary at or before `t`. */
  function FloorToHour(t: Time): (r: Time)
    ensures r % HourUs == 0
    ensures r <= t < r + HourUs
  {
    t - t % HourUs
  }

  /** `t.replace(microsecond=0)`: the second boundary at or before `t`, all a `DATETIME` column keeps. */
  function FloorToSecond(t: Time): (r: Time)
    ensures r % SecondUs == 0
    ensures r <= t < r + SecondUs
  {
    t - t % SecondUs
  }

  /** `t.replace(second=0, microsecond=0)`: the minute boundary at or before `t`. */
  function FloorToMinute(t: Time): (r: Time)
    ensures r % MinuteUs == 0
    ensures r <= t < r + MinuteUs
  {
    t - t % MinuteUs
  }
}
