/**
 * constaints.py: the default page size and the cache expiration policy,
 * which gives the time left until the next 14:11 on the naive wall clock.
 *
 * Time of day is counted in microseconds since midnight, the resolution
 * of Python's `datetime`; a duration (`timedelta`) is a number of
 * microseconds. The current time is a parameter instead of a clock read.
 */
module Constants {
  import opened Base

  /** `default_limit` (constaints.py:3). */
  const DefaultLimit: int := 5

  const MicrosPerSecond: int := 1_000_000
  const MicrosPerDay: int := 86_400 * MicrosPerSecond

  /** A time of day, in microseconds since midnight. */
  type TimeOfDay = t: int | 0 <= t < MicrosPerDay

  /** `time(14, 11)`: the daily moment the cache expires. */
  const ExpirationTime: TimeOfDay := (14 * 60 + 11) * 60 * MicrosPerSecond

  /** A naive `datetime`: a date and a time of day, no time zone. */
  datatype DateTime = DateTime(date: Date, time: TimeOfDay)

  /** Adding a day to a datetime on 9999-12-31 raises `OverflowError`. */
  datatype ExpirationError = DateOverflow

  /** `datetime.combine(date, time)`. */
  function Combine(date: Date, time: TimeOfDay): DateTime
  {
    DateTime(date, time)
  }

  /** `dt + timedelta(days=1)`. */
  function AddOneDay(dt: DateTime): Result<DateTime, ExpirationError>
  {
    if dt.date as int == MaxOrdinal then Err(DateOverflow)
    else Ok(DateTime(dt.date + 1, dt.time))
  }

  /** `a - b` for two naive datetimes, in microseconds. */
  function Difference(a: DateTime, b: DateTime): int
  {
    (a.date as int - b.date as int) * MicrosPerDay + a.time - b.time
  }

  /** The time of day `k` microseconds after time of day `t`. */
  function TimeAfter(t: TimeOfDay, k: int): TimeOfDay
  {
    (t + k) % MicrosPerDay
  }

  /**
   * `get_cache_expiration()` with `now` given: the time from `now` to
   * today's 14:11 when `now` is strictly earlier, and to tomorrow's 14:11
   * otherwise.
   *
   * The result is the least positive duration that lands on 14:11: it is
   * more than zero and at most a day, exactly a day only when `now` is
   * 14:11:00.000000 itself.
   */
  function GetCacheExpiration(now: DateTime): (r: Result<int, ExpirationError>)
    ensures r.Err? <==> now.date as int == MaxOrdinal && now.time >= ExpirationTime
    ensures r.Ok? && now.time < ExpirationTime ==> r.value == ExpirationTime - now.time
    ensures r.Ok? && now.time >= ExpirationTime ==> r.value == MicrosPerDay + ExpirationTime - now.time
    ensures r.Ok? ==> 0 < r.value <= MicrosPerDay
    ensures r.Ok? ==> (r.value == MicrosPerDay <==> now.time == ExpirationTime)
    ensures r.Ok? ==> TimeAfter(now.time, r.value) == ExpirationTime
    ensures r.Ok? ==> forall k :: 0 < k < r.value ==> TimeAfter(now.time, k) != ExpirationTime
  {
    var expiration := Combine(now.date, ExpirationTime);
    if now.time < ExpirationTime then
      Ok(Difference(expiration, now))
    else
      match AddOneDay(expiration)
      case Err(e) => Err(e)
      case Ok(tomorrow) =>
        var r := Difference(tomorrow, now);
        assert r == MicrosPerDay + ExpirationTime - now.time;
        assert forall k :: 0 < k < r ==> TimeAfter(now.time, k) != ExpirationTime by {
          forall k | 0 < k < r ensures TimeAfter(now.time, k) != ExpirationTime {
            if now.time + k >= MicrosPerDay {
              assert (now.time + k) % MicrosPerDay == now.time + k - MicrosPerDay;
            } else {
              assert (now.time + k) % MicrosPerDay == now.time + k;
            }
          }
        }
        Ok(r)
  }

  /** The expiration depends on the time of day of `now` only, not on its date. */
  lemma ExpirationIgnoresDate(now1: DateTime, now2: DateTime)
    requires now1.time == now2.time
    requires GetCacheExpiration(now1).Ok? && GetCacheExpiration(now2).Ok?
    ensures GetCacheExpiration(now1) == GetCacheExpiration(now2)
  {
  }

  /** Moving `now` later by `d` without crossing 14:11 shortens the expiration by exactly `d`. */
  lemma ExpirationCountsDown(now: DateTime, d: int)
    requires 0 <= d && now.time + d < MicrosPerDay
    requires now.time < ExpirationTime <==> now.time + d < ExpirationTime
    requires GetCacheExpiration(now).Ok?
    ensures var later := DateTime(now.date, now.time + d);
      GetCacheExpiration(later).Ok?
      && GetCacheExpiration(later).value == GetCacheExpiration(now).value - d
  {
  }
}
