/**
 * The weekly-quota card: whether the limit is reached, how many messages are
 * left, when the usage badge turns to a warning, and how many days remain
 * until the reset.
 */
module Quota {

  /** Milliseconds in a day: 1000 * 60 * 60 * 24. */
  const MillisPerDay: int := 86400000

  /** The card switches to its "Weekly Limit Reached!" form. */
  predicate IsLimitReached(currentUsage: int, maxQuota: int) {
    currentUsage >= maxQuota
  }

  /** The "N left" count of the normal form; it is shown only while the limit is not reached. */
  function Remaining(currentUsage: int, maxQuota: int): (left: int)
    ensures !IsLimitReached(currentUsage, maxQuota) ==> left >= 1
    ensures currentUsage >= 0 ==> left <= maxQuota
  {
    maxQuota - currentUsage
  }

  /**
   * `usagePercentage > 80` with `usagePercentage = currentUsage / maxQuota * 100`,
   * in exact arithmetic. Division by a zero quota gives +Infinity for a positive
   * usage and NaN (never greater) for a zero one, -Infinity for a negative one.
   */
  predicate ShowsWarning(currentUsage: int, maxQuota: int) {
    if maxQuota == 0 then currentUsage > 0
    else (currentUsage as real / maxQuota as real) * 100.0 > 80.0
  }

  /** For a positive quota the warning is the integer comparison 100 * usage > 80 * quota. */
  lemma WarningCrossMultiplied(currentUsage: int, maxQuota: int)
    requires maxQuota > 0
    ensures ShowsWarning(currentUsage, maxQuota) <==> 100 * currentUsage > 80 * maxQuota
  {
    var u, m := currentUsage as real, maxQuota as real;
    var q := u / m;
    assert q * m == u;
    var d := q - 0.8;
    assert d * m == u - 0.8 * m;
    PositiveProduct(d, m);
  }

  lemma PositiveProduct(d: real, m: real)
    requires m > 0.0
    ensures d > 0.0 <==> d * m > 0.0
  {
  }

  /** With the weekly quota of 7 the badge first turns to a warning at the sixth message. */
  lemma WarningAtSeven(currentUsage: int)
    requires 0 <= currentUsage <= 7
    ensures ShowsWarning(currentUsage, 7) <==> currentUsage >= 6
  {
    WarningCrossMultiplied(currentUsage, 7);
  }

  /**
   * `Math.ceil((resetMs - nowMs) / MillisPerDay)`: the least whole number of days
   * covering the remaining time.
   */
  function DaysUntilReset(resetMs: int, nowMs: int): (days: int)
    ensures (days - 1) * MillisPerDay < resetMs - nowMs <= days * MillisPerDay
    ensures resetMs > nowMs ==> days >= 1
    ensures resetMs <= nowMs ==> days <= 0
  {
    -((nowMs - resetMs) / MillisPerDay)
  }
}
