/** Shared vocabulary of both simulation variants: timestamps at minute
    precision, Python's two-argument `min` on reals, the battery state that
    an `ElectricVehicle` object holds, its clamped charge rule, and the
    sample record that a run appends. */
module Common {

  /* ---------------------------------------------------------------------
     Time. A timestamp is a whole number of minutes since an epoch
     midnight, so the calendar date is `t / MinutesPerDay` and the time of
     day `t % MinutesPerDay`. Comparing two timestamps as integers is the
     same as comparing the datetimes they stand for.
     --------------------------------------------------------------------- */

  const MinutesPerDay: int := 1440

  /** 09:00 and 21:00 as minutes of the day. */
  const WindowOpen: int := 9 * 60
  const WindowClose: int := 21 * 60

  /** The calendar date of a timestamp (`datetime.date()`). */
  function DateOf(t: int): int
  {
    t / MinutesPerDay
  }

  /** The minute of the day of a timestamp. */
  function TimeOfDay(t: int): (m: int)
    ensures 0 <= m < MinutesPerDay
  {
    t % MinutesPerDay
  }

  /** `t.replace(hour=hour, minute=minute, second=0)`: same date, new time of day. */
  function Replace(t: int, hour: int, minute: int): (r: int)
    requires 0 <= hour < 24 && 0 <= minute < 60
    ensures DateOf(r) == DateOf(t)
    ensures TimeOfDay(r) == hour * 60 + minute
    ensures r - TimeOfDay(r) == t - TimeOfDay(t)
  {
    DateOf(t) * MinutesPerDay + hour * 60 + minute
  }

  /** Two timestamps on the same date differ exactly by their times of day. */
  lemma SameDateOrder(a: int, b: int)
    requires DateOf(a) == DateOf(b)
    ensures a - b == TimeOfDay(a) - TimeOfDay(b)
  {
  }

  /** ceil(d / i) for a positive divisor. */
  function CeilDiv(d: int, i: int): int
    requires i > 0
  {
    (d + i - 1) / i
  }

  /** A count n of steps of length i that first reaches or passes d (n*i >= d
      while (n-1)*i < d) is the ceiling of d / i. */
  lemma CeilDivUnique(n: int, i: int, d: int)
    requires i > 0 && n * i >= d && n * i < d + i
    ensures n == CeilDiv(d, i)
  {
    var q, rem := (d + i - 1) / i, (d + i - 1) % i;
    assert d + i - 1 == q * i + rem && 0 <= rem < i;
    if n > q {
      MulMonotone(q + 1, n, i);
    } else if n < q {
      MulMonotone(n + 1, q, i);
    }
  }

  lemma MulMonotone(a: int, b: int, i: int)
    requires a <= b && i > 0
    ensures a * i <= b * i
  {
    assert b * i - a * i == (b - a) * i;
  }

  /* ---------------------------------------------------------------------
     Python's `min(a, b)`: the first argument unless the second is smaller.
     --------------------------------------------------------------------- */

  function Min(a: real, b: real): (r: real)
    ensures r <= a && r <= b
    ensures r == a || r == b
  {
    if b < a then b else a
  }

  /* ---------------------------------------------------------------------
     Battery. The state one `ElectricVehicle` object holds: its capacity
     (kWh), its vehicle-side power ceiling (kW), the energy it holds (kWh)
     and its state of charge (a fraction of the capacity).
     --------------------------------------------------------------------- */

  datatype Battery = Battery(capacity: real, maxPower: real, level: real, soc: real)

  /** A battery as the constructors build it: the held energy is the
      state of charge times the capacity. */
  function NewBattery(capacity: real, soc: real, maxPower: real): (b: Battery)
    ensures b.capacity == capacity && b.maxPower == maxPower && b.soc == soc
    ensures capacity > 0.0 && 0.0 <= soc <= 1.0 ==> Consistent(b)
  {
    Battery(capacity, maxPower, soc * capacity, soc)
  }

  /** The invariant the clamped charge rule keeps: a positive capacity,
      0 <= held energy <= capacity, and SOC equal to held / capacity. */
  predicate Consistent(b: Battery)
  {
    b.capacity > 0.0 && 0.0 <= b.level <= b.capacity && b.soc == b.level / b.capacity
  }

  /** A consistent battery's state of charge lies in [0, 1], and it is full
      (SOC 1) exactly when it holds its whole capacity. */
  lemma ConsistentSoc(b: Battery)
    requires Consistent(b)
    ensures 0.0 <= b.soc <= 1.0
    ensures b.soc < 1.0 <==> b.level < b.capacity
    ensures b.soc * 100.0 >= 100.0 <==> b.level == b.capacity
  {
    assert b.soc * b.capacity == b.level;
    if b.soc < 1.0 {
      assert b.soc * b.capacity < 1.0 * b.capacity;
    }
  }

  /** `charge(amount)`: add `amount` kWh, never beyond the capacity, and
      recompute the state of charge from the held energy. */
  function Charge(b: Battery, amount: real): (r: Battery)
    requires b.capacity != 0.0
    ensures r.capacity == b.capacity && r.maxPower == b.maxPower
    ensures r.level <= b.capacity
    ensures r.level == b.capacity || r.level == b.level + amount
    ensures r.level <= b.level + amount
    ensures r.soc * b.capacity == r.level
    ensures Consistent(b) && amount >= 0.0 ==> Consistent(r) && b.level <= r.level
  {
    var level := Min(b.capacity, b.level + amount);
    b.(level := level, soc := level / b.capacity)
  }

  /* ---------------------------------------------------------------------
     Sample: one row of the result set.
     --------------------------------------------------------------------- */

  datatype Sample = Sample(timestamp: int, chargingPower: real, socPercent: real, netEnergyCharged: real)

  /** Consecutive samples are `interval` minutes apart. */
  predicate Spaced(xs: seq<Sample>, interval: int)
  {
    forall k :: 0 <= k < |xs| - 1 ==> xs[k + 1].timestamp == xs[k].timestamp + interval
  }

  /** The net-energy column never decreases along the sequence. */
  predicate NetNonDecreasing(xs: seq<Sample>)
  {
    forall i, j :: 0 <= i <= j < |xs| ==> xs[i].netEnergyCharged <= xs[j].netEnergyCharged
  }

  /** Every SOC reading is a percentage in [0, 100]. */
  predicate SocInRange(xs: seq<Sample>)
  {
    forall k :: 0 <= k < |xs| ==> 0.0 <= xs[k].socPercent <= 100.0
  }

  /** With a positive interval, spaced timestamps strictly increase. */
  lemma {:induction false} SpacedIncreasing(xs: seq<Sample>, interval: int, i: int, j: int)
    requires Spaced(xs, interval) && interval > 0
    requires 0 <= i < j < |xs|
    ensures xs[i].timestamp + (j - i) * interval == xs[j].timestamp
    ensures xs[i].timestamp < xs[j].timestamp
    decreases j - i
  {
    if j > i + 1 {
      SpacedIncreasing(xs, interval, i, j - 1);
    }
  }
}
