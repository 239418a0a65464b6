/** The earlier variant of the simulation, utils.py. The vehicle and the
    charging unit behave as in the current variant except that
    `charge_vehicle` returns nothing. The simulation checks nothing when it
    is built, and its run visits only the sample times 09:00,
    09:00 + interval, ...: at each one it decides once whether to charge,
    charges for a whole interval, and records the energy the battery then
    holds (not the energy delivered). */
module LegacyCharging {
  import opened Common

  /* ---------------------------------------------------------------------
     Specification of a run.
     --------------------------------------------------------------------- */

  /** What a run reads: the end of the window, the connection window, the
      sampling interval in minutes and the unit's output in kW. */
  datatype Plan = Plan(end: int, connection: int, disconnection: int, interval: int, maxOutput: real)

  /** The samples a run appends, the time its clock stops at and the
      battery it leaves. */
  datatype Outcome = Outcome(samples: seq<Sample>, time: int, ev: Battery)

  /** `interval.total_seconds() / 3600`: the interval in hours. */
  function IntervalHours(interval: int): (h: real)
    ensures h * 60.0 == interval as real
    ensures interval >= 0 ==> h >= 0.0
  {
    (interval * 60) as real / 3600.0
  }

  /** The vehicle is plugged in at time t. */
  predicate Plugged(p: Plan, t: int)
  {
    p.connection <= t < p.disconnection
  }

  /** Both power ceilings are non-negative. */
  predicate PowersNonNegative(p: Plan, b: Battery)
  {
    p.maxOutput >= 0.0 && b.maxPower >= 0.0
  }

  /** One turn of the `while` loop at sample time t: when plugged in and not
      full, charge for a whole interval at min(output, ceiling) and record
      that power; otherwise record power 0 and leave the battery alone.
      Returns the battery afterwards and the recorded power. */
  function Visit(p: Plan, t: int, b: Battery): (r: (Battery, real))
    requires b.capacity != 0.0
    ensures r.0.capacity == b.capacity && r.0.maxPower == b.maxPower
    ensures r.1 == 0.0 || r.1 == Min(p.maxOutput, b.maxPower)
    ensures r.1 != 0.0 ==> Plugged(p, t) && b.soc < 1.0
    ensures Plugged(p, t) && b.soc < 1.0 ==>
              r.1 == Min(p.maxOutput, b.maxPower) && r.0 == Charge(b, r.1 * IntervalHours(p.interval))
    ensures !(Plugged(p, t) && b.soc < 1.0) ==> r.0 == b && r.1 == 0.0
  {
    if Plugged(p, t) && b.soc < 1.0 then
      var power := Min(p.maxOutput, b.maxPower);
      (Charge(b, power * IntervalHours(p.interval)), power)
    else
      (b, 0.0)
  }

  /** The sample recorded at time t: the recorded power, the SOC after the
      visit, and the energy the battery then holds as "net energy". */
  function Record(t: int, power: real, b: Battery): (r: Sample)
    ensures b.soc * b.capacity == b.level ==> r.netEnergyCharged == r.socPercent / 100.0 * b.capacity
  {
    Sample(t, power, b.soc * 100.0, b.level)
  }

  /** The `while` loop from time t with battery b. */
  function Schedule(p: Plan, t: int, b: Battery): (r: Outcome)
    requires p.interval > 0 && b.capacity != 0.0
    ensures |r.samples| == 0 <==> t >= p.end
    ensures r.time >= p.end
    ensures r.ev.capacity == b.capacity
    decreases p.end - t
  {
    if t >= p.end then Outcome([], t, b)
    else
      var (after, power) := Visit(p, t, b);
      var rest := Schedule(p, t + p.interval, after);
      Outcome([Record(t, power, after)] + rest.samples, rest.time, rest.ev)
  }

  /* ---------------------------------------------------------------------
     The objects.
     --------------------------------------------------------------------- */

  class ElectricVehicle {
    var id: int
    var maxPowerCapacity: real
    var batteryCapacity: real
    var stateOfCharge: real
    var currentCharge: real

    /** The battery state this object holds. */
    function State(): Battery
      reads this
    {
      Battery(batteryCapacity, maxPowerCapacity, currentCharge, stateOfCharge)
    }

    constructor (id: int, batteryCapacity: real := 50.0, stateOfCharge: real := 0.1,
                 maxPowerCapacity: real := 11.0)
      ensures this.id == id
      ensures State() == NewBattery(batteryCapacity, stateOfCharge, maxPowerCapacity)
    {
      this.id := id;
      this.maxPowerCapacity := maxPowerCapacity;
      this.batteryCapacity := batteryCapacity;
      this.stateOfCharge := stateOfCharge;
      this.currentCharge := stateOfCharge * batteryCapacity;
    }

    /** Add `amount` kWh, clamped at the capacity, and recompute the SOC. */
    method Charge(amount: real)
      requires batteryCapacity != 0.0
      modifies this
      ensures State() == Common.Charge(old(State()), amount)
      ensures id == old(id)
    {
      currentCharge := Min(batteryCapacity, currentCharge + amount);
      stateOfCharge := currentCharge / batteryCapacity;
    }
  }

  class ChargingUnit {
    var id: int
    var maxOutput: real

    constructor (id: int, maxOutput: real := 22.0)
      ensures this.id == id && this.maxOutput == maxOutput
    {
      this.id := id;
      this.maxOutput := maxOutput;
    }

    /** Charge `ev` for `hours` at min(output, ceiling); returns nothing. */
    method ChargeVehicle(ev: ElectricVehicle, hours: real)
      requires ev.batteryCapacity != 0.0
      modifies ev
      ensures ev.State() == Common.Charge(old(ev.State()), Min(maxOutput, old(ev.maxPowerCapacity)) * hours)
      ensures ev.id == old(ev.id)
    {
      var chargeAmount := Min(maxOutput, ev.maxPowerCapacity) * hours;
      ev.Charge(chargeAmount);
    }
  }

  class Simulation {
    var simulationStartTime: int
    var simulationEndTime: int
    var interval: int
    var connectionTime: int
    var disconnectionTime: int
    var currentTime: int
    var data: seq<Sample>

    /** What `run` reads from this simulation and from `unit`. */
    function Setting(unit: ChargingUnit): Plan
      reads this, unit
    {
      Plan(simulationEndTime, connectionTime, disconnectionTime, interval, unit.maxOutput)
    }

    /** Builds the simulation without checking the times: the window runs
        from 09:00 of the connection date to 21:00 of the disconnection
        date, and the clock starts at its beginning. */
    constructor (connectionTime: int, disconnectionTime: int, intervalMinutes: int := 15)
      ensures simulationStartTime == Replace(connectionTime, 9, 0)
      ensures simulationEndTime == Replace(disconnectionTime, 21, 0)
      ensures interval == intervalMinutes
      ensures this.connectionTime == connectionTime && this.disconnectionTime == disconnectionTime
      ensures currentTime == simulationStartTime && data == []
    {
      simulationStartTime := Replace(connectionTime, 9, 0);
      simulationEndTime := Replace(disconnectionTime, 21, 0);
      interval := intervalMinutes;
      this.connectionTime := connectionTime;
      this.disconnectionTime := disconnectionTime;
      currentTime := simulationStartTime;
      data := [];
    }

    /** Visit every sample time from the current time up to the end of the
        window, charging for a whole interval where allowed, and append one
        sample per visit. */
    method Run(ev: ElectricVehicle, unit: ChargingUnit)
      requires interval > 0 && ev.batteryCapacity != 0.0
      modifies this, ev
      ensures Setting(unit) == old(Setting(unit)) && simulationStartTime == old(simulationStartTime)
      ensures var o := Schedule(old(Setting(unit)), old(currentTime), old(ev.State()));
              data == old(data) + o.samples && currentTime == o.time && ev.State() == o.ev
      ensures ev.id == old(ev.id)
    {
      ghost var p := Setting(unit);
      ghost var expected := Schedule(p, currentTime, ev.State());
      ghost var battery := ev.State();
      while currentTime < simulationEndTime
        invariant Setting(unit) == p && simulationStartTime == old(simulationStartTime)
        invariant battery == ev.State() && battery.capacity != 0.0
        invariant ev.id == old(ev.id)
        invariant old(data) + expected.samples == data + Schedule(p, currentTime, battery).samples
        invariant Schedule(p, currentTime, battery).time == expected.time
        invariant Schedule(p, currentTime, battery).ev == expected.ev
        decreases simulationEndTime - currentTime
      {
        var chargingPower, netEnergyCharged := VisitNow(ev, unit);
        ghost var after := ev.State();
        ghost var sample := Record(currentTime, chargingPower, after);
        ghost var rest := Schedule(p, currentTime + interval, after).samples;
        assert Schedule(p, currentTime, battery).samples == [sample] + rest;
        assert data + ([sample] + rest) == (data + [sample]) + rest;
        data := data + [Sample(currentTime, chargingPower, ev.stateOfCharge * 100.0, netEnergyCharged)];
        currentTime := currentTime + interval;
        battery := after;
      }
    }

    /** The body of the `while` loop up to the append: at the current time,
        charge for a whole interval when plugged in and not full, and
        return the power to record and the energy the battery then holds. */
    method VisitNow(ev: ElectricVehicle, unit: ChargingUnit) returns (chargingPower: real, netEnergyCharged: real)
      requires ev.batteryCapacity != 0.0
      modifies ev
      ensures ev.State() == Visit(Setting(unit), currentTime, old(ev.State())).0
      ensures chargingPower == Visit(Setting(unit), currentTime, old(ev.State())).1
      ensures netEnergyCharged == ev.currentCharge
      ensures ev.id == old(ev.id)
    {
      if connectionTime <= currentTime < disconnectionTime {
        if ev.stateOfCharge < 1.0 {
          chargingPower := Min(unit.maxOutput, ev.maxPowerCapacity);
          unit.ChargeVehicle(ev, IntervalHours(interval));
          netEnergyCharged := ev.currentCharge;
        } else {
          chargingPower := 0.0;
          netEnergyCharged := ev.currentCharge;
        }
      } else {
        chargingPower := 0.0;
        netEnergyCharged := ev.currentCharge;
      }
    }
  }

  /* ---------------------------------------------------------------------
     Properties of the specification.
     --------------------------------------------------------------------- */

  /** The timing of the samples from time t: the first at t, then one
      every `interval` minutes, all before `end`; the clock stops
      |samples| intervals after t, at the first such time at or after
      `end`. */
  lemma {:induction false} ScheduleTiming(p: Plan, t: int, b: Battery)
    requires p.interval > 0 && b.capacity != 0.0
    ensures var o := Schedule(p, t, b);
            (|o.samples| > 0 ==> o.samples[0].timestamp == t) &&
            Spaced(o.samples, p.interval) &&
            (forall k :: 0 <= k < |o.samples| ==> o.samples[k].timestamp < p.end) &&
            o.time - t == |o.samples| * p.interval &&
            o.time >= p.end && (t < p.end ==> o.time < p.end + p.interval)
    decreases p.end - t
  {
    if t < p.end {
      var (after, power) := Visit(p, t, b);
      ScheduleTiming(p, t + p.interval, after);
      var o, rest := Schedule(p, t, b), Schedule(p, t + p.interval, after);
      assert o.samples == [Record(t, power, after)] + rest.samples;
      assert forall k :: 0 < k < |o.samples| ==> o.samples[k] == rest.samples[k - 1];
      MulSucc(|rest.samples|, p.interval);
    }
  }

  lemma MulSucc(n: int, i: int)
    ensures (n + 1) * i == n * i + i
  {
  }

  /** The timeline of a run from time t: one sample at t, t + interval, ...
      for every such time before `end`, ceil((end - t) / interval) in all;
      the clock stops at the first of these times at or after `end`. */
  lemma ScheduleTimeline(p: Plan, t: int, b: Battery)
    requires p.interval > 0 && b.capacity != 0.0
    ensures var o := Schedule(p, t, b);
            (|o.samples| > 0 ==> o.samples[0].timestamp == t) &&
            Spaced(o.samples, p.interval) &&
            (forall k :: 0 <= k < |o.samples| ==> o.samples[k].timestamp < p.end) &&
            o.time == t + |o.samples| * p.interval &&
            o.time >= p.end && (t < p.end ==> o.time < p.end + p.interval) &&
            |o.samples| == (if t < p.end then CeilDiv(p.end - t, p.interval) else 0)
  {
    ScheduleTiming(p, t, b);
    var o := Schedule(p, t, b);
    if t < p.end {
      CeilDivUnique(|o.samples|, p.interval, p.end - t);
    }
  }

  /** A simulation built from a connection and a disconnection on the same
      date and started at 09:00 visits ceil(720 / interval) sample times,
      strictly increasing and all before 21:00. */
  lemma SameDayRunSampleCount(p: Plan, connection: int, b: Battery)
    requires p.interval > 0 && b.capacity != 0.0
    requires DateOf(connection) == DateOf(p.disconnection) && p.connection == connection
    requires p.end == Replace(p.disconnection, 21, 0)
    ensures var xs := Schedule(p, Replace(connection, 9, 0), b).samples;
            |xs| == CeilDiv(720, p.interval) &&
            (forall k :: 0 <= k < |xs| ==> xs[k].timestamp < p.end) &&
            forall i, j :: 0 <= i < j < |xs| ==> xs[i].timestamp < xs[j].timestamp
  {
    var start := Replace(connection, 9, 0);
    SameDateOrder(p.end, start);
    ScheduleTimeline(p, start, b);
    var xs := Schedule(p, start, b).samples;
    forall i, j | 0 <= i < j < |xs|
      ensures xs[i].timestamp < xs[j].timestamp
    {
      SpacedIncreasing(xs, p.interval, i, j);
    }
  }

  /** A sample records the energy the battery holds after its visit: the
      SOC reading times the capacity, between the initial level and the
      capacity, with the SOC reading in [0, 100]. */
  predicate HeldSample(x: Sample, capacity: real, level0: real)
  {
    level0 <= x.netEnergyCharged <= capacity &&
    0.0 <= x.socPercent <= 100.0 &&
    x.netEnergyCharged == x.socPercent / 100.0 * capacity
  }

  lemma RecordHeld(t: int, power: real, after: Battery, level0: real)
    requires Consistent(after) && level0 <= after.level
    ensures HeldSample(Record(t, power, after), after.capacity, level0)
  {
    ConsistentSoc(after);
    assert after.soc * after.capacity == after.level;
  }

  /** From a consistent battery with non-negative power ceilings, each visit
      keeps the battery consistent and never lowers the energy it holds. */
  lemma VisitKeepsConsistent(p: Plan, t: int, b: Battery)
    requires p.interval > 0 && Consistent(b) && PowersNonNegative(p, b)
    ensures Consistent(Visit(p, t, b).0) && b.level <= Visit(p, t, b).0.level
  {
    assert IntervalHours(p.interval) >= 0.0;
  }

  /** From a consistent battery with non-negative power ceilings, every
      sample's "net energy" is the energy held after its visit: never above
      the capacity, never below the initial level, and the SOC reading times
      the capacity; every SOC reading is in [0, 100]; the battery ends
      consistent. */
  lemma {:induction false} ScheduleHeldEnergy(p: Plan, t: int, b: Battery, level0: real)
    requires p.interval > 0 && Consistent(b) && PowersNonNegative(p, b) && level0 <= b.level
    ensures var o := Schedule(p, t, b);
            (forall k :: 0 <= k < |o.samples| ==> HeldSample(o.samples[k], b.capacity, level0)) &&
            Consistent(o.ev) && o.ev.capacity == b.capacity && b.level <= o.ev.level
    decreases p.end - t
  {
    if t < p.end {
      var (after, power) := Visit(p, t, b);
      VisitKeepsConsistent(p, t, b);
      RecordHeld(t, power, after, level0);
      ScheduleHeldEnergy(p, t + p.interval, after, level0);
      var o, rest := Schedule(p, t, b), Schedule(p, t + p.interval, after);
      assert o.samples == [Record(t, power, after)] + rest.samples;
      assert forall k :: 0 < k < |o.samples| ==> o.samples[k] == rest.samples[k - 1];
    }
  }

  /** With non-negative power ceilings and a consistent battery, the
      recorded "net energy" never decreases and never falls below the
      energy held at the start. */
  lemma {:induction false} ScheduleNetMonotone(p: Plan, t: int, b: Battery)
    requires p.interval > 0 && Consistent(b) && PowersNonNegative(p, b)
    ensures NetNonDecreasing(Schedule(p, t, b).samples)
    ensures forall k :: 0 <= k < |Schedule(p, t, b).samples| ==>
              b.level <= Schedule(p, t, b).samples[k].netEnergyCharged
    decreases p.end - t
  {
    if t < p.end {
      var (after, power) := Visit(p, t, b);
      VisitKeepsConsistent(p, t, b);
      ScheduleNetMonotone(p, t + p.interval, after);
      var xs, ys := Schedule(p, t, b).samples, Schedule(p, t + p.interval, after).samples;
      assert xs == [Record(t, power, after)] + ys;
      assert forall k :: 0 < k < |xs| ==> xs[k] == ys[k - 1];
    }
  }

  /** Every sample whose time falls outside the connection window reports
      power 0 and the same net energy as the sample before it (for the
      first sample: the given initial level). */
  predicate QuietWhenUnplugged(p: Plan, xs: seq<Sample>, level0: real)
  {
    forall k :: 0 <= k < |xs| && !Plugged(p, xs[k].timestamp) ==>
      xs[k].chargingPower == 0.0 &&
      xs[k].netEnergyCharged == (if k == 0 then level0 else xs[k - 1].netEnergyCharged)
  }

  /** A sample whose time falls outside the connection window reports power
      0 and leaves the held energy where the previous sample had it. */
  lemma {:induction false} ScheduleGating(p: Plan, t: int, b: Battery)
    requires p.interval > 0 && b.capacity != 0.0
    ensures QuietWhenUnplugged(p, Schedule(p, t, b).samples, b.level)
    decreases p.end - t
  {
    if t < p.end {
      var (after, power) := Visit(p, t, b);
      ScheduleGating(p, t + p.interval, after);
      var xs, ys := Schedule(p, t, b).samples, Schedule(p, t + p.interval, after).samples;
      assert xs == [Record(t, power, after)] + ys;
      assert forall k :: 0 < k < |xs| ==> xs[k] == ys[k - 1];
    }
  }

  /** Every sample shows power 0 and the same net energy. */
  predicate AllIdle(xs: seq<Sample>, net: real)
  {
    forall k :: 0 <= k < |xs| ==> xs[k].chargingPower == 0.0 && xs[k].netEnergyCharged == net
  }

  /** A run that starts with a full battery records power 0 and the held
      energy throughout. */
  lemma {:induction false} ScheduleIdle(p: Plan, t: int, b: Battery)
    requires p.interval > 0 && b.capacity != 0.0 && b.soc >= 1.0
    ensures AllIdle(Schedule(p, t, b).samples, b.level)
    ensures Schedule(p, t, b).ev == b
    decreases p.end - t
  {
    if t < p.end {
      ScheduleIdle(p, t + p.interval, b);
      var xs, ys := Schedule(p, t, b).samples, Schedule(p, t + p.interval, b).samples;
      assert xs == [Record(t, 0.0, b)] + ys;
      assert forall k :: 0 < k < |xs| ==> xs[k] == ys[k - 1];
    }
  }

  /** Once a sample shows SOC 100 %, every later sample records power 0 and
      the same net energy. */
  predicate FullStaysIdle(xs: seq<Sample>)
  {
    forall i, j :: 0 <= i < j < |xs| && xs[i].socPercent >= 100.0 ==>
      xs[j].chargingPower == 0.0 && xs[j].netEnergyCharged == xs[i].netEnergyCharged
  }

  lemma {:induction false} ScheduleFullStaysIdle(p: Plan, t: int, b: Battery)
    requires p.interval > 0 && b.capacity != 0.0
    ensures FullStaysIdle(Schedule(p, t, b).samples)
    decreases p.end - t
  {
    if t < p.end {
      var (after, power) := Visit(p, t, b);
      ScheduleFullStaysIdle(p, t + p.interval, after);
      var xs, ys := Schedule(p, t, b).samples, Schedule(p, t + p.interval, after).samples;
      assert xs == [Record(t, power, after)] + ys;
      if after.soc >= 1.0 {
        ScheduleIdle(p, t + p.interval, after);
      }
      forall i, j | 0 <= i < j < |xs| && xs[i].socPercent >= 100.0
        ensures xs[j].chargingPower == 0.0 && xs[j].netEnergyCharged == xs[i].netEnergyCharged
      {
        assert xs[j] == ys[j - 1];
        if i > 0 {
          assert xs[i] == ys[i - 1];
        }
      }
    }
  }

  /** The calls of the repository's test script, on default objects with
      id 1: `charge(10)` takes 5 kWh to 15 kWh, and one hour at
      min(22, 11) kW takes it to 26 kWh. */
  method DefaultObjectsScenario() returns (levels: seq<real>)
    ensures levels == [5.0, 15.0, 26.0]
  {
    var ev := new ElectricVehicle(1);
    var unit := new ChargingUnit(1);
    levels := [ev.currentCharge];
    ev.Charge(10.0);
    levels := levels + [ev.currentCharge];
    unit.ChargeVehicle(ev, 1.0);
    levels := levels + [ev.currentCharge];
  }
}
