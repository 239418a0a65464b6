/** The single-session charging simulation of utils/utils.py: an electric
    vehicle whose battery is charged by a charging unit, and a simulation
    that checks the connection window when it is built and then steps
    minute by minute from 09:00 to 21:00, charging only while the vehicle
    is plugged in and not full, and appending one sample every `interval`
    minutes. */
module Charging {
  import opened Common

  /* ---------------------------------------------------------------------
     Specification: one charging minute, one sampling period, one run.
     --------------------------------------------------------------------- */

  /** `charge_vehicle(ev, hours)`: the offered power is the smaller of the
      unit's output and the vehicle's ceiling; the battery absorbs that
      power for `hours` (clamped at its capacity) and the offered power is
      returned whatever the battery absorbed. */
  function Delivery(b: Battery, maxOutput: real, hours: real): (r: (Battery, real))
    requires b.capacity != 0.0
    ensures r.1 <= maxOutput && r.1 <= b.maxPower && (r.1 == maxOutput || r.1 == b.maxPower)
    ensures r.0 == Charge(b, r.1 * hours)
    ensures r.0.level - b.level <= r.1 * hours
    ensures b.level + r.1 * hours < b.capacity ==> r.0.level - b.level == r.1 * hours
  {
    var power := Min(maxOutput, b.maxPower);
    (Charge(b, power * hours), power)
  }

  /** What a run reads from the simulation and the charging unit: the
      window bounds, the connection window, the sampling interval in
      minutes and the unit's output in kW. */
  datatype Session = Session(start: int, end: int, connection: int, disconnection: int,
                             interval: int, maxOutput: real)

  /** The loop state of `run`: current time, battery, the running
      `net_energy_charged` and the last `charging_power`. */
  datatype RunState = RunState(time: int, ev: Battery, net: real, power: real)

  /** The samples a run appends and the state it ends in. */
  datatype Trace = Trace(samples: seq<Sample>, last: RunState)

  /** The vehicle is plugged in at minute t. */
  predicate Plugged(s: Session, t: int)
  {
    s.connection <= t < s.disconnection
  }

  /** Both power ceilings are non-negative, so every offered power is. */
  predicate PowersNonNegative(s: Session, b: Battery)
  {
    s.maxOutput >= 0.0 && b.maxPower >= 0.0
  }

  /** One micro-step of the inner loop: charge for 1/60 h when plugged in
      and not full, then advance the clock by one minute. */
  function Tick(s: Session, st: RunState): (r: RunState)
    requires st.ev.capacity != 0.0
    ensures r.time == st.time + 1
    ensures r.ev.capacity == st.ev.capacity && r.ev.maxPower == st.ev.maxPower
    ensures r.power == 0.0 || r.power == Min(s.maxOutput, st.ev.maxPower)
    ensures r.power != 0.0 ==> Plugged(s, st.time) && st.ev.soc < 1.0
    ensures Plugged(s, st.time) && st.ev.soc < 1.0 ==>
              r.power == Min(s.maxOutput, st.ev.maxPower) &&
              r.ev == Charge(st.ev, r.power / 60.0) && r.net == st.net + r.power / 60.0
    ensures !(Plugged(s, st.time) && st.ev.soc < 1.0) ==> r.ev == st.ev && r.net == st.net && r.power == 0.0
  {
    if Plugged(s, st.time) && st.ev.soc < 1.0 then
      var (ev, power) := Delivery(st.ev, s.maxOutput, 1.0 / 60.0);
      RunState(st.time + 1, ev, st.net + power / 60.0, power)
    else
      RunState(st.time + 1, st.ev, st.net, 0.0)
  }

  /** k micro-steps, the first k turns of the inner `for` loop. */
  function Steps(s: Session, st: RunState, k: nat): (r: RunState)
    requires st.ev.capacity != 0.0
    ensures r.time == st.time + k
    ensures r.ev.capacity == st.ev.capacity && r.ev.maxPower == st.ev.maxPower
    decreases k
  {
    if k == 0 then st else Tick(s, Steps(s, st, k - 1))
  }

  /** The sample appended for a state: its SOC column is a percentage when
      the battery is consistent, and reads 100 exactly when it is full. */
  function Snapshot(st: RunState): (r: Sample)
    ensures Consistent(st.ev) ==> 0.0 <= r.socPercent <= 100.0
    ensures Consistent(st.ev) ==> (r.socPercent >= 100.0 <==> st.ev.level == st.ev.capacity)
  {
    assert Consistent(st.ev) ==>
             0.0 <= st.ev.soc <= 1.0 &&
             (st.ev.soc * 100.0 >= 100.0 <==> st.ev.level == st.ev.capacity) by {
      if Consistent(st.ev) { ConsistentSoc(st.ev); }
    }
    Sample(st.time, st.power, st.ev.soc * 100.0, st.net)
  }

  /** The outer `while` loop from state st: while the clock is before the
      end of the window, run one sampling period and append its sample.
      The loop stops at the first period end at or after `end`. */
  function Periods(s: Session, st: RunState): (r: Trace)
    requires s.interval > 0 && st.ev.capacity != 0.0
    ensures |r.samples| == 0 <==> st.time >= s.end
    ensures r.last.time >= s.end
    decreases s.end - st.time
  {
    if st.time >= s.end then Trace([], st)
    else
      var next := Steps(s, st, s.interval);
      var rest := Periods(s, next);
      Trace([Snapshot(next)] + rest.samples, rest.last)
  }

  /** The sample at st followed by the samples of the periods from st. */
  function SamplesFrom(s: Session, st: RunState): seq<Sample>
    requires s.interval > 0 && st.ev.capacity != 0.0
  {
    [Snapshot(st)] + Periods(s, st).samples
  }

  /** The power shown by the 09:00 sample: the offered power when the
      vehicle is plugged in at the window start and not full, else 0. */
  function InitialPower(s: Session, b: Battery): (r: real)
    ensures r == 0.0 || r == Min(s.maxOutput, b.maxPower)
    ensures r != 0.0 ==> s.connection == s.start && b.soc < 1.0
    ensures s.connection == s.start && b.soc < 1.0 ==> r == Min(s.maxOutput, b.maxPower)
  {
    if s.connection == s.start && b.soc < 1.0 then Min(s.maxOutput, b.maxPower) else 0.0
  }

  /** The state `run` starts from: the clock at t0, nothing booked yet,
      and a power that is non-zero only when the vehicle is plugged in at
      the window start and not full. */
  function Initial(s: Session, t0: int, b: Battery): (r: RunState)
    ensures r.time == t0 && r.ev == b && r.net == 0.0
    ensures r.power != 0.0 ==> s.connection == s.start && b.soc < 1.0
  {
    RunState(t0, b, 0.0, InitialPower(s, b))
  }

  /** What `run` appends and where it leaves the clock and the battery,
      starting at time t0 with battery b. */
  function Simulate(s: Session, t0: int, b: Battery): (r: Trace)
    requires s.interval > 0 && b.capacity != 0.0
    ensures |r.samples| >= 1 && r.samples[0].timestamp == t0 && r.samples[0].netEnergyCharged == 0.0
    ensures |r.samples| == 1 <==> t0 >= s.end
  {
    var init := Initial(s, t0, b);
    Trace(SamplesFrom(s, init), Periods(s, init).last)
  }

  /* ---------------------------------------------------------------------
     Properties of the specification.
     --------------------------------------------------------------------- */

  /** The energy the net counter books against the battery: the battery is
      consistent, its gain since the start never exceeds the net energy,
      and the two agree while the battery is below full. */
  predicate Accounted(st: RunState, level0: real)
  {
    Consistent(st.ev) &&
    st.ev.level - level0 <= st.net &&
    (st.ev.level < st.ev.capacity ==> st.net == st.ev.level - level0)
  }

  lemma TickAccounted(s: Session, st: RunState, level0: real)
    requires Accounted(st, level0) && PowersNonNegative(s, st.ev)
    ensures Accounted(Tick(s, st), level0)
    ensures st.net <= Tick(s, st).net
  {
    ConsistentSoc(st.ev);
  }

  lemma {:induction false} StepsAccounted(s: Session, st: RunState, k: nat, level0: real)
    requires Accounted(st, level0) && PowersNonNegative(s, st.ev)
    ensures Accounted(Steps(s, st, k), level0)
    ensures st.net <= Steps(s, st, k).net
  {
    if k > 0 {
      StepsAccounted(s, st, k - 1, level0);
      TickAccounted(s, Steps(s, st, k - 1), level0);
    }
  }

  /** With non-negative power ceilings no minute lowers the net energy. */
  lemma {:induction false} StepsNetGrows(s: Session, st: RunState, k: nat)
    requires st.ev.capacity != 0.0 && PowersNonNegative(s, st.ev)
    ensures st.net <= Steps(s, st, k).net
  {
    if k > 0 {
      StepsNetGrows(s, st, k - 1);
    }
  }

  /** Minutes taken with a full battery change nothing but the clock and
      report power 0. */
  lemma {:induction false} StepsIdle(s: Session, st: RunState, k: nat)
    requires st.ev.capacity != 0.0 && st.ev.soc >= 1.0
    ensures var r := Steps(s, st, k);
            r.ev == st.ev && r.net == st.net && (k > 0 ==> r.power == 0.0)
  {
    if k > 0 {
      StepsIdle(s, st, k - 1);
    }
  }

  /** After k > 0 minutes the reported power is that of the last minute,
      so it is 0 when the vehicle was unplugged during that minute. */
  lemma StepsLastPower(s: Session, st: RunState, k: nat)
    requires st.ev.capacity != 0.0 && k > 0
    ensures Steps(s, st, k).power == Tick(s, Steps(s, st, k - 1)).power
    ensures !Plugged(s, st.time + k - 1) ==> Steps(s, st, k).power == 0.0
  {
    assert Steps(s, st, k) == Tick(s, Steps(s, st, k - 1));
  }

  /** One unrolling of the outer loop. */
  lemma SamplesFromUnfold(s: Session, st: RunState)
    requires s.interval > 0 && st.ev.capacity != 0.0 && st.time < s.end
    ensures SamplesFrom(s, st) == [Snapshot(st)] + SamplesFrom(s, Steps(s, st, s.interval))
    ensures Periods(s, st).last == Periods(s, Steps(s, st, s.interval)).last
  {
  }

  /** The timeline of the samples from a state: the first at the current
      time, then one every `interval` minutes, the last at the time the
      loop stops, which is the first period end at or after `end`. */
  lemma {:induction false} SamplesTiming(s: Session, st: RunState)
    requires s.interval > 0 && st.ev.capacity != 0.0
    ensures var xs, last := SamplesFrom(s, st), Periods(s, st).last;
            xs[0].timestamp == st.time && Spaced(xs, s.interval) &&
            xs[|xs| - 1].timestamp == last.time &&
            last.time - st.time == (|xs| - 1) * s.interval &&
            last.time >= s.end && (st.time < s.end ==> last.time < s.end + s.interval)
    decreases s.end - st.time
  {
    if st.time < s.end {
      var next := Steps(s, st, s.interval);
      SamplesFromUnfold(s, st);
      SamplesTiming(s, next);
      var xs, ys := SamplesFrom(s, st), SamplesFrom(s, next);
      assert xs[1..] == ys;
      assert (|xs| - 1) * s.interval == (|ys| - 1) * s.interval + s.interval;
    }
  }

  /** Net energy never decreases along the samples from a state. */
  lemma {:induction false} SamplesNetMonotone(s: Session, st: RunState)
    requires s.interval > 0 && st.ev.capacity != 0.0 && PowersNonNegative(s, st.ev)
    ensures NetNonDecreasing(SamplesFrom(s, st))
    decreases s.end - st.time
  {
    if st.time < s.end {
      var next := Steps(s, st, s.interval);
      SamplesFromUnfold(s, st);
      SamplesNetMonotone(s, next);
      StepsNetGrows(s, st, s.interval);
      var xs, ys := SamplesFrom(s, st), SamplesFrom(s, next);
      assert xs[1..] == ys;
      forall i, j | 0 <= i <= j < |xs|
        ensures xs[i].netEnergyCharged <= xs[j].netEnergyCharged
      {
        if 0 < i {
          assert xs[i] == ys[i - 1] && xs[j] == ys[j - 1];
        } else if 0 < j {
          assert xs[j] == ys[j - 1] && ys[0].netEnergyCharged == next.net;
        }
      }
    }
  }

  /** Every SOC reading from a consistent battery is a percentage. */
  lemma {:induction false} SamplesSocInRange(s: Session, st: RunState, level0: real)
    requires s.interval > 0 && Accounted(st, level0) && PowersNonNegative(s, st.ev)
    ensures SocInRange(SamplesFrom(s, st))
    ensures Accounted(Periods(s, st).last, level0)
    ensures Periods(s, st).last.ev.capacity == st.ev.capacity
    decreases s.end - st.time
  {
    ConsistentSoc(st.ev);
    if st.time < s.end {
      var next := Steps(s, st, s.interval);
      SamplesFromUnfold(s, st);
      StepsAccounted(s, st, s.interval, level0);
      SamplesSocInRange(s, next, level0);
      var xs, ys := SamplesFrom(s, st), SamplesFrom(s, next);
      assert xs[1..] == ys;
    }
  }

  /** Every sample reports a non-negative charging power. */
  predicate PowerNonNegative(xs: seq<Sample>)
  {
    forall k :: 0 <= k < |xs| ==> xs[k].chargingPower >= 0.0
  }

  /** With non-negative power ceilings, every sample from a state with a
      non-negative power reports a non-negative power: each period sample
      shows the power of a minute, which is 0 or min(output, ceiling). */
  lemma {:induction false} SamplesPowerNonNegative(s: Session, st: RunState)
    requires s.interval > 0 && st.ev.capacity != 0.0 && PowersNonNegative(s, st.ev) && st.power >= 0.0
    ensures PowerNonNegative(SamplesFrom(s, st))
    decreases s.end - st.time
  {
    if st.time < s.end {
      var next := Steps(s, st, s.interval);
      assert next == Tick(s, Steps(s, st, s.interval - 1));
      SamplesFromUnfold(s, st);
      SamplesPowerNonNegative(s, next);
      var xs, ys := SamplesFrom(s, st), SamplesFrom(s, next);
      assert xs[1..] == ys;
    }
  }

  /** Every sample shows power 0, the given net energy and the given SOC. */
  predicate AllIdle(xs: seq<Sample>, net: real, socPercent: real)
  {
    forall k :: 0 <= k < |xs| ==>
      xs[k].chargingPower == 0.0 && xs[k].netEnergyCharged == net && xs[k].socPercent == socPercent
  }

  /** Periods that start with a full battery report power 0 and leave the
      net energy and the SOC where they were. */
  lemma {:induction false} PeriodsIdle(s: Session, st: RunState)
    requires s.interval > 0 && st.ev.capacity != 0.0 && st.ev.soc >= 1.0
    ensures AllIdle(Periods(s, st).samples, st.net, st.ev.soc * 100.0)
    decreases s.end - st.time
  {
    if st.time < s.end {
      var next := Steps(s, st, s.interval);
      StepsIdle(s, st, s.interval);
      PeriodsIdle(s, next);
      var xs, ys := Periods(s, st).samples, Periods(s, next).samples;
      assert xs == [Snapshot(next)] + ys;
      assert forall k :: 0 < k < |xs| ==> xs[k] == ys[k - 1];
    }
  }

  /** Once a sample shows SOC 100 %, every later sample shows power 0 and
      the same net energy. */
  lemma {:induction false} SamplesFullStaysIdle(s: Session, st: RunState)
    requires s.interval > 0 && st.ev.capacity != 0.0
    ensures var xs := SamplesFrom(s, st);
            forall i, j :: 0 <= i < j < |xs| && xs[i].socPercent >= 100.0 ==>
              xs[j].chargingPower == 0.0 && xs[j].netEnergyCharged == xs[i].netEnergyCharged
    decreases s.end - st.time
  {
    var xs := SamplesFrom(s, st);
    if st.ev.soc >= 1.0 {
      PeriodsIdle(s, st);
    }
    if st.time < s.end {
      var next := Steps(s, st, s.interval);
      SamplesFromUnfold(s, st);
      SamplesFullStaysIdle(s, next);
      var ys := SamplesFrom(s, next);
      assert xs[1..] == ys;
      forall i, j | 0 <= i < j < |xs| && xs[i].socPercent >= 100.0
        ensures xs[j].chargingPower == 0.0 && xs[j].netEnergyCharged == xs[i].netEnergyCharged
      {
        assert xs[j] == ys[j - 1];
        if 0 < i {
          assert xs[i] == ys[i - 1];
        }
      }
    }
  }

  /** Every sample stamped at or before the connection time, or after the
      disconnection time, reports power 0. */
  predicate QuietOutsideWindow(s: Session, xs: seq<Sample>)
  {
    forall k :: 0 <= k < |xs| && (xs[k].timestamp <= s.connection || xs[k].timestamp > s.disconnection) ==>
      xs[k].chargingPower == 0.0
  }

  /** A period sample stamped at or before the connection time, or after
      the disconnection time, closes a period whose last minute (one
      before the stamp) was unplugged, so it reports power 0. */
  lemma {:induction false} PeriodsGating(s: Session, st: RunState)
    requires s.interval > 0 && st.ev.capacity != 0.0
    ensures QuietOutsideWindow(s, Periods(s, st).samples)
    decreases s.end - st.time
  {
    if st.time < s.end {
      var next := Steps(s, st, s.interval);
      PeriodsGating(s, next);
      if next.time <= s.connection || next.time > s.disconnection {
        StepsLastPower(s, st, s.interval);
      }
      var xs, ys := Periods(s, st).samples, Periods(s, next).samples;
      assert xs == [Snapshot(next)] + ys;
      assert forall k :: 0 < k < |xs| ==> xs[k] == ys[k - 1];
    }
  }

  /* ---------------------------------------------------------------------
     Properties of a whole run.
     --------------------------------------------------------------------- */

  /** The samples of a run: first the 09:00 sample (time t0, net energy 0,
      the initial SOC as a percentage, and power only when the vehicle is
      plugged in at the window start and not full); then one sample every
      `interval` minutes, 1 + ceil((end - t0) / interval) in all when t0 is
      before `end`, the last stamped at or after `end` and less than one
      interval past it, which is also where the clock stops. */
  lemma RunTimeline(s: Session, t0: int, b: Battery)
    requires s.interval > 0 && b.capacity != 0.0
    ensures var t := Simulate(s, t0, b);
            t.samples[0] == Sample(t0, InitialPower(s, b), b.soc * 100.0, 0.0) &&
            (t.samples[0].chargingPower != 0.0 ==> s.connection == s.start && b.soc < 1.0) &&
            Spaced(t.samples, s.interval) &&
            |t.samples| == 1 + (if t0 < s.end then CeilDiv(s.end - t0, s.interval) else 0) &&
            t.samples[|t.samples| - 1].timestamp == t.last.time &&
            t.last.time >= s.end && (t0 < s.end ==> t.last.time < s.end + s.interval)
  {
    var init := Initial(s, t0, b);
    SamplesTiming(s, init);
    var t := Simulate(s, t0, b);
    if t0 < s.end {
      CeilDivUnique(|t.samples| - 1, s.interval, s.end - t0);
    } else {
      assert t.samples == [Snapshot(init)];
    }
  }

  /** For a simulation that passed the window check and starts at 09:00,
      the run covers 720 minutes: 1 + ceil(720 / interval) samples with
      strictly increasing timestamps. */
  lemma ValidRunSampleCount(s: Session, b: Battery)
    requires s.interval > 0 && b.capacity != 0.0
    requires Validate(s.connection, s.disconnection) == Pass
    requires s.start == Replace(s.connection, 9, 0) && s.end == Replace(s.disconnection, 21, 0)
    ensures var xs := Simulate(s, s.start, b).samples;
            |xs| == 1 + CeilDiv(720, s.interval) &&
            forall i, j :: 0 <= i < j < |xs| ==> xs[i].timestamp < xs[j].timestamp
  {
    assert s.end - s.start == 720;
    RunTimeline(s, s.start, b);
    var xs := Simulate(s, s.start, b).samples;
    forall i, j | 0 <= i < j < |xs|
      ensures xs[i].timestamp < xs[j].timestamp
    {
      SpacedIncreasing(xs, s.interval, i, j);
    }
  }

  /** Outside the connection window no power is reported: the 09:00 sample
      only when connection is at 09:00, and every later sample stamped at
      or before the connection time or after the disconnection time
      reports 0. */
  lemma RunWindowGating(s: Session, t0: int, b: Battery)
    requires s.interval > 0 && b.capacity != 0.0
    ensures var xs := Simulate(s, t0, b).samples;
            (xs[0].chargingPower != 0.0 ==> s.connection == s.start) &&
            forall k :: 1 <= k < |xs| && (xs[k].timestamp <= s.connection || xs[k].timestamp > s.disconnection) ==>
              xs[k].chargingPower == 0.0
  {
    var init := Initial(s, t0, b);
    PeriodsGating(s, init);
    var xs := Simulate(s, t0, b).samples;
    assert xs[1..] == Periods(s, init).samples;
    forall k | 1 <= k < |xs| && (xs[k].timestamp <= s.connection || xs[k].timestamp > s.disconnection)
      ensures xs[k].chargingPower == 0.0
    {
      assert xs[k] == Periods(s, init).samples[k - 1];
    }
  }

  /** With non-negative power ceilings the net energy never decreases. */
  lemma RunNetMonotone(s: Session, t0: int, b: Battery)
    requires s.interval > 0 && b.capacity != 0.0 && PowersNonNegative(s, b)
    ensures NetNonDecreasing(Simulate(s, t0, b).samples)
  {
    SamplesNetMonotone(s, Initial(s, t0, b));
  }

  /** With non-negative output and ceiling, every sample of a run reports
      a non-negative charging power. */
  lemma RunPowerNonNegative(s: Session, t0: int, b: Battery)
    requires s.interval > 0 && b.capacity != 0.0 && PowersNonNegative(s, b)
    ensures PowerNonNegative(Simulate(s, t0, b).samples)
  {
    SamplesPowerNonNegative(s, Initial(s, t0, b));
  }

  /** Starting from a consistent battery (positive capacity, initial SOC in
      [0, 1]), every SOC reading is in [0, 100] and the battery ends
      consistent. */
  lemma RunSocInRange(s: Session, t0: int, b: Battery)
    requires s.interval > 0 && Consistent(b) && PowersNonNegative(s, b)
    ensures SocInRange(Simulate(s, t0, b).samples)
    ensures Consistent(Simulate(s, t0, b).last.ev)
  {
    SamplesSocInRange(s, Initial(s, t0, b), b.level);
  }

  /** The net counter of `last` covers the energy the battery gained since
      `b`, (final SOC - initial SOC) * capacity, and equals it when the
      battery is below full. */
  predicate CoversGain(last: RunState, b: Battery)
  {
    (last.ev.soc - b.soc) * b.capacity <= last.net &&
    (last.ev.soc < 1.0 ==> last.net == (last.ev.soc - b.soc) * b.capacity)
  }

  /** The net energy counts offered energy: at the end of a run it is at
      least the energy the battery gained, and equal to it when the battery
      ends below full. */
  lemma RunEnergyAccounting(s: Session, t0: int, b: Battery)
    requires s.interval > 0 && Consistent(b) && PowersNonNegative(s, b)
    ensures CoversGain(Simulate(s, t0, b).last, b)
  {
    var init := Initial(s, t0, b);
    SamplesSocInRange(s, init, b.level);
    AccountedGain(Periods(s, init).last, b);
  }

  /** A state whose net counter is accounted against a consistent starting
      battery of the same capacity covers the gain. */
  lemma AccountedGain(last: RunState, b: Battery)
    requires Consistent(b) && Accounted(last, b.level) && last.ev.capacity == b.capacity
    ensures CoversGain(last, b)
  {
    ConsistentSoc(last.ev);
    GainIsSocDifference(last.ev, b);
  }

  /** For two consistent batteries of one capacity, the energy gained is
      the SOC difference times the capacity. */
  lemma GainIsSocDifference(now: Battery, before: Battery)
    requires Consistent(now) && Consistent(before) && now.capacity == before.capacity
    ensures (now.soc - before.soc) * before.capacity == now.level - before.level
  {
    var c := before.capacity;
    assert now.soc * c == now.level;
    assert before.soc * c == before.level;
    assert (now.soc - before.soc) * c == now.soc * c - before.soc * c;
  }

  /** Once a sample shows SOC 100 %, every later sample reports power 0 and
      the same net energy. */
  lemma RunFullStaysIdle(s: Session, t0: int, b: Battery)
    requires s.interval > 0 && b.capacity != 0.0
    ensures var xs := Simulate(s, t0, b).samples;
            forall i, j :: 0 <= i < j < |xs| && xs[i].socPercent >= 100.0 ==>
              xs[j].chargingPower == 0.0 && xs[j].netEnergyCharged == xs[i].netEnergyCharged
  {
    SamplesFullStaysIdle(s, Initial(s, t0, b));
  }

  /** On the minute the battery fills, the offered power is still reported
      and booked in full: with 49.9 of 50 kWh held and 11 kW offered, the
      net energy grows by 11/60 kWh while the battery gains 0.1 kWh. */
  lemma BoundaryMinuteBooksOfferedEnergy()
    ensures var s := Session(540, 1260, 540, 1260, 15, 22.0);
            var st := RunState(600, Battery(50.0, 11.0, 49.9, 0.998), 44.9, 11.0);
            var r := Tick(s, st);
            r.power == 11.0 && r.ev.level == 50.0 && r.ev.soc == 1.0 &&
            r.net - st.net == 11.0 / 60.0 && r.ev.level - st.ev.level == 0.1
  {
  }

  /** The sample stamped exactly at the disconnection time reports the
      power of the minute before it, which was still plugged in: for a
      validated window from 09:00 to 09:01 and a one-minute interval, the
      09:01 sample reports 11 kW. */
  lemma DisconnectionSampleReportsPower()
    ensures Validate(540, 541) == Pass
    ensures var s := Session(540, 1260, 540, 541, 1, 22.0);
            var xs := Simulate(s, 540, Battery(50.0, 11.0, 5.0, 0.1)).samples;
            |xs| > 1 && xs[1].timestamp == s.disconnection && xs[1].chargingPower == 11.0
  {
    var s := Session(540, 1260, 540, 541, 1, 22.0);
    var init := Initial(s, 540, Battery(50.0, 11.0, 5.0, 0.1));
    var next := Steps(s, init, 1);
    assert next == Tick(s, init);
    assert next.power == 11.0 && next.time == 541;
    assert Periods(s, init).samples[0] == Snapshot(next);
  }

  /* ---------------------------------------------------------------------
     Construction-time validation.
     --------------------------------------------------------------------- */

  datatype WindowError = DifferentDays | OutsideWindow | NotOrdered

  datatype Outcome = Pass | Fail(error: WindowError)

  datatype Result<T> = Ok(value: T) | Err(error: WindowError)

  /** The checks of `Simulation.__init__`, in the order the source makes
      them: same date, both times inside [09:00, 21:00], then connection
      strictly before disconnection. */
  function Validate(connection: int, disconnection: int): (r: Outcome)
    ensures r == Pass <==>
              DateOf(connection) == DateOf(disconnection) &&
              WindowOpen <= TimeOfDay(connection) && connection < disconnection &&
              TimeOfDay(disconnection) <= WindowClose
    ensures r == Fail(DifferentDays) <==> DateOf(connection) != DateOf(disconnection)
    ensures r == Fail(OutsideWindow) <==>
              DateOf(connection) == DateOf(disconnection) &&
              !(WindowOpen <= TimeOfDay(connection) <= WindowClose &&
                WindowOpen <= TimeOfDay(disconnection) <= WindowClose)
    ensures r == Fail(NotOrdered) <==>
              DateOf(connection) == DateOf(disconnection) &&
              WindowOpen <= TimeOfDay(disconnection) <= TimeOfDay(connection) <= WindowClose
  {
    var start := Replace(connection, 9, 0);
    var end := Replace(disconnection, 21, 0);
    if DateOf(connection) != DateOf(disconnection) then
      Fail(DifferentDays)
    else if connection < start || disconnection > end || connection > end || disconnection < start then
      Fail(OutsideWindow)
    else if connection >= disconnection then
      Fail(NotOrdered)
    else
      Pass
  }

  /* ---------------------------------------------------------------------
     The objects.
     --------------------------------------------------------------------- */

  class ElectricVehicle {
    var maxPowerCapacity: real
    var batteryCapacity: real
    var stateOfCharge: real
    var chargeLevel: real

    /** The battery state this object holds. */
    function State(): Battery
      reads this
    {
      Battery(batteryCapacity, maxPowerCapacity, chargeLevel, stateOfCharge)
    }

    constructor (batteryCapacity: real := 50.0, stateOfCharge: real := 0.1, maxPowerCapacity: real := 11.0)
      ensures State() == NewBattery(batteryCapacity, stateOfCharge, maxPowerCapacity)
    {
      this.maxPowerCapacity := maxPowerCapacity;
      this.batteryCapacity := batteryCapacity;
      this.stateOfCharge := stateOfCharge;
      this.chargeLevel := stateOfCharge * batteryCapacity;
    }

    /** Add `amount` kWh, clamped at the capacity, and recompute the SOC. */
    method Charge(amount: real)
      requires batteryCapacity != 0.0
      modifies this
      ensures State() == Common.Charge(old(State()), amount)
    {
      chargeLevel := Min(batteryCapacity, chargeLevel + amount);
      stateOfCharge := chargeLevel / batteryCapacity;
    }
  }

  class ChargingUnit {
    var maxOutput: real

    constructor (maxOutput: real := 22.0)
      ensures this.maxOutput == maxOutput
    {
      this.maxOutput := maxOutput;
    }

    /** Charge `ev` for `hours` at the offered power and return that power. */
    method ChargeVehicle(ev: ElectricVehicle, hours: real) returns (power: real)
      requires ev.batteryCapacity != 0.0
      modifies ev
      ensures ev.State() == Delivery(old(ev.State()), maxOutput, hours).0
      ensures power == Delivery(old(ev.State()), maxOutput, hours).1
    {
      power := Min(maxOutput, ev.maxPowerCapacity);
      var amount := power * hours;
      ev.Charge(amount);
    }
  }

  class Simulation {
    var simulationStartTime: int
    var simulationEndTime: int
    var interval: int
    var connectionTime: int
    var disconnectionTime: int
    var currentTime: int
    var data: seq<Sample>

    /** What `run` reads from this simulation and from `unit`. */
    function Setting(unit: ChargingUnit): Session
      reads this, unit
    {
      Session(simulationStartTime, simulationEndTime, connectionTime, disconnectionTime,
              interval, unit.maxOutput)
    }

    /** The successful path of `__init__`. */
    constructor (connectionTime: int, disconnectionTime: int, intervalMinutes: int := 15)
      requires Validate(connectionTime, disconnectionTime) == Pass
      ensures simulationStartTime == Replace(connectionTime, 9, 0)
      ensures simulationEndTime == Replace(disconnectionTime, 21, 0)
      ensures this.connectionTime == connectionTime && this.disconnectionTime == disconnectionTime
      ensures interval == intervalMinutes
      ensures currentTime == simulationStartTime && data == []
    {
      simulationStartTime := Replace(connectionTime, 9, 0);
      simulationEndTime := Replace(disconnectionTime, 21, 0);
      interval := intervalMinutes;
      this.connectionTime := connectionTime;
      this.disconnectionTime := disconnectionTime;
      currentTime := simulationStartTime;
      data := [];
    }

    /** `Simulation(connection_time, disconnection_time, interval_minutes)`:
        raises (here: returns the error) unless both times are on one date
        and 09:00 <= connection < disconnection <= 21:00; on success the
        clock stands at 09:00 of that date and no sample is recorded. */
    static method Create(connectionTime: int, disconnectionTime: int, intervalMinutes: int := 15)
      returns (r: Result<Simulation>)
      ensures r.Ok? <==> Validate(connectionTime, disconnectionTime) == Pass
      ensures r.Err? ==> Validate(connectionTime, disconnectionTime) == Fail(r.error)
      ensures r.Ok? ==> fresh(r.value) &&
                        r.value.simulationStartTime == Replace(connectionTime, 9, 0) &&
                        r.value.connectionTime == connectionTime &&
                        r.value.disconnectionTime == disconnectionTime &&
                        r.value.interval == intervalMinutes &&
                        r.value.currentTime == Replace(connectionTime, 9, 0) &&
                        r.value.simulationEndTime == Replace(connectionTime, 21, 0) &&
                        r.value.data == []
    {
      var check := Validate(connectionTime, disconnectionTime);
      if check.Fail? {
        return Err(check.error);
      }
      var sim := new Simulation(connectionTime, disconnectionTime, intervalMinutes);
      return Ok(sim);
    }

    /** Record the 09:00 sample, then step minute by minute up to the end
        of the window, appending one sample after every `interval` minutes. */
    method Run(ev: ElectricVehicle, unit: ChargingUnit)
      requires interval > 0 && ev.batteryCapacity != 0.0
      modifies this, ev
      ensures Setting(unit) == old(Setting(unit))
      ensures var t := Simulate(old(Setting(unit)), old(currentTime), old(ev.State()));
              data == old(data) + t.samples &&
              currentTime == t.last.time && ev.State() == t.last.ev
    {
      ghost var s := Setting(unit);
      ghost var t0, b := currentTime, ev.State();
      var power: real;
      if connectionTime == simulationStartTime && ev.stateOfCharge < 1.0 {
        power := Min(unit.maxOutput, ev.maxPowerCapacity);
      } else {
        power := 0.0;
      }
      data := data + [Sample(currentTime, power, ev.stateOfCharge * 100.0, 0.0)];
      assert RunState(currentTime, ev.State(), 0.0, power) == Initial(s, t0, b);
      SamplePeriods(ev, unit, 0.0, power);
    }

    /** The `while` loop of `run`: one period of `interval` minutes per
        turn, each followed by one appended sample, until the clock reaches
        the end of the window. */
    method SamplePeriods(ev: ElectricVehicle, unit: ChargingUnit, net0: real, power0: real)
      requires interval > 0 && ev.batteryCapacity != 0.0
      modifies this`currentTime, this`data, ev
      ensures Setting(unit) == old(Setting(unit))
      ensures var t := Periods(old(Setting(unit)), RunState(old(currentTime), old(ev.State()), net0, power0));
              data == old(data) + t.samples &&
              currentTime == t.last.time && ev.State() == t.last.ev
    {
      ghost var s := Setting(unit);
      ghost var expected := Periods(s, RunState(currentTime, ev.State(), net0, power0));
      var net, power := net0, power0;
      ghost var now := RunState(currentTime, ev.State(), net, power);
      while currentTime < simulationEndTime
        invariant Setting(unit) == s
        invariant now == RunState(currentTime, ev.State(), net, power)
        invariant now.ev.capacity != 0.0
        invariant old(data) + expected.samples == data + Periods(s, now).samples
        invariant Periods(s, now).last == expected.last
        decreases simulationEndTime - currentTime
      {
        ghost var periodStart := now;
        net, power := ChargePeriod(ev, unit, net, power);
        now := RunState(currentTime, ev.State(), net, power);
        ghost var rest := Periods(s, now).samples;
        assert Periods(s, periodStart).samples == [Snapshot(now)] + rest;
        assert data + ([Snapshot(now)] + rest) == (data + [Snapshot(now)]) + rest;
        data := data + [Sample(currentTime, power, ev.stateOfCharge * 100.0, net)];
      }
    }

    /** The inner `for` loop of `run`: `interval` one-minute micro-steps,
        each charging for 1/60 h while the vehicle is plugged in and not
        full. Returns the running net energy and the power of the last
        micro-step. */
    method ChargePeriod(ev: ElectricVehicle, unit: ChargingUnit, net0: real, power0: real)
      returns (net: real, power: real)
      requires interval > 0 && ev.batteryCapacity != 0.0
      modifies this`currentTime, ev
      ensures RunState(currentTime, ev.State(), net, power) ==
              Steps(Setting(unit), RunState(old(currentTime), old(ev.State()), net0, power0), interval)
    {
      ghost var s := Setting(unit);
      ghost var periodStart := RunState(currentTime, ev.State(), net0, power0);
      net, power := net0, power0;
      for i := 0 to interval
        invariant Setting(unit) == s
        invariant RunState(currentTime, ev.State(), net, power) == Steps(s, periodStart, i)
      {
        ghost var minuteStart := RunState(currentTime, ev.State(), net, power);
        if connectionTime <= currentTime < disconnectionTime {
          if ev.stateOfCharge < 1.0 {
            power := unit.ChargeVehicle(ev, 1.0 / 60.0);
            net := net + power / 60.0;
          } else {
            power := 0.0;
          }
        } else {
          power := 0.0;
        }
        currentTime := currentTime + 1;
        assert RunState(currentTime, ev.State(), net, power) == Tick(s, minuteStart);
      }
    }
  }

  /** The calls made by the repository's test script, on default objects:
      `charge(10)` takes 5 kWh to 15 kWh, and one hour at min(22, 11) kW
      takes it to 26 kWh. */
  method DefaultObjectsScenario() returns (levels: seq<real>, power: real)
    ensures levels == [5.0, 15.0, 26.0] && power == 11.0
  {
    var ev := new ElectricVehicle();
    var unit := new ChargingUnit();
    levels := [ev.chargeLevel];
    ev.Charge(10.0);
    levels := levels + [ev.chargeLevel];
    power := unit.ChargeVehicle(ev, 1.0);
    levels := levels + [ev.chargeLevel];
  }
}
