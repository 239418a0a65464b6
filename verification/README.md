# EV charging simulation — a verified model

This project models a single-session electric-vehicle charging simulation.
It has three objects:

- An `ElectricVehicle` is a battery with a capacity (kWh), a state of charge (SOC) and a vehicle-side power ceiling (kW).
- A `ChargingUnit` has a maximum output (kW).
- A `Simulation` runs the charging session between 09:00 and 21:00 of one day.

The vehicle is plugged in from a connection time to a disconnection time. The simulation records a time series of samples. Each sample holds a timestamp, the charging power, the SOC in percent and the "net energy charged".

The repository has two variants, and the model covers both:

- **`utils/utils.py`** (module `Charging`, file `charging.dfy`):
  - The simulation rejects a connection window that is not on one date, not inside 09:00–21:00, or not ordered.
  - `run` steps the clock one minute at a time. A minute charges at min(output, ceiling) for 1/60 h when the vehicle is plugged in and not full, and adds power/60 kWh to a net-energy counter.
  - `run` records a sample at 09:00 and then one after every `interval` minutes.
- **`utils.py`** (module `LegacyCharging`, file `legacy.dfy`):
  - The constructor checks nothing.
  - `run` visits only the sample times. At each one it decides once whether to charge, and charges for a whole interval.
  - It records the energy the battery then *holds* as "net energy".

`common.dfy` (module `Common`) holds what the two variants share:

- timestamps, modelled as whole minutes: the date is `t / 1440` and the time of day is `t % 1440`;
- `datetime.replace`;
- Python's `min`;
- the battery state and the clamped `charge` rule, which is identical in both files;
- the sample record.

Each class keeps the source's fields that the simulation reads or writes, and its methods update them in place. `Charging.Simulation` omits `one_minute` (always one minute, written as `+ 1`) and `result` (set only by `get_results`). Each method is proved against a pure specification function of the old state:

- `Common.Charge` for `charge`;
- `Charging.Delivery` for `charge_vehicle`;
- `Charging.Tick`, `Charging.Steps` and `Charging.Simulate` for the minute loop;
- `LegacyCharging.Visit` and `LegacyCharging.Schedule` for the interval loop.

The properties of a run are lemmas about those functions.

Energies and powers are `real`. Because of the clamp in `charge`, a full battery holds exactly its capacity and has SOC exactly 1.

## Model

| member | source | states |
|---|---|---|
| Common.Min | utils/utils.py:46 | Python's `min(a, b)` is one of its two arguments and is at most both. |
| Common.Charge | utils/utils.py:28-31 | The held energy becomes min(capacity, old + amount) and SOC × capacity equals it. From a consistent battery with amount ≥ 0, the battery stays consistent (0 ≤ held ≤ capacity, SOC = held / capacity) and the held energy does not drop. |
| Common.ConsistentSoc | utils/utils.py:29-31 | A consistent battery has SOC in [0, 1]. SOC < 1 holds exactly when the held energy is below capacity, and SOC × 100 ≥ 100 exactly when the battery is full. |
| Common.NewBattery | utils/utils.py:21-25 | The constructor's state is held = SOC × capacity. It is consistent when capacity > 0 and SOC is in [0, 1]. |
| Common.Replace | utils/utils.py:59-60 | `replace(hour, minute)` keeps the date and sets the time of day to hour·60 + minute. |
| Common.SameDateOrder | utils/utils.py:67-68 | On one date, two timestamps differ by exactly their times of day. |
| Common.CeilDivUnique | utils/utils.py:93-109 | The number of interval-long steps that first reaches a distance d is ceil(d / interval). |
| Common.SpacedIncreasing | utils/utils.py:93-109 | Samples spaced by a positive interval have strictly increasing timestamps, j − i intervals apart. |
| Charging.ElectricVehicle.constructor | utils/utils.py:21-25 | Defaults are 50 kWh, SOC 0.1 and 11 kW, and the held energy is SOC × capacity. |
| Charging.ElectricVehicle.Charge | utils/utils.py:28-31 | The new state is `Common.Charge` of the old state. |
| Charging.Delivery | utils/utils.py:45-49 | The power is min(output, ceiling). The battery receives the clamped charge of power × hours. The energy it gains is at most power × hours, and exactly that when it stays below capacity. |
| Charging.ChargingUnit.constructor | utils/utils.py:41-42 | The unit's output is the given one, 22 kW by default. |
| Charging.ChargingUnit.ChargeVehicle | utils/utils.py:45-49 | It returns the power of `Delivery`, and the vehicle ends in the state `Delivery` gives. |
| Charging.DefaultObjectsScenario | utils/utils.py:21-49 | On default objects, `charge(10)` and then one hour from a 22 kW unit take the battery through 5, 15 and 26 kWh. The unit returns 11 kW. |
| Charging.Validate | utils/utils.py:58-71 | Construction passes exactly when both times are on one date, 09:00 ≤ connection, disconnection ≤ 21:00 and connection < disconnection. Each of the three errors is characterised exactly: a different date; a time outside the window; disconnection not after connection. |
| Charging.Simulation.Create | utils/utils.py:58-74 | Construction succeeds exactly when `Validate` passes, and otherwise reports `Validate`'s error. On success the clock is at 09:00 of the date, the end is 21:00 and `data` is empty. |
| Charging.Simulation.constructor | utils/utils.py:58-74 | For a window that passes `Validate`, the fields are set as the source sets them, the clock is at the start and `data` is empty. |
| Charging.Tick | utils/utils.py:95-103 | One minute advances the clock by 1 and keeps capacity and ceiling. Its power is 0 or min(output, ceiling), and non-zero only when plugged in with SOC < 1. A minute plugged in with SOC < 1 reports min(output, ceiling), gives the battery the clamped charge of power/60 kWh and adds power/60 to the net counter. Any other minute reports 0 and changes neither the battery nor the counter. |
| Charging.Periods | utils/utils.py:93-109 | The `while` loop appends no sample exactly when the clock is already at or past the end, and it always stops at a time at or after the end. |
| Charging.Steps | utils/utils.py:94-103 | The `for` loop of k minutes advances the clock by exactly k and keeps the battery's capacity and ceiling. |
| Charging.Snapshot | utils/utils.py:104-109 | For a consistent battery the SOC column lies between 0 and 100, and it reaches 100 exactly when the battery holds its whole capacity. |
| Charging.Initial | utils/utils.py:77-83 | A run starts at t0 with the vehicle as given and nothing booked. Its power is non-zero only when connection is at 09:00 and SOC < 1. |
| Charging.InitialPower | utils/utils.py:80-83 | The 09:00 power is min(output, ceiling) when connection is at 09:00 and SOC < 1, and 0 otherwise (non-zero only in that case). |
| Charging.Simulate | utils/utils.py:76-109 | A run records at least the 09:00 sample, stamped at the start with net energy 0. It records only that sample exactly when the start is not before the end. |
| Charging.Simulation.Run | utils/utils.py:76-109 | `data` grows by exactly the samples of `Simulate`. The clock and the vehicle end where `Simulate` ends. The window and the unit are unchanged. |
| Charging.Simulation.SamplePeriods | utils/utils.py:93-109 | The `while` loop appends exactly the samples of `Periods` from the state it starts in, and leaves the clock and the vehicle where `Periods` ends. |
| Charging.Simulation.ChargePeriod | utils/utils.py:94-103 | The inner `for` loop leaves the clock, the vehicle, the net counter and the last power exactly where `interval` steps of `Tick` leave them. |
| Charging.TickAccounted | utils/utils.py:95-103 | One minute preserves the accounting: the battery's gain is at most the net counter, and equals it while the battery is below full. |
| Charging.StepsAccounted | utils/utils.py:94-103 | The same accounting holds after any number of minutes, and the counter does not fall. |
| Charging.StepsNetGrows | utils/utils.py:97-98 | With non-negative ceilings, no minute lowers the net counter. |
| Charging.StepsIdle | utils/utils.py:96-100 | Minutes with a full battery change only the clock and report power 0. |
| Charging.StepsLastPower | utils/utils.py:101-104 | After k > 0 minutes the reported power is the power of the k-th minute, so it is 0 when the vehicle was unplugged during that minute. |
| Charging.SamplesTiming | utils/utils.py:93-109 | Samples start at the current time and are spaced `interval` apart. The last one is at the time the loop stops, the first period end at or after 21:00. |
| Charging.SamplesNetMonotone | utils/utils.py:97-98 | The net-energy column never decreases. |
| Charging.SamplesSocInRange | utils/utils.py:89-107 | Every SOC reading is in [0, 100], and the accounting holds at the end. |
| Charging.PeriodsIdle | utils/utils.py:96-100 | Periods that start full report power 0 and keep the net energy and the SOC. |
| Charging.SamplesFullStaysIdle | utils/utils.py:96-109 | After a sample with SOC 100 %, every later sample reports power 0 and the same net energy. |
| Charging.PeriodsGating | utils/utils.py:95-104 | A period sample stamped at or before connection, or after disconnection, reports 0 (its period's last minute was unplugged). |
| Charging.RunTimeline | utils/utils.py:77-109 | The first sample is (start, initial power, SOC × 100, 0). Its power is non-zero only if connection is at the start and SOC < 1. Samples are spaced by `interval`, with 1 + ceil((end − start) / interval) of them. The last sample is where the clock stops, in [end, end + interval). |
| Charging.ValidRunSampleCount | utils/utils.py:58-109 | For a validated simulation started at 09:00 there are 1 + ceil(720 / interval) samples, with strictly increasing timestamps. |
| Charging.RunWindowGating | utils/utils.py:80-104 | The 09:00 sample has power only when connection is at 09:00. Later samples stamped at or before connection, or after disconnection, report 0. |
| Charging.RunNetMonotone | utils/utils.py:97-98 | Over a whole run, net energy is non-decreasing. |
| Charging.SamplesPowerNonNegative | utils/utils.py:93-109 | With non-negative output and ceiling, every sample from a state with non-negative power reports a non-negative power. |
| Charging.RunPowerNonNegative | utils/utils.py:80-109 | With non-negative output and ceiling, every sample of a run reports a non-negative charging power. |
| Charging.RunSocInRange | utils/utils.py:29-31 | Over a whole run from a consistent battery, every SOC reading is in [0, 100] and the battery ends consistent. |
| Charging.RunEnergyAccounting | utils/utils.py:97-98 | `CoversGain`: the final net energy is at least (final SOC − initial SOC) × capacity, and equal to it when the battery ends below full. |
| Charging.AccountedGain | utils/utils.py:97-98 | A state whose net counter is accounted against a consistent start of the same capacity covers the SOC gain × capacity, exactly when below full. |
| Charging.GainIsSocDifference | utils/utils.py:29-31 | For two consistent batteries of one capacity, the gain in held energy is the SOC difference × capacity. |
| Charging.RunFullStaysIdle | utils/utils.py:96-109 | Over a whole run, once a sample shows SOC 100 %, every later sample reports 0 power and constant net energy. |
| Charging.BoundaryMinuteBooksOfferedEnergy | utils/utils.py:97-98 | On the minute a 49.9/50 kWh battery fills at 11 kW, power 11 is reported and 11/60 kWh booked, while the battery gains only 0.1 kWh. |
| Charging.DisconnectionSampleReportsPower | utils/utils.py:95-106 | Counterexample to "no power at or after disconnection": the window connection 09:00, disconnection 09:01 passes `Validate`, and with a 1-minute interval over 09:00–21:00 the sample stamped 09:01 reports 11 kW. |
| LegacyCharging.Visit | utils.py:55-65 | A visit keeps capacity and ceiling. Its power is 0 or min(output, ceiling), and non-zero only when plugged in with SOC < 1. A visit plugged in with SOC < 1 records min(output, ceiling) and gives the battery the clamped charge of that power for interval/60 h. Otherwise the battery is unchanged and the power is 0. |
| LegacyCharging.Record | utils.py:66-71 | For a battery whose SOC × capacity is its held energy, the recorded "net energy" is SOC% / 100 × capacity. |
| LegacyCharging.Schedule | utils.py:54-72 | The loop records no sample exactly when the clock is at or past the end, always stops at a time at or after the end, and keeps the capacity. |
| LegacyCharging.IntervalHours | utils.py:58 | `interval.total_seconds() / 3600` is the interval in minutes divided by 60. |
| LegacyCharging.ElectricVehicle.constructor | utils.py:7-12 | Defaults are 50 kWh, SOC 0.1 and 11 kW, and the held energy is SOC × capacity. |
| LegacyCharging.ElectricVehicle.Charge | utils.py:15-18 | The new state is `Common.Charge` of the old state: clamped at capacity, with SOC = held / capacity. |
| LegacyCharging.ChargingUnit.constructor | utils.py:28-30 | The unit keeps the given id and output, the output being 22 kW by default. |
| LegacyCharging.ChargingUnit.ChargeVehicle | utils.py:33-35 | The vehicle receives the clamped charge of min(output, ceiling) × hours. Nothing is returned. |
| LegacyCharging.DefaultObjectsScenario | utils.py:7-35 | On default objects, the battery goes through 5, 15 and 26 kWh. |
| LegacyCharging.Simulation.constructor | utils.py:44-51 | Nothing is checked. The start is 09:00 of the connection date and the end is 21:00 of the disconnection date. The clock is at the start and `data` is empty. |
| LegacyCharging.Simulation.Run | utils.py:53-72 | `data` grows by exactly the samples of `Schedule`. The clock and the vehicle end where `Schedule` ends, and the vehicle keeps its id. |
| LegacyCharging.Simulation.VisitNow | utils.py:55-65 | One loop body leaves the vehicle as `Visit` does and returns `Visit`'s power. The net energy it returns is the charge the vehicle then holds, and the vehicle keeps its id. |
| LegacyCharging.ScheduleTiming | utils.py:54-72 | The first sample is at t and the rest are spaced by `interval`, all before the end. The clock stops one interval per sample after t, in [end, end + interval). |
| LegacyCharging.ScheduleTimeline | utils.py:45-72 | Samples are stamped t, t + interval, … and every one is before the end. There are ceil((end − t) / interval) of them, and the clock stops at the first step at or after the end. |
| LegacyCharging.SameDayRunSampleCount | utils.py:44-72 | For a same-date window started at 09:00 there are ceil(720 / interval) samples, strictly increasing and all before 21:00. |
| LegacyCharging.RecordHeld | utils.py:59-70 | A sample taken after a visit records the held energy, between the initial level and capacity. Its SOC is in [0, 100], and net = SOC% / 100 × capacity. |
| LegacyCharging.VisitKeepsConsistent | utils.py:55-65 | A visit keeps the battery consistent and does not lower the held energy. |
| LegacyCharging.ScheduleHeldEnergy | utils.py:59-70 | Every sample's "net energy" is the post-visit held energy: at most the capacity, at least the initial level, and equal to SOC% / 100 × capacity. The battery ends consistent. |
| LegacyCharging.ScheduleNetMonotone | utils.py:59-65 | "Net energy" never decreases and never drops below the initial held energy. |
| LegacyCharging.ScheduleGating | utils.py:55-65 | A sample stamped outside [connection, disconnection) reports 0 power and repeats the previous held energy. |
| LegacyCharging.ScheduleIdle | utils.py:56-62 | From a full battery, every sample reports 0 power and the same held energy, and the battery is unchanged. |
| LegacyCharging.ScheduleFullStaysIdle | utils.py:55-72 | After a sample with SOC 100 %, every later sample reports 0 power and the same net energy. |

## Left out

- `get_results` in both files is left out. It builds a DataFrame, writes JSON, Excel and a plot, all of which are I/O.
- The `__str__` methods are left out; they only format text.
- The interactive script at the bottom of `utils.py` is left out, with its `input` and `strptime` calls. This includes its own `connection < disconnection` check. The separate test and sample scripts are I/O-driven.
- Seconds and microseconds are not modelled. A timestamp is a whole number of minutes, so `replace(second=0)` keeps nothing finer.
- Floating-point rounding is not modelled; energies and powers are exact reals.
- Capacity > 0 and SOC in [0, 1] are never validated by the source. Properties that need them take them as preconditions (`Consistent`).
- Non-negative unit output and vehicle ceiling are never validated by the source either. The monotonicity and range properties that need them take them as a precondition (`PowersNonNegative`): TickAccounted, StepsAccounted, StepsNetGrows, SamplesNetMonotone, SamplesSocInRange, SamplesPowerNonNegative, RunPowerNonNegative, RunNetMonotone, RunSocInRange, RunEnergyAccounting, VisitKeepsConsistent, ScheduleHeldEnergy and ScheduleNetMonotone. With a negative output the source would drain the battery.
- Every member that divides by the capacity requires capacity ≠ 0. With capacity 0 the source raises `ZeroDivisionError`, and that failure is not modelled.
- Charging.Simulation.Run requires `interval > 0`, because with 0 minutes the source's loop never advances the clock and never ends.
- LegacyCharging.Simulation.Run requires `interval > 0` for the same reason.
- Charging.Simulation.SamplePeriods and Charging.Simulation.ChargePeriod are the outer and inner loops of `run`, written as methods of their own. They keep the source's order of effects.
- LegacyCharging.Simulation.VisitNow is the body of the legacy `while` loop, written as a method of its own.
- Charging.RunEnergyAccounting: equality between net energy and the energy gained is proved only when the battery ends below full. When a minute clamps, the counter books the offered energy, which is the source's behaviour.
- Charging.RunWindowGating does not promise power 0 for the sample stamped exactly at the disconnection time. That sample reports the power of the minute before it, when the vehicle was still plugged in. Charging.DisconnectionSampleReportsPower exhibits such a sample. The model follows the code here: an expectation that no sample at or after disconnection reports power does not hold for it.
