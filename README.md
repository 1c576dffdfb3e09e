# Smart HVAC control core, modelled in Dafny

This project models the control core of a three-zone refrigerated facility:
a Freezer, a Cooler and a Packing room. Each zone has its own PID controller
with a deadband, anti-windup and a cooling-only rule. The controller turns
the zone's temperature into a damper demand. A supervisory coordinator scales
all demands down proportionally when together they exceed the shared airflow
budget of 180 percent, and rounds every setting to one decimal place. A plant
model cools each zone linearly in its damper opening, down to a zone-specific
floor. A fan model follows the affinity law: power grows with the cube of the
mean opening, from 2 kW at idle to 9 kW at rated flow. Each pass of the
control loop runs these steps in turn:

1. overwrite temperatures with the sensor readings;
2. ask every zone for its demand;
3. coordinate the demands;
4. cool every zone;
5. compute the fan power;
6. append a snapshot to the history.

Modules:

- `HvacConfig` holds the zones, setpoints, gains, floors and limits. It also
  defines `PerZone<T>`, a record with one field per zone that stands for the
  controller's dictionaries keyed by the three zones.
- `Numeric` holds clamping, and round-half-to-even on exact reals (Python's
  `round(x, n)`).
- `ZoneSums` holds `sum(d.values())` and `len(d)` over tables keyed by zone.
- `Pid` models `pid_request` as pure functions of a zone's state: `NextState`
  and `Demand`.
- `Coordinator` models `coordinate_dampers`.
- `Plant` models `apply_cooling` as a pure function (`Cooled`).
- `Fan` models `fan_power`, including the division by zero it raises on an
  empty table.
- `Controller` gives one cycle as a value (`Cycle`) and a run of cycles as
  a value (`Run`). Its class `HvacController` owns the PID memory, the zone
  temperatures, the history and the cycle counter, and updates them in
  place. Each of its methods is proved to follow the pure functions. The
  class invariant `Valid` says that every integral is in [0, 30] and every
  zone is at or above its floor. It also says that the history holds one
  snapshot per finished cycle, numbered from 1.

## Model

| member | source | states |
|---|---|---|
| HvacConfig.PidGains | hvac_control_core.py:16-20 | every zone's proportional, integral and derivative gains are positive |
| HvacConfig.TempFloor | hvac_control_core.py:106-111 | each zone's floor lies more than the 0.4 deadband below its setpoint |
| HvacConfig.InitialTempsAboveFloors | hvac_control_core.py:42-46 | every start-up temperature is at or above its zone's floor; the constructor uses it to establish the class invariant |
| Numeric.Clamp | hvac_control_core.py:66 | `max(lo, min(hi, x))` lies in [lo, hi]; it is x when x is inside, lo below, hi above |
| Numeric.Round1 | hvac_control_core.py:89 | `round(x, 1)` is within 0.05 of x |
| Numeric.Round2 | hvac_control_core.py:120 | `round(x, 2)` is within 0.005 of x |
| Numeric.Round1Within | hvac_control_core.py:89 | rounding to one decimal keeps a value inside an interval whose ends are on the 0.1 grid |
| Pid.NextState | hvac_control_core.py:54-69 | a deadband hit leaves the zone's state unchanged; otherwise the integral is in [0, 30] and prevError is the current error; anti-windup is preserved |
| Pid.NextStateOutsideDeadband | hvac_control_core.py:64-69 | outside the deadband the integral becomes old integral + error when that is inside [0, 30], and is held at 0 or 30 otherwise; prevError becomes the error, even for a zone too cold to get airflow |
| Pid.DeadbandIsStrict | hvac_control_core.py:58-78 | in exact arithmetic, an error of exactly +0.4 or -0.4 is outside the deadband: the state moves, and a zone exactly 0.4 too warm gets at least the 10 percent minimum |
| Pid.OutputMonotone | hvac_control_core.py:71-75 | with the integral in [0, 30], a warmer zone never gets a smaller PID output: the proportional, integral and derivative terms all grow with the error |
| Pid.Demand | hvac_control_core.py:54-79 | the demand is 0 or in [10, 100]; it is positive if and only if the zone is at least 0.4 degrees above its setpoint; there an output in [10, 100] is passed through, one below 10 gives 10 and one above 100 gives 100 |
| Pid.DemandMonotone | hvac_control_core.py:54-79 | with the integral in [0, 30], a warmer zone never gets a smaller damper demand |
| Pid.RunRequests | hvac_control_core.py:54-79 | over any sequence of pid_request calls, integrals that start in [0, 30] stay there |
| Pid.RunRequestsOtherZones | hvac_control_core.py:65-69 | requests for other zones never touch a zone's state |
| Pid.AntiWindupFromStart | hvac_control_core.py:37-66 | from the start-up state no run of requests winds an integral outside [0, 30] |
| Pid.DeadbandLeavesPrevErrorStale | hvac_control_core.py:58-69 | after a reading outside the deadband and then one inside it, prevError still holds the first reading's error |
| Pid.NoDemandAtFloor | hvac_control_core.py:76-78 | a zone at or below its floor (see `HvacConfig.TempFloor`) asks for no airflow |
| Pid.FreezerFirstRequest | hvac_control_core.py:54-79 | a fresh Freezer controller at -16.5 degrees asks for 18.18 percent and moves to integral 1.5, prevError 1.5 |
| Coordinator.ScaleToBudget | hvac_control_core.py:85-95 | the scaled table has exactly the zones of the requests |
| Coordinator.ScaleToBudgetFair | hvac_control_core.py:86-95 | within the budget the requests are unchanged; over it the scaled settings sum to exactly 180, every pair of zones keeps its ratio, and no non-negative demand grows or turns negative |
| Coordinator.CoordinateDampers | hvac_control_core.py:85-95 | the settings have exactly the zones of the requests |
| Coordinator.CoordinateDampersRounding | hvac_control_core.py:89-93 | each setting is within 0.05 of its scaled demand |
| Coordinator.CoordinateWithinBudget | hvac_control_core.py:88-89 | within the budget each zone gets its own demand up to 0.05 |
| Coordinator.CoordinateBudget | hvac_control_core.py:85-95 | the settings total at most 180.15; within the budget their total is within 0.15 of the demanded total |
| Coordinator.CoordinateWithinDamperRange | hvac_control_core.py:85-95 | demands in [0, 100] give settings in [0, 100], and a zero demand gets a zero setting |
| Plant.CoolingFor | hvac_control_core.py:102 | an opening in [0, 100] percent cools by between 0 and 2.5 degrees |
| Plant.Cooled | hvac_control_core.py:101-111 | the new temperature is the zone's floor or the temperature minus the cooling, whichever is higher; it never warms a zone at or above its floor under a non-negative opening; a zone below its floor is raised to it |
| Plant.CooledRepeatedly | hvac_control_core.py:101-111 | over any number of cycles a zone never goes below its floor, and one that started at or above it never warms |
| ZoneSums.TotalOfFullTable | hvac_control_core.py:86 | the sum of a table holding all three zones is the sum of its three values |
| ZoneSums.CountAllZones | hvac_control_core.py:118 | the number of zones a table holds, counted in zone order, is `len` of the table |
| ZoneSums.SizeOfFullTable | hvac_control_core.py:118 | a table holding every zone has length 3, so fan power never divides by zero inside the loop |
| Fan.PowerForFlow | hvac_control_core.py:118-120 | a mean opening in [0, 1] gives power between 2 and 9 kW |
| Fan.FanPower | hvac_control_core.py:117-120 | a power value exists exactly when the table is non-empty; an empty table divides by zero |
| Fan.FanPowerMonotone | hvac_control_core.py:117-120 | for tables of one size with a non-negative damper sum, power never falls as the sum grows |
| Fan.FanPowerDependsOnSum | hvac_control_core.py:117-120 | for tables of one size, equal damper sums give equal power, whatever the sum |
| Fan.FanPowerAllClosed | hvac_control_core.py:117-120 | all dampers closed draws exactly the 2 kW idle power |
| Fan.FanPowerAllOpen | hvac_control_core.py:117-120 | all dampers at 100 percent draws exactly the 9 kW rated power |
| Fan.FanPowerRange | hvac_control_core.py:117-120 | valid openings draw between 2 and 9 kW |
| Controller.Sensed | hvac_control_core.py:133-135 | each zone takes its reading if there is one and otherwise keeps its temperature |
| Controller.CyclePower | hvac_control_core.py:151 | the fan power of a full damper table is a value, never a division by zero |
| Controller.ZoneEntry | hvac_control_core.py:156-160 | a zone's snapshot entry holds its temperature to within 0.005, its setpoint and its damper setting |
| Controller.Report | hvac_control_core.py:153-164 | the snapshot carries the given cycle number and fan power, and every zone's entry is its `ZoneEntry` |
| Controller.CycleSteps | hvac_control_core.py:133-148 | in a cycle each zone's controller takes one PID step on the sensed temperature, and the zone cools from the sensed temperature at its own damper setting; the settings cover every zone |
| Controller.CycleSnapshot | hvac_control_core.py:150-164 | a cycle's snapshot reports the temperatures and settings the cycle leaves, and the fan power of those settings |
| Controller.CycleGuarantees | hvac_control_core.py:131-164 | every cycle keeps integrals in [0, 30]; it leaves every zone at or above its floor; its settings cover every zone and lie in [0, 100], totalling at most 180.15; its snapshot carries the cycle number and a fan power in [2, 9] kW; it reports each zone's temperature rounded to two decimals, its setpoint and its damper |
| Controller.CycleWithinBudgetPassesDemands | hvac_control_core.py:138-144 | when a cycle's demands total at most 180, each zone's damper is its own demand up to 0.05 |
| Controller.FirstCycleRequests | hvac_control_core.py:138-141 | when every reading of the first cycle equals the start-up temperature, the zones ask for 18.18, 24.75 and 18.95 percent, 61.88 in all |
| Controller.FirstCycleFreezer | hvac_control_core.py:131-148 | when every reading of the first cycle equals the start-up temperature, the Freezer damper opens to 18.2 percent and the Freezer cools to -16.955 degrees |
| Controller.Run | hvac_control_core.py:131-179 | a run of the loop, one cycle per reading table, yields one snapshot per table |
| Controller.RunAppendState | hvac_control_core.py:131-179 | one more reading table runs one more cycle, numbered after the others, on the states and temperatures they left |
| Controller.RunAppendSnapshots | hvac_control_core.py:170 | one more reading table appends that cycle's snapshot after the earlier ones |
| Controller.RunKeepsLimits | hvac_control_core.py:131-179 | any run keeps integrals that start in [0, 30] there, and after at least one cycle leaves every zone at or above its floor |
| Controller.HvacController.constructor | hvac_control_core.py:37-48 | start-up state: zero integrals and errors, the start-up temperatures, an empty history, and cycle 1 as set before the loop at line 128; the class invariant holds |
| Controller.HvacController.PidRequest | hvac_control_core.py:54-79 | returns `Demand` of the zone's old state and updates that zone's state to `NextState`, leaving every other zone's state as it was; the class invariant is kept |
| Controller.HvacController.ApplyCooling | hvac_control_core.py:101-111 | sets the zone's temperature to `Cooled` of its old one; no other zone changes; the class invariant is kept |
| Controller.HvacController.TakeReadings | hvac_control_core.py:133-135 | the temperatures become `Sensed` of the old ones and the readings; a reading may lie below its floor, so the class invariant holds between cycles, not inside one |
| Controller.HvacController.RequestAll | hvac_control_core.py:138-141 | the request table holds every zone's `Demand` at the current temperatures, and every zone's state has taken one `NextState` step |
| Controller.HvacController.CoolAll | hvac_control_core.py:147-148 | every zone's temperature becomes `Cooled` at its damper setting |
| Controller.HvacController.Actuate | hvac_control_core.py:133-148 | the controller states, temperatures and damper settings are those of `Cycle`; the class invariant holds afterwards |
| Controller.HvacController.Record | hvac_control_core.py:150-179 | appends the snapshot of the current temperatures, the settings and their fan power, numbered with the current cycle, and advances the counter by one; the history stays numbered from 1 |
| Controller.HvacController.RunCycle | hvac_control_core.py:131-179 | one pass leaves states and temperatures as `Cycle` gives them, appends that cycle's snapshot to the history and advances the cycle counter by one, keeping the class invariant |
| Controller.HvacController.RunCycles | hvac_control_core.py:131-179 | a run of passes, one per reading table, leaves the states and temperatures `Run` gives, appends `Run`'s snapshots after the old history, advances the counter by the number of tables, and keeps the class invariant |

## Left out

- Sensor input (`read_sensors`, line 133) is not part of this model: each cycle's readings are a parameter. A reading table may name any of the three zones. A reading for a zone outside the three cannot occur in the model, because zones are a closed type.
- Writing `live_data.json` (lines 166-168) and `control_log.json` (lines 189-190) is file I/O and is left out; the snapshot and the history are modelled as values.
- The console output (lines 126, 172-177, 183, 192) is left out.
- `time.sleep(CONTROL_DT)` (line 180) is left out. So is the KeyboardInterrupt that ends the loop (lines 182-183). The unbounded loop is modelled as `RunCycle` and as a finite run `RunCycles`.
- The constant `energy_savings_percent: 22` in the snapshot (line 163) is a fixed placeholder unrelated to any computation, and is left out of `Snapshot`.
- Numeric.Round1, Numeric.Round2: values are exact reals, not binary floating point. Rounding is exact round-half-to-even, so a result may differ from Python's `round` on a float whose binary value lies just off a decimal tie. Any sum or product may likewise differ in its last bits.
- Pid.DeadbandIsStrict, Pid.InDeadband: the deadband test (line 59) is modelled on exact reals. In binary floating point, a reading written with two decimals that lies 0.4 from its setpoint often gives an error just below 0.4; for example 3.4 - 3.0 is 0.3999999999999999. The code then treats such a zone as inside the deadband, while the model puts an error of exactly 0.4 outside it. Statements about an error of exactly 0.4 hold for exact arithmetic only.
- Coordinator.ScaleToBudget, Coordinator.CoordinateDampers: the budget test `total_request <= MAX_TOTAL_DAMPER` (line 88) is modelled on exact reals. A floating-point sum of demands that is 180 in exact arithmetic may land just above or below 180, so the code may take the other branch at exactly 180.
- Python iterates its dictionaries in insertion order. The model visits zones in the fixed order Freezer, Cooler, Packing. Per-zone dictionaries keyed by the three zones are records with one field per zone. Because each zone's step reads and writes only that zone, the order does not change any result.
- A hand calculation of the first cycle that passes the Freezer's 18.18 percent request to the damper unchanged gives -16.9545 degrees. The code rounds every setting to one decimal even within the budget (line 89). So the damper opens to 18.2 percent and the Freezer reaches -16.955 degrees. The model follows the code (`Controller.FirstCycleFreezer`).
- The first-cycle lemmas are stated for readings equal to the start-up temperatures. The real sensor source is not part of this model, so they say nothing about the readings it would give.
