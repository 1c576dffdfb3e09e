/** The control cycle: the controller object that owns the per-zone PID
    memory, the zone temperatures and the snapshot history, and runs one
    cycle at a time. Each cycle overwrites temperatures with the readings,
    computes every zone's demand, coordinates the demands, cools each zone,
    computes fan power and appends a snapshot. Module-level functions give
    the cycle as a value; the methods of HvacController are proved to follow
    them. */
module Controller {
  import opened HvacConfig
  import opened Numeric
  import opened ZoneSums
  import opened Pid
  import opened Coordinator
  import opened Plant
  import opened Fan

  /** One zone's entry in a cycle snapshot. */
  datatype ZoneReport = ZoneReport(temperature: real, setpoint: real, damper: real)

  /** The record appended to the history after every cycle. */
  datatype Snapshot = Snapshot(cycle: int, zones: PerZone<ZoneReport>, fanPowerKw: real)

  /** A zone's temperature after the sensor update: its reading if the
      readings hold one, else the temperature it had. */
  function SensedTemp(temps: PerZone<real>, readings: map<Zone, real>, z: Zone): (t: real)
  {
    if z in readings then readings[z] else temps.Get(z)
  }

  /** Every zone's temperature after the sensor update. */
  function Sensed(temps: PerZone<real>, readings: map<Zone, real>): (r: PerZone<real>)
    ensures forall z :: r.Get(z) == SensedTemp(temps, readings, z)
  {
    PerZone(SensedTemp(temps, readings, Freezer),
            SensedTemp(temps, readings, Cooler),
            SensedTemp(temps, readings, Packing))
  }

  /** Every zone's demand for one set of temperatures. */
  function Demands(states: PerZone<PidState>, temps: PerZone<real>): (r: PerZone<real>)
    ensures forall z :: r.Get(z) == Demand(states.Get(z), z, temps.Get(z))
  {
    PerZone(Demand(states.freezer, Freezer, temps.freezer),
            Demand(states.cooler, Cooler, temps.cooler),
            Demand(states.packing, Packing, temps.packing))
  }

  /** Every zone's controller state after its request. */
  function StatesAfter(states: PerZone<PidState>, temps: PerZone<real>): (r: PerZone<PidState>)
    ensures forall z :: r.Get(z) == NextState(states.Get(z), z, temps.Get(z))
  {
    PerZone(NextState(states.freezer, Freezer, temps.freezer),
            NextState(states.cooler, Cooler, temps.cooler),
            NextState(states.packing, Packing, temps.packing))
  }

  /** Every zone's temperature after cooling at its damper setting. */
  function TempsAfter(temps: PerZone<real>, dampers: map<Zone, real>): (r: PerZone<real>)
    requires CoversAllZones(dampers)
    ensures forall z :: r.Get(z) == Cooled(z, temps.Get(z), dampers[z])
  {
    PerZone(Cooled(Freezer, temps.freezer, dampers[Freezer]),
            Cooled(Cooler, temps.cooler, dampers[Cooler]),
            Cooled(Packing, temps.packing, dampers[Packing]))
  }

  /** Fan power for a damper table that holds every zone, which never
      divides by zero. */
  function CyclePower(dampers: map<Zone, real>): (kw: real)
    requires CoversAllZones(dampers)
    ensures FanPower(dampers) == Power(kw)
  {
    SizeOfFullTable(dampers);
    FanPower(dampers).kw
  }

  /** A zone's entry in the snapshot: its temperature rounded to two
      decimals, its setpoint and its damper setting. */
  function ZoneEntry(temps: PerZone<real>, dampers: map<Zone, real>, z: Zone): (e: ZoneReport)
    requires CoversAllZones(dampers)
    ensures temps.Get(z) - 0.005 <= e.temperature <= temps.Get(z) + 0.005
    ensures e.setpoint == Setpoint(z) && e.damper == dampers[z]
  {
    ZoneReport(Round2(temps.Get(z)), Setpoint(z), dampers[z])
  }

  /** The snapshot of a cycle. */
  function Report(cycle: int, temps: PerZone<real>, dampers: map<Zone, real>, power: real): (r: Snapshot)
    requires CoversAllZones(dampers)
    ensures r.cycle == cycle && r.fanPowerKw == power
    ensures forall z :: r.zones.Get(z) == ZoneEntry(temps, dampers, z)
  {
    Snapshot(cycle,
             PerZone(ZoneEntry(temps, dampers, Freezer),
                     ZoneEntry(temps, dampers, Cooler),
                     ZoneEntry(temps, dampers, Packing)),
             power)
  }

  /** What one cycle produces. The damper table is transient: it is carried
      here only so that properties of a cycle can speak about it. */
  datatype CycleResult = CycleResult(
    states: PerZone<PidState>,
    temps: PerZone<real>,
    dampers: map<Zone, real>,
    snapshot: Snapshot)

  /** The damper settings of a cycle from the sensed temperatures. */
  function CycleDampers(states: PerZone<PidState>, sensed: PerZone<real>): (r: map<Zone, real>)
    ensures CoversAllZones(r)
  {
    CoordinateDampers(Demands(states, sensed).AsMap())
  }

  /** One control cycle on values. */
  function Cycle(states: PerZone<PidState>, temps: PerZone<real>, readings: map<Zone, real>, cycle: int): (r: CycleResult)
  {
    var sensed := Sensed(temps, readings);
    var dampers := CycleDampers(states, sensed);
    var cooled := TempsAfter(sensed, dampers);
    CycleResult(StatesAfter(states, sensed), cooled, dampers, Report(cycle, cooled, dampers, CyclePower(dampers)))
  }

  /** What a cycle does to each zone: its controller takes one PID step on
      the sensed temperature, and it cools from the sensed temperature at
      its own damper setting. */
  lemma CycleSteps(states: PerZone<PidState>, temps: PerZone<real>, readings: map<Zone, real>, cycle: int, z: Zone)
    ensures CoversAllZones(Cycle(states, temps, readings, cycle).dampers)
    ensures Cycle(states, temps, readings, cycle).states.Get(z) == NextState(states.Get(z), z, SensedTemp(temps, readings, z))
    ensures Cycle(states, temps, readings, cycle).temps.Get(z)
            == Cooled(z, SensedTemp(temps, readings, z), Cycle(states, temps, readings, cycle).dampers[z])
  {
  }

  /** A cycle's snapshot reports the temperatures and settings the cycle
      leaves, and the fan power of those settings. */
  lemma CycleSnapshot(states: PerZone<PidState>, temps: PerZone<real>, readings: map<Zone, real>, cycle: int)
    ensures CoversAllZones(Cycle(states, temps, readings, cycle).dampers)
    ensures Cycle(states, temps, readings, cycle).snapshot
            == Report(cycle, Cycle(states, temps, readings, cycle).temps, Cycle(states, temps, readings, cycle).dampers,
                      CyclePower(Cycle(states, temps, readings, cycle).dampers))
  {
  }

  /** What every cycle guarantees, whatever the readings: the integrals stay
      wound within [0, 30], every zone ends at or above its floor, every
      damper setting is a valid opening, the settings respect the airflow
      budget up to rounding, fan power lies between idle and rated, and the
      snapshot reports every zone with its rounded temperature, setpoint and
      damper. */
  lemma CycleGuarantees(states: PerZone<PidState>, temps: PerZone<real>, readings: map<Zone, real>, cycle: int)
    requires forall z :: AntiWindup(states.Get(z))
    ensures forall z :: AntiWindup(Cycle(states, temps, readings, cycle).states.Get(z))
    ensures forall z :: Cycle(states, temps, readings, cycle).temps.Get(z) >= TempFloor(z)
    ensures CoversAllZones(Cycle(states, temps, readings, cycle).dampers)
    ensures forall z :: 0.0 <= Cycle(states, temps, readings, cycle).dampers[z] <= MaxDamper
    ensures Total(Cycle(states, temps, readings, cycle).dampers) <= MaxTotalDamper + 0.15
    ensures Cycle(states, temps, readings, cycle).snapshot.cycle == cycle
    ensures FanIdlePower <= Cycle(states, temps, readings, cycle).snapshot.fanPowerKw <= FanRatedPower
    ensures forall z :: Cycle(states, temps, readings, cycle).snapshot.zones.Get(z)
                          == ZoneReport(Round2(Cycle(states, temps, readings, cycle).temps.Get(z)), Setpoint(z),
                                        Cycle(states, temps, readings, cycle).dampers[z])
  {
    var sensed := Sensed(temps, readings);
    var requests := Demands(states, sensed).AsMap();
    var dampers := CoordinateDampers(requests);
    CoordinateWithinDamperRange(requests);
    CoordinateBudget(requests);
    SizeOfFullTable(dampers);
    FanPowerRange(dampers);
  }

  /** Within the airflow budget, each zone gets its own demand, up to
      rounding to one decimal place. */
  lemma CycleWithinBudgetPassesDemands(states: PerZone<PidState>, temps: PerZone<real>, readings: map<Zone, real>, cycle: int)
    requires Total(Demands(states, Sensed(temps, readings)).AsMap()) <= MaxTotalDamper
    ensures forall z :: Demand(states.Get(z), z, Sensed(temps, readings).Get(z)) - 0.05
                        <= Cycle(states, temps, readings, cycle).dampers[z]
                        <= Demand(states.Get(z), z, Sensed(temps, readings).Get(z)) + 0.05
  {
    var sensed := Sensed(temps, readings);
    var requests := Demands(states, sensed).AsMap();
    CoordinateWithinBudget(requests);
    assert Cycle(states, temps, readings, cycle).dampers == CoordinateDampers(requests);
  }

  /** The requests of the first cycle from the start-up state, when every
      reading equals the start-up temperature: 18.18, 24.75 and 18.95
      percent, 61.88 in all, well within the airflow budget. */
  lemma FirstCycleRequests()
    ensures Demands(FreshStates, InitialTemps) == PerZone(18.18, 24.75, 18.95)
    ensures Total(Demands(FreshStates, InitialTemps).AsMap()) == 61.88
  {
    FreezerFirstRequest();
  }

  /** The first cycle's Freezer, when every reading equals the start-up
      temperature: its 18.18 percent request is rounded to an 18.2 percent
      opening, which cools it by 0.455 degrees to -16.955. */
  lemma FirstCycleFreezer()
    ensures Cycle(FreshStates, InitialTemps, InitialTemps.AsMap(), 1).dampers[Freezer] == 18.2
    ensures Cycle(FreshStates, InitialTemps, InitialTemps.AsMap(), 1).temps.Get(Freezer) == -16.955
  {
    var sensed := Sensed(InitialTemps, InitialTemps.AsMap());
    sensed.Equal(InitialTemps);
    FirstCycleRequests();
    var requests := Demands(FreshStates, InitialTemps).AsMap();
    TotalOfFullTable(requests);
    ScaleToBudgetFair(requests);
    assert RoundHalfEven(18.18 * 10.0) == 182;
    assert CoordinateDampers(requests)[Freezer] == 18.2;
  }

  /** What a run of cycles produces: the final controller states and
      temperatures, and the snapshots in the order they were taken. */
  datatype RunResult = RunResult(states: PerZone<PidState>, temps: PerZone<real>, snapshots: seq<Snapshot>)

  /** A run of the control loop: one cycle per reading table, in order, the
      first numbered cycle and each later one numbered one higher. */
  function Run(states: PerZone<PidState>, temps: PerZone<real>, readings: seq<map<Zone, real>>, cycle: int): (r: RunResult)
    ensures |r.snapshots| == |readings|
    decreases |readings|
  {
    if readings == [] then RunResult(states, temps, [])
    else
      var n := |readings| - 1;
      var prev := Run(states, temps, readings[..n], cycle);
      var c := Cycle(prev.states, prev.temps, readings[n], cycle + n);
      RunResult(c.states, c.temps, prev.snapshots + [c.snapshot])
  }

  /** Extending a prefix by one element. */
  lemma PrefixExtend<T>(s: seq<T>, k: nat)
    requires k < |s|
    ensures s[..k + 1] == s[..k] + [s[k]]
  {
  }

  /** Appending one element after a concatenation. */
  lemma AppendOne<T>(a: seq<T>, b: seq<T>, x: T)
    ensures (a + b) + [x] == a + (b + [x])
  {
  }

  /** One more reading table runs one more cycle after the others, numbered
      after them, leaving the controller states and temperatures it gives. */
  lemma RunAppendState(states: PerZone<PidState>, temps: PerZone<real>, rs: seq<map<Zone, real>>, last: map<Zone, real>, cycle: int)
    ensures Run(states, temps, rs + [last], cycle).states
            == Cycle(Run(states, temps, rs, cycle).states, Run(states, temps, rs, cycle).temps, last, cycle + |rs|).states
    ensures Run(states, temps, rs + [last], cycle).temps
            == Cycle(Run(states, temps, rs, cycle).states, Run(states, temps, rs, cycle).temps, last, cycle + |rs|).temps
  {
    assert (rs + [last])[..|rs + [last]| - 1] == rs;
    assert (rs + [last])[|rs + [last]| - 1] == last;
    assert cycle + (|rs + [last]| - 1) == cycle + |rs|;
  }

  /** A sequence of n + 1 elements is its first n followed by its last. */
  lemma SplitLast<T>(s: seq<T>, n: nat)
    requires |s| == n + 1
    ensures s == s[..n] + [s[n]]
  {
  }

  /** One more reading table adds that cycle's snapshot as the last one. */
  lemma RunLastSnapshot(states: PerZone<PidState>, temps: PerZone<real>, rs: seq<map<Zone, real>>, last: map<Zone, real>, cycle: int)
    ensures Run(states, temps, rs + [last], cycle).snapshots[|rs|]
            == Cycle(Run(states, temps, rs, cycle).states, Run(states, temps, rs, cycle).temps, last, cycle + |rs|).snapshot
  {
    assert (rs + [last])[..|rs + [last]| - 1] == rs;
    assert (rs + [last])[|rs + [last]| - 1] == last;
    assert cycle + (|rs + [last]| - 1) == cycle + |rs|;
  }

  /** One more reading table leaves the earlier snapshots as they were. */
  lemma RunEarlierSnapshots(states: PerZone<PidState>, temps: PerZone<real>, rs: seq<map<Zone, real>>, last: map<Zone, real>, cycle: int)
    ensures Run(states, temps, rs + [last], cycle).snapshots[..|rs|] == Run(states, temps, rs, cycle).snapshots
  {
    assert (rs + [last])[..|rs + [last]| - 1] == rs;
  }

  /** One more reading table appends that cycle's snapshot after the others. */
  lemma RunAppendSnapshots(states: PerZone<PidState>, temps: PerZone<real>, rs: seq<map<Zone, real>>, last: map<Zone, real>, cycle: int)
    ensures Run(states, temps, rs + [last], cycle).snapshots
            == Run(states, temps, rs, cycle).snapshots
               + [Cycle(Run(states, temps, rs, cycle).states, Run(states, temps, rs, cycle).temps, last, cycle + |rs|).snapshot]
  {
    RunLastSnapshot(states, temps, rs, last, cycle);
    RunEarlierSnapshots(states, temps, rs, last, cycle);
    SplitLast(Run(states, temps, rs + [last], cycle).snapshots, |rs|);
  }

  /** Any run keeps the integrals within [0, 30], and after at least one
      cycle every zone is at or above its floor. */
  lemma {:induction false} RunKeepsLimits(states: PerZone<PidState>, temps: PerZone<real>, readings: seq<map<Zone, real>>, cycle: int)
    requires forall z :: AntiWindup(states.Get(z))
    ensures forall z :: AntiWindup(Run(states, temps, readings, cycle).states.Get(z))
    ensures |readings| > 0 ==> forall z :: Run(states, temps, readings, cycle).temps.Get(z) >= TempFloor(z)
    decreases |readings|
  {
    if readings != [] {
      var rs, last := readings[..|readings| - 1], readings[|readings| - 1];
      assert readings == rs + [last];
      RunAppendState(states, temps, rs, last, cycle);
      RunKeepsLimits(states, temps, rs, cycle);
      CycleGuarantees(Run(states, temps, rs, cycle).states, Run(states, temps, rs, cycle).temps, last, cycle + |rs|);
    }
  }

  /** The controller of the facility. */
  class HvacController {
    var pidState: PerZone<PidState>
    var zoneTemp: PerZone<real>
    var history: seq<Snapshot>
    var cycle: int

    /** No integral has wound up beyond [0, 30], no zone is below its floor,
        and the history holds one snapshot for every cycle before this one,
        in order: the first is numbered 1. */
    ghost predicate Valid()
      reads this
    {
      (forall z :: AntiWindup(pidState.Get(z)) && zoneTemp.Get(z) >= TempFloor(z)) &&
      cycle == |history| + 1 && Numbered()
    }

    /** The history holds its snapshots in cycle order, the first numbered 1. */
    ghost predicate Numbered()
      reads this`history
    {
      forall i :: 0 <= i < |history| ==> history[i].cycle == i + 1
    }

    /** Start-up: zero integrals and errors, the start-up temperatures, no
        history, cycle 1. */
    constructor ()
      ensures Valid()
      ensures pidState == FreshStates && zoneTemp == InitialTemps
      ensures history == [] && cycle == 1
    {
      pidState := FreshStates;
      zoneTemp := InitialTemps;
      history := [];
      cycle := 1;
      InitialTempsAboveFloors();
    }

    /** pid_request: the demand for one zone, updating only that zone's
        controller state (and not even that inside the deadband). */
    method PidRequest(zone: Zone, temp: real) returns (demand: real)
      modifies this`pidState
      ensures old(Valid()) ==> Valid()
      ensures demand == Demand(old(pidState).Get(zone), zone, temp)
      ensures pidState == old(pidState).Set(zone, NextState(old(pidState).Get(zone), zone, temp))
    {
      if Valid() {
        StepKeepsAntiWindup(pidState, zone, temp);
      }
      ghost var before := pidState.Get(zone);
      var sp := Setpoint(zone);
      var error := temp - sp;
      assert error == Error(zone, temp);

      if Abs(error) < DeadbandWidth {
        pidState.Equal(old(pidState).Set(zone, before));
        return 0.0;
      }

      var gains := PidGains(zone);

      // Integral with anti-windup
      var s := pidState.Get(zone);
      pidState := pidState.Set(zone, s.(integral := s.integral + error));
      s := pidState.Get(zone);
      pidState := pidState.Set(zone, s.(integral := Max(IntegralMin, Min(IntegralMax, s.integral))));

      s := pidState.Get(zone);
      var derivative := error - s.prevError;
      pidState := pidState.Set(zone, s.(prevError := error));

      assert pidState.Get(zone) == NextState(before, zone, temp);
      pidState.Equal(old(pidState).Set(zone, NextState(before, zone, temp)));
      var output := gains.kp * error + gains.ki * pidState.Get(zone).integral + gains.kd * derivative;
      assert output == Output(before, zone, temp);

      if error > 0.0 {
        return Max(MinDamper, Min(MaxDamper, output));
      }
      return 0.0;
    }

    /** apply_cooling: cools one zone and clamps it to its floor; no other
        zone changes. */
    method ApplyCooling(zone: Zone, damper: real)
      modifies this`zoneTemp
      ensures old(Valid()) ==> Valid()
      ensures zoneTemp == old(zoneTemp).Set(zone, Cooled(zone, old(zoneTemp).Get(zone), damper))
    {
      var cooling := (damper / 100.0) * MaxCooling;
      zoneTemp := zoneTemp.Set(zone, zoneTemp.Get(zone) - cooling);

      // Physical bounds
      if zone == Freezer {
        zoneTemp := zoneTemp.Set(zone, Max(zoneTemp.Get(zone), -25.0));
      } else if zone == Cooler {
        zoneTemp := zoneTemp.Set(zone, Max(zoneTemp.Get(zone), -2.0));
      } else {
        zoneTemp := zoneTemp.Set(zone, Max(zoneTemp.Get(zone), 10.0));
      }
      zoneTemp.Equal(old(zoneTemp).Set(zone, Cooled(zone, old(zoneTemp).Get(zone), damper)));
    }

    /** Sensor update: overwrites the temperature of every zone that has a
        reading; the others keep theirs. A reading may lie below its zone's
        floor, so Valid holds between cycles, not inside one. */
    method TakeReadings(readings: map<Zone, real>)
      modifies this`zoneTemp
      ensures zoneTemp == Sensed(old(zoneTemp), readings)
    {
      var i := 0;
      while i < |AllZones|
        invariant 0 <= i <= |AllZones|
        invariant forall z :: zoneTemp.Get(z) == if ZoneIndex(z) < i then SensedTemp(old(zoneTemp), readings, z) else old(zoneTemp).Get(z)
      {
        var z := AllZones[i];
        assert ZoneIndex(z) == i;
        if z in readings {
          zoneTemp := zoneTemp.Set(z, readings[z]);
        }
        i := i + 1;
      }
      zoneTemp.Equal(Sensed(old(zoneTemp), readings));
    }

    /** Zone PID requests: asks every zone's controller for its demand at
        the current temperatures. */
    method RequestAll() returns (requests: map<Zone, real>)
      modifies this`pidState
      ensures requests == Demands(old(pidState), zoneTemp).AsMap()
      ensures pidState == StatesAfter(old(pidState), zoneTemp)
    {
      requests := map[];
      var i := 0;
      while i < |AllZones|
        invariant 0 <= i <= |AllZones|
        invariant forall z :: z in requests <==> ZoneIndex(z) < i
        invariant forall z :: ZoneIndex(z) < i ==> requests[z] == Demand(old(pidState).Get(z), z, zoneTemp.Get(z))
        invariant forall z :: pidState.Get(z) == if ZoneIndex(z) < i then NextState(old(pidState).Get(z), z, zoneTemp.Get(z)) else old(pidState).Get(z)
      {
        var z := AllZones[i];
        assert ZoneIndex(z) == i;
        var demand := PidRequest(z, zoneTemp.Get(z));
        requests := requests[z := demand];
        i := i + 1;
      }
      pidState.Equal(StatesAfter(old(pidState), zoneTemp));
      assert requests.Keys == Demands(old(pidState), zoneTemp).AsMap().Keys;
    }

    /** Apply cooling: cools every zone at its damper setting. */
    method CoolAll(dampers: map<Zone, real>)
      requires CoversAllZones(dampers)
      modifies this`zoneTemp
      ensures zoneTemp == TempsAfter(old(zoneTemp), dampers)
    {
      var i := 0;
      while i < |AllZones|
        invariant 0 <= i <= |AllZones|
        invariant forall z :: zoneTemp.Get(z) == if ZoneIndex(z) < i then Cooled(z, old(zoneTemp).Get(z), dampers[z]) else old(zoneTemp).Get(z)
      {
        var z := AllZones[i];
        assert ZoneIndex(z) == i;
        ApplyCooling(z, dampers[z]);
        i := i + 1;
      }
      zoneTemp.Equal(TempsAfter(old(zoneTemp), dampers));
    }

    /** The first four steps of a pass of the control loop: sensor update,
        zone PID requests, coordination and cooling. Returns the damper
        settings applied. */
    method Actuate(readings: map<Zone, real>) returns (dampers: map<Zone, real>)
      requires Valid()
      modifies this`pidState, this`zoneTemp
      ensures Valid()
      ensures pidState == Cycle(old(pidState), old(zoneTemp), readings, cycle).states
      ensures zoneTemp == Cycle(old(pidState), old(zoneTemp), readings, cycle).temps
      ensures dampers == Cycle(old(pidState), old(zoneTemp), readings, cycle).dampers
    {
      TakeReadings(readings);
      var requests := RequestAll();
      dampers := CoordinateDampers(requests);
      CoolAll(dampers);
    }

    /** Logs a cycle: the fan power of the settings, the snapshot appended to
        the history, and the counter advanced. */
    method Record(dampers: map<Zone, real>)
      requires Valid() && CoversAllZones(dampers)
      modifies this`history, this`cycle
      ensures Valid()
      ensures history == old(history) + [Report(old(cycle), zoneTemp, dampers, CyclePower(dampers))]
      ensures cycle == old(cycle) + 1
    {
      var power := CyclePower(dampers);
      var snapshot := Report(cycle, zoneTemp, dampers, power);
      history := history + [snapshot];
      cycle := cycle + 1;
    }

    /** One pass of the control loop with the given sensor readings. */
    method RunCycle(readings: map<Zone, real>)
      requires Valid()
      modifies this
      ensures Valid()
      ensures pidState == Cycle(old(pidState), old(zoneTemp), readings, old(cycle)).states
      ensures zoneTemp == Cycle(old(pidState), old(zoneTemp), readings, old(cycle)).temps
      ensures history == old(history) + [Cycle(old(pidState), old(zoneTemp), readings, old(cycle)).snapshot]
      ensures cycle == old(cycle) + 1
    {
      CycleSnapshot(pidState, zoneTemp, readings, cycle);
      var dampers := Actuate(readings);
      Record(dampers);
    }

    /** The controller has run one cycle per reading table in done, starting
        from the given states, temperatures, history and cycle number. */
    ghost predicate Follows(states0: PerZone<PidState>, temps0: PerZone<real>, history0: seq<Snapshot>, cycle0: int,
                            done: seq<map<Zone, real>>)
      reads this
    {
      pidState == Run(states0, temps0, done, cycle0).states &&
      zoneTemp == Run(states0, temps0, done, cycle0).temps &&
      history == history0 + Run(states0, temps0, done, cycle0).snapshots &&
      cycle == cycle0 + |done|
    }

    /** One more pass of a bounded run. */
    method RunNext(ghost states0: PerZone<PidState>, ghost temps0: PerZone<real>, ghost history0: seq<Snapshot>,
                   ghost cycle0: int, ghost done: seq<map<Zone, real>>, reading: map<Zone, real>)
      requires Valid() && Follows(states0, temps0, history0, cycle0, done)
      modifies this
      ensures Valid() && Follows(states0, temps0, history0, cycle0, done + [reading])
    {
      RunAppendState(states0, temps0, done, reading, cycle0);
      RunAppendSnapshots(states0, temps0, done, reading, cycle0);
      AppendOne(history0, Run(states0, temps0, done, cycle0).snapshots,
                Cycle(pidState, zoneTemp, reading, cycle).snapshot);
      RunCycle(reading);
    }

    /** A bounded run of the control loop, one cycle per reading table. */
    method RunCycles(readings: seq<map<Zone, real>>)
      requires Valid()
      modifies this
      ensures Valid()
      ensures pidState == Run(old(pidState), old(zoneTemp), readings, old(cycle)).states
      ensures zoneTemp == Run(old(pidState), old(zoneTemp), readings, old(cycle)).temps
      ensures history == old(history) + Run(old(pidState), old(zoneTemp), readings, old(cycle)).snapshots
      ensures cycle == old(cycle) + |readings|
    {
      ghost var done: seq<map<Zone, real>> := [];
      var k := 0;
      while k < |readings|
        invariant 0 <= k <= |readings| && done == readings[..k]
        invariant Valid() && Follows(old(pidState), old(zoneTemp), old(history), old(cycle), done)
      {
        PrefixExtend(readings, k);
        RunNext(old(pidState), old(zoneTemp), old(history), old(cycle), done, readings[k]);
        done := done + [readings[k]];
        k := k + 1;
      }
      assert done == readings;
    }
  }
}
