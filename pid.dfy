/** The per-zone PID controller with deadband, anti-windup and the
    cooling-only rule, as pure functions of a zone's controller state and a
    temperature. The class in module Controller runs these steps in place. */
module Pid {
  import opened HvacConfig
  import opened Numeric

  /** A zone's controller memory: accumulated error and last error seen. */
  datatype PidState = PidState(integral: real, prevError: real)

  /** State every zone starts with. */
  const Fresh: PidState := PidState(0.0, 0.0)

  /** The anti-windup invariant: the integral stays inside [0, 30]. */
  predicate AntiWindup(s: PidState)
  {
    IntegralMin <= s.integral <= IntegralMax
  }

  function Error(z: Zone, temp: real): (e: real)
  {
    temp - Setpoint(z)
  }

  /** Strict comparison: an error of exactly 0.4 is outside the deadband. */
  predicate InDeadband(error: real)
  {
    Abs(error) < DeadbandWidth
  }

  /** The controller state after one request for zone z at temperature temp.
      A deadband hit leaves the state as it was, prevError included. */
  function NextState(s: PidState, z: Zone, temp: real): (r: PidState)
    ensures InDeadband(Error(z, temp)) ==> r == s
    ensures !InDeadband(Error(z, temp)) ==> AntiWindup(r) && r.prevError == Error(z, temp)
    ensures AntiWindup(s) ==> AntiWindup(r)
  {
    var e := Error(z, temp);
    if InDeadband(e) then s
    else PidState(Clamp(IntegralMin, IntegralMax, s.integral + e), e)
  }

  /** Outside the deadband a request always rewrites the state, even for a
      zone too cold to get any airflow: prevError becomes the error and the
      integral takes the error on, held inside [0, 30]. */
  lemma NextStateOutsideDeadband(s: PidState, z: Zone, temp: real)
    requires !InDeadband(Error(z, temp))
    ensures NextState(s, z, temp).prevError == Error(z, temp)
    ensures IntegralMin <= s.integral + Error(z, temp) <= IntegralMax ==>
              NextState(s, z, temp).integral == s.integral + Error(z, temp)
    ensures s.integral + Error(z, temp) < IntegralMin ==> NextState(s, z, temp).integral == IntegralMin
    ensures s.integral + Error(z, temp) > IntegralMax ==> NextState(s, z, temp).integral == IntegralMax
  {
  }

  /** The deadband test is strict: a zone exactly 0.4 degrees too warm is
      outside it, so its state moves and it gets at least the minimum
      opening; one exactly 0.4 degrees too cold also moves its state. */
  lemma DeadbandIsStrict(s: PidState, z: Zone)
    ensures NextState(s, z, Setpoint(z) + DeadbandWidth).prevError == DeadbandWidth
    ensures Demand(s, z, Setpoint(z) + DeadbandWidth) >= MinDamper
    ensures NextState(s, z, Setpoint(z) - DeadbandWidth).prevError == -DeadbandWidth
  {
  }

  /** The unclamped PID output, with the integral already updated and the
      derivative taken against the previous error. */
  function Output(s: PidState, z: Zone, temp: real): (out: real)
  {
    var e := Error(z, temp);
    var g := PidGains(z);
    g.kp * e + g.ki * NextState(s, z, temp).integral + g.kd * (e - s.prevError)
  }

  /** The damper demand pid_request returns. Positive exactly when the zone is
      at least 0.4 degrees too warm, and then between the minimum and maximum
      damper opening; zero otherwise, whatever the computed output. */
  function Demand(s: PidState, z: Zone, temp: real): (r: real)
    ensures r == 0.0 || MinDamper <= r <= MaxDamper
    ensures r > 0.0 <==> Error(z, temp) >= DeadbandWidth
    ensures (Error(z, temp) >= DeadbandWidth && MinDamper <= Output(s, z, temp) <= MaxDamper)
            ==> r == Output(s, z, temp)
    ensures Error(z, temp) >= DeadbandWidth && Output(s, z, temp) < MinDamper ==> r == MinDamper
    ensures Error(z, temp) >= DeadbandWidth && Output(s, z, temp) > MaxDamper ==> r == MaxDamper
  {
    var e := Error(z, temp);
    if InDeadband(e) then 0.0
    else if e > 0.0 then Clamp(MinDamper, MaxDamper, Output(s, z, temp))
    else 0.0
  }

  /** A warmer zone never gets a smaller PID output: every term grows with
      the error, the integral included, as long as it started inside
      [0, 30]. */
  lemma OutputMonotone(s: PidState, z: Zone, t1: real, t2: real)
    requires AntiWindup(s) && t1 <= t2
    ensures Output(s, z, t1) <= Output(s, z, t2)
  {
    var e1, e2 := Error(z, t1), Error(z, t2);
    assert NextState(s, z, t1).integral <= s.integral || !InDeadband(e2);
    assert NextState(s, z, t1).integral <= NextState(s, z, t2).integral;
  }

  /** A warmer zone never gets a smaller damper demand. */
  lemma DemandMonotone(s: PidState, z: Zone, t1: real, t2: real)
    requires AntiWindup(s) && t1 <= t2
    ensures Demand(s, z, t1) <= Demand(s, z, t2)
  {
    OutputMonotone(s, z, t1, t2);
  }

  /** One pid_request keeps every zone's integral within its limits. */
  lemma StepKeepsAntiWindup(states: PerZone<PidState>, zone: Zone, temp: real)
    requires forall z :: AntiWindup(states.Get(z))
    ensures forall z :: AntiWindup(states.Set(zone, NextState(states.Get(zone), zone, temp)).Get(z))
  {
  }

  /** A sequence of pid_request calls, each naming a zone and a temperature,
      applied to the table of every zone's controller state. */
  function RunRequests(states: PerZone<PidState>, reqs: seq<(Zone, real)>): (r: PerZone<PidState>)
    ensures (forall z :: AntiWindup(states.Get(z))) ==> forall z :: AntiWindup(r.Get(z))
    decreases reqs
  {
    if reqs == [] then states
    else
      var z := reqs[0].0;
      RunRequests(states.Set(z, NextState(states.Get(z), z, reqs[0].1)), reqs[1..])
  }

  /** Requests for one zone never touch another zone's state. */
  lemma {:induction false} RunRequestsOtherZones(states: PerZone<PidState>, reqs: seq<(Zone, real)>, z: Zone)
    requires forall i :: 0 <= i < |reqs| ==> reqs[i].0 != z
    ensures RunRequests(states, reqs).Get(z) == states.Get(z)
    decreases reqs
  {
    if reqs != [] {
      var y := reqs[0].0;
      RunRequestsOtherZones(states.Set(y, NextState(states.Get(y), y, reqs[0].1)), reqs[1..], z);
    }
  }

  /** Every zone's state at start-up. */
  const FreshStates: PerZone<PidState> := PerZone(Fresh, Fresh, Fresh)

  /** Starting from zero integrals, no run of requests winds up the integral. */
  lemma AntiWindupFromStart(reqs: seq<(Zone, real)>)
    ensures forall z :: AntiWindup(RunRequests(FreshStates, reqs).Get(z))
  {
  }

  /** The quirk that a deadband hit leaves prevError stale: after a reading
      outside the deadband and then one inside it, prevError still holds the
      first reading's error, so the next derivative is taken against it. */
  lemma DeadbandLeavesPrevErrorStale(s: PidState, z: Zone, t1: real, t2: real)
    requires !InDeadband(Error(z, t1)) && InDeadband(Error(z, t2))
    ensures NextState(NextState(s, z, t1), z, t2).prevError == Error(z, t1)
  {
  }

  /** A zone at or below its floor asks for no airflow. */
  lemma NoDemandAtFloor(s: PidState, z: Zone, temp: real)
    requires temp <= TempFloor(z)
    ensures Demand(s, z, temp) == 0.0
  {
  }

  /** A fresh controller: the Freezer at -16.5 (error 1.5) asks for 18.18
      percent. */
  lemma FreezerFirstRequest()
    ensures Demand(Fresh, Freezer, -16.5) == 18.18
    ensures NextState(Fresh, Freezer, -16.5) == PidState(1.5, 1.5)
  {
  }
}
