/** The thermal plant: cooling linear in the damper opening, bounded below by
    a zone-specific floor. Module Controller applies it in place. */
module Plant {
  import opened HvacConfig
  import opened Numeric

  /** Temperature drop for a damper opening, in degrees per cycle. */
  function CoolingFor(damper: real): (drop: real)
    ensures 0.0 <= damper <= MaxDamper ==> 0.0 <= drop <= MaxCooling
  {
    (damper / 100.0) * MaxCooling
  }

  /** A zone's temperature after one cycle of cooling at the given damper
      opening. Never below the zone's floor; never above the starting
      temperature when that was already at or above the floor; a starting
      temperature below the floor is raised to it. */
  function Cooled(z: Zone, temp: real, damper: real): (r: real)
    ensures r >= TempFloor(z)
    ensures r >= temp - CoolingFor(damper)
    ensures r == TempFloor(z) || r == temp - CoolingFor(damper)
    ensures 0.0 <= damper && TempFloor(z) <= temp ==> r <= temp
    ensures 0.0 <= damper && temp < TempFloor(z) ==> r == TempFloor(z)
  {
    Max(temp - CoolingFor(damper), TempFloor(z))
  }

  /** Cooling a zone again and again never takes it below its floor, and
      never warms a zone that started at or above it. */
  function CooledRepeatedly(z: Zone, temp: real, dampers: seq<real>): (r: real)
    requires forall i :: 0 <= i < |dampers| ==> dampers[i] >= 0.0
    ensures |dampers| > 0 ==> r >= TempFloor(z)
    ensures TempFloor(z) <= temp ==> TempFloor(z) <= r <= temp
    decreases |dampers|
  {
    if dampers == [] then temp
    else CooledRepeatedly(z, Cooled(z, temp, dampers[0]), dampers[1..])
  }
}
