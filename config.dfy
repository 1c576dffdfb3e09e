/** Static configuration of the refrigerated facility: the three zones, their
    setpoints, PID gains and physical floors, and the system-wide limits.
    None of it changes while the controller runs. */
module HvacConfig {

  /** The closed set of controlled zones. */
  datatype Zone = Freezer | Cooler | Packing

  /** Every zone once, in the order the controller visits them. */
  const AllZones: seq<Zone> := [Freezer, Cooler, Packing]

  /** Position of a zone in AllZones. */
  function ZoneIndex(z: Zone): (i: nat)
    ensures i < |AllZones| && AllZones[i] == z
  {
    match z
    case Freezer => 0
    case Cooler => 1
    case Packing => 2
  }

  /** A table holding one value per zone, as the controller's dictionaries
      keyed by zone name do. */
  datatype PerZone<T> = PerZone(freezer: T, cooler: T, packing: T)
  {
    function Get(z: Zone): (v: T)
    {
      match z
      case Freezer => freezer
      case Cooler => cooler
      case Packing => packing
    }

    /** The table with zone z's entry replaced by v. */
    function Set(z: Zone, v: T): (r: PerZone<T>)
      ensures r.Get(z) == v
      ensures forall y :: y != z ==> r.Get(y) == Get(y)
    {
      match z
      case Freezer => this.(freezer := v)
      case Cooler => this.(cooler := v)
      case Packing => this.(packing := v)
    }

    /** Two tables are equal when they agree on every zone. */
    lemma Equal(other: PerZone<T>)
      requires forall z :: Get(z) == other.Get(z)
      ensures this == other
    {
      assert Get(Freezer) == other.Get(Freezer);
      assert Get(Cooler) == other.Get(Cooler);
      assert Get(Packing) == other.Get(Packing);
    }

    /** The same table as a dictionary keyed by zone. */
    function AsMap(): (m: map<Zone, T>)
      ensures CoversAllZones(m)
      ensures forall z :: m[z] == Get(z)
    {
      var m := map[Freezer := freezer, Cooler := cooler, Packing := packing];
      CoversAllZonesByCases(m);
      m
    }
  }

  /** Target temperature of a zone, in degrees Celsius. */
  function Setpoint(z: Zone): (sp: real)
  {
    match z
    case Freezer => -18.0
    case Cooler => 3.0
    case Packing => 16.5
  }

  /** Proportional, integral and derivative coefficients. */
  datatype Gains = Gains(kp: real, ki: real, kd: real)

  /** Every zone's gains are positive: each term pushes towards more
      cooling when the zone is too warm. */
  function PidGains(z: Zone): (g: Gains)
    ensures g.kp > 0.0 && g.ki > 0.0 && g.kd > 0.0
  {
    match z
    case Freezer => Gains(10.0, 0.12, 2.0)
    case Cooler => Gains(8.0, 0.10, 1.8)
    case Packing => Gains(6.0, 0.08, 1.5)
  }

  /** Lowest temperature the plant can reach in a zone. It lies more than
      the deadband below the setpoint, so a zone at its floor asks for no
      airflow. */
  function TempFloor(z: Zone): (floor: real)
    ensures floor + DeadbandWidth < Setpoint(z)
  {
    match z
    case Freezer => -25.0
    case Cooler => -2.0
    case Packing => 10.0
  }

  const MaxTotalDamper: real := 180.0   // % of total system airflow
  const MinDamper: real := 10.0         // % minimum controllable flow
  const MaxDamper: real := 100.0        // %
  const MaxCooling: real := 2.5         // degrees C per cycle at 100% damper
  const FanIdlePower: real := 2.0       // kW
  const FanRatedPower: real := 9.0      // kW

  /** Errors whose magnitude is below this are left alone. */
  const DeadbandWidth: real := 0.4

  /** Anti-windup bounds of the integral term. */
  const IntegralMin: real := 0.0
  const IntegralMax: real := 30.0

  /** A per-zone table that has an entry for every zone. */
  ghost predicate CoversAllZones<T>(m: map<Zone, T>)
  {
    forall z: Zone :: z in m
  }

  lemma CoversAllZonesByCases<T>(m: map<Zone, T>)
    requires Freezer in m && Cooler in m && Packing in m
    ensures CoversAllZones(m)
  {
    forall z: Zone ensures z in m {
      match z
      case Freezer =>
      case Cooler =>
      case Packing =>
    }
  }

  /** Temperatures the controller starts from before the first reading. */
  const InitialTemps: PerZone<real> := PerZone(-16.5, 5.5, 19.0)

  lemma InitialTempsAboveFloors()
    ensures forall z :: InitialTemps.Get(z) >= TempFloor(z)
  {
  }
}
