/** The fan energy model: power grows with the cube of the mean damper
    opening (the fan affinity law), from idle power at no flow to rated power
    at full flow. */
module Fan {
  import opened HvacConfig
  import opened Numeric
  import opened ZoneSums

  /** The value of fan_power, or the division by zero it raises on an empty
      table. */
  datatype PowerResult = Power(kw: real) | ZeroDivision

  /** Power for a mean fractional opening, rounded to two decimal places. */
  function PowerForFlow(avgFlow: real): (kw: real)
    ensures 0.0 <= avgFlow <= 1.0 ==> FanIdlePower <= kw <= FanRatedPower
  {
    RawPowerRange(avgFlow);
    Round2(FanIdlePower + Cube(avgFlow) * (FanRatedPower - FanIdlePower))
  }

  lemma RawPowerRange(a: real)
    ensures 0.0 <= a <= 1.0 ==>
              FanIdlePower <= Round2(FanIdlePower + Cube(a) * (FanRatedPower - FanIdlePower)) <= FanRatedPower
  {
    if 0.0 <= a <= 1.0 {
      CubeMonotone(0.0, a);
      CubeMonotone(a, 1.0);
      Round2Within(FanIdlePower + Cube(a) * (FanRatedPower - FanIdlePower), 200, 900);
    }
  }

  /** fan_power: the mean opening is the damper sum over 100 times the
      number of zones. */
  function FanPower(dampers: map<Zone, real>): (r: PowerResult)
    ensures r.Power? <==> |dampers| > 0
  {
    if |dampers| == 0 then ZeroDivision
    else Power(PowerForFlow(Total(dampers) / (|dampers| as real * 100.0)))
  }

  lemma PowerForFlowMonotone(a: real, b: real)
    requires 0.0 <= a <= b
    ensures PowerForFlow(a) <= PowerForFlow(b)
  {
    CubeMonotone(a, b);
    Round2Monotone(FanIdlePower + Cube(a) * (FanRatedPower - FanIdlePower),
                   FanIdlePower + Cube(b) * (FanRatedPower - FanIdlePower));
  }

  /** For tables of one size, power never decreases as the damper sum grows. */
  lemma FanPowerMonotone(d1: map<Zone, real>, d2: map<Zone, real>)
    requires |d1| == |d2| > 0
    requires 0.0 <= Total(d1) <= Total(d2)
    ensures FanPower(d1).kw <= FanPower(d2).kw
    ensures Total(d1) == Total(d2) ==> FanPower(d1) == FanPower(d2)
  {
    var n := |d1| as real * 100.0;
    assert Total(d1) / n <= Total(d2) / n;
    PowerForFlowMonotone(Total(d1) / n, Total(d2) / n);
  }

  /** For tables of one size, power depends only on the damper sum. */
  lemma FanPowerDependsOnSum(d1: map<Zone, real>, d2: map<Zone, real>)
    requires |d1| == |d2| > 0 && Total(d1) == Total(d2)
    ensures FanPower(d1) == FanPower(d2)
  {
  }

  /** All dampers closed: idle power. */
  lemma FanPowerAllClosed(dampers: map<Zone, real>)
    requires |dampers| > 0
    requires forall z :: z in dampers ==> dampers[z] == 0.0
    ensures FanPower(dampers) == Power(FanIdlePower)
  {
    SumOverConstant(dampers, 0.0, AllZones);
    assert Cube(0.0) == 0.0;
    Round2OfHundredths(200);
  }

  /** All dampers fully open: rated power. */
  lemma FanPowerAllOpen(dampers: map<Zone, real>)
    requires |dampers| > 0
    requires forall z :: z in dampers ==> dampers[z] == MaxDamper
    ensures FanPower(dampers) == Power(FanRatedPower)
  {
    SumOverConstant(dampers, MaxDamper, AllZones);
    CountAllZones(dampers);
    var n := |dampers| as real * 100.0;
    assert Total(dampers) / n == 1.0;
    assert Cube(1.0) == 1.0;
    Round2OfHundredths(900);
  }

  /** Dampers that are all valid openings draw between idle and rated power. */
  lemma FanPowerRange(dampers: map<Zone, real>)
    requires |dampers| > 0
    requires forall z :: z in dampers ==> 0.0 <= dampers[z] <= MaxDamper
    ensures FanIdlePower <= FanPower(dampers).kw <= FanRatedPower
  {
    SumOverBounds(dampers, AllZones);
    CountAllZones(dampers);
    var n := |dampers| as real * 100.0;
    assert 0.0 <= Total(dampers) <= n;
    assert 0.0 <= Total(dampers) / n <= 1.0;
  }
}
