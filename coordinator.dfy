/** The supervisory damper coordinator: the one place where zones meet. When
    the zones together ask for more airflow than the shared budget, every
    demand is scaled down by the same factor. */
module Coordinator {
  import opened HvacConfig
  import opened Numeric
  import opened ZoneSums

  /** The demands after proportional scale-down, before rounding. */
  function ScaleToBudget(requests: map<Zone, real>): (r: map<Zone, real>)
    ensures r.Keys == requests.Keys
  {
    var total := Total(requests);
    if total <= MaxTotalDamper then requests
    else
      var scale := MaxTotalDamper / total;
      map z | z in requests :: requests[z] * scale
  }

  /** Within the budget nothing changes; over it the settings use up exactly
      the budget, every zone keeps the same share of the total, and no
      non-negative demand grows (so a zero demand stays zero). */
  lemma ScaleToBudgetFair(requests: map<Zone, real>)
    ensures Total(requests) <= MaxTotalDamper ==> ScaleToBudget(requests) == requests
    ensures Total(requests) > MaxTotalDamper ==> Total(ScaleToBudget(requests)) == MaxTotalDamper
    ensures forall z1, z2 :: z1 in requests && z2 in requests ==>
              ScaleToBudget(requests)[z1] * requests[z2] == ScaleToBudget(requests)[z2] * requests[z1]
    ensures forall z :: z in requests && requests[z] >= 0.0 ==> 0.0 <= ScaleToBudget(requests)[z] <= requests[z]
  {
    var total := Total(requests);
    if total > MaxTotalDamper {
      SumOverScaled(requests, ScaleToBudget(requests), MaxTotalDamper / total, AllZones);
    }
  }

  /** coordinate_dampers: the scaled demands rounded to one decimal place. */
  function CoordinateDampers(requests: map<Zone, real>): (r: map<Zone, real>)
    ensures r.Keys == requests.Keys
  {
    var scaled := ScaleToBudget(requests);
    map z | z in requests :: Round1(scaled[z])
  }

  /** Each setting is its scaled demand up to rounding to one decimal. */
  lemma CoordinateDampersRounding(requests: map<Zone, real>)
    ensures forall z :: z in requests ==>
              ScaleToBudget(requests)[z] - 0.05 <= CoordinateDampers(requests)[z] <= ScaleToBudget(requests)[z] + 0.05
  {
  }

  /** Within the budget each zone gets its own demand, up to rounding. */
  lemma CoordinateWithinBudget(requests: map<Zone, real>)
    requires Total(requests) <= MaxTotalDamper
    ensures forall z :: z in requests ==>
              requests[z] - 0.05 <= CoordinateDampers(requests)[z] <= requests[z] + 0.05
  {
    ScaleToBudgetFair(requests);
    CoordinateDampersRounding(requests);
  }

  /** The shared airflow budget holds after coordination, up to the rounding
      of three settings; within the budget the total is kept, rounding aside. */
  lemma CoordinateBudget(requests: map<Zone, real>)
    ensures Total(CoordinateDampers(requests)) <= MaxTotalDamper + 0.15
    ensures Total(requests) <= MaxTotalDamper ==>
              Total(requests) - 0.15 <= Total(CoordinateDampers(requests)) <= Total(requests) + 0.15
  {
    ScaleToBudgetFair(requests);
    CoordinateDampersRounding(requests);
    SumOverClose(ScaleToBudget(requests), CoordinateDampers(requests), AllZones);
  }

  /** Settings for demands that are valid damper openings are valid damper
      openings too, and a zone that asks for nothing gets nothing. */
  lemma CoordinateWithinDamperRange(requests: map<Zone, real>)
    requires forall z :: z in requests ==> 0.0 <= requests[z] <= MaxDamper
    ensures forall z :: z in CoordinateDampers(requests) ==> 0.0 <= CoordinateDampers(requests)[z] <= MaxDamper
    ensures forall z :: z in requests && requests[z] == 0.0 ==> CoordinateDampers(requests)[z] == 0.0
  {
    var scaled := ScaleToBudget(requests);
    ScaleToBudgetFair(requests);
    forall z | z in requests
      ensures 0.0 <= CoordinateDampers(requests)[z] <= MaxDamper
      ensures requests[z] == 0.0 ==> CoordinateDampers(requests)[z] == 0.0
    {
      Round1Within(scaled[z], 0, 1000);
      if requests[z] == 0.0 {
        Round1OfTenths(0);
      }
    }
  }
}
