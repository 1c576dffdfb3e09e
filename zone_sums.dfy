/** Sums over per-zone tables, as Python's sum(d.values()) over a dict keyed
    by zone. The sum runs over the zones in a fixed order and skips zones
    the table does not hold. */
module ZoneSums {
  import opened HvacConfig

  /** Sum of m's values over the zones listed in zs. */
  function SumOver(m: map<Zone, real>, zs: seq<Zone>): (sum: real)
  {
    if zs == [] then 0.0
    else (if zs[0] in m then m[zs[0]] else 0.0) + SumOver(m, zs[1..])
  }

  /** Number of zones listed in zs that m holds. */
  function CountOver(m: map<Zone, real>, zs: seq<Zone>): (n: nat)
  {
    if zs == [] then 0
    else (if zs[0] in m then 1 else 0) + CountOver(m, zs[1..])
  }

  /** sum(m.values()) */
  function Total(m: map<Zone, real>): (sum: real)
  {
    SumOver(m, AllZones)
  }

  /** Scaling every value scales the sum. */
  lemma {:induction false} SumOverScaled(m: map<Zone, real>, m': map<Zone, real>, k: real, zs: seq<Zone>)
    requires m'.Keys == m.Keys
    requires forall z :: z in m ==> m'[z] == m[z] * k
    ensures SumOver(m', zs) == k * SumOver(m, zs)
  {
    if zs != [] {
      SumOverScaled(m, m', k, zs[1..]);
    }
  }

  /** Moving each value by at most 0.05 moves the sum by at most 0.05 per zone. */
  lemma {:induction false} SumOverClose(m: map<Zone, real>, m': map<Zone, real>, zs: seq<Zone>)
    requires m'.Keys == m.Keys
    requires forall z :: z in m ==> m[z] - 0.05 <= m'[z] <= m[z] + 0.05
    ensures SumOver(m, zs) - 0.05 * |zs| as real <= SumOver(m', zs) <= SumOver(m, zs) + 0.05 * |zs| as real
  {
    if zs != [] {
      SumOverClose(m, m', zs[1..]);
    }
  }

  /** Values inside [0, 100] give a sum inside [0, 100 * count]. */
  lemma {:induction false} SumOverBounds(m: map<Zone, real>, zs: seq<Zone>)
    requires forall z :: z in m ==> 0.0 <= m[z] <= 100.0
    ensures 0.0 <= SumOver(m, zs) <= 100.0 * CountOver(m, zs) as real
  {
    if zs != [] {
      SumOverBounds(m, zs[1..]);
    }
  }

  /** Values all equal to c give c times the count. */
  lemma {:induction false} SumOverConstant(m: map<Zone, real>, c: real, zs: seq<Zone>)
    requires forall z :: z in m ==> m[z] == c
    ensures SumOver(m, zs) == c * CountOver(m, zs) as real
  {
    if zs != [] {
      SumOverConstant(m, c, zs[1..]);
    }
  }

  /** Whether m holds zone z, as 0 or 1. */
  function Has(m: map<Zone, real>, z: Zone): (n: nat)
  {
    if z in m then 1 else 0
  }

  lemma CountOverAllZones(m: map<Zone, real>)
    ensures CountOver(m, AllZones) == Has(m, Freezer) + Has(m, Cooler) + Has(m, Packing)
  {
    assert [Packing][1..] == [];
    assert CountOver(m, [Packing]) == Has(m, Packing);
    assert [Cooler, Packing][1..] == [Packing];
    assert CountOver(m, [Cooler, Packing]) == Has(m, Cooler) + Has(m, Packing);
    assert AllZones[1..] == [Cooler, Packing];
  }

  /** Taking one zone out of a set of zones. */
  lemma CardWithout(s: set<Zone>, z: Zone)
    ensures |s| == |s - {z}| + (if z in s then 1 else 0)
  {
    if z in s {
      assert s == (s - {z}) + {z};
    } else {
      assert s - {z} == s;
    }
  }

  lemma SizeByZone(m: map<Zone, real>)
    ensures |m| == Has(m, Freezer) + Has(m, Cooler) + Has(m, Packing)
  {
    var k := m.Keys;
    CardWithout(k, Freezer);
    CardWithout(k - {Freezer}, Cooler);
    CardWithout(k - {Freezer} - {Cooler}, Packing);
    forall z | z in k - {Freezer} - {Cooler} - {Packing} ensures false {
      match z
      case Freezer =>
      case Cooler =>
      case Packing =>
    }
    assert k - {Freezer} - {Cooler} - {Packing} == {};
    assert |m| == |k|;
  }

  /** Counting over AllZones gives the size of the table. */
  lemma CountAllZones(m: map<Zone, real>)
    ensures CountOver(m, AllZones) == |m|
  {
    CountOverAllZones(m);
    SizeByZone(m);
  }

  /** The sum of a table holding every zone, written out. */
  lemma TotalOfFullTable(m: map<Zone, real>)
    requires CoversAllZones(m)
    ensures Total(m) == m[Freezer] + m[Cooler] + m[Packing]
  {
    assert [Packing][1..] == [];
    assert SumOver(m, [Packing]) == m[Packing];
    assert [Cooler, Packing][1..] == [Packing];
    assert SumOver(m, [Cooler, Packing]) == m[Cooler] + m[Packing];
    assert AllZones[1..] == [Cooler, Packing];
  }

  /** A table holding every zone has three entries. */
  lemma SizeOfFullTable(m: map<Zone, real>)
    requires CoversAllZones(m)
    ensures |m| == 3
  {
    SizeByZone(m);
  }
}
