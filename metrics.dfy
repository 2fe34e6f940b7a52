/** The four key figures shown above the map, computed from the filtered table. */
module Metrics {
  import opened Table
  import opened Numbers
  import Filters

  /** `df[COL_CAPACITY_MTPA].sum()`: NaN is skipped, the empty sum is 0. */
  function CapacitySum(df: seq<Row>): (total: real)
    ensures (forall r :: r in df ==> r.capacity.None?) ==> total == 0.0
    ensures (forall r :: r in df && r.capacity.Some? ==> r.capacity.value >= 0.0) ==> total >= 0.0
  {
    assert df != [] ==> forall r :: r in df[1..] ==> r in df;
    if df == [] then 0.0
    else (if df[0].capacity.Some? then df[0].capacity.value else 0.0) + CapacitySum(df[1..])
  }

  /** The sum over the known capacities is the sum of the capacity column without NaN. */
  lemma {:induction false} CapacitySumSkipsUnknown(df: seq<Row>)
    ensures CapacitySum(df) == Sum(Filters.Capacities(df))
  {
    if df != [] {
      CapacitySumSkipsUnknown(df[1..]);
    }
  }

  function Sum(cs: seq<real>): real
  {
    if cs == [] then 0.0 else cs[0] + Sum(cs[1..])
  }

  /** The total over two adjacent blocks of rows is the sum of their totals. */
  lemma {:induction false} CapacitySumAppend(a: seq<Row>, b: seq<Row>)
    ensures CapacitySum(a + b) == CapacitySum(a) + CapacitySum(b)
  {
    if a != [] {
      assert (a + b)[1..] == a[1..] + b;
      CapacitySumAppend(a[1..], b);
    } else {
      assert a + b == b;
    }
  }

  /** Splitting the rows by any mask splits the total capacity between the two parts. */
  lemma {:induction false} CapacitySumPartition(df: seq<Row>, p: Row -> bool, notP: Row -> bool)
    requires forall r :: notP(r) == !p(r)
    ensures CapacitySum(Keep(df, p)) + CapacitySum(Keep(df, notP)) == CapacitySum(df)
  {
    if df != [] {
      CapacitySumPartition(df[1..], p, notP);
      if p(df[0]) {
        CapacitySumAppend([df[0]], Keep(df[1..], p));
      } else {
        CapacitySumAppend([df[0]], Keep(df[1..], notP));
      }
    }
  }

  /** The number of distinct countries (`nunique`) never exceeds the number of rows. */
  lemma {:induction false} CountriesAtMostRows(df: seq<Row>)
    ensures |Filters.CountriesOf(df)| <= |df|
  {
    if df != [] {
      CountriesAtMostRows(df[1..]);
      assert Filters.CountriesOf(df) == {df[0].country} + Filters.CountriesOf(df[1..]) by {
        assert forall r :: r in df <==> r == df[0] || r in df[1..];
      }
    }
  }

  /** The metrics panel. `averageCapacity` is None where pandas' mean is NaN
      (no known capacity). */
  datatype KpiPanel = KpiPanel(totalPlants: nat, totalCapacity: real, averageCapacity: Option<real>, countries: nat)

  /** Lines 125-128: count, rounded total, rounded mean (0 for an empty
      table), number of distinct countries. */
  function Kpis(df: seq<Row>): (k: KpiPanel)
    ensures k.totalPlants == |df|
    ensures k.countries == |Filters.CountriesOf(df)|
    ensures k.countries <= k.totalPlants
    ensures IsCents(k.totalCapacity)
    ensures k.averageCapacity.Some? ==> IsCents(k.averageCapacity.value)
    ensures k.totalCapacity - 0.005 <= Sum(Filters.Capacities(df)) <= k.totalCapacity + 0.005
    ensures df != [] ==> (k.averageCapacity.None? <==> forall r :: r in df ==> r.capacity.None?)
    ensures df == [] ==> k.averageCapacity == Some(0.0)
    ensures k.averageCapacity.Some? && df != [] ==>
              var cs := Filters.Capacities(df);
              var known := |Keep(df, HasCapacity)|;
              known > 0 && k.averageCapacity.value - 0.005 <= Sum(cs) / known as real <= k.averageCapacity.value + 0.005
  {
    Filters.CapacitiesCount(df);
    var cs := Filters.Capacities(df);
    CountriesAtMostRows(df);
    CapacitySumSkipsUnknown(df);
    var average :=
      if |df| > 0 then (if cs == [] then None else Some(Round2(Sum(cs) / |cs| as real)))
      else Some(0.0);
    KpiPanel(|df|, Round2(CapacitySum(df)), average, |Filters.CountriesOf(df)|)
  }

  /** Known capacities 1, 2 and 3 beside one unknown: 4 plants, total 6, mean 2. */
  lemma KpiExample()
    ensures Kpis(ExampleTable()) == KpiPanel(4, 6.0, Some(2.0), 1)
  {
    ExampleSums();
    ExampleCountries();
    KpisFromTotals(ExampleTable());
  }

  /** Any four rows with known capacities 1, 2 and 3 in a single country. */
  lemma KpisFromTotals(df: seq<Row>)
    requires |df| == 4
    requires Filters.Capacities(df) == [1.0, 2.0, 3.0]
    requires Filters.CountriesOf(df) == {"Algeria"}
    ensures Kpis(df) == KpiPanel(4, 6.0, Some(2.0), 1)
  {
    SumOneTwoThree();
    CapacitySumSkipsUnknown(df);
    assert IsCents(6.0) && IsCents(2.0);
    Round2OfCents(6.0);
    Round2OfCents(2.0);
    assert 6.0 / 3.0 == 2.0;
  }

  lemma SumOneTwoThree()
    ensures Sum([1.0, 2.0, 3.0]) == 6.0
  {
    assert [1.0, 2.0, 3.0][1..] == [2.0, 3.0] && [2.0, 3.0][1..] == [3.0] && [3.0][1..] == [];
  }

  lemma ExampleSums()
    ensures CapacitySum(ExampleTable()) == 6.0
    ensures Filters.Capacities(ExampleTable()) == [1.0, 2.0, 3.0]
  {
    var df := ExampleTable();
    FourRowSums(df[0], df[1], df[2], df[3]);
    assert df == [df[0], df[1], df[2], df[3]];
  }

  /** Capacities 1, 2, unknown and 3: the totals of the four rows. */
  lemma FourRowSums(a: Row, b: Row, c: Row, d: Row)
    requires a.capacity == Some(1.0) && b.capacity == Some(2.0)
    requires c.capacity == None && d.capacity == Some(3.0)
    ensures CapacitySum([a, b, c, d]) == 6.0
    ensures Filters.Capacities([a, b, c, d]) == [1.0, 2.0, 3.0]
  {
    FourRowTotal(a, b, c, d);
    FourRowCapacities(a, b, c, d);
  }

  lemma FourRowTotal(a: Row, b: Row, c: Row, d: Row)
    requires a.capacity == Some(1.0) && b.capacity == Some(2.0)
    requires c.capacity == None && d.capacity == Some(3.0)
    ensures CapacitySum([a, b, c, d]) == 6.0
  {
    assert [a, b, c, d][1..] == [b, c, d] && [b, c, d][1..] == [c, d];
    assert [c, d][1..] == [d] && [d][1..] == [];
    assert CapacitySum([d]) == 3.0 && CapacitySum([c, d]) == 3.0 && CapacitySum([b, c, d]) == 5.0;
  }

  lemma FourRowCapacities(a: Row, b: Row, c: Row, d: Row)
    requires a.capacity == Some(1.0) && b.capacity == Some(2.0)
    requires c.capacity == None && d.capacity == Some(3.0)
    ensures Filters.Capacities([a, b, c, d]) == [1.0, 2.0, 3.0]
  {
    assert [a, b, c, d][1..] == [b, c, d] && [b, c, d][1..] == [c, d];
    assert [c, d][1..] == [d] && [d][1..] == [];
    assert Filters.Capacities([d]) == [3.0];
    assert Filters.Capacities([c, d]) == [3.0];
    assert Filters.Capacities([b, c, d]) == [2.0, 3.0];
  }

  lemma ExampleCountries()
    ensures Filters.CountriesOf(ExampleTable()) == {"Algeria"}
  {
    var df := ExampleTable();
    assert forall r :: r in df ==> r.country == "Algeria";
    assert df[0] in df;
  }

  function ExampleRow(capacity: Option<real>): Row
  {
    Row("Plant", "Owner", "Algeria", None, None, "36.7539610, 6.2444200", capacity, Some(36.753961), Some(6.24442))
  }

  /** Four plants with capacities 1, 2, unknown and 3 Mtpa. */
  function ExampleTable(): seq<Row>
  {
    [ExampleRow(Some(1.0)), ExampleRow(Some(2.0)), ExampleRow(None), ExampleRow(Some(3.0))]
  }
}
