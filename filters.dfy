/** The sidebar filters: owner and country multi-selects and the capacity
    range slider, applied to the cleaned table by three successive narrowings. */
module Filters {
  import opened Table
  import opened Numbers

  /** What the sidebar widgets hand back: the selected owners and countries
      and the (low, high) capacity range in Mtpa. */
  datatype Selection = Selection(owners: set<string>, countries: set<string>, low: real, high: real)

  /** `df[COL_OWNER].isin(owners)` */
  function OwnerIn(owners: set<string>): Row -> bool {
    (r: Row) => r.owner in owners
  }

  /** `df[COL_COUNTRY].isin(countries)` */
  function CountryIn(countries: set<string>): Row -> bool {
    (r: Row) => r.country in countries
  }

  /** Unknown capacity, or a capacity inside the inclusive range. */
  function CapacityAdmits(low: real, high: real, capacity: Option<real>): (admitted: bool)
    ensures capacity.None? ==> admitted
    ensures high < low ==> (admitted <==> capacity.None?)
    ensures capacity == Some(low) || capacity == Some(high) ==> (admitted <==> low <= high)
  {
    capacity.None? || (low <= capacity.value && capacity.value <= high)
  }

  function CapacityWithin(low: real, high: real): Row -> bool {
    (r: Row) => CapacityAdmits(low, high, r.capacity)
  }

  /** The owner stage: an empty multi-select restricts nothing. */
  predicate OwnerAdmits(owners: set<string>, r: Row) {
    owners == {} || r.owner in owners
  }

  /** The country stage, by the same rule. */
  predicate CountryAdmits(countries: set<string>, r: Row) {
    countries == {} || r.country in countries
  }

  /** The combined rule: the three stages ANDed. */
  function Selected(sel: Selection, r: Row): (selected: bool)
    ensures sel.owners == {} && sel.countries == {} ==>
              (selected <==> CapacityAdmits(sel.low, sel.high, r.capacity))
    ensures selected ==> r.capacity.None? || sel.low <= r.capacity.value <= sel.high
  {
    && OwnerAdmits(sel.owners, r)
    && CountryAdmits(sel.countries, r)
    && CapacityAdmits(sel.low, sel.high, r.capacity)
  }

  function SelectionFilter(sel: Selection): Row -> bool {
    (r: Row) => Selected(sel, r)
  }

  /** The filtered view of `df`. */
  function Filtered(df: seq<Row>, sel: Selection): seq<Row> {
    Keep(df, SelectionFilter(sel))
  }

  /** The filter block: `df_filtered` is a copy of `df`, narrowed by owner when
      owners are selected, then by country when countries are selected, then
      by capacity. */
  method ApplyFilters(df: seq<Row>, sel: Selection) returns (filtered: seq<Row>)
    ensures filtered == Filtered(df, sel)
    ensures SubsequenceOf(filtered, df)
    ensures forall r :: r in filtered <==> r in df && Selected(sel, r)
  {
    ghost var ownerStage := (r: Row) => OwnerAdmits(sel.owners, r);
    ghost var countryStage := (r: Row) => CountryAdmits(sel.countries, r);
    ghost var bothStages := (r: Row) => ownerStage(r) && countryStage(r);

    filtered := df;
    if sel.owners != {} {
      filtered := Keep(filtered, OwnerIn(sel.owners));
      KeepSame(df, OwnerIn(sel.owners), ownerStage);
    } else {
      KeepAll(df, ownerStage);
    }
    ghost var afterOwners := filtered;
    assert afterOwners == Keep(df, ownerStage);

    if sel.countries != {} {
      filtered := Keep(filtered, CountryIn(sel.countries));
      KeepSame(afterOwners, CountryIn(sel.countries), countryStage);
    } else {
      KeepAll(afterOwners, countryStage);
    }
    KeepKeep(df, ownerStage, countryStage, bothStages);
    assert filtered == Keep(df, bothStages);

    filtered := Keep(filtered, CapacityWithin(sel.low, sel.high));
    KeepKeep(df, bothStages, CapacityWithin(sel.low, sel.high), SelectionFilter(sel));
    KeepSubsequence(df, SelectionFilter(sel));
    KeepMembers(df, SelectionFilter(sel));
  }

  /** Filtering an already filtered table with the same selection changes nothing. */
  lemma FilterIdempotent(df: seq<Row>, sel: Selection)
    ensures Filtered(Filtered(df, sel), sel) == Filtered(df, sel)
  {
    KeepIdempotent(df, SelectionFilter(sel));
  }

  /** The owners present in a table. */
  function OwnersOf(df: seq<Row>): set<string> {
    set r | r in df :: r.owner
  }

  function CountriesOf(df: seq<Row>): (countries: set<string>)
    ensures countries == {} <==> df == []
    ensures forall k :: 0 <= k < |df| ==> df[k].country in countries
  {
    var countries := set r | r in df :: r.country;
    assert df != [] ==> df[0].country in countries;
    assert df == [] ==> countries == {};
    countries
  }

  /** An empty owner selection filters exactly as selecting every owner of the table. */
  lemma EmptyOwnersMeansAll(df: seq<Row>, sel: Selection)
    requires sel.owners == {}
    ensures Filtered(df, sel) == Filtered(df, sel.(owners := OwnersOf(df)))
  {
    KeepSame(df, SelectionFilter(sel), SelectionFilter(sel.(owners := OwnersOf(df))));
  }

  /** An empty country selection filters exactly as selecting every country of the table. */
  lemma EmptyCountriesMeansAll(df: seq<Row>, sel: Selection)
    requires sel.countries == {}
    ensures Filtered(df, sel) == Filtered(df, sel.(countries := CountriesOf(df)))
  {
    KeepSame(df, SelectionFilter(sel), SelectionFilter(sel.(countries := CountriesOf(df))));
  }

  /** A row whose capacity equals either end of the range is kept. */
  lemma RangeEndsIncluded(df: seq<Row>, sel: Selection, r: Row)
    requires r in df
    requires sel.owners == {} || r.owner in sel.owners
    requires sel.countries == {} || r.country in sel.countries
    requires r.capacity == Some(sel.low) || r.capacity == Some(sel.high)
    requires sel.low <= sel.high
    ensures r in Filtered(df, sel)
  {
    KeepMembers(df, SelectionFilter(sel));
  }

  /** A row of unknown capacity passes the capacity filter whatever the range. */
  lemma UnknownCapacityNeverExcluded(df: seq<Row>, low: real, high: real)
    ensures forall r :: r in df && r.capacity.None? ==> r in Keep(df, CapacityWithin(low, high))
  {
    KeepMembers(df, CapacityWithin(low, high));
  }

  /** The capacities of the table, NaN dropped (`df[COL_CAPACITY_MTPA].dropna()`). */
  function Capacities(df: seq<Row>): (cs: seq<real>)
    ensures |cs| <= |df|
    ensures forall c :: c in cs <==> exists r :: r in df && r.capacity == Some(c)
    ensures cs == [] <==> forall r :: r in df ==> r.capacity.None?
  {
    if df == [] then []
    else
      var rest := Capacities(df[1..]);
      assert forall r :: r in df <==> r == df[0] || r in df[1..];
      match df[0].capacity
      case None => rest
      case Some(c) => [c] + rest
  }

  /** One capacity per row that has one: the mean divides by this count. */
  lemma {:induction false} CapacitiesCount(df: seq<Row>)
    ensures |Capacities(df)| == |Keep(df, HasCapacity)|
  {
    if df != [] {
      CapacitiesCount(df[1..]);
    }
  }

  function Min(cs: seq<real>): (m: real)
    requires cs != []
    ensures m in cs && forall c :: c in cs ==> m <= c
  {
    if |cs| == 1 then cs[0]
    else
      var rest := Min(cs[1..]);
      assert forall c :: c in cs ==> c == cs[0] || c in cs[1..];
      if cs[0] <= rest then cs[0] else rest
  }

  function Max(cs: seq<real>): (m: real)
    requires cs != []
    ensures m in cs && forall c :: c in cs ==> c <= m
  {
    if |cs| == 1 then cs[0]
    else
      var rest := Max(cs[1..]);
      assert forall c :: c in cs ==> c == cs[0] || c in cs[1..];
      if cs[0] >= rest then cs[0] else rest
  }

  /** The slider's bounds as the dashboard computes them: the least and the
      greatest known capacity, each rounded to two decimals; (0, 0) when no
      capacity is known. */
  function CapacityBounds(df: seq<Row>): (b: (real, real))
    ensures (forall r :: r in df ==> r.capacity.None?) ==> b == (0.0, 0.0)
    ensures (exists r :: r in df && r.capacity.Some?) ==> IsCents(b.0) && IsCents(b.1)
    ensures forall r :: r in df && r.capacity.Some? ==>
              b.0 - 0.005 <= r.capacity.value <= b.1 + 0.005
    ensures (exists r :: r in df && r.capacity.Some?) ==>
              var cs := Capacities(df);
              && cs != []
              && b.0 - 0.005 <= Min(cs) <= b.0 + 0.005
              && b.1 - 0.005 <= Max(cs) <= b.1 + 0.005
  {
    var cs := Capacities(df);
    if cs == [] then (0.0, 0.0)
    else
      assert forall r :: r in df && r.capacity.Some? ==> r.capacity.value in cs;
      (Round2(Min(cs)), Round2(Max(cs)))
  }

  /** With no known capacity the range degenerates to (0, 0) and still keeps every row. */
  lemma NoCapacityKeepsEveryRow(df: seq<Row>)
    requires forall r :: r in df ==> r.capacity.None?
    ensures CapacityBounds(df) == (0.0, 0.0)
    ensures Keep(df, CapacityWithin(0.0, 0.0)) == df
  {
    KeepAll(df, CapacityWithin(0.0, 0.0));
  }

  /** Bounds rounded outwards to hundredths: the least capacity rounded down
      and the greatest rounded up. */
  function CapacityBoundsOutward(df: seq<Row>): (b: (real, real))
    ensures (forall r :: r in df ==> r.capacity.None?) ==> b == (0.0, 0.0)
    ensures forall r :: r in df ==> CapacityAdmits(b.0, b.1, r.capacity)
    ensures (exists r :: r in df && r.capacity.Some?) ==>
              var cs := Capacities(df);
              && cs != [] && IsCents(b.0) && IsCents(b.1)
              && b.0 <= Min(cs) < b.0 + 0.01
              && b.1 - 0.01 < Max(cs) <= b.1
  {
    var cs := Capacities(df);
    if cs == [] then (0.0, 0.0)
    else
      var b := (FloorCents(Min(cs)), CeilCents(Max(cs)));
      assert forall r :: r in df && r.capacity.Some? ==> r.capacity.value in cs;
      b
  }

  /** At the outward bounds the capacity filter keeps the whole table. */
  lemma OutwardBoundsKeepEveryRow(df: seq<Row>)
    ensures Keep(df, CapacityWithin(CapacityBoundsOutward(df).0, CapacityBoundsOutward(df).1)) == df
  {
    var b := CapacityBoundsOutward(df);
    KeepAll(df, CapacityWithin(b.0, b.1));
  }

  /** Two plants of 0.126 and 5 Mtpa: rounding puts the lower bound at 0.13,
      so the default range of the slider drops the smaller plant. */
  lemma RoundedBoundsDropSmallestPlant()
    ensures
      var small := Row("A", "X", "C", None, Some("126"), "1.0, 2.0", Some(0.126), Some(1.0), Some(2.0));
      var large := Row("B", "X", "C", None, Some("5000"), "3.0, 4.0", Some(5.0), Some(3.0), Some(4.0));
      var df := [small, large];
      var b := CapacityBounds(df);
      b == (0.13, 5.0) && Filtered(df, Selection({"X"}, {"C"}, b.0, b.1)) == [large]
  {
    var small := Row("A", "X", "C", None, Some("126"), "1.0, 2.0", Some(0.126), Some(1.0), Some(2.0));
    var large := Row("B", "X", "C", None, Some("5000"), "3.0, 4.0", Some(5.0), Some(3.0), Some(4.0));
    var df := [small, large];
    assert Capacities(df) == [0.126, 5.0] by {
      assert df[1..] == [large];
      assert Capacities([large]) == [5.0];
    }
    assert Min([0.126, 5.0]) == 0.126;
    assert Max([0.126, 5.0]) == 5.0;
    assert (0.126 * 100.0).Floor == 12;
    assert Round2(0.126) == 0.13;
    assert (5.0 * 100.0).Floor == 500;
    assert Round2(5.0) == 5.0;
    var sel := Selection({"X"}, {"C"}, 0.13, 5.0);
    assert !Selected(sel, small) && Selected(sel, large);
    assert df[1..] == [large];
  }
}
