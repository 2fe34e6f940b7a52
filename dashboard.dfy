/** One run of the dashboard script for given widget values: clean the table,
    filter it, stop with a message when nothing matches, otherwise compute the
    key figures and the map layer. */
module Dashboard {
  import opened Table
  import opened Cleaning
  import opened Filters
  import opened Metrics
  import opened MapStyle

  /** What the page shows: the "no steel plants match" error, or the three views. */
  datatype View =
    | NoMatch
    | Rendered(kpis: KpiPanel, markers: seq<Marker>, table: seq<Row>)

  /** Lines 50, 99-111, 115-117, 125-128 and 148-171 in order. */
  method Render(raw: seq<Row>, parse: string -> Option<real>, sel: Selection) returns (view: View)
    ensures view.NoMatch? <==> Filtered(Cleaned(raw, parse), sel) == []
    ensures view.Rendered? ==>
              && view.table == Filtered(Cleaned(raw, parse), sel)
              && view.kpis == Kpis(view.table)
              && view.kpis.totalPlants > 0
              && |view.markers| == |Keep(view.table, Plottable)|
              && (forall k :: 0 <= k < |view.markers| ==>
                   && view.markers[k].plant == Keep(view.table, Plottable)[k]
                   && view.markers[k].radius == Radius(view.markers[k].plant.capacity.value)
                   && view.markers[k].colour == RegionColour(view.markers[k].plant.region))
              && (forall k :: 0 <= k < |view.markers| ==>
                   view.markers[k].plant in view.table && Plottable(view.markers[k].plant))
  {
    var df := LoadAndClean(raw, parse);
    var filtered := ApplyFilters(df, sel);
    if filtered == [] {
      return NoMatch;
    }
    var kpis := Kpis(filtered);
    var markers := BuildMapData(filtered);
    view := Rendered(kpis, markers, filtered);
  }

  function FixtureRow(name: string, capacity: string, latText: string, lonText: string): Row
  {
    Row(name, "Owner", "Country", Some("Africa"), Some(capacity), latText + ", " + lonText, None, None, None)
  }

  /** Five plants: the fourth has the coordinate text "bad", the third the
      capacity "unknown". */
  function Fixture(): seq<Row>
  {
    [ FixtureRow("P1", "1000", "10.5", "20.5"),
      FixtureRow("P2", "2000", "11.5", "21.5"),
      FixtureRow("P3", "unknown", "12.5", "22.5"),
      Row("P4", "Owner", "Country", Some("Africa"), Some("4000"), "bad", None, None, None),
      FixtureRow("P5", "5000", "13.5", "23.5") ]
  }

  /** What the fixture needs of the number parser. */
  predicate FixtureParses(parse: string -> Option<real>)
  {
    && parse("10.5").Some? && parse("20.5").Some? && parse("11.5").Some? && parse("21.5").Some?
    && parse("12.5").Some? && parse("22.5").Some? && parse("13.5").Some? && parse("23.5").Some?
    && parse("1000").Some? && parse("2000").Some? && parse("5000").Some? && parse("unknown").None?
  }

  /** Cleaning the fixture keeps four rows, three of them with a capacity, and
      the unfiltered plant count is four. */
  lemma FixtureEndToEnd(parse: string -> Option<real>)
    requires FixtureParses(parse)
    ensures |Cleaned(Fixture(), parse)| == 4
    ensures |Capacities(Cleaned(Fixture(), parse))| == 3
    ensures Kpis(Cleaned(Fixture(), parse)).totalPlants == 4
  {
    FixtureCleaned(parse);
    FixtureCapacitiesKnown(parse);
    var raw := Fixture();
    ThreeCapacities(Prepare(raw[0], parse), Prepare(raw[1], parse), Prepare(raw[2], parse), Prepare(raw[4], parse));
  }

  /** The third fixture plant is the only one whose capacity does not parse. */
  lemma FixtureCapacitiesKnown(parse: string -> Option<real>)
    requires FixtureParses(parse)
    ensures var raw := Fixture();
      && HasCapacity(Prepare(raw[0], parse)) && HasCapacity(Prepare(raw[1], parse))
      && !HasCapacity(Prepare(raw[2], parse)) && HasCapacity(Prepare(raw[4], parse))
  {
    var raw := Fixture();
    assert raw[0].rawCapacity == Some("1000") && raw[1].rawCapacity == Some("2000");
    assert raw[2].rawCapacity == Some("unknown") && raw[4].rawCapacity == Some("5000");
  }

  lemma ThreeCapacities(a: Row, b: Row, c: Row, d: Row)
    requires HasCapacity(a) && HasCapacity(b) && !HasCapacity(c) && HasCapacity(d)
    ensures |Capacities([a, b, c, d])| == 3
  {
    assert [a, b, c, d][1..] == [b, c, d] && [b, c, d][1..] == [c, d];
    assert [c, d][1..] == [d] && [d][1..] == [];
    assert |Capacities([d])| == 1;
    assert |Capacities([c, d])| == 1;
    assert |Capacities([b, c, d])| == 2;
  }

  /** The cleaned fixture is the first, second, third and fifth plant, prepared. */
  lemma FixtureCleaned(parse: string -> Option<real>)
    requires FixtureParses(parse)
    ensures var raw := Fixture();
      Cleaned(raw, parse) == [Prepare(raw[0], parse), Prepare(raw[1], parse), Prepare(raw[2], parse), Prepare(raw[4], parse)]
  {
    FixtureCoordinatesKnown(parse);
    CleanedDropsFourth(Fixture(), parse);
  }

  /** Only the fourth fixture row lacks a coordinate once prepared. */
  lemma FixtureCoordinatesKnown(parse: string -> Option<real>)
    requires FixtureParses(parse)
    ensures var raw := Fixture();
      && HasCoordinates(Prepare(raw[0], parse)) && HasCoordinates(Prepare(raw[1], parse))
      && HasCoordinates(Prepare(raw[2], parse)) && !HasCoordinates(Prepare(raw[3], parse))
      && HasCoordinates(Prepare(raw[4], parse))
  {
    FixtureRowKept(parse, 0, "10.5", "20.5");
    FixtureRowKept(parse, 1, "11.5", "21.5");
    FixtureRowKept(parse, 2, "12.5", "22.5");
    FixtureRowKept(parse, 4, "13.5", "23.5");
    BadHasNoSeparator();
  }

  /** Five raw rows of which only the fourth loses a coordinate clean to the other four. */
  lemma CleanedDropsFourth(raw: seq<Row>, parse: string -> Option<real>)
    requires |raw| == 5
    requires HasCoordinates(Prepare(raw[0], parse)) && HasCoordinates(Prepare(raw[1], parse))
    requires HasCoordinates(Prepare(raw[2], parse)) && !HasCoordinates(Prepare(raw[3], parse))
    requires HasCoordinates(Prepare(raw[4], parse))
    ensures Cleaned(raw, parse) == [Prepare(raw[0], parse), Prepare(raw[1], parse), Prepare(raw[2], parse), Prepare(raw[4], parse)]
  {
    var p := Prepared(raw, parse);
    assert p == [p[0], p[1], p[2], p[3], p[4]];
    KeepDropsFourth(p[0], p[1], p[2], p[3], p[4]);
  }

  /** A fixture row whose coordinate text is two parseable numbers keeps both coordinates. */
  lemma FixtureRowKept(parse: string -> Option<real>, k: nat, latText: string, lonText: string)
    requires k < 5 && Fixture()[k].coordinates == latText + ", " + lonText
    requires ',' !in latText && ',' !in lonText
    requires parse(latText).Some? && parse(lonText).Some?
    ensures HasCoordinates(Prepare(Fixture()[k], parse))
  {
    NoCommaNoSeparator(latText);
    NoCommaNoSeparator(lonText);
    ParseFormattedCoordinates(latText, lonText, parse);
  }

  lemma KeepDropsFourth(a: Row, b: Row, c: Row, d: Row, e: Row)
    requires HasCoordinates(a) && HasCoordinates(b) && HasCoordinates(c)
    requires !HasCoordinates(d) && HasCoordinates(e)
    ensures Keep([a, b, c, d, e], HasCoordinates) == [a, b, c, e]
  {
    KeepCons(e, [], HasCoordinates);
    assert [e] == [e] + [];
    KeepCons(d, [e], HasCoordinates);
    assert [d, e] == [d] + [e];
    KeepCons(c, [d, e], HasCoordinates);
    assert [c, d, e] == [c] + [d, e];
    KeepCons(b, [c, d, e], HasCoordinates);
    assert [b, c, d, e] == [b] + [c, d, e];
    KeepCons(a, [b, c, d, e], HasCoordinates);
    assert [a, b, c, d, e] == [a] + [b, c, d, e];
  }
}
