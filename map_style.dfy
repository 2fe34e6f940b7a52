/** Marker size and colour of the plant map. */
module MapStyle {
  import opened Table

  const MinRadius: real := 5000.0
  const MaxRadius: real := 80000.0

  /** `capacity * 20000` clipped to [5000, 80000]. */
  function Radius(capacity: real): (radius: real)
    ensures MinRadius <= radius <= MaxRadius
    ensures MinRadius <= capacity * 20000.0 <= MaxRadius ==> radius == capacity * 20000.0
    ensures capacity * 20000.0 < MinRadius ==> radius == MinRadius
    ensures capacity * 20000.0 > MaxRadius ==> radius == MaxRadius
  {
    var scaled := capacity * 20000.0;
    if scaled < MinRadius then MinRadius
    else if scaled > MaxRadius then MaxRadius
    else scaled
  }

  /** A larger plant never gets a smaller marker. */
  lemma RadiusMonotone(c1: real, c2: real)
    requires c1 <= c2
    ensures Radius(c1) <= Radius(c2)
  {
    assert c1 * 20000.0 <= c2 * 20000.0;
  }

  /** 0.0001 Mtpa gets the floor, 1 Mtpa gets 20000, 10 Mtpa gets the ceiling. */
  lemma RadiusExamples()
    ensures Radius(0.0001) == 5000.0
    ensures Radius(1.0) == 20000.0
    ensures Radius(10.0) == 80000.0
  {
  }

  /** An RGBA colour. */
  datatype Colour = Colour(red: int, green: int, blue: int, alpha: int)

  const Grey := Colour(128, 128, 128, 160)

  /** `region_colors`: the keys are matched exactly, the Central and South
      America key with its trailing blank. */
  const Palette: map<string, Colour> := map[
    "Asia Pacific" := Colour(250, 0, 0, 160),
    "Europe" := Colour(0, 128, 255, 160),
    "Africa" := Colour(0, 200, 0, 160),
    "North America" := Colour(255, 165, 0, 160),
    "Middle East" := Colour(255, 220, 0, 160),
    "Central & South America " := Colour(160, 32, 240, 160),
    "Eurasia" := Colour(255, 105, 180, 160)
  ]

  /** No region of the palette is drawn in the fallback grey. */
  lemma PaletteAvoidsGrey()
    ensures forall region :: region in Palette ==> Palette[region] != Grey && Palette[region].alpha == 160
  {
    assert Palette.Keys == {"Asia Pacific", "Europe", "Africa", "North America", "Middle East",
                            "Central & South America ", "Eurasia"};
  }

  /** `.map(region_colors)` followed by the grey fallback for anything that
      is not a palette key, an empty cell included. */
  function RegionColour(region: Option<string>): (c: Colour)
    ensures c.alpha == 160
    ensures c == Grey <==> region.None? || region.value !in Palette
    ensures region.Some? && region.value in Palette ==> c == Palette[region.value]
  {
    PaletteAvoidsGrey();
    if region.Some? && region.value in Palette then Palette[region.value] else Grey
  }

  /** The region name without the trailing blank is not a palette key, so its
      plants are drawn grey; the key as written gets purple. */
  lemma CentralSouthAmericaColour()
    ensures RegionColour(Some("Central & South America")) == Grey
    ensures RegionColour(Some("Central & South America ")) == Colour(160, 32, 240, 160)
    ensures RegionColour(Some("Europe")) == Colour(0, 128, 255, 160)
    ensures RegionColour(None) == Grey
  {
    assert "Central & South America" !in Palette by {
      assert Palette.Keys == {"Asia Pacific", "Europe", "Africa", "North America", "Middle East",
                              "Central & South America ", "Eurasia"};
      assert |"Central & South America"| == 23 && |"Central & South America "| == 24;
    }
  }

  /** One point of the scatter layer. */
  datatype Marker = Marker(plant: Row, radius: real, colour: Colour)

  /** Rows that can be drawn: both coordinates and a capacity known. */
  function Plottable(r: Row): (plottable: bool)
    ensures plottable ==> HasCoordinates(r) && r.capacity.Some?
                          && MinRadius <= Radius(r.capacity.value) <= MaxRadius
  {
    HasCoordinates(r) && HasCapacity(r)
  }

  /** Lines 148-171: `map_data` keeps the plottable rows of the filtered table,
      then gains a radius column and a colour column. */
  method BuildMapData(filtered: seq<Row>) returns (markers: seq<Marker>)
    ensures |markers| == |Keep(filtered, Plottable)|
    ensures forall k :: 0 <= k < |markers| ==>
              && markers[k].plant == Keep(filtered, Plottable)[k]
              && markers[k].radius == Radius(markers[k].plant.capacity.value)
              && markers[k].colour == RegionColour(markers[k].plant.region)
    ensures forall k :: 0 <= k < |markers| ==>
              markers[k].plant in filtered && Plottable(markers[k].plant)
              && MinRadius <= markers[k].radius <= MaxRadius
  {
    var mapData := Keep(filtered, Plottable);
    KeepMembers(filtered, Plottable);
    var radius := seq(|mapData|, k requires 0 <= k < |mapData| => Radius(mapData[k].capacity.value));
    var colour := seq(|mapData|, k requires 0 <= k < |mapData| => RegionColour(mapData[k].region));
    markers := seq(|mapData|, k requires 0 <= k < |mapData| => Marker(mapData[k], radius[k], colour[k]));
  }
}
