/** `load_and_clean_data`: derive the capacity in Mtpa, split the composite
    coordinate text into latitude and longitude, and drop unplottable rows.

    Numeric parsing (`pd.to_numeric(..., errors='coerce')`) belongs to the
    dataframe library; it is the parameter `parse`, which gives None where the
    library gives NaN. */
module Cleaning {
  import opened Table

  /** The literal separator of the coordinate column. */
  predicate IsSeparatorAt(s: string, i: int) {
    0 <= i && i + 1 < |s| && s[i] == ',' && s[i + 1] == ' '
  }

  predicate HasSeparator(s: string) {
    exists i | 0 <= i < |s| :: IsSeparatorAt(s, i)
  }

  /** The parts put back together with ", " between them. */
  function Join(parts: seq<string>): string
    requires |parts| >= 1
  {
    if |parts| == 1 then parts[0] else parts[0] + ", " + Join(parts[1..])
  }

  /** `s.split(", ")`: cut at every separator, scanning from the left. */
  function Split(s: string): (parts: seq<string>)
    ensures |parts| >= 1
    ensures Join(parts) == s
    ensures forall k :: 0 <= k < |parts| ==> !HasSeparator(parts[k])
  {
    if |s| == 0 then
      assert !HasSeparator("") by { assert forall i :: !IsSeparatorAt("", i); }
      [""]
    else if IsSeparatorAt(s, 0) then
      var rest := Split(s[2..]);
      assert !HasSeparator("") by { assert forall i :: !IsSeparatorAt("", i); }
      assert Join([""] + rest) == "" + ", " + Join(rest) by { assert ([""] + rest)[1..] == rest; }
      assert s == ", " + s[2..];
      [""] + rest
    else
      var rest := Split(s[1..]);
      PrependToFirstPart(s, rest);
      [[s[0]] + rest[0]] + rest[1..]
  }

  /** Putting the first character of `s` in front of the first part of the
      split of the remainder gives a split of `s`, when `s` does not start
      with the separator. */
  lemma PrependToFirstPart(s: string, rest: seq<string>)
    requires |s| > 0 && !IsSeparatorAt(s, 0)
    requires |rest| >= 1 && Join(rest) == s[1..]
    requires forall k :: 0 <= k < |rest| ==> !HasSeparator(rest[k])
    ensures var parts := [[s[0]] + rest[0]] + rest[1..];
      && Join(parts) == s
      && forall k :: 0 <= k < |parts| ==> !HasSeparator(parts[k])
  {
    FirstPartIsPrefix(rest, s[1..]);
    assert |rest[0]| > 0 ==> rest[0][0] == s[1];
    PrependNoSeparator(s[0], rest[0]);
    JoinPrepend([s[0]], rest[0], rest[1..]);
    assert rest == [rest[0]] + rest[1..];
    assert s == [s[0]] + s[1..];
  }

  /** One character in front of a separator-free text adds no separator,
      unless it is a comma before a blank. */
  lemma PrependNoSeparator(c: char, t: string)
    requires !HasSeparator(t)
    requires !(c == ',' && |t| > 0 && t[0] == ' ')
    ensures !HasSeparator([c] + t)
  {
    var u := [c] + t;
    forall i | 0 <= i < |u| ensures !IsSeparatorAt(u, i) {
      if i > 0 {
        assert !IsSeparatorAt(t, i - 1);
      }
    }
  }

  /** Join of a list whose first part gained a prefix. */
  lemma JoinPrepend(pre: string, head: string, tail: seq<string>)
    ensures Join([pre + head] + tail) == pre + Join([head] + tail)
  {
    JoinCons(pre + head, tail);
    JoinCons(head, tail);
    if tail != [] {
      var j := Join(tail);
      assert (pre + head) + ", " + j == pre + (head + ", " + j);
    }
  }

  /** Join of a list given as its first part and the rest. */
  lemma JoinCons(head: string, tail: seq<string>)
    ensures Join([head] + tail) == if tail == [] then head else head + ", " + Join(tail)
  {
    assert ([head] + tail)[1..] == tail;
  }

  /** The first part of a joined list is a prefix of the whole text. */
  lemma FirstPartIsPrefix(parts: seq<string>, s: string)
    requires |parts| >= 1 && Join(parts) == s
    ensures |parts[0]| <= |s| && s[..|parts[0]|] == parts[0]
  {
    if |parts| > 1 {
      assert s == parts[0] + (", " + Join(parts[1..]));
    }
  }

  /** Joining two or more parts puts a separator right after the first. */
  lemma SeparatorAfterFirstPart(parts: seq<string>)
    requires |parts| >= 2
    ensures IsSeparatorAt(Join(parts), |parts[0]|)
  {
    assert Join(parts) == parts[0] + ", " + Join(parts[1..]);
  }

  /** A text without a comma has no separator. */
  lemma NoCommaNoSeparator(s: string)
    requires ',' !in s
    ensures !HasSeparator(s)
  {
    forall i | 0 <= i < |s| ensures !IsSeparatorAt(s, i) {
      assert s[i] in s;
    }
  }

  /** A text with no separator is one part. */
  lemma {:induction false} SplitWithoutSeparator(s: string)
    requires !HasSeparator(s)
    ensures Split(s) == [s]
  {
    if |s| > 0 {
      assert !IsSeparatorAt(s, 0);
      assert !HasSeparator(s[1..]) by {
        forall i | IsSeparatorAt(s[1..], i) ensures false {
          assert IsSeparatorAt(s, i + 1);
        }
      }
      SplitWithoutSeparator(s[1..]);
      assert [s[0]] + s[1..] == s;
    }
  }

  /** Splitting `p + ", " + t` for a separator-free `p` yields `p` and the parts of `t`. */
  lemma {:induction false} SplitAfterPart(p: string, t: string)
    requires !HasSeparator(p)
    ensures Split(p + ", " + t) == [p] + Split(t)
  {
    if |p| == 0 {
      var s := p + ", " + t;
      assert IsSeparatorAt(s, 0);
      assert s[2..] == t;
    } else {
      var s := p + ", " + t;
      var tail := p[1..];
      assert !HasSeparator(tail) by {
        forall i | IsSeparatorAt(tail, i) ensures false {
          assert IsSeparatorAt(p, i + 1);
        }
      }
      assert !IsSeparatorAt(s, 0) by {
        if |p| >= 2 {
          assert s[0] == p[0] && s[1] == p[1];
          assert !IsSeparatorAt(p, 0);
        } else {
          assert s[1] == ',';
        }
      }
      assert s[1..] == tail + ", " + t;
      SplitAfterPart(tail, t);
      assert [p[0]] + tail == p;
    }
  }

  /** Split undoes Join when no part contains the separator. */
  lemma {:induction false} SplitJoin(parts: seq<string>)
    requires |parts| >= 1
    requires forall k :: 0 <= k < |parts| ==> !HasSeparator(parts[k])
    ensures Split(Join(parts)) == parts
  {
    if |parts| == 1 {
      SplitWithoutSeparator(parts[0]);
    } else {
      SplitJoin(parts[1..]);
      SplitAfterPart(parts[0], Join(parts[1..]));
      assert [parts[0]] + parts[1..] == parts;
    }
  }

  /** Capacity_Mtpa: the parsed ttpa value divided by 1000, absent when the
      cell is empty or does not parse. */
  function DeriveCapacity(raw: Option<string>, parse: string -> Option<real>): (c: Option<real>)
    ensures c.Some? <==> raw.Some? && parse(raw.value).Some?
    ensures c.Some? ==> c.value * 1000.0 == parse(raw.value).value
  {
    if raw.None? then None
    else match parse(raw.value)
      case None => None
      case Some(ttpa) => Some(ttpa / 1000.0)
  }

  /** Latitude from the first part of the split, longitude from the second
      part when there is one. */
  function ParseCoordinates(text: string, parse: string -> Option<real>): (c: (Option<real>, Option<real>))
    ensures c.1.Some? ==> HasSeparator(text)
    ensures !HasSeparator(text) ==> c == (parse(text), None)
  {
    var parts := Split(text);
    if |parts| >= 2 then
      SeparatorAfterFirstPart(parts);
      (parse(parts[0]), parse(parts[1]))
    else
      assert !HasSeparator(text) by { SplitWithoutSeparator(text); }
      (parse(parts[0]), None)
  }

  /** "<lat>, <lon>" with separator-free halves parses each half. */
  lemma ParseFormattedCoordinates(latText: string, lonText: string, parse: string -> Option<real>)
    requires !HasSeparator(latText) && !HasSeparator(lonText)
    ensures ParseCoordinates(latText + ", " + lonText, parse) == (parse(latText), parse(lonText))
  {
    SplitJoin([latText, lonText]);
    assert Join([latText, lonText]) == latText + ", " + lonText;
  }

  /** The derived columns of one row (lines 35 and 38-42); every other field is kept. */
  function Prepare(r: Row, parse: string -> Option<real>): (p: Row)
    ensures p.(capacity := r.capacity, lat := r.lat, lon := r.lon) == r
    ensures p.capacity == DeriveCapacity(r.rawCapacity, parse)
    ensures (p.lat, p.lon) == ParseCoordinates(r.coordinates, parse)
  {
    var (lat, lon) := ParseCoordinates(r.coordinates, parse);
    r.(capacity := DeriveCapacity(r.rawCapacity, parse), lat := lat, lon := lon)
  }

  function Prepared(raw: seq<Row>, parse: string -> Option<real>): (t: seq<Row>)
    ensures |t| == |raw|
    ensures forall i :: 0 <= i < |raw| ==> t[i] == Prepare(raw[i], parse)
  {
    seq(|raw|, i requires 0 <= i < |raw| => Prepare(raw[i], parse))
  }

  /** The cleaned table: every row prepared, those missing a coordinate dropped. */
  function Cleaned(raw: seq<Row>, parse: string -> Option<real>): seq<Row>
  {
    Keep(Prepared(raw, parse), HasCoordinates)
  }

  /** `load_and_clean_data` after `read_csv`: the columns are assigned one
      after the other and `df` is rebound to its `dropna` result. */
  method LoadAndClean(raw: seq<Row>, parse: string -> Option<real>) returns (df: seq<Row>)
    ensures df == Cleaned(raw, parse)
    ensures forall r :: r in df ==> HasCoordinates(r)
    ensures SubsequenceOf(df, Prepared(raw, parse))
    ensures forall i :: 0 <= i < |raw| ==>
              (Prepare(raw[i], parse) in df <==> HasCoordinates(Prepare(raw[i], parse)))
  {
    df := raw;
    df := seq(|df|, i requires 0 <= i < |df| =>
            df[i].(capacity := DeriveCapacity(df[i].rawCapacity, parse)));
    var coords := seq(|df|, i requires 0 <= i < |df| => ParseCoordinates(df[i].coordinates, parse));
    df := seq(|df|, i requires 0 <= i < |df| => df[i].(lat := coords[i].0));
    df := seq(|df|, i requires 0 <= i < |df| => df[i].(lon := coords[i].1));
    assert df == Prepared(raw, parse);
    df := Keep(df, HasCoordinates);
    KeepMembers(Prepared(raw, parse), HasCoordinates);
    KeepSubsequence(Prepared(raw, parse), HasCoordinates);
    forall i | 0 <= i < |raw| ensures Prepare(raw[i], parse) in Prepared(raw, parse) {
      assert Prepared(raw, parse)[i] == Prepare(raw[i], parse);
    }
  }

  /** The coordinate text of the original dataset splits into its two numbers. */
  lemma SplitExample()
    ensures Split("36.7539610, 6.2444200") == ["36.7539610", "6.2444200"]
  {
    var lat, lon := "36.7539610", "6.2444200";
    NoCommaNoSeparator(lat);
    NoCommaNoSeparator(lon);
    SplitJoin([lat, lon]);
    JoinCons(lat, [lon]);
    assert lat + ", " + lon == "36.7539610, 6.2444200";
  }

  /** 1500 ttpa is 1.5 Mtpa; a placeholder that does not parse gives no capacity. */
  lemma DeriveCapacityExamples(parse: string -> Option<real>)
    requires parse("1500") == Some(1500.0)
    requires parse("unknown") == None
    ensures DeriveCapacity(Some("1500"), parse) == Some(1.5)
    ensures DeriveCapacity(Some("unknown"), parse) == None
    ensures DeriveCapacity(None, parse) == None
  {
  }

  /** Coordinate text without the separator has no longitude, so its row is dropped. */
  lemma UnseparatedCoordinatesDropped(raw: seq<Row>, i: int, parse: string -> Option<real>)
    requires 0 <= i < |raw|
    requires !HasSeparator(raw[i].coordinates)
    ensures Prepare(raw[i], parse) !in Cleaned(raw, parse)
  {
  }

  /** The text "bad" has no separator. */
  lemma BadHasNoSeparator()
    ensures !HasSeparator("bad")
  {
    NoCommaNoSeparator("bad");
  }
}
