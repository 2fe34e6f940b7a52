/** The plant table of the dashboard: one record per steel plant, and the
    row selection `df[mask]` that every filtering stage is built from. */
module Table {

  datatype Option<+T> = None | Some(value: T)

  /** One plant. `rawCapacity` and `coordinates` are read from the CSV file;
      `capacity` (Capacity_Mtpa), `lat` and `lon` are the columns that
      cleaning derives from them, absent (NaN) until then or when unparseable. */
  datatype Row = Row(
    name: string,
    owner: string,
    country: string,
    region: Option<string>,       // None: an empty Region cell
    rawCapacity: Option<string>,  // capacity in ttpa as written; None: an empty cell
    coordinates: string,          // "<lat>, <lon>"
    capacity: Option<real>,
    lat: Option<real>,
    lon: Option<real>)

  predicate HasCoordinates(r: Row) { r.lat.Some? && r.lon.Some? }

  predicate HasCapacity(r: Row) { r.capacity.Some? }

  /** `a` is obtained from `b` by deleting elements: nothing altered or reordered. */
  predicate SubsequenceOf(a: seq<Row>, b: seq<Row>)
    decreases |b|
  {
    a == [] || (b != [] && (SubsequenceOf(a, b[1..]) || (a[0] == b[0] && SubsequenceOf(a[1..], b[1..]))))
  }

  /** Boolean-mask selection: the elements of `s` satisfying `p`, in their order. */
  function Keep(s: seq<Row>, p: Row -> bool): (t: seq<Row>)
    ensures |t| <= |s|
    ensures forall k :: 0 <= k < |t| ==> p(t[k])
  {
    if s == [] then []
    else
      var rest := Keep(s[1..], p);
      if p(s[0]) then [s[0]] + rest else rest
  }

  /** A row is selected exactly when it is in the table and passes the mask. */
  lemma {:induction false} KeepMembers(s: seq<Row>, p: Row -> bool)
    ensures forall x :: x in Keep(s, p) <==> x in s && p(x)
  {
    if s != [] {
      KeepMembers(s[1..], p);
      assert forall x :: x in s <==> x == s[0] || x in s[1..];
    }
  }

  /** Selection only deletes rows: the result is a subsequence of the table. */
  lemma {:induction false} KeepSubsequence(s: seq<Row>, p: Row -> bool)
    ensures SubsequenceOf(Keep(s, p), s)
  {
    if s != [] {
      KeepSubsequence(s[1..], p);
      var rest := Keep(s[1..], p);
      if p(s[0]) {
        assert s[0] == ([s[0]] + rest)[0] && rest == ([s[0]] + rest)[1..];
      }
    }
  }

  /** Selection from a table with one more row in front. */
  lemma KeepCons(x: Row, s: seq<Row>, p: Row -> bool)
    ensures Keep([x] + s, p) == if p(x) then [x] + Keep(s, p) else Keep(s, p)
  {
    assert ([x] + s)[1..] == s;
  }

  lemma {:induction false} SubsequenceShorter(a: seq<Row>, b: seq<Row>)
    requires SubsequenceOf(a, b)
    ensures |a| <= |b|
    decreases |b|
  {
    if a != [] {
      if SubsequenceOf(a, b[1..]) {
        SubsequenceShorter(a, b[1..]);
      } else {
        SubsequenceShorter(a[1..], b[1..]);
      }
    }
  }

  /** A mask that every element passes selects everything. */
  lemma {:induction false} KeepAll(s: seq<Row>, p: Row -> bool)
    requires forall x :: x in s ==> p(x)
    ensures Keep(s, p) == s
  {
    if s != [] {
      KeepAll(s[1..], p);
    }
  }

  /** Two masks that agree on the elements of `s` select the same rows. */
  lemma {:induction false} KeepSame(s: seq<Row>, p: Row -> bool, q: Row -> bool)
    requires forall x :: x in s ==> p(x) == q(x)
    ensures Keep(s, p) == Keep(s, q)
  {
    if s != [] {
      KeepSame(s[1..], p, q);
    }
  }

  /** Narrowing by `p` and then by `q` is narrowing once by their conjunction. */
  lemma {:induction false} KeepKeep(s: seq<Row>, p: Row -> bool, q: Row -> bool, both: Row -> bool)
    requires forall x :: both(x) == (p(x) && q(x))
    ensures Keep(Keep(s, p), q) == Keep(s, both)
  {
    if s != [] {
      KeepKeep(s[1..], p, q, both);
    }
  }

  /** Selecting twice with the same mask changes nothing the second time. */
  lemma KeepIdempotent(s: seq<Row>, p: Row -> bool)
    ensures Keep(Keep(s, p), p) == Keep(s, p)
  {
    KeepAll(Keep(s, p), p);
  }

  /** Every element is either selected by `p` or by its negation. */
  lemma {:induction false} KeepPartition(s: seq<Row>, p: Row -> bool, notP: Row -> bool)
    requires forall x :: notP(x) == !p(x)
    ensures |Keep(s, p)| + |Keep(s, notP)| == |s|
  {
    if s != [] {
      KeepPartition(s[1..], p, notP);
    }
  }
}
