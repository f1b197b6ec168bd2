/**
 Point extraction of the panel: every data series is searched for its first
 longitude field and its first latitude field, and when both exist their
 values are paired row by row.  Points are collected in series order, then
 row order.
 */
module Extraction {
  import opened Text

  datatype Option<T> = None | Some(value: T)

  /** A named column of a data series. */
  datatype Field = Field(name: string, values: seq<real>)

  datatype Series = Series(fields: seq<Field>)

  /** One track point: x is the longitude, y the latitude. */
  datatype Coordinate = Coordinate(x: real, y: real)

  const LonPrefix: string := "lon"
  const LatPrefix: string := "lat"

  /** Position of the first field whose lower-cased name starts with `prefix`,
      or None when no field does. */
  function FindField(fields: seq<Field>, prefix: string): (r: Option<nat>)
    ensures r.Some? ==> r.value < |fields| && NameMatches(fields[r.value].name, prefix)
    ensures r.Some? ==> forall j :: 0 <= j < r.value ==> !NameMatches(fields[j].name, prefix)
    ensures r.None? ==> forall j :: 0 <= j < |fields| ==> !NameMatches(fields[j].name, prefix)
  {
    if |fields| == 0 then None
    else if NameMatches(fields[0].name, prefix) then Some(0)
    else match FindField(fields[1..], prefix)
      case None => None
      case Some(i) => Some(i + 1)
  }

  /** Both a longitude and a latitude field are present. */
  predicate Contributes(s: Series) {
    FindField(s.fields, LonPrefix).Some? && FindField(s.fields, LatPrefix).Some?
  }

  function LonField(s: Series): Field
    requires Contributes(s)
  {
    s.fields[FindField(s.fields, LonPrefix).value]
  }

  function LatField(s: Series): Field
    requires Contributes(s)
  {
    s.fields[FindField(s.fields, LatPrefix).value]
  }

  /** Every row the longitude field drives has a latitude value to pair with. */
  predicate Readable(s: Series) {
    Contributes(s) ==> |LonField(s).values| <= |LatField(s).values|
  }

  predicate AllReadable(series: seq<Series>) {
    forall k :: 0 <= k < |series| ==> Readable(series[k])
  }

  /** Number of points a series contributes: the length of its longitude field, or none. */
  function RowCount(s: Series): (n: nat) {
    if Contributes(s) then |LonField(s).values| else 0
  }

  function TotalRows(series: seq<Series>): (n: nat) {
    if |series| == 0 then 0
    else TotalRows(series[..|series| - 1]) + RowCount(series[|series| - 1])
  }

  /** Row-by-row pairing.  It stops at the end of either column; where the
      panel's loop runs, `xs` (the longitude values) is the shorter one. */
  function Zip(xs: seq<real>, ys: seq<real>): (r: seq<Coordinate>)
    ensures |r| == (if |xs| <= |ys| then |xs| else |ys|)
    ensures forall i :: 0 <= i < |r| ==> r[i] == Coordinate(xs[i], ys[i])
  {
    if |xs| == 0 || |ys| == 0 then []
    else [Coordinate(xs[0], ys[0])] + Zip(xs[1..], ys[1..])
  }

  /** The block of points one series contributes: nothing without both
      fields, otherwise one point per longitude value. */
  function SeriesPoints(s: Series): (r: seq<Coordinate>)
    ensures !Contributes(s) ==> r == []
    ensures Contributes(s) && Readable(s) ==>
              |r| == |LonField(s).values| &&
              forall i :: 0 <= i < |r| ==> r[i] == Coordinate(LonField(s).values[i], LatField(s).values[i])
  {
    if Contributes(s) then Zip(LonField(s).values, LatField(s).values) else []
  }

  /** Concatenation of the blocks `f` gives each element, in order. */
  function FlatMap<A, B>(f: A -> seq<B>, xs: seq<A>): (r: seq<B>) {
    if |xs| == 0 then []
    else FlatMap(f, xs[..|xs| - 1]) + f(xs[|xs| - 1])
  }

  /** Only empty blocks concatenate to nothing. */
  lemma {:induction false} FlatMapEmpty<A, B>(f: A -> seq<B>, xs: seq<A>)
    ensures (forall i :: 0 <= i < |xs| ==> f(xs[i]) == []) ==> FlatMap(f, xs) == []
    decreases |xs|
  {
    if |xs| > 0 && forall i :: 0 <= i < |xs| ==> f(xs[i]) == [] {
      var init := xs[..|xs| - 1];
      assert forall i :: 0 <= i < |init| ==> f(init[i]) == [] by {
        forall i | 0 <= i < |init| ensures f(init[i]) == [] {
          assert init[i] == xs[i];
        }
      }
      FlatMapEmpty(f, init);
      assert f(xs[|xs| - 1]) == [];
    }
  }

  lemma {:induction false} FlatMapAppend<A, B>(f: A -> seq<B>, a: seq<A>, b: seq<A>)
    ensures FlatMap(f, a + b) == FlatMap(f, a) + FlatMap(f, b)
    decreases |b|
  {
    if |b| == 0 {
      assert a + b == a;
    } else {
      var b' := b[..|b| - 1];
      FlatMapAppend(f, a, b');
      assert (a + b)[..|a + b| - 1] == a + b';
      assert (a + b)[|a + b| - 1] == b[|b| - 1];
    }
  }

  /** All points, series by series.  A list in which no series has both
      fields yields nothing. */
  function Extract(series: seq<Series>): (r: seq<Coordinate>)
    ensures (forall k :: 0 <= k < |series| ==> !Contributes(series[k])) ==> r == []
  {
    FlatMapEmpty(SeriesPoints, series);
    FlatMap(SeriesPoints, series)
  }

  /** With every series readable there is one point per longitude value of
      every contributing series. */
  lemma {:induction false} ExtractLength(series: seq<Series>)
    requires AllReadable(series)
    ensures |Extract(series)| == TotalRows(series)
    decreases |series|
  {
    if |series| > 0 {
      AllReadablePrefix(series, |series| - 1);
      ExtractLength(series[..|series| - 1]);
    }
  }

  lemma AllReadablePrefix(series: seq<Series>, n: nat)
    requires AllReadable(series) && n <= |series|
    ensures AllReadable(series[..n])
  {
    forall k | 0 <= k < n ensures Readable(series[..n][k]) {
      assert series[..n][k] == series[k];
    }
  }

  /** A series contributes exactly when some field qualifies as longitude and
      some field qualifies as latitude. */
  lemma ContributesIff(s: Series)
    ensures Contributes(s) <==>
              (exists i :: 0 <= i < |s.fields| && NameMatches(s.fields[i].name, LonPrefix)) &&
              (exists j :: 0 <= j < |s.fields| && NameMatches(s.fields[j].name, LatPrefix))
  {
    var lon := FindField(s.fields, LonPrefix);
    var lat := FindField(s.fields, LatPrefix);
    if lon.Some? && lat.Some? {
      assert NameMatches(s.fields[lon.value].name, LonPrefix);
      assert NameMatches(s.fields[lat.value].name, LatPrefix);
    }
  }

  /** Extraction distributes over concatenation of series lists: the points of
      earlier series come first. */
  lemma ExtractAppend(a: seq<Series>, b: seq<Series>)
    ensures Extract(a + b) == Extract(a) + Extract(b)
  {
    FlatMapAppend(SeriesPoints, a, b);
  }

  /** Row i of series k lands right after the points of the series before
      it: series order, then row order, each point pairing the longitude and
      latitude values of one row. */
  lemma ExtractAt(series: seq<Series>, k: nat, i: nat)
    requires k < |series| && Readable(series[k]) && i < RowCount(series[k])
    ensures |Extract(series[..k])| + i < |Extract(series)|
    ensures Extract(series)[|Extract(series[..k])| + i]
            == Coordinate(LonField(series[k]).values[i], LatField(series[k]).values[i])
  {
    var before, after := series[..k], series[k + 1..];
    assert series == before + [series[k]] + after;
    ExtractAppend(before + [series[k]], after);
    ExtractAppend(before, [series[k]]);
    assert [series[k]][..0] == [];
    assert Extract([series[k]]) == SeriesPoints(series[k]);
  }

  /** Extending the list by one series appends that series' block. */
  lemma ExtractSnoc(series: seq<Series>, k: nat)
    requires k < |series|
    ensures Extract(series[..k + 1]) == Extract(series[..k]) + SeriesPoints(series[k])
  {
    assert series[..k + 1][..k] == series[..k];
    assert series[..k + 1][k] == series[k];
  }

  /** The body run for one series: find the first longitude and latitude
      fields and, if both exist, push one point per longitude value. */
  method CollectSeries(s: Series) returns (block: seq<Coordinate>)
    requires Readable(s)
    ensures block == SeriesPoints(s)
  {
    block := [];
    var lon := FindField(s.fields, LonPrefix);
    var lat := FindField(s.fields, LatPrefix);
    if lon.Some? && lat.Some? {
      var xField := s.fields[lon.value];
      var yField := s.fields[lat.value];
      assert xField == LonField(s) && yField == LatField(s);
      var i := 0;
      while i < |xField.values|
        invariant 0 <= i <= |xField.values|
        invariant |block| == i
        invariant forall j :: 0 <= j < i ==> block[j] == Coordinate(xField.values[j], yField.values[j])
      {
        block := block + [Coordinate(xField.values[i], yField.values[i])];
        i := i + 1;
      }
    }
  }

  /** The collecting loop of the panel: series in order, and within each
      series its rows in order. */
  method ExtractCoordinates(series: seq<Series>) returns (coords: seq<Coordinate>)
    requires AllReadable(series)
    ensures coords == Extract(series)
    ensures |coords| == TotalRows(series)
  {
    ExtractLength(series);
    coords := [];
    var k := 0;
    while k < |series|
      invariant 0 <= k <= |series|
      invariant coords == Extract(series[..k])
    {
      var block := CollectSeries(series[k]);
      ExtractSnoc(series, k);
      coords := coords + block;
      k := k + 1;
    }
    assert series[..k] == series;
  }

  /** A series with lon = [1, 2, 3] and lat = [4, 5, 6] yields the three
      pairs in row order. */
  lemma ExtractPairsRows()
    ensures var s := Series([Field("lon", [1.0, 2.0, 3.0]), Field("lat", [4.0, 5.0, 6.0])]);
            AllReadable([s]) &&
            Extract([s]) == [Coordinate(1.0, 4.0), Coordinate(2.0, 5.0), Coordinate(3.0, 6.0)]
  {
    var s := Series([Field("lon", [1.0, 2.0, 3.0]), Field("lat", [4.0, 5.0, 6.0])]);
    NameMatchesByChars("lon", LonPrefix);
    NameMatchesByChars("lat", LatPrefix);
    LonLatExclusive("lon");
    assert FindField(s.fields, LonPrefix) == Some(0);
    assert FindField(s.fields[1..], LatPrefix) == Some(0);
    assert FindField(s.fields, LatPrefix) == Some(1);
    assert [s][..0] == [];
  }

  /** A series with a longitude field but no latitude field contributes nothing. */
  lemma ExtractNeedsBothFields()
    ensures var s := Series([Field("Longitude", [1.0, 2.0])]);
            AllReadable([s]) && Extract([s]) == []
  {
    var s := Series([Field("Longitude", [1.0, 2.0])]);
    NameMatchesByChars("Longitude", LonPrefix);
    LonLatExclusive("Longitude");
    assert FindField(s.fields[1..], LatPrefix) == None;
    assert FindField(s.fields, LatPrefix) == None;
    assert [s][..0] == [];
  }

  /** When two fields qualify as longitude, the first one in field order is used. */
  lemma ExtractUsesFirstMatch()
    ensures var s := Series([Field("LON", [7.0]), Field("Lat", [8.0]), Field("lon2", [9.0])]);
            AllReadable([s]) && Extract([s]) == [Coordinate(7.0, 8.0)]
  {
    var s := Series([Field("LON", [7.0]), Field("Lat", [8.0]), Field("lon2", [9.0])]);
    NameMatchesByChars("LON", LonPrefix);
    NameMatchesByChars("Lat", LatPrefix);
    LonLatExclusive("LON");
    assert FindField(s.fields, LonPrefix) == Some(0);
    assert FindField(s.fields[1..], LatPrefix) == Some(0);
    assert FindField(s.fields, LatPrefix) == Some(1);
    assert [s][..0] == [];
  }
}
