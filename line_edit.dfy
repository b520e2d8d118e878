/** The line-editing logic of the controls: vertex lookup, midpoint
    insertion, the extend-from-last-vertex hint, and the ordering and
    concatenation used to join two lines. */
module LineEdit {
  import opened Features

  /** The `every` test of findPointInLine: each component of the vertex,
      compared by position, equals the point's component at that index.
      Only the vertex's own components are visited, so a point with extra
      trailing components still matches, and one with fewer does not
      (its missing components read as `undefined`). */
  predicate Matches(vertex: Position, point: Position)
    ensures Matches(vertex, point) <==> vertex <= point
  {
    |vertex| <= |point| && forall k :: 0 <= k < |vertex| ==> vertex[k] == point[k]
  }

  /** Between positions of the same arity the componentwise test is plain
      equality. */
  lemma MatchesAtSameArity(vertex: Position, point: Position)
    requires |vertex| == |point|
    ensures Matches(vertex, point) <==> vertex == point
  {
  }

  /** The `findIndex` scan from index `from` on. */
  function FindFrom(coords: seq<Position>, point: Position, from: nat): (r: int)
    requires from <= |coords|
    decreases |coords| - from
    ensures r == -1 || from <= r < |coords|
    ensures r == -1 ==> forall j :: from <= j < |coords| ==> !Matches(coords[j], point)
    ensures r != -1 ==>
      (Matches(coords[r], point) && forall j :: from <= j < r ==> !Matches(coords[j], point))
  {
    if from == |coords| then -1
    else if Matches(coords[from], point) then from
    else FindFrom(coords, point, from + 1)
  }

  /** findPointInLine: the first index whose vertex matches the point, or
      -1 when none does. */
  function FindPointInLine(coords: seq<Position>, point: Position): (r: int)
    ensures -1 <= r < |coords|
    ensures r == -1 <==> forall j :: 0 <= j < |coords| ==> !Matches(coords[j], point)
    ensures 0 <= r ==> Matches(coords[r], point)
    ensures forall j :: 0 <= j < r ==> !Matches(coords[j], point)
  {
    FindFrom(coords, point, 0)
  }

  /** `coords.splice(at, 0, x)`: x is put at index `at`, the vertices
      before it stay put and those from `at` on move up by one. */
  function Splice(coords: seq<Position>, at: nat, x: Position): (r: seq<Position>)
    requires at <= |coords|
    ensures |r| == |coords| + 1
    ensures r[at] == x
    ensures forall j :: 0 <= j < at ==> r[j] == coords[j]
    ensures forall j :: at <= j < |coords| ==> r[j + 1] == coords[j]
  {
    coords[..at] + [x] + coords[at..]
  }

  /** Removing the spliced element gives the original sequence back. */
  lemma SpliceUndone(coords: seq<Position>, at: nat, x: Position)
    requires at <= |coords|
    ensures Splice(coords, at, x)[..at] + Splice(coords, at, x)[at + 1..] == coords
  {
  }

  /** The insertion of insertPointIntoLine after the vertex at index i,
      which is not the last one: the midpoint of vertices i and i+1 goes
      between them. */
  function InsertMidpoint(coords: seq<Position>, i: nat, geo: Geo): (r: seq<Position>)
    requires i + 1 < |coords|
    ensures |r| == |coords| + 1
    ensures r[i + 1] == geo.midpoint(coords[i], coords[i + 1])
    ensures r[..i + 1] == coords[..i + 1] && r[i + 2..] == coords[i + 1..]
    ensures r[..i + 1] + r[i + 2..] == coords
  {
    var r := Splice(coords, i + 1, geo.midpoint(coords[i], coords[i + 1]));
    SpliceUndone(coords, i + 1, geo.midpoint(coords[i], coords[i + 1]));
    assert r[..i + 1] == coords[..i + 1];
    assert r[i + 2..] == coords[i + 1..];
    r
  }

  /** The options extendLineString hands to the draw-line-string mode. */
  datatype DrawLineOptions = DrawLineOptions(
    featureId: Id,
    from: Option<Position>,
    showNamePrompt: bool,
    featureName: Option<string>)

  /** `coordinates[coordinates.length - 1]`, which is `undefined` on an
      empty array. */
  function LastVertex(coords: seq<Position>): (r: Option<Position>)
    ensures coords == [] <==> r == None
    ensures coords != [] ==> r == Some(coords[|coords| - 1])
  {
    if coords == [] then None else Some(coords[|coords| - 1])
  }

  /** extendLineString's hint: anchored at the line's last vertex,
      continuing the line's id, seeded with `properties.name`, without the
      name prompt. */
  function ExtendHint(line: Feature): (h: DrawLineOptions)
    requires line.geometry.LineString?
    ensures h.featureId == line.id
    ensures line.geometry.coordinates != [] ==>
      h.from == Some(line.geometry.coordinates[|line.geometry.coordinates| - 1])
    ensures line.geometry.coordinates == [] ==> h.from == None
    ensures h.featureName == line.properties.name
    ensures !h.showNamePrompt
  {
    DrawLineOptions(line.id, LastVertex(line.geometry.coordinates), false, line.properties.name)
  }

  /** A line with at least one vertex, so that its first and last vertex exist. */
  predicate IsDrawnLine(f: Feature) {
    f.geometry.LineString? && f.geometry.coordinates != []
  }

  /** The joining distance from a's last vertex to b's first vertex: turf
      length, in its default unit, of the two-point line between them,
      which is the one new segment that joining b onto a creates. */
  function JoiningDistance(a: Feature, b: Feature, geo: Geo): (d: real)
    requires IsDrawnLine(a) && IsDrawnLine(b)
    ensures var ca, cj := a.geometry.coordinates, Joined(a, b).geometry.coordinates;
      d == geo.length(LineString(cj[|ca| - 1..|ca| + 1]), "kilometers")
  {
    var ca, cb := a.geometry.coordinates, b.geometry.coordinates;
    assert Joined(a, b).geometry.coordinates[|ca| - 1..|ca| + 1] == [ca[|ca| - 1], cb[0]];
    geo.length(LineString([ca[|ca| - 1], cb[0]]), "kilometers")
  }

  /** orderFeaturesByDistanceToAnother: [head, tail] for the join; f0
      stays first when its end is no farther from f1's start than f1's end
      from f0's start. */
  function OrderForJoin(f0: Feature, f1: Feature, geo: Geo): (r: seq<Feature>)
    requires IsDrawnLine(f0) && IsDrawnLine(f1)
    ensures |r| == 2 && multiset(r) == multiset{f0, f1}
    ensures r == [f0, f1] <==> JoiningDistance(f0, f1, geo) <= JoiningDistance(f1, f0, geo)
    ensures JoiningDistance(r[0], r[1], geo) <= JoiningDistance(r[1], r[0], geo)
  {
    if JoiningDistance(f0, f1, geo) <= JoiningDistance(f1, f0, geo) then [f0, f1] else [f1, f0]
  }

  /** Away from a tie the chosen head does not depend on the order in
      which the two lines were selected. */
  lemma OrderForJoinSymmetric(f0: Feature, f1: Feature, geo: Geo)
    requires IsDrawnLine(f0) && IsDrawnLine(f1)
    requires JoiningDistance(f0, f1, geo) != JoiningDistance(f1, f0, geo)
    ensures OrderForJoin(f1, f0, geo) == OrderForJoin(f0, f1, geo)
  {
  }

  /** A tie keeps the original order. */
  lemma OrderForJoinTie(f0: Feature, f1: Feature, geo: Geo)
    requires IsDrawnLine(f0) && IsDrawnLine(f1)
    requires JoiningDistance(f0, f1, geo) == JoiningDistance(f1, f0, geo)
    ensures OrderForJoin(f0, f1, geo) == [f0, f1]
  {
  }

  /** Inserting a midpoint keeps every vertex the line had, so a vertex
      found before the insertion is still found after it. */
  lemma InsertKeepsVertices(coords: seq<Position>, i: nat, geo: Geo, point: Position)
    requires i + 1 < |coords| && FindPointInLine(coords, point) != -1
    ensures FindPointInLine(InsertMidpoint(coords, i, geo), point) != -1
  {
    var r := InsertMidpoint(coords, i, geo);
    var j := FindPointInLine(coords, point);
    if j <= i {
      assert r[j] == r[..i + 1][j] == coords[..i + 1][j] == coords[j];
      assert Matches(r[j], point);
    } else {
      assert r[j + 1] == r[i + 2..][j - i - 1] == coords[i + 1..][j - i - 1] == coords[j];
      assert Matches(r[j + 1], point);
    }
  }

  /** The head after onClickJoinLines: its own id and properties, its
      coordinates followed by all of the tail's, with no vertex merged. */
  function Joined(head: Feature, tail: Feature): (r: Feature)
    requires head.geometry.LineString? && tail.geometry.LineString?
    ensures r.id == head.id && r.properties == head.properties
    ensures r.geometry.LineString?
    ensures |r.geometry.coordinates| == |head.geometry.coordinates| + |tail.geometry.coordinates|
    ensures r.geometry.coordinates[..|head.geometry.coordinates|] == head.geometry.coordinates
    ensures r.geometry.coordinates[|head.geometry.coordinates|..] == tail.geometry.coordinates
  {
    head.(geometry := LineString(head.geometry.coordinates + tail.geometry.coordinates))
  }

  /** The joined line starts at the head's first vertex and ends at the
      tail's last vertex. */
  lemma JoinedEndpoints(head: Feature, tail: Feature)
    requires IsDrawnLine(head) && IsDrawnLine(tail)
    ensures IsDrawnLine(Joined(head, tail))
    ensures Joined(head, tail).geometry.coordinates[0] == head.geometry.coordinates[0]
    ensures LastVertex(Joined(head, tail).geometry.coordinates) ==
            LastVertex(tail.geometry.coordinates)
  {
  }
}
