/** Pairwise overlap matching between polylines (`compare_lines`). The haversine distance is
    abstract (`dist`), and the overlap polygons are returned instead of being drawn. */
module Overlap {
  import opened Base
  import opened Geo
  import opened Sorting

  /** A close pair: the entry `(idx1, point1)` and the entry `(idx2, point2)` appended to
      `border_one` and `border_two` in the same step. */
  type Match = (Entry, Entry)

  /** The two entries belong to the two lines and lie within d of each other (inclusive). */
  ghost predicate IsClosePair(line1: seq<Point>, line2: seq<Point>, d: real,
                              dist: (Point, Point) -> real, x: Match)
  {
    && x.0.idx < |line1| && x.0.point == line1[x.0.idx]
    && x.1.idx < |line2| && x.1.point == line2[x.1.idx]
    && dist(x.0.point, x.1.point) <= d
  }

  /** The close pairs found for point i of line1 against the first j points of line2. */
  function RowMatches(line1: seq<Point>, line2: seq<Point>, i: nat, j: nat, d: real,
                      dist: (Point, Point) -> real): seq<Match>
    requires i < |line1| && j <= |line2|
  {
    if j == 0 then []
    else
      RowMatches(line1, line2, i, j - 1, d, dist)
      + (if dist(line1[i], line2[j - 1]) <= d then [(Entry(i, line1[i]), Entry(j - 1, line2[j - 1]))] else [])
  }

  /** The close pairs found for the first i points of line1, in scanning order. */
  function MatchesUpTo(line1: seq<Point>, line2: seq<Point>, i: nat, d: real,
                       dist: (Point, Point) -> real): seq<Match>
    requires i <= |line1|
  {
    if i == 0 then []
    else MatchesUpTo(line1, line2, i - 1, d, dist) + RowMatches(line1, line2, i - 1, |line2|, d, dist)
  }

  /** Every close pair of the two lines, in the order the nested loops meet them. */
  function ClosePairs(line1: seq<Point>, line2: seq<Point>, d: real, dist: (Point, Point) -> real): seq<Match>
  {
    MatchesUpTo(line1, line2, |line1|, d, dist)
  }

  /** `border_one`: the first entries of the pairs. */
  function Firsts(m: seq<Match>): seq<Entry>
  {
    seq(|m|, k requires 0 <= k < |m| => m[k].0)
  }

  /** `border_two`: the second entries of the pairs. */
  function Seconds(m: seq<Match>): seq<Entry>
  {
    seq(|m|, k requires 0 <= k < |m| => m[k].1)
  }

  /** `[point for idx, point in border]`. */
  function Points(s: seq<Entry>): seq<Point>
  {
    seq(|s|, k requires 0 <= k < |s| => s[k].point)
  }

  /** `np.dot(last - first, last' - first')` of two non-empty point lists. */
  function DirectionDot(p1: seq<Point>, p2: seq<Point>): real
    requires |p1| > 0 && |p2| > 0
  {
    var u := (p1[|p1| - 1].lat - p1[0].lat, p1[|p1| - 1].lon - p1[0].lon);
    var v := (p2[|p2| - 1].lat - p2[0].lat, p2[|p2| - 1].lon - p2[0].lon);
    u.0 * v.0 + u.1 * v.1
  }

  /** `matching_points`: same direction (dot >= 0) closes the ring with the second list
      reversed, opposite direction with it as it is. */
  function Ring(p1: seq<Point>, p2: seq<Point>): seq<Point>
    requires |p1| > 0 && |p2| > 0
  {
    if DirectionDot(p1, p2) >= 0.0 then p1 + Reverse(p2) else p1 + p2
  }

  /** The polygon drawn for one pair of lines, if any. */
  function MatchPolygon(line1: seq<Point>, line2: seq<Point>, d: real, dist: (Point, Point) -> real): Option<seq<Point>>
  {
    var m := ClosePairs(line1, line2, d, dist);
    var borderOne, borderTwo := Firsts(m), Seconds(m);
    if |borderOne| == 0 || |borderTwo| == 0 then None
    else
      var ring := Ring(Points(SortByIndex(borderOne)), Points(SortByIndex(borderTwo)));
      if |ring| > 2 then Some(ring) else None
  }

  /** An overlap polygon between polylines `first` and `second`. */
  datatype Overlap = Overlap(first: nat, second: nat, polygon: seq<Point>)

  /** What the loop body does for one pair of lines: the polygon it would draw, if any. */
  type Matcher = (seq<Point>, seq<Point>) -> Option<seq<Point>>

  /** `compare_lines`' pair matcher for threshold d. */
  function PairMatcher(d: real, dist: (Point, Point) -> real): Matcher
  {
    (line1: seq<Point>, line2: seq<Point>) => MatchPolygon(line1, line2, d, dist)
  }

  /** The overlaps of line i with the lines before index j (only j > i are compared). */
  function RowOverlaps(lines: seq<seq<Point>>, i: nat, j: nat, matcher: Matcher): seq<Overlap>
    requires i < |lines| && j <= |lines|
  {
    if j == 0 then []
    else
      var before := RowOverlaps(lines, i, j - 1, matcher);
      if i >= j - 1 then before
      else match matcher(lines[i], lines[j - 1])
        case None => before
        case Some(polygon) => before + [Overlap(i, j - 1, polygon)]
  }

  function OverlapsUpTo(lines: seq<seq<Point>>, i: nat, matcher: Matcher): seq<Overlap>
    requires i <= |lines|
  {
    if i == 0 then [] else OverlapsUpTo(lines, i - 1, matcher) + RowOverlaps(lines, i - 1, |lines|, matcher)
  }

  /** The polygons `compare_lines` draws, in drawing order. */
  function Overlaps(lines: seq<seq<Point>>, d: real, dist: (Point, Point) -> real): seq<Overlap>
  {
    OverlapsUpTo(lines, |lines|, PairMatcher(d, dist))
  }

  lemma AppendPair(m: seq<Match>, x: Match)
    ensures Firsts(m + [x]) == Firsts(m) + [x.0]
    ensures Seconds(m + [x]) == Seconds(m) + [x.1]
  {
    assert (m + [x])[..|m|] == m;
  }

  lemma {:induction false} RowMatchesSound(line1: seq<Point>, line2: seq<Point>, i: nat, j: nat, d: real,
                                           dist: (Point, Point) -> real)
    requires i < |line1| && j <= |line2|
    ensures forall k :: 0 <= k < |RowMatches(line1, line2, i, j, d, dist)| ==>
      var x := RowMatches(line1, line2, i, j, d, dist)[k];
      IsClosePair(line1, line2, d, dist, x) && x.0.idx == i && x.1.idx < j
  {
    if j > 0 {
      RowMatchesSound(line1, line2, i, j - 1, d, dist);
      var before := RowMatches(line1, line2, i, j - 1, d, dist);
      var r := RowMatches(line1, line2, i, j, d, dist);
      forall k | 0 <= k < |r| ensures IsClosePair(line1, line2, d, dist, r[k]) && r[k].0.idx == i && r[k].1.idx < j {
        if k < |before| {
          assert r[k] == before[k];
        } else {
          assert r[k] == (Entry(i, line1[i]), Entry(j - 1, line2[j - 1]));
        }
      }
    }
  }

  lemma {:induction false} MatchesUpToSound(line1: seq<Point>, line2: seq<Point>, i: nat, d: real,
                                            dist: (Point, Point) -> real)
    requires i <= |line1|
    ensures forall k :: 0 <= k < |MatchesUpTo(line1, line2, i, d, dist)| ==>
      var x := MatchesUpTo(line1, line2, i, d, dist)[k];
      IsClosePair(line1, line2, d, dist, x) && x.0.idx < i
  {
    if i > 0 {
      MatchesUpToSound(line1, line2, i - 1, d, dist);
      RowMatchesSound(line1, line2, i - 1, |line2|, d, dist);
      var before := MatchesUpTo(line1, line2, i - 1, d, dist);
      var row := RowMatches(line1, line2, i - 1, |line2|, d, dist);
      var r := MatchesUpTo(line1, line2, i, d, dist);
      assert r == before + row;
      forall k | 0 <= k < |r| ensures IsClosePair(line1, line2, d, dist, r[k]) && r[k].0.idx < i {
        if k < |before| {
          assert r[k] == before[k];
        } else {
          assert r[k] == row[k - |before|];
        }
      }
    }
  }

  lemma {:induction false} RowMatchesComplete(line1: seq<Point>, line2: seq<Point>, i: nat, j: nat, b: nat,
                                              d: real, dist: (Point, Point) -> real)
    requires i < |line1| && b < j <= |line2|
    requires dist(line1[i], line2[b]) <= d
    ensures (Entry(i, line1[i]), Entry(b, line2[b])) in RowMatches(line1, line2, i, j, d, dist)
  {
    if b < j - 1 {
      RowMatchesComplete(line1, line2, i, j - 1, b, d, dist);
    }
  }

  lemma {:induction false} MatchesUpToComplete(line1: seq<Point>, line2: seq<Point>, i: nat, a: nat, b: nat,
                                               d: real, dist: (Point, Point) -> real)
    requires a < i <= |line1| && b < |line2|
    requires dist(line1[a], line2[b]) <= d
    ensures (Entry(a, line1[a]), Entry(b, line2[b])) in MatchesUpTo(line1, line2, i, d, dist)
  {
    if a < i - 1 {
      MatchesUpToComplete(line1, line2, i - 1, a, b, d, dist);
    } else {
      RowMatchesComplete(line1, line2, i - 1, |line2|, b, d, dist);
    }
  }

  /** Every pair found is a close pair, and every close pair is found. */
  lemma ClosePairsExact(line1: seq<Point>, line2: seq<Point>, d: real, dist: (Point, Point) -> real, x: Match)
    ensures x in ClosePairs(line1, line2, d, dist) <==> IsClosePair(line1, line2, d, dist, x)
  {
    var m := ClosePairs(line1, line2, d, dist);
    MatchesUpToSound(line1, line2, |line1|, d, dist);
    if IsClosePair(line1, line2, d, dist, x) {
      MatchesUpToComplete(line1, line2, |line1|, x.0.idx, x.1.idx, d, dist);
    }
  }

  /** x comes before y in the scan: by the index in line1, then by the index in line2. */
  ghost predicate ScanBefore(x: Match, y: Match)
  {
    x.0.idx < y.0.idx || (x.0.idx == y.0.idx && x.1.idx < y.1.idx)
  }

  ghost predicate InScanOrder(m: seq<Match>)
  {
    forall p, q :: 0 <= p < q < |m| ==> ScanBefore(m[p], m[q])
  }

  lemma {:induction false} RowMatchesOrdered(line1: seq<Point>, line2: seq<Point>, i: nat, j: nat, d: real,
                                             dist: (Point, Point) -> real)
    requires i < |line1| && j <= |line2|
    ensures InScanOrder(RowMatches(line1, line2, i, j, d, dist))
  {
    if j > 0 {
      RowMatchesOrdered(line1, line2, i, j - 1, d, dist);
      RowMatchesSound(line1, line2, i, j - 1, d, dist);
      var before := RowMatches(line1, line2, i, j - 1, d, dist);
      var r := RowMatches(line1, line2, i, j, d, dist);
      forall p, q | 0 <= p < q < |r| ensures ScanBefore(r[p], r[q]) {
        if q < |before| {
          assert r[p] == before[p] && r[q] == before[q];
        } else {
          assert r[p] == before[p];
          assert r[q] == (Entry(i, line1[i]), Entry(j - 1, line2[j - 1]));
        }
      }
    }
  }

  lemma {:induction false} MatchesUpToOrdered(line1: seq<Point>, line2: seq<Point>, i: nat, d: real,
                                              dist: (Point, Point) -> real)
    requires i <= |line1|
    ensures InScanOrder(MatchesUpTo(line1, line2, i, d, dist))
  {
    if i > 0 {
      MatchesUpToOrdered(line1, line2, i - 1, d, dist);
      MatchesUpToSound(line1, line2, i - 1, d, dist);
      RowMatchesOrdered(line1, line2, i - 1, |line2|, d, dist);
      RowMatchesSound(line1, line2, i - 1, |line2|, d, dist);
      var before := MatchesUpTo(line1, line2, i - 1, d, dist);
      var row := RowMatches(line1, line2, i - 1, |line2|, d, dist);
      var r := MatchesUpTo(line1, line2, i, d, dist);
      assert r == before + row;
      forall p, q | 0 <= p < q < |r| ensures ScanBefore(r[p], r[q]) {
        if q < |before| {
          assert r[p] == before[p] && r[q] == before[q];
        } else if p < |before| {
          assert r[p] == before[p] && r[q] == row[q - |before|];
        } else {
          assert r[p] == row[p - |before|] && r[q] == row[q - |before|];
        }
      }
    }
  }

  /** The close pairs come in scan order, so each index pair is collected once: `border_one`
      and `border_two` hold one entry each per close point pair. */
  lemma ClosePairsDistinct(line1: seq<Point>, line2: seq<Point>, d: real, dist: (Point, Point) -> real)
    ensures InScanOrder(ClosePairs(line1, line2, d, dist))
    ensures var m := ClosePairs(line1, line2, d, dist);
      forall p, q :: 0 <= p < q < |m| ==> (m[p].0.idx, m[p].1.idx) != (m[q].0.idx, m[q].1.idx)
  {
    MatchesUpToOrdered(line1, line2, |line1|, d, dist);
  }

  /** The two border lists pair up entry by entry, each pair within d. */
  lemma BordersPaired(line1: seq<Point>, line2: seq<Point>, d: real, dist: (Point, Point) -> real)
    ensures var m := ClosePairs(line1, line2, d, dist);
      && |Firsts(m)| == |Seconds(m)| == |m|
      && forall k :: 0 <= k < |m| ==> dist(Firsts(m)[k].point, Seconds(m)[k].point) <= d
  {
    MatchesUpToSound(line1, line2, |line1|, d, dist);
  }

  /** The two nested loops over the points of the two lines. */
  method CollectBorders(line1: seq<Point>, line2: seq<Point>, d: real, dist: (Point, Point) -> real)
    returns (borderOne: seq<Entry>, borderTwo: seq<Entry>)
    ensures |borderOne| == |borderTwo|
    ensures forall k :: 0 <= k < |borderOne| ==> dist(borderOne[k].point, borderTwo[k].point) <= d
    ensures borderOne == Firsts(ClosePairs(line1, line2, d, dist))
    ensures borderTwo == Seconds(ClosePairs(line1, line2, d, dist))
  {
    borderOne, borderTwo := [], [];
    ghost var pairs: seq<Match> := [];
    for idx1 := 0 to |line1|
      invariant pairs == MatchesUpTo(line1, line2, idx1, d, dist)
      invariant borderOne == Firsts(pairs) && borderTwo == Seconds(pairs)
    {
      var point1 := line1[idx1];
      ghost var done := pairs;
      for idx2 := 0 to |line2|
        invariant pairs == done + RowMatches(line1, line2, idx1, idx2, d, dist)
        invariant borderOne == Firsts(pairs) && borderTwo == Seconds(pairs)
      {
        var point2 := line2[idx2];
        var distance := dist(point1, point2);
        if distance <= d {
          var x := (Entry(idx1, point1), Entry(idx2, point2));
          AppendPair(pairs, x);
          borderOne := borderOne + [Entry(idx1, point1)];
          borderTwo := borderTwo + [Entry(idx2, point2)];
          pairs := pairs + [x];
        }
      }
    }
    BordersPaired(line1, line2, d, dist);
  }

  /** The body of the loop over pairs (i, j): collect, sort, orient, and keep a polygon of
      more than two vertices. */
  method ComparePair(line1: seq<Point>, line2: seq<Point>, d: real, dist: (Point, Point) -> real)
    returns (polygon: Option<seq<Point>>)
    ensures polygon == MatchPolygon(line1, line2, d, dist)
  {
    var borderOne, borderTwo := CollectBorders(line1, line2, d, dist);
    if |borderOne| == 0 || |borderTwo| == 0 {
      return None;
    }
    borderOne := SortByIndex(borderOne);
    borderTwo := SortByIndex(borderTwo);
    var pointsOne := Points(borderOne);
    var pointsTwo := Points(borderTwo);
    var dotProduct := DirectionDot(pointsOne, pointsTwo);
    var matchingPoints;
    if dotProduct >= 0.0 {
      matchingPoints := pointsOne + Reverse(pointsTwo);
    } else {
      matchingPoints := pointsOne + pointsTwo;
    }
    if |matchingPoints| > 2 {
      return Some(matchingPoints);
    }
    return None;
  }

  /** A pair (i, j) with i >= j is skipped. */
  lemma RowOverlapsSkip(lines: seq<seq<Point>>, i: nat, j: nat, matcher: Matcher)
    requires i < |lines| && j < |lines| && i >= j
    ensures RowOverlaps(lines, i, j + 1, matcher) == RowOverlaps(lines, i, j, matcher)
  {
  }

  /** A pair (i, j) with i < j adds its polygon, when there is one. */
  lemma RowOverlapsCompare(lines: seq<seq<Point>>, i: nat, j: nat, d: real, dist: (Point, Point) -> real,
                           polygon: Option<seq<Point>>)
    requires i < j < |lines|
    requires polygon == MatchPolygon(lines[i], lines[j], d, dist)
    ensures var matcher := PairMatcher(d, dist);
      && (polygon.None? ==> RowOverlaps(lines, i, j + 1, matcher) == RowOverlaps(lines, i, j, matcher))
      && (polygon.Some? ==>
            RowOverlaps(lines, i, j + 1, matcher) == RowOverlaps(lines, i, j, matcher) + [Overlap(i, j, polygon.value)])
  {
  }

  /** The inner loop of `compare_lines` for line i: every later line j, in order. */
  method CompareRow(lines: seq<seq<Point>>, i: nat, d: real, dist: (Point, Point) -> real)
    returns (row: seq<Overlap>)
    requires i < |lines|
    ensures row == RowOverlaps(lines, i, |lines|, PairMatcher(d, dist))
  {
    row := [];
    for j := 0 to |lines|
      invariant row == RowOverlaps(lines, i, j, PairMatcher(d, dist))
    {
      if i >= j {
        RowOverlapsSkip(lines, i, j, PairMatcher(d, dist));
        continue;
      }
      var polygon := ComparePair(lines[i], lines[j], d, dist);
      RowOverlapsCompare(lines, i, j, d, dist, polygon);
      if polygon.Some? {
        row := row + [Overlap(i, j, polygon.value)];
      }
    }
  }

  /** `compare_lines`: every pair i < j, in order; returns the polygons it would draw. */
  method CompareLines(lines: seq<seq<Point>>, d: real, dist: (Point, Point) -> real)
    returns (overlaps: seq<Overlap>)
    ensures overlaps == Overlaps(lines, d, dist)
  {
    overlaps := [];
    for i := 0 to |lines|
      invariant overlaps == OverlapsUpTo(lines, i, PairMatcher(d, dist))
    {
      var row := CompareRow(lines, i, d, dist);
      overlaps := overlaps + row;
    }
  }

  lemma FirstsConcat(a: seq<Match>, b: seq<Match>)
    ensures Firsts(a + b) == Firsts(a) + Firsts(b)
  {
  }

  /** `border_one` is collected in order of idx1, so its sort leaves it as it is. */
  lemma {:induction false} MatchesUpToFirstsSorted(line1: seq<Point>, line2: seq<Point>, i: nat, d: real,
                                                   dist: (Point, Point) -> real)
    requires i <= |line1|
    ensures SortedByIndex(Firsts(MatchesUpTo(line1, line2, i, d, dist)))
  {
    if i > 0 {
      MatchesUpToFirstsSorted(line1, line2, i - 1, d, dist);
      MatchesUpToSound(line1, line2, i - 1, d, dist);
      RowMatchesSound(line1, line2, i - 1, |line2|, d, dist);
      var before := Firsts(MatchesUpTo(line1, line2, i - 1, d, dist));
      var row := Firsts(RowMatches(line1, line2, i - 1, |line2|, d, dist));
      FirstsConcat(MatchesUpTo(line1, line2, i - 1, d, dist), RowMatches(line1, line2, i - 1, |line2|, d, dist));
      var all := before + row;
      forall p, q | 0 <= p < q < |all| ensures all[p].idx <= all[q].idx {
        if q < |before| {
          assert all[p] == before[p] && all[q] == before[q];
        } else if p < |before| {
          assert all[p] == before[p] && all[q] == row[q - |before|];
        } else {
          assert all[p] == row[p - |before|] && all[q] == row[q - |before|];
        }
      }
    }
  }

  lemma BorderOneSorted(line1: seq<Point>, line2: seq<Point>, d: real, dist: (Point, Point) -> real)
    ensures SortByIndex(Firsts(ClosePairs(line1, line2, d, dist))) == Firsts(ClosePairs(line1, line2, d, dist))
  {
    MatchesUpToFirstsSorted(line1, line2, |line1|, d, dist);
    SortByIndexOfSorted(Firsts(ClosePairs(line1, line2, d, dist)));
  }

  /** A polygon is drawn exactly when at least two close pairs are found; it has one vertex per
      border entry, two per pair. */
  lemma MatchPolygonSize(line1: seq<Point>, line2: seq<Point>, d: real, dist: (Point, Point) -> real)
    ensures MatchPolygon(line1, line2, d, dist).Some? <==> |ClosePairs(line1, line2, d, dist)| >= 2
    ensures MatchPolygon(line1, line2, d, dist).Some? ==>
      |MatchPolygon(line1, line2, d, dist).value| == 2 * |ClosePairs(line1, line2, d, dist)|
  {
  }

  /** A drawn polygon starts with the close points of the first line in scan order: the sort of
      `border_one` leaves it as collected. */
  lemma MatchPolygonStartsWithBorderOne(line1: seq<Point>, line2: seq<Point>, d: real, dist: (Point, Point) -> real)
    requires MatchPolygon(line1, line2, d, dist).Some?
    ensures var m := ClosePairs(line1, line2, d, dist);
      && |m| <= |MatchPolygon(line1, line2, d, dist).value|
      && MatchPolygon(line1, line2, d, dist).value[..|m|] == Points(Firsts(m))
  {
    BorderOneSorted(line1, line2, d, dist);
  }

  /** Lines with no two points within d of each other produce no polygon. */
  lemma MatchPolygonFar(line1: seq<Point>, line2: seq<Point>, d: real, dist: (Point, Point) -> real)
    requires forall a, b :: 0 <= a < |line1| && 0 <= b < |line2| ==> dist(line1[a], line2[b]) > d
    ensures MatchPolygon(line1, line2, d, dist) == None
  {
    var m := ClosePairs(line1, line2, d, dist);
    if |m| > 0 {
      ClosePairsExact(line1, line2, d, dist, m[0]);
    }
    MatchPolygonSize(line1, line2, d, dist);
  }

  /** A sorted border has the same points as the unsorted one. */
  lemma SortedPointsFrom(s: seq<Entry>, v: Point)
    requires v in Points(SortByIndex(s))
    ensures v in Points(s)
  {
    var t := SortByIndex(s);
    SortByIndexProperties(s);
    var k :| 0 <= k < |t| && Points(t)[k] == v;
    assert t[k] in multiset(s);
    var k' :| 0 <= k' < |s| && s[k'] == t[k];
    assert Points(s)[k'] == v;
  }

  lemma BorderOnePoints(line1: seq<Point>, line2: seq<Point>, d: real, dist: (Point, Point) -> real, v: Point)
    requires v in Points(SortByIndex(Firsts(ClosePairs(line1, line2, d, dist))))
    ensures v in line1
  {
    var m := ClosePairs(line1, line2, d, dist);
    SortedPointsFrom(Firsts(m), v);
    MatchesUpToSound(line1, line2, |line1|, d, dist);
    var k :| 0 <= k < |m| && Points(Firsts(m))[k] == v;
    assert v == line1[m[k].0.idx];
  }

  lemma BorderTwoPoints(line1: seq<Point>, line2: seq<Point>, d: real, dist: (Point, Point) -> real, v: Point)
    requires v in Points(SortByIndex(Seconds(ClosePairs(line1, line2, d, dist))))
    ensures v in line2
  {
    var m := ClosePairs(line1, line2, d, dist);
    SortedPointsFrom(Seconds(m), v);
    MatchesUpToSound(line1, line2, |line1|, d, dist);
    var k :| 0 <= k < |m| && Points(Seconds(m))[k] == v;
    assert v == line2[m[k].1.idx];
  }

  lemma ReverseHas<T>(s: seq<T>, v: T)
    requires v in Reverse(s)
    ensures v in s
  {
    var k :| 0 <= k < |s| && Reverse(s)[k] == v;
    assert s[|s| - 1 - k] == v;
  }

  /** Every vertex of a drawn polygon is a point of one of the two lines. */
  lemma MatchPolygonVertices(line1: seq<Point>, line2: seq<Point>, d: real, dist: (Point, Point) -> real, v: Point)
    requires MatchPolygon(line1, line2, d, dist).Some?
    requires v in MatchPolygon(line1, line2, d, dist).value
    ensures v in line1 || v in line2
  {
    var m := ClosePairs(line1, line2, d, dist);
    var p1, p2 := Points(SortByIndex(Firsts(m))), Points(SortByIndex(Seconds(m)));
    var ring := MatchPolygon(line1, line2, d, dist).value;
    assert ring == p1 + Reverse(p2) || ring == p1 + p2;
    if v in p1 {
      BorderOnePoints(line1, line2, d, dist, v);
    } else {
      if v in Reverse(p2) {
        ReverseHas(p2, v);
      }
      BorderTwoPoints(line1, line2, d, dist, v);
    }
  }

  /** The matcher yields o's polygon for the pair (o.first, o.second), first before second. */
  ghost predicate Drawn(lines: seq<seq<Point>>, matcher: Matcher, o: Overlap)
  {
    o.first < o.second < |lines| && matcher(lines[o.first], lines[o.second]) == Some(o.polygon)
  }

  lemma {:induction false} RowOverlapsSound(lines: seq<seq<Point>>, i: nat, j: nat, matcher: Matcher)
    requires i < |lines| && j <= |lines|
    ensures forall k :: 0 <= k < |RowOverlaps(lines, i, j, matcher)| ==>
      var o := RowOverlaps(lines, i, j, matcher)[k];
      o.first == i && o.second < j && Drawn(lines, matcher, o)
  {
    if j > 0 {
      RowOverlapsSound(lines, i, j - 1, matcher);
    }
  }

  lemma AppendKeepsLeft(a: seq<Overlap>, b: seq<Overlap>, k: nat) returns (k': nat)
    requires k < |a|
    ensures k' == k && k' < |a + b| && (a + b)[k'].first == a[k].first && (a + b)[k'].second == a[k].second
  {
    k' := k;
  }

  lemma AppendKeepsRight(a: seq<Overlap>, b: seq<Overlap>, k: nat) returns (k': nat)
    requires k < |b|
    ensures k' < |a + b| && (a + b)[k'].first == b[k].first && (a + b)[k'].second == b[k].second
  {
    k' := |a| + k;
  }

  /** Where pair (i, second) sits in row i, when the matcher yields a polygon for it. */
  lemma {:induction false} RowOverlapsComplete(lines: seq<seq<Point>>, i: nat, j: nat, matcher: Matcher, second: nat)
    returns (k: nat)
    requires i < second < j <= |lines|
    requires matcher(lines[i], lines[second]).Some?
    ensures k < |RowOverlaps(lines, i, j, matcher)|
    ensures RowOverlaps(lines, i, j, matcher)[k].first == i && RowOverlaps(lines, i, j, matcher)[k].second == second
  {
    var before := RowOverlaps(lines, i, j - 1, matcher);
    if second < j - 1 {
      k := RowOverlapsComplete(lines, i, j - 1, matcher, second);
      assert RowOverlaps(lines, i, j, matcher)[k] == before[k];
    } else {
      k := |before|;
    }
  }

  lemma {:induction false} OverlapsUpToSound(lines: seq<seq<Point>>, i: nat, matcher: Matcher)
    requires i <= |lines|
    ensures forall k :: 0 <= k < |OverlapsUpTo(lines, i, matcher)| ==>
      var o := OverlapsUpTo(lines, i, matcher)[k];
      o.first < i && Drawn(lines, matcher, o)
  {
    if i > 0 {
      OverlapsUpToSound(lines, i - 1, matcher);
      RowOverlapsSound(lines, i - 1, |lines|, matcher);
      var before, row := OverlapsUpTo(lines, i - 1, matcher), RowOverlaps(lines, i - 1, |lines|, matcher);
      var all := OverlapsUpTo(lines, i, matcher);
      assert all == before + row;
      forall k | 0 <= k < |all| ensures all[k].first < i && Drawn(lines, matcher, all[k]) {
        if k < |before| {
          assert all[k] == before[k];
        } else {
          assert all[k] == row[k - |before|];
        }
      }
    }
  }

  /** Where pair (first, second) sits among the overlaps of the first i lines. */
  lemma {:induction false} OverlapsUpToComplete(lines: seq<seq<Point>>, i: nat, matcher: Matcher, first: nat, second: nat)
    returns (k: nat)
    requires first < i <= |lines| && first < second < |lines|
    requires matcher(lines[first], lines[second]).Some?
    ensures k < |OverlapsUpTo(lines, i, matcher)|
    ensures OverlapsUpTo(lines, i, matcher)[k].first == first && OverlapsUpTo(lines, i, matcher)[k].second == second
  {
    if first < i - 1 {
      var k' := OverlapsUpToComplete(lines, i - 1, matcher, first, second);
      k := AppendKeepsLeft(OverlapsUpTo(lines, i - 1, matcher), RowOverlaps(lines, i - 1, |lines|, matcher), k');
    } else {
      var k' := RowOverlapsComplete(lines, i - 1, |lines|, matcher, second);
      k := AppendKeepsRight(OverlapsUpTo(lines, i - 1, matcher), RowOverlaps(lines, i - 1, |lines|, matcher), k');
    }
  }

  /** The overlaps drawn are exactly the pairs i < j for which the matcher yields a polygon. */
  lemma OverlapsExact(lines: seq<seq<Point>>, d: real, dist: (Point, Point) -> real, o: Overlap)
    ensures o in Overlaps(lines, d, dist) <==>
      o.first < o.second < |lines| && MatchPolygon(lines[o.first], lines[o.second], d, dist) == Some(o.polygon)
  {
    var all := Overlaps(lines, d, dist);
    if o in all {
      OverlapsUpToSound(lines, |lines|, PairMatcher(d, dist));
      var k :| 0 <= k < |all| && all[k] == o;
    }
    if o.first < o.second < |lines| && MatchPolygon(lines[o.first], lines[o.second], d, dist) == Some(o.polygon) {
      OverlapsUpToSound(lines, |lines|, PairMatcher(d, dist));
      var k := OverlapsUpToComplete(lines, |lines|, PairMatcher(d, dist), o.first, o.second);
      assert all[k] == o;
    }
  }
}
