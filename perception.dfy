/**
 * The perception engine: template matching reduced to its guard chain, its
 * threshold tests and its centre arithmetic. The correlation itself is an
 * input: the best score and its location for a single lookup, the whole score
 * grid for a lookup of every match.
 */
module Perception {
  import opened Wrappers
  import opened Catalog

  /** The default match threshold; both threshold tests are inclusive. */
  const DefaultThreshold: real := 0.7

  /** A pixel position: `x` is the column, `y` the row. */
  datatype Point = Point(x: nat, y: nat)

  /** The best correlation score of a capture and where it lies (the maximum that minMaxLoc reports). */
  datatype Peak = Peak(maxVal: real, maxLoc: Point)

  /** The correlation grid: row `y`, column `x` holds the score of the template placed at (x, y). */
  type Scores = seq<seq<real>>

  /**
   * The guard chain of a lookup: the template is loaded and not empty, the capture
   * exists and is not empty, and both are 3-dimensional (colour) arrays.
   */
  predicate Matchable(loaded: map<string, Image>, name: string, shot: Option<Image>) {
    && name in loaded && loaded[name].Size() != 0
    && shot.Some? && shot.value.Size() != 0
    && loaded[name].Ndim() == 3 && shot.value.Ndim() == 3
  }

  /** The centre of a w-by-h template placed with its top-left corner at `loc`. */
  function Centre(loc: Point, w: nat, h: nat): (c: Point)
    ensures loc.x <= c.x && loc.y <= c.y
    ensures w > 0 ==> c.x < loc.x + w
    ensures h > 0 ==> c.y < loc.y + h
  {
    Point(loc.x + w / 2, loc.y + h / 2)
  }

  /** Where the template lies in the capture: the centre of the best match, if it reaches the threshold. */
  function FindImage(loaded: map<string, Image>, name: string, shot: Option<Image>, peak: Peak, threshold: real)
    : (r: Option<Point>)
    ensures r.Some? <==> Matchable(loaded, name, shot) && peak.maxVal >= threshold
    ensures r.Some? ==> r.value == Centre(peak.maxLoc, loaded[name].Width(), loaded[name].Height())
  {
    if name !in loaded || loaded[name].Size() == 0 then None
    else if shot.None? || shot.value.Size() == 0 then None
    else
      var template := loaded[name];
      if template.Ndim() != 3 || shot.value.Ndim() != 3 then None
      else if peak.maxVal >= threshold then Some(Centre(peak.maxLoc, template.Width(), template.Height()))
      else None
  }

  /** A cell of the grid whose score reaches the threshold. */
  predicate Hit(scores: Scores, threshold: real, p: Point) {
    p.y < |scores| && p.x < |scores[p.y]| && scores[p.y][p.x] >= threshold
  }

  /** `a` comes strictly before `b` when the grid is scanned row by row. */
  predicate RowMajor(a: Point, b: Point) {
    a.y < b.y || (a.y == b.y && a.x < b.x)
  }

  /** Strictly increasing in scan order, so in particular free of repetitions. */
  predicate Ascending(ps: seq<Point>) {
    forall i, j :: 0 <= i < j < |ps| ==> RowMajor(ps[i], ps[j])
  }

  /** The hits of row `y` from column `x` on, left to right. */
  function RowHits(row: seq<real>, y: nat, threshold: real, x: nat): seq<Point>
    decreases |row| - x
  {
    if x >= |row| then []
    else (if row[x] >= threshold then [Point(x, y)] else []) + RowHits(row, y, threshold, x + 1)
  }

  /** The hits of rows `y` and below, in scan order (what `np.where(scores >= threshold)` enumerates). */
  function Where(scores: Scores, threshold: real, y: nat): seq<Point>
    decreases |scores| - y
  {
    if y >= |scores| then []
    else RowHits(scores[y], y, threshold, 0) + Where(scores, threshold, y + 1)
  }

  /** The centres `_find_all_images` reports: one per hit, shifted by half the template. */
  function AllCentres(loaded: map<string, Image>, name: string, shot: Option<Image>, scores: Scores, threshold: real)
    : (r: seq<Point>)
    ensures !Matchable(loaded, name, shot) ==> r == []
    ensures Matchable(loaded, name, shot) ==> |r| == |Where(scores, threshold, 0)|
  {
    if !Matchable(loaded, name, shot) then []
    else
      var hits := Where(scores, threshold, 0);
      var template := loaded[name];
      seq(|hits|, i requires 0 <= i < |hits| => Centre(hits[i], template.Width(), template.Height()))
  }

  /** `c` is the centre of some hit of a w-by-h template. */
  predicate HitCentre(scores: Scores, threshold: real, w: nat, h: nat, c: Point) {
    c.x >= w / 2 && c.y >= h / 2 && Hit(scores, threshold, Point(c.x - w / 2, c.y - h / 2))
  }

  lemma AscendingConcat(a: seq<Point>, b: seq<Point>)
    requires Ascending(a) && Ascending(b)
    requires forall p, q :: p in a && q in b ==> RowMajor(p, q)
    ensures Ascending(a + b)
  {
    forall i, j | 0 <= i < j < |a + b| ensures RowMajor((a + b)[i], (a + b)[j]) {
      if j < |a| {
      } else if i >= |a| {
        assert (a + b)[i] == b[i - |a|] && (a + b)[j] == b[j - |a|];
      } else {
        assert (a + b)[i] in a && (a + b)[j] in b;
      }
    }
  }

  /** The hits of a row are exactly its cells from `x` on that reach the threshold, left to right. */
  lemma {:induction false} RowHitsExact(row: seq<real>, y: nat, threshold: real, x: nat)
    ensures forall p :: p in RowHits(row, y, threshold, x) <==> p.y == y && x <= p.x < |row| && row[p.x] >= threshold
    ensures Ascending(RowHits(row, y, threshold, x))
    decreases |row| - x
  {
    if x < |row| {
      RowHitsExact(row, y, threshold, x + 1);
      var head: seq<Point> := if row[x] >= threshold then [Point(x, y)] else [];
      AscendingConcat(head, RowHits(row, y, threshold, x + 1));
    }
  }

  /** The hits of rows `y` and below are exactly the cells there that reach the threshold, in scan order. */
  lemma {:induction false} WhereExact(scores: Scores, threshold: real, y: nat)
    ensures forall p :: p in Where(scores, threshold, y) <==> y <= p.y && Hit(scores, threshold, p)
    ensures Ascending(Where(scores, threshold, y))
    decreases |scores| - y
  {
    if y < |scores| {
      RowHitsExact(scores[y], y, threshold, 0);
      WhereExact(scores, threshold, y + 1);
      AscendingConcat(RowHits(scores[y], y, threshold, 0), Where(scores, threshold, y + 1));
    }
  }

  /**
   * `_find_all_images` reports exactly the centres of the cells that reach the
   * threshold, each once, in scan order; invalid lookups report nothing.
   */
  lemma AllCentresExact(loaded: map<string, Image>, name: string, shot: Option<Image>, scores: Scores, threshold: real)
    requires Matchable(loaded, name, shot)
    ensures var w, h := loaded[name].Width(), loaded[name].Height();
      forall c :: c in AllCentres(loaded, name, shot, scores, threshold) <==> HitCentre(scores, threshold, w, h, c)
    ensures Ascending(AllCentres(loaded, name, shot, scores, threshold))
  {
    var w, h := loaded[name].Width(), loaded[name].Height();
    var hits := Where(scores, threshold, 0);
    var r := AllCentres(loaded, name, shot, scores, threshold);
    WhereExact(scores, threshold, 0);
    forall c ensures c in r <==> HitCentre(scores, threshold, w, h, c) {
      if c in r {
        var i :| 0 <= i < |r| && r[i] == c;
        assert hits[i] in hits;
      }
      if HitCentre(scores, threshold, w, h, c) {
        var p := Point(c.x - w / 2, c.y - h / 2);
        assert p in hits;
        var i :| 0 <= i < |hits| && hits[i] == p;
        assert r[i] == c;
      }
    }
    forall i, j | 0 <= i < j < |r| ensures RowMajor(r[i], r[j]) {
      assert RowMajor(hits[i], hits[j]);
    }
  }

  /**
   * The loop of `_find_all_images`: after the guard chain, one centre is appended
   * per hit of the score grid.
   */
  method FindAllImages(loaded: map<string, Image>, name: string, shot: Option<Image>, scores: Scores, threshold: real)
    returns (matches: seq<Point>)
    ensures matches == AllCentres(loaded, name, shot, scores, threshold)
  {
    if name !in loaded || loaded[name].Size() == 0 {
      return [];
    }
    if shot.None? || shot.value.Size() == 0 {
      return [];
    }
    var template := loaded[name];
    if template.Ndim() != 3 || shot.value.Ndim() != 3 {
      return [];
    }
    var locations := Where(scores, threshold, 0);
    matches := [];
    for i := 0 to |locations|
      invariant |matches| == i
      invariant forall k :: 0 <= k < i ==> matches[k] == Centre(locations[k], template.Width(), template.Height())
    {
      matches := matches + [Centre(locations[i], template.Width(), template.Height())];
    }
  }

  /** `_check_card_exist`: some cell of the grid reaches the default threshold, for a valid lookup. */
  method CheckCardExist(loaded: map<string, Image>, name: string, shot: Option<Image>, scores: Scores)
    returns (present: bool)
    ensures present <==> Matchable(loaded, name, shot) && exists p :: Hit(scores, DefaultThreshold, p)
  {
    var cards := FindAllImages(loaded, name, shot, scores, DefaultThreshold);
    present := |cards| > 0;
    if Matchable(loaded, name, shot) {
      WhereExact(scores, DefaultThreshold, 0);
      var hits := Where(scores, DefaultThreshold, 0);
      if present {
        assert hits[0] in hits;
      } else {
        forall p ensures !Hit(scores, DefaultThreshold, p) {
          assert p !in hits;
        }
      }
    }
  }

  /** The peak is a cell of the grid whose score no other cell exceeds. */
  predicate IsPeak(scores: Scores, peak: Peak) {
    && Hit(scores, peak.maxVal, peak.maxLoc)
    && scores[peak.maxLoc.y][peak.maxLoc.x] == peak.maxVal
    && forall y, x :: 0 <= y < |scores| && 0 <= x < |scores[y]| ==> scores[y][x] <= peak.maxVal
  }

  /**
   * On the same capture, the single-best lookup finds something exactly when the
   * find-all lookup does, and its answer is one of the find-all answers.
   */
  lemma PeakAgreesWithAll(loaded: map<string, Image>, name: string, shot: Option<Image>, scores: Scores,
                          peak: Peak, threshold: real)
    requires IsPeak(scores, peak)
    ensures FindImage(loaded, name, shot, peak, threshold).Some? <==> AllCentres(loaded, name, shot, scores, threshold) != []
    ensures FindImage(loaded, name, shot, peak, threshold).Some? ==>
      FindImage(loaded, name, shot, peak, threshold).value in AllCentres(loaded, name, shot, scores, threshold)
  {
    if Matchable(loaded, name, shot) {
      var w, h := loaded[name].Width(), loaded[name].Height();
      var all := AllCentres(loaded, name, shot, scores, threshold);
      AllCentresExact(loaded, name, shot, scores, threshold);
      if peak.maxVal >= threshold {
        assert HitCentre(scores, threshold, w, h, Centre(peak.maxLoc, w, h));
      }
      if all != [] {
        assert all[0] in all;
        var c := all[0];
        assert scores[c.y - h / 2][c.x - w / 2] <= peak.maxVal;
      }
    }
  }
}
