/**
 * `find_use_buttons_with_brightness_filter`: from the ordered list of
 * top-left corners at which the "use" template scored at least 0.8, keep
 * the centres that lie inside the grey-scale frame, are brighter than the
 * threshold, and are at least 50 pixels away from every centre kept
 * before them.  Distances are compared squared, so no square root is taken.
 */
module UseButtonFilter {
  import opened Vision

  /** The brightness threshold `tp_charge` passes (170). */
  const TpBrightness: int := 170

  /** 50 pixels, squared. */
  const MinSeparationSquared: int := 2500

  /** The centre of a match whose box has top-left corner `top`, as `find_template` takes it. */
  function CentreOf(top: Point, width: nat, height: nat): Point
  {
    BoxCentre(top.x, top.y, width, height)
  }

  /** The source checks the row count and the row width only; coordinates are never negative. */
  predicate InFrame(gray: seq<seq<int>>, c: Point)
  {
    c.y < |gray| && c.x < |gray[c.y]|
  }

  predicate Bright(gray: seq<seq<int>>, c: Point, threshold: int)
  {
    InFrame(gray, c) && gray[c.y][c.x] > threshold
  }

  /** `b` is closer than 50 pixels to `a`, the differences taken as the source takes them. */
  predicate Near(a: Point, b: Point)
  {
    (b.x - a.x) * (b.x - a.x) + (b.y - a.y) * (b.y - a.y) < MinSeparationSquared
  }

  predicate FarFromAll(kept: seq<Point>, c: Point)
  {
    forall j :: 0 <= j < |kept| ==> !Near(kept[j], c)
  }

  /** One candidate's turn: appended when bright, in the frame and far from all kept so far. */
  function Admit(kept: seq<Point>, c: Point, gray: seq<seq<int>>, threshold: int): seq<Point>
  {
    if Bright(gray, c, threshold) && FarFromAll(kept, c) then kept + [c] else kept
  }

  /** The points kept after the candidates `tops`, taken in their order. */
  function Kept(tops: seq<Point>, width: nat, height: nat, gray: seq<seq<int>>, threshold: int): seq<Point>
    decreases |tops|
  {
    if tops == [] then []
    else Admit(Kept(tops[..|tops| - 1], width, height, gray, threshold), CentreOf(tops[|tops| - 1], width, height), gray, threshold)
  }

  /** The whole filter, with the missing or unreadable template giving no buttons. */
  function UseButtons(scan: UseScan, threshold: int): seq<Point>
  {
    match scan
    case Scan(tops, width, height, gray) => Kept(tops, width, height, gray, threshold)
    case _ => []
  }

  /** Every kept point is inside the frame and strictly brighter than the threshold. */
  lemma {:induction false} KeptAreBright(tops: seq<Point>, width: nat, height: nat, gray: seq<seq<int>>, threshold: int)
    ensures forall q :: q in Kept(tops, width, height, gray, threshold) ==> Bright(gray, q, threshold)
    decreases |tops|
  {
    if tops != [] {
      KeptAreBright(tops[..|tops| - 1], width, height, gray, threshold);
    }
  }

  /** No two points of `k` are closer than 50 pixels. */
  predicate Separated(k: seq<Point>)
  {
    forall i, j :: 0 <= i < j < |k| ==> !Near(k[i], k[j])
  }

  lemma AppendKeepsSeparated(kept: seq<Point>, c: Point)
    requires Separated(kept) && FarFromAll(kept, c)
    ensures Separated(kept + [c])
  {
    var k := kept + [c];
    forall i, j | 0 <= i < j < |k|
      ensures !Near(k[i], k[j])
    {
      assert k[i] == kept[i];
      if j < |kept| {
        assert k[j] == kept[j];
      }
    }
  }

  /** Every two kept points are at least 50 pixels apart. */
  lemma {:induction false} KeptAreSeparated(tops: seq<Point>, width: nat, height: nat, gray: seq<seq<int>>, threshold: int)
    ensures Separated(Kept(tops, width, height, gray, threshold))
    decreases |tops|
  {
    if tops != [] {
      var n := |tops| - 1;
      KeptAreSeparated(tops[..n], width, height, gray, threshold);
      var before := Kept(tops[..n], width, height, gray, threshold);
      var c := CentreOf(tops[n], width, height);
      if Bright(gray, c, threshold) && FarFromAll(before, c) {
        AppendKeepsSeparated(before, c);
      }
    }
  }

  /** `idx` is a strictly increasing choice of candidate indices whose centres are `k`. */
  predicate ChosenFrom(idx: seq<nat>, k: seq<Point>, tops: seq<Point>, width: nat, height: nat)
  {
    && |idx| == |k|
    && (forall i :: 0 <= i < |idx| ==> idx[i] < |tops| && k[i] == CentreOf(tops[idx[i]], width, height))
    && (forall i, j :: 0 <= i < j < |idx| ==> idx[i] < idx[j])
  }

  /** A choice from the first `n` candidates is one from all of them, and candidate `n` may be added. */
  lemma ChosenStep(idx: seq<nat>, k: seq<Point>, tops: seq<Point>, width: nat, height: nat, add: bool)
    requires |tops| > 0 && ChosenFrom(idx, k, tops[..|tops| - 1], width, height)
    ensures var n := |tops| - 1;
      if add then ChosenFrom(idx + [n], k + [CentreOf(tops[n], width, height)], tops, width, height)
      else ChosenFrom(idx, k, tops, width, height)
  {
    var n := |tops| - 1;
    forall i | 0 <= i < |idx|
      ensures idx[i] < n && k[i] == CentreOf(tops[idx[i]], width, height)
    {
      assert tops[..n][idx[i]] == tops[idx[i]];
    }
    if add {
      var idx' := idx + [n];
      assert forall i :: 0 <= i < |idx| ==> idx'[i] == idx[i];
    }
  }

  /**
   * The kept points are centres of candidates, in the candidates' order:
   * a strictly increasing choice of candidate indices produces them.
   */
  lemma {:induction false} KeptInMatchOrder(tops: seq<Point>, width: nat, height: nat, gray: seq<seq<int>>, threshold: int)
    returns (idx: seq<nat>)
    ensures ChosenFrom(idx, Kept(tops, width, height, gray, threshold), tops, width, height)
    decreases |tops|
  {
    if tops == [] {
      idx := [];
    } else {
      var n := |tops| - 1;
      var before := Kept(tops[..n], width, height, gray, threshold);
      var prev := KeptInMatchOrder(tops[..n], width, height, gray, threshold);
      var c := CentreOf(tops[n], width, height);
      var add := Bright(gray, c, threshold) && FarFromAll(before, c);
      ChosenStep(prev, before, tops, width, height, add);
      idx := if add then prev + [n] else prev;
    }
  }

  /** Kept points are only ever appended: an earlier candidate's result is a prefix of a later one. */
  lemma {:induction false} KeptGrows(tops: seq<Point>, n: nat, width: nat, height: nat, gray: seq<seq<int>>, threshold: int)
    requires n <= |tops|
    ensures Kept(tops[..n], width, height, gray, threshold) <= Kept(tops, width, height, gray, threshold)
    decreases |tops| - n
  {
    if n < |tops| {
      var m := |tops| - 1;
      assert tops[..m][..n] == tops[..n];
      KeptGrows(tops[..m], n, width, height, gray, threshold);
    } else {
      assert tops[..n] == tops;
    }
  }

  /**
   * A bright, in-frame candidate is dropped only for being near a point
   * kept before it; so every such candidate has a kept point near it.
   */
  lemma {:induction false} DroppedOnlyIfNear(tops: seq<Point>, k: nat, width: nat, height: nat, gray: seq<seq<int>>, threshold: int)
    requires k < |tops| && Bright(gray, CentreOf(tops[k], width, height), threshold)
    ensures var before := Kept(tops[..k], width, height, gray, threshold);
            var c := CentreOf(tops[k], width, height);
            Kept(tops[..k + 1], width, height, gray, threshold) == before + [c] ||
            exists j :: 0 <= j < |before| && Near(before[j], c)
    ensures exists q :: q in Kept(tops, width, height, gray, threshold) && Near(q, CentreOf(tops[k], width, height))
  {
    var c := CentreOf(tops[k], width, height);
    var before := Kept(tops[..k], width, height, gray, threshold);
    assert tops[..k + 1][..k] == tops[..k];
    var after := Kept(tops[..k + 1], width, height, gray, threshold);
    KeptGrows(tops, k + 1, width, height, gray, threshold);
    if FarFromAll(before, c) {
      assert after[|after| - 1] == c;
      assert Near(c, c);
    } else {
      var j :| 0 <= j < |before| && Near(before[j], c);
      assert after == before;
      assert after[j] in Kept(tops, width, height, gray, threshold);
    }
  }

  /** The `is_unique` scan: is `c` at least 50 pixels from every point kept so far? */
  method IsUnique(coords: seq<Point>, c: Point) returns (isUnique: bool)
    ensures isUnique == FarFromAll(coords, c)
  {
    isUnique := true;
    var j := 0;
    while j < |coords|
      invariant 0 <= j <= |coords|
      invariant forall m :: 0 <= m < j ==> !Near(coords[m], c)
    {
      var dx := c.x - coords[j].x;
      var dy := c.y - coords[j].y;
      if dx * dx + dy * dy < MinSeparationSquared {
        isUnique := false;
        return;
      }
      j := j + 1;
    }
  }

  /** The list-building loop of the source. */
  method FindUseButtons(scan: UseScan, threshold: int) returns (coords: seq<Point>)
    ensures coords == UseButtons(scan, threshold)
  {
    match scan
    case Scan(tops, width, height, gray) =>
      coords := [];
      var i := 0;
      while i < |tops|
        invariant 0 <= i <= |tops|
        invariant coords == Kept(tops[..i], width, height, gray, threshold)
      {
        var c := Point(tops[i].x + width / 2, tops[i].y + height / 2);
        if c.y < |gray| && c.x < |gray[c.y]| {
          var brightness := gray[c.y][c.x];
          if brightness > threshold {
            var isUnique := IsUnique(coords, c);
            if isUnique {
              coords := coords + [c];
            }
          }
        }
        assert tops[..i + 1][..i] == tops[..i];
        i := i + 1;
      }
      assert tops[..i] == tops;
    case NoTemplate =>
      coords := [];
    case Unreadable =>
      coords := [];
  }
}
