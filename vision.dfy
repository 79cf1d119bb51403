/**
 * The template matcher as the automation engine sees it.  OpenCV itself
 * (image decoding, grey-scale conversion, normalised cross-correlation) is
 * an oracle: for a frame, a directory and a template name it reports
 * whether the template file exists, whether anything could be decoded, and
 * otherwise the best score, its top-left location and the template size.
 * Scores and thresholds are correlation values scaled by 1000.
 */
module Vision {
  import opened Wrappers

  /** A pixel position; the matcher never reports negative coordinates. */
  datatype Point = Point(x: nat, y: nat)

  /** The global maximum of a correlation map, with the template's size. */
  datatype BestMatch = BestMatch(score: int, left: nat, top: nat, width: nat, height: nat)

  /** What matching one template file against one frame yields. */
  datatype Lookup =
    | Missing                  // the template file does not exist
    | Undecodable              // an image could not be read, or matching raised
    | Scored(best: BestMatch)

  /** frame, template directory, template file name */
  type Matcher = (nat, string, string) -> Lookup

  /** What the all-matches scan for the "use" button yields on one frame. */
  datatype UseScan =
    | NoTemplate
    | Unreadable
    | Scan(tops: seq<Point>, width: nat, height: nat, gray: seq<seq<int>>)

  /** The threshold `find_template` uses unless told otherwise (0.8). */
  const DefaultThreshold: int := 800

  /** The fallback directory `find_template_multi` searches when given none. */
  const DefaultExtraDir: string := "assets/image"

  /** The tap point of a match: the middle of the template's bounding box. */
  function Centre(m: BestMatch): (c: Point)
    ensures m.width > 0 ==> m.left <= c.x < m.left + m.width
    ensures m.height > 0 ==> m.top <= c.y < m.top + m.height
    ensures m.width <= 2 * (c.x - m.left) + 1 && 2 * (c.x - m.left) <= m.width
    ensures m.height <= 2 * (c.y - m.top) + 1 && 2 * (c.y - m.top) <= m.height
  {
    BoxCentre(m.left, m.top, m.width, m.height)
  }

  /** The middle of a box, each half-size rounded down. */
  function BoxCentre(left: nat, top: nat, width: nat, height: nat): Point
  {
    Point(left + width / 2, top + height / 2)
  }

  /** `find_template`: accept the best match only when its score reaches the threshold. */
  function FindTemplate(l: Lookup, threshold: int): (r: Option<Point>)
    ensures r.Some? <==> l.Scored? && l.best.score >= threshold
    ensures r.Some? ==> r.value == Centre(l.best)
  {
    match l
    case Scored(best) => if best.score >= threshold then Some(Centre(best)) else None
    case _ => None
  }

  /** Raising the threshold never creates a match and never moves one. */
  lemma ThresholdMonotone(l: Lookup, t1: int, t2: int)
    requires t1 <= t2
    ensures FindTemplate(l, t2).Some? ==> FindTemplate(l, t1) == FindTemplate(l, t2)
  {
  }

  /** The directories `find_template_multi` tries: the primary one, then the extras in order. */
  function SearchRoots(primary: string, extra: Option<seq<string>>): (dirs: seq<string>)
    ensures |dirs| >= 1 && dirs[0] == primary
    ensures extra.None? ==> dirs[1..] == [DefaultExtraDir]
    ensures extra.Some? ==> dirs[1..] == extra.value
  {
    [primary] + extra.GetOr([DefaultExtraDir])
  }

  /** The ordered search: the first directory whose template matches decides. */
  function SearchDirs(look: Matcher, frame: nat, dirs: seq<string>, name: string, threshold: int): Option<Point>
    decreases |dirs|
  {
    if dirs == [] then None
    else
      match FindTemplate(look(frame, dirs[0], name), threshold)
      case Some(p) => Some(p)
      case None => SearchDirs(look, frame, dirs[1..], name, threshold)
  }

  /** The result of trying directory `i` alone. */
  function HitIn(look: Matcher, frame: nat, dirs: seq<string>, i: nat, name: string, threshold: int): Option<Point>
    requires i < |dirs|
  {
    FindTemplate(look(frame, dirs[i], name), threshold)
  }

  /**
   * The search finds a point exactly when some directory matches, and the
   * point it finds is that of the first matching directory.
   */
  lemma {:induction false} FirstHitWins(look: Matcher, frame: nat, dirs: seq<string>, name: string, threshold: int)
    ensures SearchDirs(look, frame, dirs, name, threshold).Some? <==>
            exists i :: 0 <= i < |dirs| && HitIn(look, frame, dirs, i, name, threshold).Some?
    ensures SearchDirs(look, frame, dirs, name, threshold).Some? ==>
            exists i :: 0 <= i < |dirs| && HitIn(look, frame, dirs, i, name, threshold) == SearchDirs(look, frame, dirs, name, threshold) &&
              forall j :: 0 <= j < i ==> HitIn(look, frame, dirs, j, name, threshold).None?
    decreases |dirs|
  {
    if dirs != [] {
      FirstHitWins(look, frame, dirs[1..], name, threshold);
      if HitIn(look, frame, dirs, 0, name, threshold).None? {
        forall i | 1 <= i < |dirs|
          ensures HitIn(look, frame, dirs, i, name, threshold) == HitIn(look, frame, dirs[1..], i - 1, name, threshold)
        {
        }
        if SearchDirs(look, frame, dirs, name, threshold).Some? {
          var i :| 0 <= i < |dirs[1..]| && HitIn(look, frame, dirs[1..], i, name, threshold) == SearchDirs(look, frame, dirs[1..], name, threshold) &&
              forall j :: 0 <= j < i ==> HitIn(look, frame, dirs[1..], j, name, threshold).None?;
          assert HitIn(look, frame, dirs, i + 1, name, threshold) == SearchDirs(look, frame, dirs, name, threshold);
          forall j | 0 <= j < i + 1
            ensures HitIn(look, frame, dirs, j, name, threshold).None?
          {
            if j > 0 {
              assert HitIn(look, frame, dirs, j, name, threshold) == HitIn(look, frame, dirs[1..], j - 1, name, threshold);
            }
          }
        }
      }
    }
  }

  /**
   * Directories after the first matching one are never consulted: two
   * matchers that agree up to and including directory `i`, where the
   * template matches, give the same result.
   */
  lemma {:induction false} LaterDirsUnconsulted(look1: Matcher, look2: Matcher, frame: nat, dirs: seq<string>, i: nat, name: string, threshold: int)
    requires i < |dirs|
    requires HitIn(look1, frame, dirs, i, name, threshold).Some?
    requires forall j :: 0 <= j <= i ==> look1(frame, dirs[j], name) == look2(frame, dirs[j], name)
    ensures SearchDirs(look1, frame, dirs, name, threshold) == SearchDirs(look2, frame, dirs, name, threshold)
    decreases i
  {
    assert look1(frame, dirs[0], name) == look2(frame, dirs[0], name);
    if i > 0 && FindTemplate(look1(frame, dirs[0], name), threshold).None? {
      forall j | 0 <= j <= i - 1
        ensures look1(frame, dirs[1..][j], name) == look2(frame, dirs[1..][j], name)
      {
        assert dirs[1..][j] == dirs[j + 1];
      }
      assert HitIn(look1, frame, dirs[1..], i - 1, name, threshold) == HitIn(look1, frame, dirs, i, name, threshold);
      LaterDirsUnconsulted(look1, look2, frame, dirs[1..], i - 1, name, threshold);
    }
  }

  /** A directory that lacks the template file is skipped. */
  lemma MissingFileSkipped(look: Matcher, frame: nat, dirs: seq<string>, name: string, threshold: int)
    requires dirs != [] && look(frame, dirs[0], name) == Missing
    ensures SearchDirs(look, frame, dirs, name, threshold) == SearchDirs(look, frame, dirs[1..], name, threshold)
  {
  }

  /** Lowering the threshold never loses a match of the ordered search. */
  lemma {:induction false} SearchThresholdMonotone(look: Matcher, frame: nat, dirs: seq<string>, name: string, t1: int, t2: int)
    requires t1 <= t2
    ensures SearchDirs(look, frame, dirs, name, t2).Some? ==> SearchDirs(look, frame, dirs, name, t1).Some?
    decreases |dirs|
  {
    if dirs != [] {
      ThresholdMonotone(look(frame, dirs[0], name), t1, t2);
      SearchThresholdMonotone(look, frame, dirs[1..], name, t1, t2);
    }
  }
}
