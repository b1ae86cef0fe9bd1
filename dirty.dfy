/**
 * Dirty-bound accumulation of update_screen (main.c:356-357, 387-395,
 * 431-440, 495-504, 578-589, 601-608).
 *
 * Every changed unit is reported as a Hit: the first and last pixel column it
 * covers and its row. The bounds follow the source's "if below the minimum,
 * else if above the maximum" rule: the column minimum and (in the unrotated
 * branches) the row maximum are exact, the other two may under-report.
 */
module Dirty {

  datatype Option<T> = None | Some(value: T)

  /** The four tracked fields of varblock: min_i, min_j, max_i, max_j. */
  datatype Bounds = Bounds(minI: int, minJ: int, maxI: int, maxJ: int)

  /** The values update_screen starts from on every call. */
  const Cleared: Bounds := Bounds(9999, 9999, -1, -1)

  /** A changed unit: columns x .. xHi of row y. */
  datatype Hit = Hit(x: int, xHi: int, y: int)

  predicate WellFormed(h: Hit)
  {
    0 <= h.x <= h.xHi && 0 <= h.y
  }

  /** Straight: the three unrotated branches. Rotated: the 16-bit branch. */
  datatype Rule = Straight | Rotated

  /** The row part, shared by both rules: maximum first, then minimum. */
  function GrowRow(b: Bounds, y: int): Bounds
  {
    if y > b.maxJ then b.(maxJ := y)
    else if y < b.minJ then b.(minJ := y)
    else b
  }

  /**
   * One changed unit. Straight (main.c:387-395): columns, then rows.
   * Rotated (main.c:578-589): the rows are only looked at when the column did
   * not lower min_i.
   */
  function Grow(rule: Rule, b: Bounds, h: Hit): Bounds
  {
    match rule
    case Straight =>
      var b1 := if h.x < b.minI then b.(minI := h.x)
                else if h.xHi > b.maxI then b.(maxI := h.xHi)
                else b;
      GrowRow(b1, h.y)
    case Rotated =>
      if h.x < b.minI then b.(minI := h.x)
      else
        var b1 := if h.xHi > b.maxI then b.(maxI := h.xHi) else b;
        GrowRow(b1, h.y)
  }

  /** The bounds after the changed units `hits`, in scan order. */
  function Scan(rule: Rule, hits: seq<Hit>): Bounds
    decreases |hits|
  {
    if hits == [] then Cleared
    else Grow(rule, Scan(rule, hits[..|hits| - 1]), hits[|hits| - 1])
  }

  /** The fix-up made when something was tracked (main.c:601-606). */
  function Settle(b: Bounds): Bounds
  {
    if b.minI < 9999 then
      var b1 := if b.maxI < 0 then b.(maxI := b.minI) else b;
      if b1.maxJ < 0 then b1.(maxJ := b1.minJ) else b1
    else b
  }

  /** Arguments x1, y1, x2, y2 of rfbMarkRectAsModified. */
  datatype Rect = Rect(x1: int, y1: int, x2: int, y2: int)

  /** The rectangle marked for settled bounds b, if any (main.c:601, 608). */
  function MarkOf(b: Bounds): Option<Rect>
  {
    if b.minI < 9999 then Some(Rect(b.minI, b.minJ, b.maxI + 2, b.maxJ + 1)) else None
  }

  /** The shape the bounds keep whatever the changed units. */
  predicate Shaped(b: Bounds)
  {
    && -1 <= b.maxI && b.minI <= 9999
    && -1 <= b.maxJ && b.minJ <= 9999
    && (b.maxI == -1 || b.minI <= b.maxI)
    && (b.minJ == 9999 || b.minJ <= b.maxJ)
  }

  lemma {:induction false} ScanAppend(rule: Rule, hits: seq<Hit>, h: Hit)
    ensures Scan(rule, hits + [h]) == Grow(rule, Scan(rule, hits), h)
  {
    assert (hits + [h])[..|hits|] == hits;
  }

  /**
   * min_i only decreases; max_i is only raised to a column not below the
   * current min_i; min_j is only lowered to a row not above max_j. Hence
   * max_i >= min_i once max_i is set, and min_j <= max_j once min_j is set.
   */
  lemma {:induction false} ScanShaped(rule: Rule, hits: seq<Hit>)
    requires forall k :: 0 <= k < |hits| ==> WellFormed(hits[k])
    ensures Shaped(Scan(rule, hits))
    ensures Scan(rule, hits).minI <= Cleared.minI
    decreases |hits|
  {
    if hits != [] {
      ScanShaped(rule, hits[..|hits| - 1]);
    }
  }

  /** min_i is exactly the least first column among the changed units. */
  lemma {:induction false} ScanMinIExact(rule: Rule, hits: seq<Hit>)
    requires hits != []
    requires forall k :: 0 <= k < |hits| ==> hits[k].x < 9999
    ensures forall k :: 0 <= k < |hits| ==> Scan(rule, hits).minI <= hits[k].x
    ensures exists k :: 0 <= k < |hits| && Scan(rule, hits).minI == hits[k].x
    decreases |hits|
  {
    var n := |hits| - 1;
    var prev := hits[..n];
    if prev == [] {
      assert Scan(rule, hits).minI == hits[0].x;
    } else {
      ScanMinIExact(rule, prev);
      var m := Scan(rule, prev).minI;
      var j :| 0 <= j < n && m == prev[j].x;
      if hits[n].x < m {
        assert Scan(rule, hits).minI == hits[n].x;
      } else {
        assert Scan(rule, hits).minI == hits[j].x;
      }
    }
  }

  /**
   * In the unrotated branches max_j is exactly the last row among the changed
   * units, since rows are tested against the maximum first.
   */
  lemma {:induction false} ScanMaxJExact(hits: seq<Hit>)
    requires hits != []
    requires forall k :: 0 <= k < |hits| ==> WellFormed(hits[k])
    ensures forall k :: 0 <= k < |hits| ==> hits[k].y <= Scan(Straight, hits).maxJ
    ensures exists k :: 0 <= k < |hits| && Scan(Straight, hits).maxJ == hits[k].y
    decreases |hits|
  {
    var n := |hits| - 1;
    var prev := hits[..n];
    if prev == [] {
      assert Scan(Straight, hits).maxJ == hits[0].y;
    } else {
      ScanMaxJExact(prev);
      var m := Scan(Straight, prev).maxJ;
      var j :| 0 <= j < n && m == prev[j].y;
      if hits[n].y > m {
        assert Scan(Straight, hits).maxJ == hits[n].y;
      } else {
        assert Scan(Straight, hits).maxJ == hits[j].y;
      }
    }
  }

  /**
   * Every bound that left its initial value is a coordinate of some changed
   * unit: max_i a last column, min_j and max_j rows. So the other two bounds
   * can only under-report, never point outside the changed units.
   */
  lemma {:induction false} ScanFromHits(rule: Rule, hits: seq<Hit>)
    ensures var b := Scan(rule, hits);
      && (b.maxI == -1 || exists k :: 0 <= k < |hits| && b.maxI == hits[k].xHi)
      && (b.minJ == 9999 || exists k :: 0 <= k < |hits| && b.minJ == hits[k].y)
      && (b.maxJ == -1 || exists k :: 0 <= k < |hits| && b.maxJ == hits[k].y)
    decreases |hits|
  {
    if hits != [] {
      var n := |hits| - 1;
      var prev := hits[..n];
      ScanFromHits(rule, prev);
      var b0 := Scan(rule, prev);
      var b := Scan(rule, hits);
      if b.maxI != b0.maxI {
        assert b.maxI == hits[n].xHi;
      } else if b.maxI != -1 {
        var j :| 0 <= j < n && b0.maxI == prev[j].xHi;
        assert b.maxI == hits[j].xHi;
      }
      if b.minJ != b0.minJ {
        assert b.minJ == hits[n].y;
      } else if b.minJ != 9999 {
        var j :| 0 <= j < n && b0.minJ == prev[j].y;
        assert b.minJ == hits[j].y;
      }
      if b.maxJ != b0.maxJ {
        assert b.maxJ == hits[n].y;
      } else if b.maxJ != -1 {
        var j :| 0 <= j < n && b0.maxJ == prev[j].y;
        assert b.maxJ == hits[j].y;
      }
    }
  }

  /**
   * A rectangle is marked exactly when some unit changed (for columns below
   * the 9999 sentinel), and then it is at least two columns wide since
   * max_i >= min_i after the fix-up.
   */
  lemma {:induction false} MarkedIffChanged(rule: Rule, hits: seq<Hit>)
    requires forall k :: 0 <= k < |hits| ==> WellFormed(hits[k]) && hits[k].x < 9999
    ensures MarkOf(Settle(Scan(rule, hits))).Some? <==> hits != []
    ensures MarkOf(Settle(Scan(rule, hits))).Some? ==>
      var r := MarkOf(Settle(Scan(rule, hits))).value;
      r.x1 + 2 <= r.x2 && 0 <= r.x1 && (r.y1 == 9999 || r.y1 < r.y2)
  {
    ScanShaped(rule, hits);
    if hits != [] {
      ScanMinIExact(rule, hits);
    }
  }

  /**
   * A single changed pixel leaves min_j at 9999: its row is taken as the
   * maximum, and the rectangle's y1 is the sentinel.
   */
  lemma {:induction false} SinglePixelKeepsMinJ(x: int, y: int)
    requires 0 <= x < 9999 && 0 <= y
    ensures MarkOf(Settle(Scan(Straight, [Hit(x, x, y)]))) == Some(Rect(x, 9999, x + 2, y + 1))
  {
    assert [Hit(x, x, y)][..0] == [];
  }

  /**
   * A change at column 5 followed by one at column 3 on the next row: the
   * second lowers min_i and is not compared with max_i, so column 5 falls
   * outside the marked columns [3, 5).
   */
  lemma LaterSmallerColumnDropsMax()
    ensures MarkOf(Settle(Scan(Straight, [Hit(5, 5, 0), Hit(3, 3, 1)]))) == Some(Rect(3, 9999, 5, 2))
  {
    var hits := [Hit(5, 5, 0), Hit(3, 3, 1)];
    assert hits[..1] == [Hit(5, 5, 0)];
    assert hits[..1][..0] == [];
  }
}
