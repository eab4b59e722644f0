/**
 * Delta streaming of a web page's frames (`flush_delta` in `guac_web.cpp`): only the smallest
 * rectangle that has changed is sent, and the remote canvas must still show the whole frame.
 */
module DeltaStream {
  import opened Results
  import opened Bytes

  // ---- images -------------------------------------------------------------------------------------------

  datatype Pixel = Pixel(r: byte, g: byte, b: byte)

  /** Rows from top to bottom, without padding. */
  datatype Image = Image(w: nat, h: nat, pixels: seq<Pixel>)

  predicate Proper(i: Image) { i.w > 0 && i.h > 0 && |i.pixels| == i.w * i.h }

  type Frame = i: Image | Proper(i) witness Image(1, 1, [Pixel(0, 0, 0)])

  datatype Rect = Rect(x: nat, y: nat, w: nat, h: nat)

  predicate Inside(i: Image, x: int, y: int) { 0 <= x < i.w && 0 <= y < i.h }

  predicate Covers(r: Rect, x: int, y: int) { r.x <= x < r.x + r.w && r.y <= y < r.y + r.h }

  lemma IndexInRange(w: nat, h: nat, x: nat, y: nat)
    requires x < w && y < h
    ensures 0 <= y * w + x < w * h
  {
    assert (y + 1) * w <= h * w;
  }

  function At(i: Frame, x: nat, y: nat): Pixel
    requires Inside(i, x, y)
  {
    IndexInRange(i.w, i.h, x, y);
    i.pixels[y * i.w + x]
  }

  lemma RowInRange(w: nat, h: nat, y: nat)
    requires y < h
    ensures 0 <= y * w <= y * w + w <= w * h
  {
    assert (y + 1) * w <= h * w;
  }

  function Row(i: Frame, y: nat): (row: seq<Pixel>)
    requires y < i.h
    ensures |row| == i.w && forall x :: 0 <= x < i.w ==> row[x] == At(i, x, y)
  {
    RowInRange(i.w, i.h, y);
    i.pixels[y * i.w..y * i.w + i.w]
  }

  // ---- the rectangle that has changed ----------------------------------------------------------------------

  predicate SameSize(a: Image, b: Image) { a.w == b.w && a.h == b.h }

  predicate Changed(a: Frame, b: Frame, x: nat, y: nat)
    requires SameSize(a, b) && Inside(a, x, y)
  {
    At(a, x, y) != At(b, x, y)
  }

  /** The rectangle lies in the frame, holds every changed pixel, and has one on each of its edges. */
  ghost predicate IsDirty(a: Frame, b: Frame, r: Rect)
    requires SameSize(a, b)
  {
    && r.w > 0 && r.h > 0 && r.x + r.w <= a.w && r.y + r.h <= a.h
    && (forall x, y :: Inside(a, x, y) && Changed(a, b, x, y) ==> Covers(r, x, y))
    && ColumnChanged(a, b, r.x, a.h) && ColumnChanged(a, b, r.x + r.w - 1, a.h)
    && RowChanged(a, b, r.y) && RowChanged(a, b, r.y + r.h - 1)
  }

  ghost predicate RowChanged(a: Frame, b: Frame, y: nat)
    requires SameSize(a, b)
  {
    exists x :: Inside(a, x, y) && Changed(a, b, x, y)
  }

  /** Column x differs in one of the first `rows` rows. */
  ghost predicate ColumnChanged(a: Frame, b: Frame, x: int, rows: nat)
    requires SameSize(a, b)
  {
    exists y :: y < rows && Inside(a, x, y) && Changed(a, b, x, y)
  }

  /** There is only one such rectangle. */
  lemma DirtyIsUnique(a: Frame, b: Frame, r: Rect, q: Rect)
    requires SameSize(a, b) && IsDirty(a, b, r) && IsDirty(a, b, q)
    ensures r == q
  {
  }

  lemma SameRows(a: Frame, b: Frame, y: nat)
    requires SameSize(a, b) && y < a.h
    ensures Row(a, y) == Row(b, y) <==> !RowChanged(a, b, y)
  {
    hide At;
    var p, q := Row(a, y), Row(b, y);
    assert forall x :: 0 <= x < a.w ==> (p[x] != q[x] <==> Changed(a, b, x, y));
  }

  /** The columns of one changed row are folded into the range found so far. */
  method ScanRow(a: Frame, b: Frame, y: nat, min: nat, max: int) returns (minCol: nat, maxCol: int)
    requires SameSize(a, b) && y < a.h && min <= a.w && -1 <= max < a.w
    ensures minCol <= min && max <= maxCol < a.w
    ensures forall x :: 0 <= x < a.w && Changed(a, b, x, y) ==> minCol <= x <= maxCol
    ensures minCol == min || (minCol < a.w && Changed(a, b, minCol, y))
    ensures maxCol == max || (0 <= maxCol && Changed(a, b, maxCol, y))
  {
    minCol, maxCol := min, max;
    for x := 0 to a.w
      invariant minCol <= min && max <= maxCol < a.w
      invariant forall k :: 0 <= k < x && Changed(a, b, k, y) ==> minCol <= k <= maxCol
      invariant minCol == min || (minCol < a.w && Changed(a, b, minCol, y))
      invariant maxCol == max || (0 <= maxCol && Changed(a, b, maxCol, y))
    {
      if Row(a, y)[x] != Row(b, y)[x] {
        minCol := if x < minCol then x else minCol;
        maxCol := if x > maxCol then x else maxCol;
      }
    }
  }

  /** What the first `rows` rows have shown: the extreme rows and columns with a change, or none. */
  ghost predicate Scanned(a: Frame, b: Frame, rows: nat, minRow: int, maxRow: int, minCol: int, maxCol: int)
    requires SameSize(a, b)
  {
    && (forall x, y :: Inside(a, x, y) && y < rows && Changed(a, b, x, y) ==> minRow <= y <= maxRow && minCol <= x <= maxCol)
    && if minRow == -1 then maxRow == -1 && minCol == a.w && maxCol == -1
       else && 0 <= minRow <= maxRow < rows && RowChanged(a, b, minRow) && RowChanged(a, b, maxRow)
            && 0 <= minCol <= maxCol < a.w && ColumnChanged(a, b, minCol, rows) && ColumnChanged(a, b, maxCol, rows)
  }

  lemma ScanSameRow(a: Frame, b: Frame, y: nat, minRow: int, maxRow: int, minCol: int, maxCol: int)
    requires SameSize(a, b) && Scanned(a, b, y, minRow, maxRow, minCol, maxCol) && !RowChanged(a, b, y)
    ensures Scanned(a, b, y + 1, minRow, maxRow, minCol, maxCol)
  {
    hide At;
  }

  lemma ScanChangedRow(a: Frame, b: Frame, y: nat, minRow: int, maxRow: int, minCol: int, maxCol: int, newMin: nat, newMax: int)
    requires SameSize(a, b) && y < a.h && Scanned(a, b, y, minRow, maxRow, minCol, maxCol) && RowChanged(a, b, y)
    requires newMin <= minCol && maxCol <= newMax < a.w
    requires forall x :: Inside(a, x, y) && Changed(a, b, x, y) ==> newMin <= x <= newMax
    requires newMin == minCol || (newMin < a.w && Changed(a, b, newMin, y))
    requires newMax == maxCol || (0 <= newMax && Changed(a, b, newMax, y))
    ensures Scanned(a, b, y + 1, if minRow == -1 then y else minRow, y, newMin, newMax)
  {
    hide At;
    var x :| Inside(a, x, y) && Changed(a, b, x, y);
    assert ColumnChanged(a, b, newMin, y + 1);
    assert ColumnChanged(a, b, newMax, y + 1);
  }

  /** The search for the rectangle; none if the frames are equal. */
  method FindDirty(a: Frame, b: Frame) returns (r: Option<Rect>)
    requires SameSize(a, b)
    ensures r.None? <==> a == b
    ensures r.Some? ==> IsDirty(a, b, r.value)
  {
    hide At, Changed;
    var minRow, maxRow, minCol, maxCol := -1, -1, a.w, -1;
    for y := 0 to a.h
      invariant minCol >= 0 && -1 <= maxCol < a.w && minCol <= a.w
      invariant Scanned(a, b, y, minRow, maxRow, minCol, maxCol) == true
    {
      hide Scanned, RowChanged;
      SameRows(a, b, y);
      if Row(a, y) == Row(b, y) {
        ScanSameRow(a, b, y, minRow, maxRow, minCol, maxCol);
        continue;
      }
      var newMin, newMax := ScanRow(a, b, y, minCol, maxCol);
      ScanChangedRow(a, b, y, minRow, maxRow, minCol, maxCol, newMin, newMax);
      if minRow == -1 { minRow := y; }
      maxRow, minCol, maxCol := y, newMin, newMax;
    }
    if minRow == -1 {
      SameFrames(a, b);
      return None;
    }
    r := Some(Rect(minCol, minRow, maxCol - minCol + 1, maxRow - minRow + 1));
    DirtyDiffers(a, b, minRow);
  }

  lemma DirtyDiffers(a: Frame, b: Frame, y: nat)
    requires SameSize(a, b) && RowChanged(a, b, y)
    ensures a != b
  {
  }

  lemma SameFrames(a: Frame, b: Frame)
    requires SameSize(a, b) && forall x, y :: Inside(a, x, y) ==> !Changed(a, b, x, y)
    ensures a == b
  {
    forall k | 0 <= k < |a.pixels| ensures a.pixels[k] == b.pixels[k] {
      Coordinates(a.w, a.h, k);
      assert !Changed(a, b, k % a.w, k / a.w);
    }
  }

  lemma Coordinates(w: nat, h: nat, k: nat)
    requires w > 0 && k < w * h
    ensures 0 <= k % w < w && 0 <= k / w < h && (k / w) * w + k % w == k
  {
    assert k == (k / w) * w + k % w;
    QuotientBelow(w, h, k / w, k);
  }

  lemma QuotientBelow(w: nat, h: nat, q: nat, k: nat)
    requires q * w <= k < w * h
    ensures q < h
  {
    assert q >= h ==> q * w >= h * w;
  }
}
