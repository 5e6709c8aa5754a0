/** Axis-aligned rectangles as pygame's Rect, and the random source used by level generation. */
module Geometry {

  /** An integer rectangle: top-left corner, width and height. */
  datatype Rect = Rect(x: int, y: int, w: int, h: int)

  /** pygame's Rect.colliderect for rectangles of non-negative size: an empty rectangle
      touches nothing, and rectangles that only share an edge do not overlap. */
  predicate Overlaps(a: Rect, b: Rect)
  {
    && a.w > 0 && a.h > 0 && b.w > 0 && b.h > 0
    && a.x < b.x + b.w && b.x < a.x + a.w
    && a.y < b.y + b.h && b.y < a.y + a.h
  }

  /** Overlap is symmetric. */
  lemma OverlapsSymmetric(a: Rect, b: Rect)
    ensures Overlaps(a, b) == Overlaps(b, a)
  {
  }

  /** If a horizontal range is at least as long as the two widths together, a rectangle of
      width `w` placed at one of its two ends is clear of `t`. */
  lemma ClearEnd(lo: int, hi: int, y: int, w: int, h: int, t: Rect)
    requires hi - lo >= w + t.w
    ensures !Overlaps(Rect(lo, y, w, h), t) || !Overlaps(Rect(hi, y, w, h), t)
  {
  }

  /** random.randint(lo, hi): any integer of the closed range. */
  method RandInt(lo: int, hi: int) returns (r: int)
    requires lo <= hi
    ensures lo <= r <= hi
  {
    r :| lo <= r <= hi;
  }

  /** random.randrange(lo, hi): any integer of the half-open range; `hi` itself is never drawn. */
  method RandRange(lo: int, hi: int) returns (r: int)
    requires lo < hi
    ensures lo <= r < hi
  {
    r :| lo <= r < hi;
  }

  /** The outcome of `while rect(x) collides with t: x = randint(lo, hi)` once it stops:
      some x of the range whose rectangle is clear of `t`.  The width condition makes such
      an x exist, so the loop it stands for can stop. */
  method RandClear(lo: int, hi: int, y: int, w: int, h: int, t: Rect) returns (r: int)
    requires lo <= hi && hi - lo >= w + t.w
    ensures lo <= r <= hi && !Overlaps(Rect(r, y, w, h), t)
  {
    ClearEnd(lo, hi, y, w, h, t);
    if !Overlaps(Rect(lo, y, w, h), t) {
      assert lo <= lo <= hi && !Overlaps(Rect(lo, y, w, h), t);
    } else {
      assert lo <= hi <= hi && !Overlaps(Rect(hi, y, w, h), t);
    }
    r :| lo <= r <= hi && !Overlaps(Rect(r, y, w, h), t);
  }
}
