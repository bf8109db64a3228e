/** The height, in editor lines, that `update` gives the zone widget.
    The source computes it with floating point `Math.ceil` and `Math.round`;
    for a positive integer line height every step has an exact integer form,
    and each function below states the rounding it performs. */
module ZoneHeight {

  /** Extra pixels added at the bottom to avoid margin collapse. */
  const MarginBottom: nat := 8

  /** `Math.ceil(lineHeight * 1.2)`: the least r with 5r >= 6 lh. */
  function HeadHeight(lh: nat): (r: nat)
    ensures 5 * r >= 6 * lh && 5 * r < 6 * lh + 5
  {
    (6 * lh + 4) / 5
  }

  /** `Math.round(lineHeight / 3)`, i.e. the floor of lh/3 + 1/2. */
  function ArrowHeight(lh: nat): (r: nat)
    ensures 6 * r <= 2 * lh + 3 < 6 * r + 6
  {
    (lh + 1) / 3
  }

  /** `Math.round(lineHeight / 9) * 2`: twice the floor of lh/9 + 1/2. */
  function FrameThickness(lh: nat): (r: nat)
    ensures r % 2 == 0
    ensures 9 * r <= 2 * lh + 9 < 9 * r + 18
  {
    2 * ((lh + 4) / 9)
  }

  /** The pixel height the zone must hold: head, body, arrow, frame and bottom margin. */
  function ContentHeight(lh: nat, bodyHeight: nat): nat
  {
    HeadHeight(lh) + bodyHeight + ArrowHeight(lh) + FrameThickness(lh) + MarginBottom
  }

  /** `Math.ceil(n / d)` for a positive divisor. */
  function CeilDiv(n: nat, d: nat): (r: nat)
    requires d > 0
    ensures (r - 1) * d < n <= r * d
  {
    var q := (n + d - 1) / d;
    assert d * q <= n + d - 1 < d * q + d;
    assert (q - 1) * d == d * q - d;
    q
  }

  /** The number of lines the zone is shown with: the content height rounded up to whole lines. */
  function ZoneLines(lh: nat, bodyHeight: nat): (r: nat)
    requires lh > 0
    ensures (r - 1) * lh < ContentHeight(lh, bodyHeight) <= r * lh
    ensures r >= 1
  {
    CeilDiv(ContentHeight(lh, bodyHeight), lh)
  }

  lemma MulMonotone(a: int, b: int, d: nat)
    requires a <= b
    ensures a * d <= b * d
  {
    assert b * d - a * d == (b - a) * d;
  }

  /** The integer formula is the only integer meeting the ceiling's defining inequalities,
      so it is exactly the value `Math.ceil` yields. */
  lemma {:induction false} CeilDivUnique(n: nat, d: nat, q: int)
    requires d > 0
    requires (q - 1) * d < n <= q * d
    ensures q == CeilDiv(n, d)
  {
    var r := CeilDiv(n, d);
    if q < r {
      MulMonotone(q, r - 1, d);
    } else if q > r {
      MulMonotone(r, q - 1, d);
    }
  }

  /** A taller comment body never makes the zone shorter. */
  lemma {:induction false} ZoneLinesMonotone(lh: nat, b1: nat, b2: nat)
    requires lh > 0 && b1 <= b2
    ensures ZoneLines(lh, b1) <= ZoneLines(lh, b2)
  {
    var r1, r2 := ZoneLines(lh, b1), ZoneLines(lh, b2);
    if r2 < r1 {
      MulMonotone(r2, r1 - 1, lh);
    }
  }

  /** Line height 18 and a body 100 pixels high: 22 + 100 + 6 + 4 + 8 = 140 pixels, 8 lines. */
  lemma ZoneLinesExample()
    ensures HeadHeight(18) == 22 && ArrowHeight(18) == 6 && FrameThickness(18) == 4
    ensures ContentHeight(18, 100) == 140
    ensures ZoneLines(18, 100) == 8
  {
  }
}
