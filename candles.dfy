/**
 * The value types of the scanner (Candle, CandleSnapshot) and the geometry that
 * turns one detected bounding rectangle into a Candle.
 *
 * Kotlin's Float and Double fields are modelled by exact reals: every one of
 * them is derived from integer pixel coordinates.
 */
module Candles {
  import opened Wrappers

  /** An axis-aligned bounding rectangle in pixels; y grows downwards. */
  datatype Rect = Rect(x: int, y: int, width: int, height: int)

  /**
   * One external contour as the analyzer sees it: its bounding rectangle and the
   * grey level of the (blurred) frame sampled at the rectangle's centre.
   */
  datatype Detection = Detection(rect: Rect, centerValue: real)

  datatype Candle = Candle(
    x: int,
    bodySize: real,
    wickTop: real,
    wickBottom: real,
    bullish: bool,
    area: real)

  /** A list of candles, or an empty list with a rejection message. */
  datatype CandleSnapshot = CandleSnapshot(candles: seq<Candle>, message: Option<string>)

  function FromList(list: seq<Candle>): CandleSnapshot
  {
    CandleSnapshot(list, None)
  }

  function Empty(msg: string): CandleSnapshot
  {
    CandleSnapshot([], Some(msg))
  }

  const MinAspect: real := 1.5
  const MinHeight: int := 20
  const MinWidth: int := 4
  /** Grey level above which a candle counts as bullish. */
  const BullishLevel: real := 127.0
  /** Fraction of the box height taken as the candle body. */
  const BodyFraction: real := 0.6

  /** height / max(1, width), computed on doubles. */
  function Aspect(r: Rect): real
  {
    (r.height as real) / (if 1.0 < r.width as real then r.width as real else 1.0)
  }

  /** The slender-shape filter: tall, narrow boxes look like candlesticks. */
  predicate IsCandleShape(r: Rect)
  {
    Aspect(r) > MinAspect && r.height > MinHeight && r.width > MinWidth
  }

  /** Dividing by a positive real preserves a strict lower bound. */
  lemma DivisionAbove(h: real, w: real, k: real)
    requires w > 0.0
    ensures h / w > k <==> h > k * w
  {
    var q := h / w;
    assert q * w == h;
    if q > k {
      assert (q - k) * w > 0.0;
    } else {
      assert (k - q) * w >= 0.0;
    }
  }

  /** The filter in integer terms: height exceeds one and a half widths. */
  lemma ShapeFilterInIntegers(r: Rect)
    ensures IsCandleShape(r) <==> 2 * r.height > 3 * r.width && r.height > 20 && r.width > 4
  {
    if r.width > 4 {
      DivisionAbove(r.height as real, r.width as real, MinAspect);
    }
  }

  /** The Candle built for an accepted rectangle. */
  function MakeCandle(d: Detection): (c: Candle)
    requires IsCandleShape(d.rect)
    ensures d.rect.x <= c.x < d.rect.x + d.rect.width
    ensures c.wickBottom - c.wickTop == d.rect.height as real > 20.0
    ensures IsRectangleCandle(c)
    ensures c.area >= 105.0
    ensures c.bullish <==> d.centerValue > BullishLevel
  {
    var r := d.rect;
    ShapeFilterInIntegers(r);
    assert r.width * r.height >= 5 * 21 by {
      assert r.width >= 5 && r.height >= 21;
    }
    Candle(
      x := r.x + r.width / 2,
      bodySize := r.height as real * BodyFraction,
      wickTop := r.y as real,
      wickBottom := (r.y + r.height) as real,
      bullish := d.centerValue > BullishLevel,
      area := (r.width * r.height) as real)
  }

  /**
   * What every candle built from a rectangle satisfies: its wick extent is the
   * box height (more than 20 pixels) and its body is 60% of that extent.
   */
  predicate IsRectangleCandle(c: Candle)
  {
    c.wickBottom - c.wickTop > MinHeight as real &&
    c.bodySize == BodyFraction * (c.wickBottom - c.wickTop)
  }
}
