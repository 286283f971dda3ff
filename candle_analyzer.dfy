/**
 * The frame analyzer after the image-processing calls: quality gate, shape
 * filter and candle construction, a stable sort by x, and the rolling history
 * of at most 30 candles that suppresses a candle whose x equals the tail's x.
 *
 * The OpenCV stages (grey conversion, blur, Canny, contour search, bounding
 * rectangles, Laplacian and mean) are inputs: a frame is given as its Laplacian
 * mean, its intensity mean and its detections.
 */
module CandleAnalyzer {
  import opened Wrappers
  import opened Candles

  const Capacity: nat := 30
  const BlurThreshold: real := 5.0
  const BrightnessThreshold: real := 40.0
  const QualityMessage: string := "Chart clear na \U{00E2}\U{20AC}\U{201C} scan possible na"

  /** What the image-processing stages produce from one camera frame. */
  datatype Frame = Frame(laplacianMean: real, intensityMean: real, detections: seq<Detection>)

  /** The quality gate: the mean of the Laplacian (not its variance) and the mean intensity. */
  predicate IsImageGood(laplacianMean: real, intensityMean: real)
  {
    !(laplacianMean < BlurThreshold) && !(intensityMean < BrightnessThreshold)
  }

  /**
   * The gate passes exactly when the Laplacian mean is at least 5 and the mean
   * intensity at least 40; a sharper or brighter frame never fails where a
   * duller one passes.
   */
  lemma QualityGateThresholds(laplacianMean: real, intensityMean: real, sharper: real, brighter: real)
    ensures IsImageGood(laplacianMean, intensityMean) <==> laplacianMean >= 5.0 && intensityMean >= 40.0
    ensures IsImageGood(laplacianMean, intensityMean) && sharper >= laplacianMean && brighter >= intensityMean ==>
      IsImageGood(sharper, brighter)
  {
  }

  // ---------------------------------------------------------------------------
  // Candle extraction

  /** The candles of the accepted detections, in detection order. */
  function ExtractCandles(ds: seq<Detection>): (cs: seq<Candle>)
    ensures |cs| <= |ds|
    ensures forall i :: 0 <= i < |cs| ==> IsRectangleCandle(cs[i])
    ensures (forall i :: 0 <= i < |ds| ==> IsCandleShape(ds[i].rect)) ==> |cs| == |ds|
    ensures (forall i :: 0 <= i < |ds| ==> !IsCandleShape(ds[i].rect)) ==> cs == []
  {
    if ds == [] then []
    else
      var last := ds[|ds| - 1];
      ExtractCandles(ds[..|ds| - 1]) + (if IsCandleShape(last.rect) then [MakeCandle(last)] else [])
  }

  /**
   * Every accepted detection yields its candle, and every candle is the candle
   * of an accepted detection.
   */
  lemma {:induction false} ExtractCandlesMembers(ds: seq<Detection>)
    ensures forall d :: d in ds && IsCandleShape(d.rect) ==> MakeCandle(d) in ExtractCandles(ds)
    ensures forall c :: c in ExtractCandles(ds) ==>
      exists d :: d in ds && IsCandleShape(d.rect) && c == MakeCandle(d)
    decreases |ds|
  {
    if ds != [] {
      var init, last := ds[..|ds| - 1], ds[|ds| - 1];
      ExtractCandlesMembers(init);
      assert ds == init + [last];
    }
  }

  /**
   * Extraction is a filter-map: two runs of detections give the candles of the
   * first run followed by those of the second, so candles keep detection order.
   */
  lemma {:induction false} ExtractCandlesConcat(a: seq<Detection>, b: seq<Detection>)
    ensures ExtractCandles(a + b) == ExtractCandles(a) + ExtractCandles(b)
    decreases |b|
  {
    if b == [] {
      assert a + b == a;
    } else {
      var init := b[..|b| - 1];
      assert (a + b)[..|a + b| - 1] == a + init;
      assert (a + b)[|a + b| - 1] == b[|b| - 1];
      ExtractCandlesConcat(a, init);
    }
  }

  /** One detection yields its candle when accepted and nothing otherwise. */
  lemma ExtractCandlesSingle(d: Detection)
    ensures ExtractCandles([d]) == if IsCandleShape(d.rect) then [MakeCandle(d)] else []
  {
    assert [d][..0] == [];
  }

  /** The loop over contours that filters rectangles and builds candles. */
  method DetectCandles(ds: seq<Detection>) returns (candles: seq<Candle>)
    ensures candles == ExtractCandles(ds)
  {
    candles := [];
    for i := 0 to |ds|
      invariant candles == ExtractCandles(ds[..i])
    {
      assert ds[..i + 1][..i] == ds[..i];
      var r := ds[i].rect;
      if Aspect(r) > MinAspect && r.height > MinHeight && r.width > MinWidth {
        candles := candles + [MakeCandle(ds[i])];
      }
    }
    assert ds[..|ds|] == ds;
  }

  // ---------------------------------------------------------------------------
  // Stable sort by x (the library's sortBy)

  predicate SortedByX(cs: seq<Candle>)
  {
    forall i, j :: 0 <= i < j < |cs| ==> cs[i].x <= cs[j].x
  }

  /** The candles of `cs` whose x is k, in order. */
  function WithX(k: int, cs: seq<Candle>): seq<Candle>
  {
    if cs == [] then [] else OwnX(k, cs[0]) + WithX(k, cs[1..])
  }

  /** Places c before the first candle whose x is at least c.x. */
  function InsertByX(c: Candle, cs: seq<Candle>): seq<Candle>
  {
    if cs == [] then [c]
    else if c.x <= cs[0].x then [c] + cs
    else [cs[0]] + InsertByX(c, cs[1..])
  }

  /** Inserting adds exactly c. */
  lemma {:induction false} InsertByXPermutes(c: Candle, cs: seq<Candle>)
    ensures multiset(InsertByX(c, cs)) == multiset(cs) + multiset{c}
  {
    if cs != [] && c.x > cs[0].x {
      InsertByXPermutes(c, cs[1..]);
      assert cs == [cs[0]] + cs[1..];
    }
  }

  /** Inserting into a sorted sequence keeps it sorted. */
  lemma {:induction false} InsertByXSorted(c: Candle, cs: seq<Candle>)
    requires SortedByX(cs)
    ensures SortedByX(InsertByX(c, cs))
  {
    if cs != [] && c.x > cs[0].x {
      InsertByXSorted(c, cs[1..]);
      InsertByXPermutes(c, cs[1..]);
      var rest := InsertByX(c, cs[1..]);
      forall d | d in rest
        ensures cs[0].x <= d.x
      {
        assert d in multiset(rest);
      }
    }
  }

  function SortByX(cs: seq<Candle>): seq<Candle>
  {
    if cs == [] then [] else InsertByX(cs[0], SortByX(cs[1..]))
  }

  /** Sorting yields an ordering by x of the same candles. */
  lemma {:induction false} SortByXSortsAndPermutes(cs: seq<Candle>)
    ensures SortedByX(SortByX(cs))
    ensures multiset(SortByX(cs)) == multiset(cs)
  {
    if cs != [] {
      SortByXSortsAndPermutes(cs[1..]);
      InsertByXSorted(cs[0], SortByX(cs[1..]));
      InsertByXPermutes(cs[0], SortByX(cs[1..]));
      assert cs == [cs[0]] + cs[1..];
    }
  }

  /** The one-element contribution of a candle to WithX. */
  function OwnX(k: int, c: Candle): seq<Candle>
  {
    if c.x == k then [c] else []
  }

  lemma WithXCons(k: int, c: Candle, cs: seq<Candle>)
    ensures WithX(k, [c] + cs) == OwnX(k, c) + WithX(k, cs)
  {
    assert ([c] + cs)[0] == c && ([c] + cs)[1..] == cs;
  }

  /** Inserting c keeps the candles of every other x in order, and puts c first among its own x. */
  lemma {:induction false} InsertByXStable(k: int, c: Candle, cs: seq<Candle>)
    ensures WithX(k, InsertByX(c, cs)) == OwnX(k, c) + WithX(k, cs)
  {
    if cs == [] {
      WithXCons(k, c, []);
    } else if c.x <= cs[0].x {
      WithXCons(k, c, cs);
    } else {
      var rest := InsertByX(c, cs[1..]);
      calc {
        WithX(k, InsertByX(c, cs));
        WithX(k, [cs[0]] + rest);
        { WithXCons(k, cs[0], rest); }
        OwnX(k, cs[0]) + WithX(k, rest);
        { InsertByXStable(k, c, cs[1..]); }
        OwnX(k, cs[0]) + (OwnX(k, c) + WithX(k, cs[1..]));
        { assert OwnX(k, cs[0]) == [] || OwnX(k, c) == []; }
        OwnX(k, c) + (OwnX(k, cs[0]) + WithX(k, cs[1..]));
        { WithXCons(k, cs[0], cs[1..]); assert [cs[0]] + cs[1..] == cs; }
        OwnX(k, c) + WithX(k, cs);
      }
    }
  }

  /** The sort is stable: candles sharing an x keep their relative order. */
  lemma {:induction false} SortByXStable(k: int, cs: seq<Candle>)
    ensures WithX(k, SortByX(cs)) == WithX(k, cs)
  {
    if cs != [] {
      SortByXStable(k, cs[1..]);
      InsertByXStable(k, cs[0], SortByX(cs[1..]));
      WithXCons(k, cs[0], cs[1..]);
      assert [cs[0]] + cs[1..] == cs;
    }
  }

  // ---------------------------------------------------------------------------
  // The rolling history

  /** The x of the tail of the history, if any. */
  function TailX(h: seq<Candle>): Option<int>
  {
    if h == [] then None else Some(h[|h| - 1].x)
  }

  /** One push: suppressed when c's x equals the tail's; otherwise append, evicting the head past 30. */
  function Push(h: seq<Candle>, c: Candle): seq<Candle>
  {
    if h == [] || h[|h| - 1].x != c.x then
      var appended := h + [c];
      if |appended| > Capacity then appended[1..] else appended
    else h
  }

  /** Pushes the candles of one frame in order. */
  function PushAll(h: seq<Candle>, cs: seq<Candle>): seq<Candle>
    decreases |cs|
  {
    if cs == [] then h else PushAll(Push(h, cs[0]), cs[1..])
  }

  predicate NoAdjacentSameX(h: seq<Candle>)
  {
    forall i :: 0 < i < |h| ==> h[i - 1].x != h[i].x
  }

  predicate StrictlyIncreasingX(cs: seq<Candle>)
  {
    forall i, j :: 0 <= i < j < |cs| ==> cs[i].x < cs[j].x
  }

  /** The last (at most) 30 elements of s. */
  function Window(s: seq<Candle>): (w: seq<Candle>)
    ensures |w| <= Capacity
  {
    if |s| > Capacity then s[|s| - Capacity..] else s
  }

  /**
   * The candles of cs that survive adjacent-duplicate suppression when the
   * current tail has x `prev`: a candle is kept unless its x equals the x of the
   * last candle kept (or of the tail, before any is kept).
   */
  function Kept(prev: Option<int>, cs: seq<Candle>): seq<Candle>
    decreases |cs|
  {
    if cs == [] then []
    else if prev == Some(cs[0].x) then Kept(prev, cs[1..])
    else [cs[0]] + Kept(Some(cs[0].x), cs[1..])
  }

  /**
   * A push on a bounded history: a candle is appended exactly when the history
   * is empty or its tail has a different x, even if an older element has that x;
   * the oldest element is evicted when the size would reach 31.
   */
  lemma PushAppendsUnlessTailMatches(h: seq<Candle>, c: Candle)
    requires |h| <= Capacity
    ensures TailX(h) != Some(c.x) ==>
      && Push(h, c) == (if |h| == Capacity then h[1..] else h) + [c]
      && Push(h, c) == Window(h + [c])
    ensures TailX(h) == Some(c.x) ==> Push(h, c) == h
    ensures |Push(h, c)| <= Capacity
  {
    if TailX(h) != Some(c.x) && |h| == Capacity {
      assert (h + [c])[1..] == h[1..] + [c];
    }
  }

  /** Every push keeps the history invariant: bounded, and no two neighbours share an x. */
  lemma PushKeepsInvariant(h: seq<Candle>, c: Candle)
    requires |h| <= Capacity && NoAdjacentSameX(h)
    ensures |Push(h, c)| <= Capacity && NoAdjacentSameX(Push(h, c))
  {
    PushAppendsUnlessTailMatches(h, c);
    if TailX(h) != Some(c.x) {
      var g := h + [c];
      assert NoAdjacentSameX(g);
      if |g| > Capacity {
        assert forall i :: 0 < i < |g| - 1 ==> g[1..][i - 1] == g[i] && g[1..][i] == g[i + 1];
      }
    }
  }

  lemma {:induction false} PushAllKeepsInvariant(h: seq<Candle>, cs: seq<Candle>)
    requires |h| <= Capacity && NoAdjacentSameX(h)
    ensures |PushAll(h, cs)| <= Capacity && NoAdjacentSameX(PushAll(h, cs))
    decreases |cs|
  {
    if cs != [] {
      PushKeepsInvariant(h, cs[0]);
      PushAllKeepsInvariant(Push(h, cs[0]), cs[1..]);
    }
  }

  lemma SuffixOfConcat(p: seq<Candle>, q: seq<Candle>, j: nat)
    requires j <= |q|
    ensures (p + q)[|p| + j..] == q[j..]
  {
  }

  /** Trimming to the window twice is trimming once. */
  lemma WindowOfWindow(s: seq<Candle>, t: seq<Candle>)
    ensures Window(Window(s) + t) == Window(s + t)
  {
    if |s| > Capacity {
      var d := |s| - Capacity;
      var w := s[d..];
      assert s == s[..d] + w;
      assert s + t == s[..d] + (w + t);
      SuffixOfConcat(s[..d], w + t, |w + t| - Capacity);
    }
  }

  /**
   * One frame's pushes, in closed form: the history becomes the last 30 of the
   * old history followed by the candles that survive duplicate suppression.
   */
  lemma {:induction false} PushAllIsWindow(h: seq<Candle>, cs: seq<Candle>)
    requires |h| <= Capacity
    ensures PushAll(h, cs) == Window(h + Kept(TailX(h), cs))
    decreases |cs|
  {
    if cs == [] {
      assert h + [] == h;
    } else {
      var c := cs[0];
      PushAppendsUnlessTailMatches(h, c);
      var h' := Push(h, c);
      PushAllIsWindow(h', cs[1..]);
      if TailX(h) != Some(c.x) {
        assert TailX(h') == Some(c.x);
        WindowOfWindow(h + [c], Kept(Some(c.x), cs[1..]));
        assert h + Kept(TailX(h), cs) == (h + [c]) + Kept(Some(c.x), cs[1..]);
      }
    }
  }

  /** Every kept candle comes from cs. */
  lemma {:induction false} KeptFromInput(prev: Option<int>, cs: seq<Candle>)
    ensures forall d :: d in Kept(prev, cs) ==> d in cs
    decreases |cs|
  {
    if cs != [] {
      KeptFromInput(prev, cs[1..]);
      KeptFromInput(Some(cs[0].x), cs[1..]);
    }
  }

  /** From sorted input, the kept candles strictly increase and the first differs from `prev`. */
  lemma {:induction false} KeptFromSorted(prev: Option<int>, cs: seq<Candle>)
    requires SortedByX(cs)
    ensures StrictlyIncreasingX(Kept(prev, cs))
    ensures Kept(prev, cs) != [] ==> Some(Kept(prev, cs)[0].x) != prev
    decreases |cs|
  {
    if cs != [] {
      assert SortedByX(cs[1..]);
      if prev == Some(cs[0].x) {
        KeptFromSorted(prev, cs[1..]);
      } else {
        var rest := Kept(Some(cs[0].x), cs[1..]);
        KeptFromSorted(Some(cs[0].x), cs[1..]);
        KeptFromInput(Some(cs[0].x), cs[1..]);
        if rest != [] {
          assert rest[0] in cs[1..];
          assert cs[0].x < rest[0].x;
        }
        var r := [cs[0]] + rest;
        forall i, j | 0 <= i < j < |r|
          ensures r[i].x < r[j].x
        {
          if i == 0 {
            assert r[j] == rest[j - 1];
          } else {
            assert r[i] == rest[i - 1] && r[j] == rest[j - 1];
          }
        }
      }
    }
  }

  /**
   * The candles a single frame adds form a strictly increasing run in x, and
   * they extend a history without adjacent duplicates without creating one.
   */
  lemma FrameAddsIncreasingRun(h: seq<Candle>, cs: seq<Candle>)
    requires NoAdjacentSameX(h)
    ensures var run := Kept(TailX(h), SortByX(cs));
      StrictlyIncreasingX(run) && NoAdjacentSameX(h + run)
  {
    SortByXSortsAndPermutes(cs);
    var sorted := SortByX(cs);
    KeptFromSorted(TailX(h), sorted);
    var run := Kept(TailX(h), sorted);
    var g := h + run;
    forall i | 0 < i < |g|
      ensures g[i - 1].x != g[i].x
    {
      if i < |h| {
      } else if i == |h| {
        assert g[i] == run[0];
      } else {
        assert g[i - 1] == run[i - 1 - |h|] && g[i] == run[i - |h|];
      }
    }
  }

  /** The history as a whole is not sorted: a later frame may add a candle left of the tail. */
  lemma HistoryNotSortedAcrossFrames()
    ensures var a := Candle(50, 30.0, 100.0, 150.0, true, 1000.0);
      var b := Candle(10, 30.0, 100.0, 150.0, true, 1000.0);
      var h := PushAll(PushAll([], [a]), [b]);
      h == [a, b] && !SortedByX(h)
  {
    var a := Candle(50, 30.0, 100.0, 150.0, true, 1000.0);
    var b := Candle(10, 30.0, 100.0, 150.0, true, 1000.0);
    assert PushAll([], [a]) == [a];
    assert PushAll([a], [b]) == [a, b];
    assert [a, b][0].x > [a, b][1].x;
  }

  // ---------------------------------------------------------------------------
  // The analyzer object

  class CandleAnalyzer {
    /** The rolling history, oldest first. */
    var recentCandles: seq<Candle>

    ghost predicate Valid()
      reads this
    {
      |recentCandles| <= Capacity && NoAdjacentSameX(recentCandles)
    }

    constructor()
      ensures Valid() && recentCandles == []
    {
      recentCandles := [];
    }

    /** Adds one candle at the tail, unless the tail has the same x; evicts the head past 30. */
    method Remember(c: Candle)
      requires Valid()
      modifies this
      ensures Valid()
      ensures recentCandles == Push(old(recentCandles), c)
    {
      PushKeepsInvariant(recentCandles, c);
      if recentCandles == [] || recentCandles[|recentCandles| - 1].x != c.x {
        recentCandles := recentCandles + [c];
        if |recentCandles| > Capacity {
          recentCandles := recentCandles[1..];
        }
      }
    }

    /**
     * Analyzes one frame. `None` stands for a proxy without an image. A frame
     * failing the quality gate yields an empty snapshot with a message; any
     * other frame updates the history and yields a snapshot of all of it.
     */
    method Analyze(image: Option<Frame>) returns (snapshot: Option<CandleSnapshot>)
      requires Valid()
      modifies this
      ensures Valid()
      ensures image.None? ==> snapshot == None && recentCandles == old(recentCandles)
      ensures image.Some? && !IsImageGood(image.value.laplacianMean, image.value.intensityMean) ==>
        snapshot == Some(Empty(QualityMessage)) && recentCandles == old(recentCandles)
      ensures image.Some? && IsImageGood(image.value.laplacianMean, image.value.intensityMean) ==>
        && recentCandles == PushAll(old(recentCandles), SortByX(ExtractCandles(image.value.detections)))
        && snapshot == Some(FromList(recentCandles))
    {
      if image == None {
        return None;
      }
      var frame := image.value;
      if !IsImageGood(frame.laplacianMean, frame.intensityMean) {
        return Some(Empty(QualityMessage));
      }
      var candles := DetectCandles(frame.detections);
      candles := SortByX(candles);
      if |candles| > 0 {
        for i := 0 to |candles|
          invariant Valid()
          invariant PushAll(recentCandles, candles[i..]) == PushAll(old(recentCandles), candles)
        {
          assert candles[i..][1..] == candles[i + 1..];
          Remember(candles[i]);
        }
      }
      return Some(FromList(recentCandles));
    }
  }
}
