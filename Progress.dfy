/**
 * The reading-progress percentage of the `#book-content` container, as computed by
 * `updateReadingProgress` (clamped) and by `manualSaveProgress` (not clamped).
 */
module Progress {
  import opened Numbers

  /** The scroll metrics of the content container, in pixels. */
  datatype ScrollView = ScrollView(scrollTop: real, scrollHeight: real, clientHeight: real)

  /** `scrollHeight - clientHeight`: how far the container can scroll. */
  function MaxScroll(v: ScrollView): real {
    v.scrollHeight - v.clientHeight
  }

  /** `(scrollTop / maxScroll) * 100`, the exact share of the scrollable height already scrolled. */
  function Percentage(v: ScrollView): real
    requires MaxScroll(v) > 0.0
  {
    v.scrollTop / MaxScroll(v) * 100.0
  }

  /**
   * The percentage `manualSaveProgress` stores: the nearest integer to the exact percentage,
   * 0 when the content cannot scroll, and NOT clamped to [0, 100].
   */
  function ManualProgress(v: ScrollView): (p: int)
    ensures MaxScroll(v) <= 0.0 ==> p == 0
    ensures MaxScroll(v) > 0.0 ==> p as real - 0.5 <= Percentage(v) < p as real + 0.5
  {
    if MaxScroll(v) > 0.0 then Round(Percentage(v)) else 0
  }

  /**
   * The percentage `updateReadingProgress` shows and stores: always in [0, 100], 0 when the
   * content cannot scroll, the nearest integer to the exact percentage when that lies in
   * [0, 100], and 0 or 100 beyond either end.
   */
  function AutoProgress(v: ScrollView): (p: int)
    ensures 0 <= p <= 100
    ensures MaxScroll(v) <= 0.0 ==> p == 0
    ensures MaxScroll(v) > 0.0 && 0.0 <= Percentage(v) <= 100.0 ==>
              p as real - 0.5 <= Percentage(v) < p as real + 0.5
    ensures MaxScroll(v) > 0.0 && Percentage(v) <= 0.0 ==> p == 0
    ensures MaxScroll(v) > 0.0 && Percentage(v) >= 100.0 ==> p == 100
  {
    if MaxScroll(v) > 0.0 then Min(100, Max(0, Round(Percentage(v)))) else 0
  }

  /** The automatic percentage is the manual one clamped to [0, 100]. */
  lemma AutoClampsManual(v: ScrollView)
    ensures AutoProgress(v) == Min(100, Max(0, ManualProgress(v)))
  {
  }

  /**
   * While the scroll position lies within the scrollable range, both computations agree
   * and give a value in [0, 100].
   */
  lemma ManualAgreesInRange(v: ScrollView)
    requires MaxScroll(v) > 0.0 && 0.0 <= v.scrollTop <= MaxScroll(v)
    ensures ManualProgress(v) == AutoProgress(v)
    ensures 0 <= ManualProgress(v) <= 100
  {
    RatioWithin(v.scrollTop, MaxScroll(v));
    RoundWithin(Percentage(v), 0, 100);
  }

  /** Scrolled past the scrollable range by half a percent or more, the manual value exceeds 100. */
  lemma ManualExceedsHundred(v: ScrollView)
    requires MaxScroll(v) > 0.0 && Percentage(v) >= 100.5
    ensures ManualProgress(v) > 100
    ensures AutoProgress(v) == 100
  {
  }

  /** `0 <= top <= max` makes `top / max * 100` a value in [0, 100]. */
  lemma RatioWithin(top: real, max: real)
    requires max > 0.0 && 0.0 <= top <= max
    ensures 0.0 <= top / max * 100.0 <= 100.0
  {
    var q := top / max;
    assert q * max == top;
    assert 0.0 <= q <= 1.0;
  }

  /** The worked example: 50 pixels into a 100-pixel scrollable range is 50 percent. */
  lemma HalfwayExample()
    ensures AutoProgress(ScrollView(50.0, 250.0, 150.0)) == 50
    ensures ManualProgress(ScrollView(50.0, 250.0, 150.0)) == 50
  {
    RoundInteger(50);
  }
}
