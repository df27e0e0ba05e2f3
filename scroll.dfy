/**
 * The scroll-anchor arithmetic of the message list: `shouldScrollToBottom`
 * and the offset restored after "Load more". Pixel values are integers.
 */
module Scroll {
  /** The default `threshold` of `shouldScrollToBottom`, in percent. */
  const DEFAULT_THRESHOLD: int := 30

  /**
   * The JavaScript numbers the percentage at line 25 can take, with finite
   * values as exact reals.
   */
  datatype JsNumber = Finite(v: real) | PosInfinity | NegInfinity | NaN

  /** JavaScript division: by zero it gives a signed infinity, or NaN for 0 / 0. */
  function JsDivide(a: real, b: real): (r: JsNumber)
    ensures r.Finite? <==> b != 0.0
    ensures r.Finite? ==> r.v * b == a
    ensures r == NaN <==> a == 0.0 && b == 0.0
    ensures r == PosInfinity <==> a > 0.0 && b == 0.0
  {
    if b != 0.0 then Finite(a / b)
    else if a > 0.0 then PosInfinity
    else if a < 0.0 then NegInfinity
    else NaN
  }

  /** `x || 0`: the falsy numbers NaN and zero become 0. */
  function JsOrZero(x: JsNumber): (r: JsNumber)
    ensures r != NaN
    ensures r != x ==> r == Finite(0.0)
    ensures x != NaN ==> r == x
  {
    if x == NaN || x == Finite(0.0) then Finite(0.0) else x
  }

  /** `x > t` for a JavaScript number and a finite threshold. */
  predicate JsGreater(x: JsNumber, t: real): (r: bool)
    ensures x.Finite? ==> (r <==> x.v > t)
    ensures x == PosInfinity ==> r
    ensures x == NaN || x == NegInfinity ==> !r
  {
    match x
    case Finite(v) => v > t
    case PosInfinity => true
    case NegInfinity => false
    case NaN => false
  }

  /** Lines 24-27 as written, over JavaScript numbers. */
  predicate ShouldScrollToBottomJs(scrollTop: int, scrollHeight: int, clientHeight: int, threshold: int): (r: bool)
    ensures scrollHeight == clientHeight && scrollTop == 0 ==> (r <==> threshold < 0)
    ensures scrollHeight == clientHeight && scrollTop > 0 ==> r
    ensures scrollHeight == clientHeight && scrollTop < 0 ==> !r
  {
    var percentage := JsOrZero(JsDivide((100 * scrollTop) as real, (scrollHeight - clientHeight) as real));
    JsGreater(percentage, threshold as real)
  }

  /**
   * Whether the view is close enough to the bottom to stick to it, with the
   * division cross-multiplied away.
   */
  function ShouldScrollToBottom(scrollTop: int, scrollHeight: int, clientHeight: int, threshold: int): (r: bool)
    ensures scrollHeight - clientHeight > 0 && scrollTop <= 0 && threshold >= 0 ==> !r
    ensures scrollHeight - clientHeight > 0 && scrollTop == scrollHeight - clientHeight && threshold < 100 ==> r
    ensures scrollHeight == clientHeight && scrollTop == 0 ==> (r <==> threshold < 0)
  {
    var d := scrollHeight - clientHeight;
    if d > 0 then 100 * scrollTop > threshold * d
    else if d < 0 then 100 * scrollTop < threshold * d
    else if scrollTop == 0 then threshold < 0
    else scrollTop > 0
  }

  /** The integer form agrees with the JavaScript form on every input. */
  lemma ShouldScrollToBottomMatchesJs(scrollTop: int, scrollHeight: int, clientHeight: int, threshold: int)
    ensures ShouldScrollToBottom(scrollTop, scrollHeight, clientHeight, threshold)
        == ShouldScrollToBottomJs(scrollTop, scrollHeight, clientHeight, threshold)
  {
  }

  /** Worked examples with the default threshold. */
  lemma ShouldScrollToBottomExamples()
    ensures !ShouldScrollToBottom(0, 1000, 500, DEFAULT_THRESHOLD)
    ensures ShouldScrollToBottom(800, 1000, 500, DEFAULT_THRESHOLD)
    ensures !ShouldScrollToBottom(0, 500, 500, DEFAULT_THRESHOLD)
  {
  }
}
