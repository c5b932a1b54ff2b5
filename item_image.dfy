/** The unit the pipeline passes from stage to stage and to subscribers: the
    frames each stage produced, the contours found, the motion phase and, on a
    phase change, the attached history. */
module ItemImage {
  import opened Errors
  import opened Frames
  import opened BufferMotion
  import opened BufferFrame
  import opened ItemContours

  /** The area ratios of the contours, in order; the first contour with no frame
      area divides by zero. */
  function Ratios(cs: seq<ContourItem>): (r: Result<seq<real>>)
    ensures r.Ok? <==> forall i :: 0 <= i < |cs| ==> cs[i].frameArea != 0.0
    ensures r.Err? ==> r.error == ZeroDivisionError
    ensures r.Ok? ==> |r.value| == |cs| && forall i :: 0 <= i < |cs| ==> cs[i].AreaRatio() == Ok(r.value[i])
  {
    if cs == [] then Ok([])
    else match (cs[0].AreaRatio(), Ratios(cs[1..]))
      case (Err(e), _) => Err(e)
      case (_, Err(e)) => Err(e)
      case (Ok(x), Ok(xs)) => Ok([x] + xs)
  }

  /** Where Python's `min` of a non-empty list finds its value: the first
      smallest element. */
  function ArgMin(s: seq<real>): (k: nat)
    requires s != []
    ensures k < |s| && forall i :: 0 <= i < |s| ==> s[k] <= s[i]
  {
    if |s| == 1 then 0
    else
      var k := 1 + ArgMin(s[1..]);
      if s[k] < s[0] then k else 0
  }

  /** Where Python's `max` of a non-empty list finds its value: the first
      largest element. */
  function ArgMax(s: seq<real>): (k: nat)
    requires s != []
    ensures k < |s| && forall i :: 0 <= i < |s| ==> s[i] <= s[k]
  {
    if |s| == 1 then 0
    else
      var k := 1 + ArgMax(s[1..]);
      if s[k] > s[0] then k else 0
  }

  /** Python's `sum`: 0 plus the elements, from the left. */
  function SeqSum(s: seq<real>): real
  {
    if s == [] then 0.0 else SeqSum(s[..|s| - 1]) + s[|s| - 1]
  }

  /** A sum of n values that all lie in [lo, hi] lies in [n * lo, n * hi]. */
  lemma {:induction false} SumWithinBounds(s: seq<real>, lo: real, hi: real)
    requires forall i :: 0 <= i < |s| ==> lo <= s[i] <= hi
    ensures |s| as real * lo <= SeqSum(s) <= |s| as real * hi
  {
    if s != [] {
      var init := s[..|s| - 1];
      SumWithinBounds(init, lo, hi);
      assert |s| as real * lo == |init| as real * lo + lo;
      assert |s| as real * hi == |init| as real * hi + hi;
    }
  }

  /** Summing a concatenation is summing the parts. */
  lemma {:induction false} SumConcat(a: seq<real>, b: seq<real>)
    ensures SeqSum(a + b) == SeqSum(a) + SeqSum(b)
    decreases |b|
  {
    if b != [] {
      SumConcat(a, b[..|b| - 1]);
      assert (a + b)[..|a + b| - 1] == a + b[..|b| - 1];
    } else {
      assert a + b == a;
    }
  }

  class ImageItem {
    var hasData: bool
    var timestamp: string
    var motionStatus: MotionFlag
    var originalFrame: Frame
    var resizedFrame: Frame
    var binaryFrame: Frame
    var maskedFrame: Frame
    var erodedFrame: Frame
    var dilatedFrame: Frame
    var frames: FrameList<Frame>
    var contours: seq<ContourItem>

    /** `ImageItem()` with every default; `timestamp` is the formatted clock, given. */
    constructor (timestamp: string)
      ensures !hasData && this.timestamp == timestamp && motionStatus == NoMotion
      ensures originalFrame == EmptyArray && resizedFrame == EmptyArray && binaryFrame == EmptyArray
      ensures maskedFrame == EmptyArray && erodedFrame == EmptyArray && dilatedFrame == EmptyArray
      ensures fresh(frames) && frames.items == [] && contours == []
    {
      hasData := false;
      this.timestamp := timestamp;
      motionStatus := NoMotion;
      originalFrame, resizedFrame, binaryFrame := EmptyArray, EmptyArray, EmptyArray;
      maskedFrame, erodedFrame, dilatedFrame := EmptyArray, EmptyArray, EmptyArray;
      frames := new FrameList<Frame>();
      contours := [];
    }

    predicate HasContours()
      reads this
    {
      contours != []
    }

    /** The smallest area ratio: below or equal to every contour's and equal to
        one of them. The ratios are computed first, so a zero frame area raises
        before an empty list does. */
    function MinAreaRatio(): (r: Result<real>)
      reads this
      ensures contours == [] ==> r == Err(ValueError)
      ensures contours != [] && r.Err? ==> r.error == ZeroDivisionError
      ensures r.Ok? <==> contours != [] && forall i :: 0 <= i < |contours| ==> contours[i].frameArea != 0.0
      ensures r.Ok? ==> forall i :: 0 <= i < |contours| ==> contours[i].AreaRatio().Ok? && r.value <= contours[i].AreaRatio().value
      ensures r.Ok? ==> exists i :: 0 <= i < |contours| && contours[i].AreaRatio() == Ok(r.value)
    {
      match Ratios(contours)
      case Err(e) => Err(e)
      case Ok(rs) =>
        if rs == [] then Err(ValueError)
        else
          Ok(rs[ArgMin(rs)])
    }

    /** The largest area ratio: above or equal to every contour's and equal to
        one of them. */
    function MaxAreaRatio(): (r: Result<real>)
      reads this
      ensures contours == [] ==> r == Err(ValueError)
      ensures contours != [] && r.Err? ==> r.error == ZeroDivisionError
      ensures r.Ok? <==> contours != [] && forall i :: 0 <= i < |contours| ==> contours[i].frameArea != 0.0
      ensures r.Ok? ==> forall i :: 0 <= i < |contours| ==> contours[i].AreaRatio().Ok? && contours[i].AreaRatio().value <= r.value
      ensures r.Ok? ==> exists i :: 0 <= i < |contours| && contours[i].AreaRatio() == Ok(r.value)
    {
      match Ratios(contours)
      case Err(e) => Err(e)
      case Ok(rs) =>
        if rs == [] then Err(ValueError)
        else
          Ok(rs[ArgMax(rs)])
    }

    /** The sum of the area ratios; 0 when there are no contours. */
    function SumAreaRatio(): (r: Result<real>)
      reads this
      ensures contours == [] ==> r == Ok(0.0)
      ensures r.Err? ==> r.error == ZeroDivisionError
      ensures r.Ok? <==> forall i :: 0 <= i < |contours| ==> contours[i].frameArea != 0.0
      ensures r.Ok? ==> Ratios(contours).Ok? && r.value == SeqSum(Ratios(contours).value)
    {
      match Ratios(contours)
      case Err(e) => Err(e)
      case Ok(rs) =>
        Ok(SeqSum(rs))
    }

    /** `(width, height)` of the original frame; IndexError for an array with
        fewer than two axes, such as the default `array([])`. */
    function Resolution(): (r: Result<(int, int)>)
      reads this
      ensures r.Err? <==> |originalFrame.shape| < 2
      ensures r.Err? ==> r.error == IndexError
      ensures r.Ok? ==> r.value.0 == originalFrame.shape[1] && r.value.1 == originalFrame.shape[0]
    {
      if |originalFrame.shape| < 2 then Err(IndexError)
      else Ok((originalFrame.shape[1], originalFrame.shape[0]))
    }
  }

  /** For contours whose ratios exist, the minimum never exceeds the maximum. */
  lemma MinAtMostMax(item: ImageItem)
    requires item.MinAreaRatio().Ok?
    ensures item.MaxAreaRatio().Ok? && item.MinAreaRatio().value <= item.MaxAreaRatio().value
  {
    assert item.contours[0].AreaRatio().Ok?;
  }
}
