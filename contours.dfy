/** The contour stage: measure the analysed frame, then keep the contours whose
    area ratio lies strictly between the configured bounds. `cv2.findContours` is
    the list of contours the stage is given. */
module Contours {
  import opened Errors
  import opened ItemContours
  import opened ItemImage

  class ContourProcessor {
    const minAreaRatio: real
    const maxAreaRatio: real
    const scale: real
    var frameArea: int

    constructor (minAreaRatio: real, maxAreaRatio: real, scale: real)
      ensures this.minAreaRatio == minAreaRatio && this.maxAreaRatio == maxAreaRatio
      ensures this.scale == scale && frameArea == 0
    {
      this.minAreaRatio := minAreaRatio;
      this.maxAreaRatio := maxAreaRatio;
      this.scale := scale;
      frameArea := 0;
    }

    /** Whether a contour is kept: its rounded area ratio lies strictly between
        the bounds, so a ratio equal to either bound is rejected. */
    function ComputeAreaRatio(c: Contour): (r: Result<bool>)
      reads this
      ensures r.Err? <==> frameArea == 0
      ensures r.Err? ==> r.error == ZeroDivisionError
      ensures r.Ok? ==> var ratio := AreaPercent(c.area, frameArea as real).value;
        (r.value <==> minAreaRatio < ratio && ratio < maxAreaRatio)
    {
      match AreaPercent(c.area, frameArea as real)
      case Err(e) => Err(e)
      case Ok(ratio) => Ok(minAreaRatio < ratio < maxAreaRatio)
    }

    /** A kept contour, wrapped with the current frame area and scale. */
    function Wrap(c: Contour): ContourItem
      reads this
    {
      ContourItem(c, frameArea as real, scale)
    }

    /** The predicate of the comprehension, for a frame area that is not zero. */
    predicate Keeps(c: Contour)
      reads this
      requires frameArea != 0
    {
      KeepsRatio(minAreaRatio, maxAreaRatio, frameArea, c)
    }

    /** The kept contours, wrapped, in their original order. */
    function Kept(cs: seq<Contour>): (kept: seq<ContourItem>)
      reads this
      requires frameArea != 0 || cs == []
    {
      KeptOf(minAreaRatio, maxAreaRatio, scale, frameArea, cs)
    }

    /** The list comprehension over the contours. Every contour is tested, so a
        zero frame area divides by zero at the first one. */
    function FilterContours(cs: seq<Contour>): (r: Result<seq<ContourItem>>)
      reads this
      ensures r.Err? <==> frameArea == 0 && cs != []
      ensures r.Err? ==> r.error == ZeroDivisionError
      ensures r.Ok? ==> r.value == Kept(cs)
    {
      if cs != [] && frameArea == 0 then Err(ZeroDivisionError) else Ok(Kept(cs))
    }

    /** `find_contours`: set the frame area from the analysed (dilated) frame's
        height and width, then replace the item's contours with the filtered
        `found` ones and return the same item. The frame area is updated even when
        the filter then fails. */
    method FindContours(item: ImageItem, found: seq<Contour>) returns (r: Result<ImageItem>)
      modifies this, item`contours
      ensures var shape := old(item.dilatedFrame.shape);
        |shape| < 2 ==> r == Err(IndexError) && frameArea == old(frameArea)
      ensures var shape := old(item.dilatedFrame.shape);
        |shape| >= 2 ==> frameArea == shape[0] * shape[1]
      ensures r.Ok? ==> r.value == item && FilterContours(found) == Ok(item.contours)
      ensures r.Err? ==> item.contours == old(item.contours)
      ensures r.Err? && |old(item.dilatedFrame.shape)| >= 2 ==> FilterContours(found).Err?
      ensures r.Err? && |old(item.dilatedFrame.shape)| >= 2 ==> r == Err(ZeroDivisionError)
      ensures item.dilatedFrame == old(item.dilatedFrame) && item.frames == old(item.frames)
      ensures item.motionStatus == old(item.motionStatus) && item.hasData == old(item.hasData)
      ensures item.timestamp == old(item.timestamp) && item.originalFrame == old(item.originalFrame)
      ensures item.resizedFrame == old(item.resizedFrame) && item.binaryFrame == old(item.binaryFrame)
      ensures item.maskedFrame == old(item.maskedFrame) && item.erodedFrame == old(item.erodedFrame)
    {
      var shape := item.dilatedFrame.shape;
      if |shape| < 2 {
        return Err(IndexError);
      }
      frameArea := shape[0] * shape[1];
      var kept := FilterContours(found);
      if kept.Err? {
        return Err(kept.error);
      }
      assert this != item as object;
      item.contours := kept.value;
      assert FilterContours(found) == kept;
      return Ok(item);
    }
  }

  /** A contour's rounded area ratio lies strictly between the bounds. */
  predicate KeepsRatio(minAreaRatio: real, maxAreaRatio: real, frameArea: int, c: Contour)
    requires frameArea != 0
  {
    var ratio := AreaPercent(c.area, frameArea as real).value;
    minAreaRatio < ratio < maxAreaRatio
  }

  /** The contours that pass, each wrapped with the frame area and scale, in the
      order they were found. */
  function KeptOf(minAreaRatio: real, maxAreaRatio: real, scale: real, frameArea: int, cs: seq<Contour>): (kept: seq<ContourItem>)
    requires frameArea != 0 || cs == []
    ensures |kept| <= |cs|
    ensures forall k :: 0 <= k < |kept| ==> kept[k].frameArea == frameArea as real && kept[k].scale == scale
    ensures forall k :: 0 <= k < |kept| ==> kept[k].contour in cs && KeepsRatio(minAreaRatio, maxAreaRatio, frameArea, kept[k].contour)
  {
    if cs == [] then []
    else
      var head := if KeepsRatio(minAreaRatio, maxAreaRatio, frameArea, cs[0]) then [ContourItem(cs[0], frameArea as real, scale)] else [];
      head + KeptOf(minAreaRatio, maxAreaRatio, scale, frameArea, cs[1..])
  }

  /** Filtering a concatenation filters each part: the kept contours stay in
      their original order. */
  lemma {:induction false} FilterKeepsOrder(p: ContourProcessor, a: seq<Contour>, b: seq<Contour>)
    requires p.frameArea != 0
    ensures p.Kept(a + b) == p.Kept(a) + p.Kept(b)
  {
    if a == [] {
      assert a + b == b;
    } else {
      assert (a + b)[0] == a[0] && (a + b)[1..] == a[1..] + b;
      FilterKeepsOrder(p, a[1..], b);
    }
  }

  /** Every contour that passes the predicate is kept, and only those: a
      contour is among the kept ones exactly when it passes. */
  lemma {:induction false} FilterKeepsExactly(p: ContourProcessor, cs: seq<Contour>, c: Contour)
    requires p.frameArea != 0 && c in cs
    ensures p.Wrap(c) in p.Kept(cs) <==> p.Keeps(c)
  {
    if cs[0] != c {
      FilterKeepsExactly(p, cs[1..], c);
    }
  }

  /** The method that computes the test and the comprehension's predicate agree:
      with a frame area set, `compute_area_ratio` answers whether the filter keeps
      the contour. */
  lemma ComputeMatchesKeeps(p: ContourProcessor, cs: seq<Contour>, c: Contour)
    requires p.frameArea != 0 && c in cs
    ensures p.ComputeAreaRatio(c) == Ok(p.Keeps(c))
    ensures p.Wrap(c) in p.Kept(cs) <==> p.ComputeAreaRatio(c) == Ok(true)
  {
    FilterKeepsExactly(p, cs, c);
  }

  /** A contour whose ratio equals a bound is rejected; one strictly between them
      is kept. */
  lemma BoundsAreExclusive(p: ContourProcessor, c: Contour)
    requires p.frameArea != 0
    ensures var ratio := AreaPercent(c.area, p.frameArea as real).value;
      && (ratio == p.minAreaRatio || ratio == p.maxAreaRatio ==> p.FilterContours([c]) == Ok([]))
      && (p.minAreaRatio < ratio < p.maxAreaRatio ==> p.FilterContours([c]) == Ok([p.Wrap(c)]))
  {
    assert [c][1..] == [];
    assert p.Kept([c]) == (if p.Keeps(c) then [p.Wrap(c)] else []) + p.Kept([]);
    var ratio := AreaPercent(c.area, p.frameArea as real).value;
    if p.minAreaRatio < ratio < p.maxAreaRatio {
      assert p.Keeps(c);
      assert p.Kept([c]) == [p.Wrap(c)];
      assert p.FilterContours([c]) == Ok([p.Wrap(c)]);
    }
  }
}
