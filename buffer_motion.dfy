/** The hysteresis state machine that turns the per-frame "has contours" signal
    into motion phases. It keeps a window of at most `buffer_size` samples and one
    persistent flag recording whether a motion episode is open. */
module BufferMotion {
  import opened Errors
  import opened Window

  datatype MotionFlag = MotionStart | MotionEnd | MotionOngoing | NoMotion

  /** Python's `all`: true of an empty list. */
  predicate AllTrue(s: seq<bool>)
  {
    forall i :: 0 <= i < |s| ==> s[i]
  }

  /** Python's `any`: false of an empty list. */
  predicate AnyTrue(s: seq<bool>)
  {
    exists i :: 0 <= i < |s| && s[i]
  }

  /** What `get_motion` reads and updates: the episode flag and the sample window. */
  datatype MotionState = MotionState(flag: bool, window: seq<bool>)

  /** One call of `get_motion`: add the sample, then classify the window. */
  function Step(size: int, s: MotionState, sample: bool): (r: (MotionState, MotionFlag))
    requires 1 <= size && |s.window| <= size
    ensures |r.0.window| <= size
    ensures r.1 == MotionStart ==> !s.flag && r.0.flag
    ensures r.1 == MotionEnd ==> s.flag && !r.0.flag
    ensures r.1 != MotionStart && r.1 != MotionEnd ==> r.0.flag == s.flag
  {
    var w := Slide(s.window, size, sample);
    if AllTrue(w) && !s.flag then (MotionState(true, w), MotionStart)
    else if !AnyTrue(w) && s.flag then (MotionState(false, w), MotionEnd)
    else if AnyTrue(w) && s.flag then (MotionState(s.flag, w), MotionOngoing)
    else (MotionState(s.flag, w), NoMotion)
  }

  /** Feeding `samples` one by one: the final state and the phase of every call. */
  function Run(size: int, s: MotionState, samples: seq<bool>): (r: (MotionState, seq<MotionFlag>))
    requires 1 <= size && |s.window| <= size
    ensures |r.0.window| <= size && |r.1| == |samples|
  {
    if samples == [] then (s, [])
    else
      var prev := Run(size, s, samples[..|samples| - 1]);
      var next := Step(size, prev.0, samples[|samples| - 1]);
      (next.0, prev.1 + [next.1])
  }

  /** Feeding one more sample is one more `Step` after the others. */
  lemma RunSnoc(size: int, s: MotionState, samples: seq<bool>, x: bool)
    requires 1 <= size && |s.window| <= size
    ensures var prev := Run(size, s, samples);
      var next := Step(size, prev.0, x);
      Run(size, s, samples + [x]) == (next.0, prev.1 + [next.1])
  {
    assert (samples + [x])[..|samples|] == samples;
  }

  lemma RunStepTo(size: int, s: MotionState, samples: seq<bool>, x: bool,
                  mid: MotionState, phases: seq<MotionFlag>, last: MotionState, phase: MotionFlag)
    requires 1 <= size && |s.window| <= size
    requires Run(size, s, samples) == (mid, phases) && Step(size, mid, x) == (last, phase)
    ensures Run(size, s, samples + [x]) == (last, phases + [phase])
  {
    RunSnoc(size, s, samples, x);
  }

  /** The phases that open or close an episode, in order. */
  function Edges(phases: seq<MotionFlag>): seq<MotionFlag>
  {
    if phases == [] then []
    else
      var last := phases[|phases| - 1];
      Edges(phases[..|phases| - 1]) + (if last == MotionStart || last == MotionEnd then [last] else [])
  }

  /** Start, End, Start, End, ...: only starts and ends, the first a start, and
      no two equal in a row. */
  predicate Alternating(edges: seq<MotionFlag>)
  {
    && (edges != [] ==> edges[0] == MotionStart)
    && (forall i :: 0 <= i < |edges| ==> edges[i] == MotionStart || edges[i] == MotionEnd)
    && (forall i :: 0 < i < |edges| ==> edges[i] != edges[i - 1])
  }

  /** An episode is open: the last edge was a start. */
  predicate InEpisode(edges: seq<MotionFlag>)
  {
    edges != [] && edges[|edges| - 1] == MotionStart
  }

  /** The edges after one more phase: a start or an end is appended, the other
      phases leave them as they are. */
  function Record(edges: seq<MotionFlag>, phase: MotionFlag): seq<MotionFlag>
  {
    edges + (if phase == MotionStart || phase == MotionEnd then [phase] else [])
  }

  /** From a closed episode, over any input sequence, MotionStart and MotionEnd
      strictly alternate starting with MotionStart, and the flag is set exactly when
      the last of them was a MotionStart. */
  lemma {:induction false} EdgesAlternate(size: int, s: MotionState, samples: seq<bool>)
    requires 1 <= size && |s.window| <= size && !s.flag
    ensures Alternating(Edges(Run(size, s, samples).1))
    ensures Run(size, s, samples).0.flag <==> InEpisode(Edges(Run(size, s, samples).1))
  {
    if samples != [] {
      var init, x := samples[..|samples| - 1], samples[|samples| - 1];
      EdgesAlternate(size, s, init);
      var before := Run(size, s, init);
      var after := Step(size, before.0, x);
      assert Run(size, s, samples) == (after.0, before.1 + [after.1]);
      assert (before.1 + [after.1])[..|before.1|] == before.1;
      assert Edges(before.1 + [after.1]) == Record(Edges(before.1), after.1);
      RecordKeepsAlternating(Edges(before.1), after.1, before.0.flag, after.0.flag);
    }
  }

  /** One more phase keeps the edges alternating when it opens only a closed
      episode and closes only an open one, and the flag still says whether an
      episode is open. */
  lemma RecordKeepsAlternating(edges: seq<MotionFlag>, phase: MotionFlag, flag: bool, flag': bool)
    requires Alternating(edges) && (flag <==> InEpisode(edges))
    requires phase == MotionStart ==> !flag && flag'
    requires phase == MotionEnd ==> flag && !flag'
    requires phase != MotionStart && phase != MotionEnd ==> flag' == flag
    ensures Alternating(Record(edges, phase))
    ensures flag' <==> InEpisode(Record(edges, phase))
  {
    var edges' := Record(edges, phase);
    if phase == MotionStart || phase == MotionEnd {
      assert edges' == edges + [phase];
      assert forall i :: 0 <= i < |edges| ==> edges'[i] == edges[i];
      assert edges != [] ==> edges[|edges| - 1] != phase;
    }
  }

  function Repeat<T>(x: T, n: nat): (r: seq<T>)
    ensures |r| == n && forall i :: 0 <= i < n ==> r[i] == x
  {
    seq(n, _ => x)
  }

  /** A full window shifted by j - 1 samples of `b`, shifted once more. */
  lemma SlideShift<T>(size: int, w: seq<T>, j: nat, b: T)
    requires 1 <= size && |w| == size && 1 <= j <= size
    ensures Slide(w[j - 1..] + Repeat(b, j - 1), size, b) == w[j..] + Repeat(b, j)
  {
    var before := w[j - 1..] + Repeat(b, j - 1);
    assert before[1..] == w[j..] + Repeat(b, j - 1);
    assert Repeat(b, j - 1) + [b] == Repeat(b, j);
  }

  /** A true sample that leaves some false in the window reports NoMotion
      outside an episode. */
  lemma StepNoMotion(size: int, before: seq<bool>, after: seq<bool>)
    requires 1 <= size && |before| <= size && Slide(before, size, true) == after
    requires exists i :: 0 <= i < |after| && !after[i]
    ensures Step(size, MotionState(false, before), true) == (MotionState(false, after), NoMotion)
  {
  }

  /** A false sample that leaves some true in the window reports MotionOngoing
      during an episode. */
  lemma StepOngoing(size: int, before: seq<bool>, after: seq<bool>)
    requires 1 <= size && |before| <= size && Slide(before, size, false) == after
    requires exists i :: 0 <= i < |after| && after[i]
    ensures Step(size, MotionState(true, before), false) == (MotionState(true, after), MotionOngoing)
  {
    assert !after[|after| - 1];
  }

  /** A true sample that fills the window with true opens a closed episode. */
  lemma StepStart(size: int, before: seq<bool>, after: seq<bool>)
    requires 1 <= size && |before| <= size && Slide(before, size, true) == after
    requires forall i :: 0 <= i < |after| ==> after[i]
    ensures Step(size, MotionState(false, before), true) == (MotionState(true, after), MotionStart)
  {
  }

  /** A false sample that empties the window of true closes an open episode. */
  lemma StepEnd(size: int, before: seq<bool>, after: seq<bool>)
    requires 1 <= size && |before| <= size && Slide(before, size, false) == after
    requires forall i :: 0 <= i < |after| ==> !after[i]
    ensures Step(size, MotionState(true, before), false) == (MotionState(false, after), MotionEnd)
  {
  }

  /** From a full window whose newest sample is false and no open episode, each of
      the next true samples but the last keeps reporting NoMotion. */
  lemma {:induction false} TruesBeforeStart(size: int, w: seq<bool>, j: nat)
    requires 1 <= size && |w| == size && !w[size - 1] && j < size
    ensures Run(size, MotionState(false, w), Repeat(true, j))
         == (MotionState(false, w[j..] + Repeat(true, j)), Repeat(NoMotion, j))
  {
    if j == 0 {
      assert w[0..] + Repeat(true, 0) == w;
    } else {
      TruesBeforeStart(size, w, j - 1);
      OneMoreTrue(size, w, j);
    }
  }

  lemma OneMoreTrue(size: int, w: seq<bool>, j: nat)
    requires 1 <= size && |w| == size && !w[size - 1] && 1 <= j < size
    requires Run(size, MotionState(false, w), Repeat(true, j - 1))
          == (MotionState(false, w[j - 1..] + Repeat(true, j - 1)), Repeat(NoMotion, j - 1))
    ensures Run(size, MotionState(false, w), Repeat(true, j))
         == (MotionState(false, w[j..] + Repeat(true, j)), Repeat(NoMotion, j))
  {
    var before := w[j - 1..] + Repeat(true, j - 1);
    var after := w[j..] + Repeat(true, j);
    SlideShift(size, w, j, true);
    assert after[size - 1 - j] == w[size - 1];
    StepNoMotion(size, before, after);
    RunStepTo(size, MotionState(false, w), Repeat(true, j - 1), true,
              MotionState(false, before), Repeat(NoMotion, j - 1), MotionState(false, after), NoMotion);
    assert Repeat(true, j - 1) + [true] == Repeat(true, j);
    assert Repeat(NoMotion, j - 1) + [NoMotion] == Repeat(NoMotion, j);
  }

  /** Opening an episode from a full window that ends in false takes exactly
      `size` consecutive true samples. */
  lemma StartTakesFullWindow(size: int, w: seq<bool>)
    requires 1 <= size && |w| == size && !w[size - 1]
    ensures Run(size, MotionState(false, w), Repeat(true, size)).1
         == Repeat(NoMotion, size - 1) + [MotionStart]
  {
    TruesBeforeStart(size, w, size - 1);
    var before := w[size - 1..] + Repeat(true, size - 1);
    SlideShift(size, w, size, true);
    assert w[size..] + Repeat(true, size) == Repeat(true, size);
    StepStart(size, before, Repeat(true, size));
    RunStepTo(size, MotionState(false, w), Repeat(true, size - 1), true,
              MotionState(false, before), Repeat(NoMotion, size - 1), MotionState(true, Repeat(true, size)), MotionStart);
    assert Repeat(true, size - 1) + [true] == Repeat(true, size);
  }

  /** During an episode, from a full window whose newest sample is true, each of
      the next false samples but the last keeps reporting MotionOngoing. */
  lemma {:induction false} FalsesBeforeEnd(size: int, w: seq<bool>, j: nat)
    requires 1 <= size && |w| == size && w[size - 1] && j < size
    ensures Run(size, MotionState(true, w), Repeat(false, j))
         == (MotionState(true, w[j..] + Repeat(false, j)), Repeat(MotionOngoing, j))
  {
    if j == 0 {
      assert w[0..] + Repeat(false, 0) == w;
    } else {
      FalsesBeforeEnd(size, w, j - 1);
      OneMoreFalse(size, w, j);
    }
  }

  lemma OneMoreFalse(size: int, w: seq<bool>, j: nat)
    requires 1 <= size && |w| == size && w[size - 1] && 1 <= j < size
    requires Run(size, MotionState(true, w), Repeat(false, j - 1))
          == (MotionState(true, w[j - 1..] + Repeat(false, j - 1)), Repeat(MotionOngoing, j - 1))
    ensures Run(size, MotionState(true, w), Repeat(false, j))
         == (MotionState(true, w[j..] + Repeat(false, j)), Repeat(MotionOngoing, j))
  {
    var before := w[j - 1..] + Repeat(false, j - 1);
    var after := w[j..] + Repeat(false, j);
    SlideShift(size, w, j, false);
    assert after[size - 1 - j] == w[size - 1];
    StepOngoing(size, before, after);
    RunStepTo(size, MotionState(true, w), Repeat(false, j - 1), false,
              MotionState(true, before), Repeat(MotionOngoing, j - 1), MotionState(true, after), MotionOngoing);
    assert Repeat(false, j - 1) + [false] == Repeat(false, j);
    assert Repeat(MotionOngoing, j - 1) + [MotionOngoing] == Repeat(MotionOngoing, j);
  }

  /** Closing an episode from a full window that ends in true takes exactly `size`
      consecutive false samples: the hysteresis is symmetric. */
  lemma EndTakesFullWindow(size: int, w: seq<bool>)
    requires 1 <= size && |w| == size && w[size - 1]
    ensures Run(size, MotionState(true, w), Repeat(false, size)).1
         == Repeat(MotionOngoing, size - 1) + [MotionEnd]
  {
    FalsesBeforeEnd(size, w, size - 1);
    var before := w[size - 1..] + Repeat(false, size - 1);
    SlideShift(size, w, size, false);
    assert w[size..] + Repeat(false, size) == Repeat(false, size);
    StepEnd(size, before, Repeat(false, size));
    RunStepTo(size, MotionState(true, w), Repeat(false, size - 1), false,
              MotionState(true, before), Repeat(MotionOngoing, size - 1), MotionState(false, Repeat(false, size)), MotionEnd);
    assert Repeat(false, size - 1) + [false] == Repeat(false, size);
  }

  /** The window need not be full: on a fresh buffer a single true sample opens an
      episode, whatever the buffer size. */
  lemma FirstTrueStarts(size: int)
    requires 1 <= size
    ensures Run(size, MotionState(false, []), [true]).1 == [MotionStart]
  {
    assert [true][..0] == [];
    assert Run(size, MotionState(false, []), []) == (MotionState(false, []), []);
    assert Slide([], size, true) == [true];
    assert Step(size, MotionState(false, []), true) == (MotionState(true, [true]), MotionStart);
  }

  class MotionBuffer {
    const bufferSize: int
    var motionFlag: bool
    var buffer: seq<bool>

    ghost predicate Valid()
      reads this
    {
      1 <= bufferSize && |buffer| <= bufferSize
    }

    ghost function Current(): MotionState
      reads this
    {
      MotionState(motionFlag, buffer)
    }

    constructor (bufferSize: int)
      requires 1 <= bufferSize
      ensures Valid() && this.bufferSize == bufferSize
      ensures !motionFlag && buffer == []
    {
      this.bufferSize := bufferSize;
      motionFlag := false;
      buffer := [];
    }

    /** Construction with `__post_init__`'s check: a size below 1 raises ValueError. */
    static method New(bufferSize: int) returns (r: Result<MotionBuffer>)
      ensures r.Err? <==> bufferSize < 1
      ensures r.Err? ==> r.error == ValueError
      ensures r.Ok? ==> fresh(r.value) && r.value.Valid() && r.value.bufferSize == bufferSize
      ensures r.Ok? ==> !r.value.motionFlag && r.value.buffer == []
    {
      if bufferSize < 1 {
        return Err(ValueError);
      }
      var b := new MotionBuffer(bufferSize);
      return Ok(b);
    }

    predicate BufferFull()
      reads this
    {
      |buffer| == bufferSize
    }

    method AddMotion(value: bool)
      requires Valid()
      modifies this
      ensures Valid() && motionFlag == old(motionFlag)
      ensures buffer == Slide(old(buffer), bufferSize, value)
    {
      if BufferFull() {
        buffer := buffer[1..];
      }
      buffer := buffer + [value];
    }

    method GetMotion(value: bool) returns (status: MotionFlag)
      requires Valid()
      modifies this
      ensures Valid()
      ensures (Current(), status) == Step(bufferSize, old(Current()), value)
      ensures buffer == Slide(old(buffer), bufferSize, value)
      ensures status == MotionStart <==> AllTrue(buffer) && !old(motionFlag)
      ensures status == MotionEnd <==> !AnyTrue(buffer) && old(motionFlag)
      ensures status == MotionOngoing <==> AnyTrue(buffer) && old(motionFlag)
      ensures status == NoMotion <==> !AllTrue(buffer) && !old(motionFlag)
      ensures motionFlag == (status == MotionStart || (old(motionFlag) && status != MotionEnd))
    {
      AddMotion(value);
      if AllTrue(buffer) && !motionFlag {
        motionFlag := true;
        return MotionStart;
      } else if !AnyTrue(buffer) && motionFlag {
        motionFlag := false;
        return MotionEnd;
      } else if AnyTrue(buffer) && motionFlag {
        return MotionOngoing;
      } else {
        return NoMotion;
      }
    }
  }
}
