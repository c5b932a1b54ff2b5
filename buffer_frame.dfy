/** The frame history: a list of at most `buffer_size` frames that evicts the
    oldest one when a new frame arrives and the list is full. */
module BufferFrame {
  import opened Errors
  import opened Window

  /** A Python list object. Callers that obtain it share it: a later append is
      visible through every reference. */
  class FrameList<T> {
    var items: seq<T>

    constructor ()
      ensures items == []
    {
      items := [];
    }
  }

  /** Python's `lst[i]`: negative indices count from the end. */
  function PyIndex<T>(s: seq<T>, i: int): (r: Result<T>)
    ensures r.Err? <==> !(-|s| <= i < |s|)
    ensures r.Err? ==> r.error == IndexError
    ensures 0 <= i < |s| ==> r == Ok(s[i])
    ensures -|s| <= i < 0 ==> r == Ok(s[|s| + i])
  {
    if 0 <= i < |s| then Ok(s[i])
    else if -|s| <= i < 0 then Ok(s[|s| + i])
    else Err(IndexError)
  }

  class FrameBuffer<T> {
    const bufferSize: int
    const buffer: FrameList<T>

    ghost predicate Valid()
      reads this, buffer
    {
      1 <= bufferSize && |buffer.items| <= bufferSize
    }

    constructor (bufferSize: int)
      requires 1 <= bufferSize
      ensures Valid() && fresh(buffer)
      ensures this.bufferSize == bufferSize && buffer.items == []
    {
      this.bufferSize := bufferSize;
      buffer := new FrameList<T>();
    }

    /** Construction with `__post_init__`'s check: a size below 1 raises ValueError. */
    static method New(bufferSize: int) returns (r: Result<FrameBuffer<T>>)
      ensures r.Err? <==> bufferSize < 1
      ensures r.Err? ==> r.error == ValueError
      ensures r.Ok? ==> fresh(r.value) && fresh(r.value.buffer) && r.value.Valid()
      ensures r.Ok? ==> r.value.bufferSize == bufferSize && r.value.buffer.items == []
    {
      if bufferSize < 1 {
        return Err(ValueError);
      }
      var b := new FrameBuffer<T>(bufferSize);
      return Ok(b);
    }

    /** `buffer[item]`; `buffer[-1]` is the most recently added frame. */
    function GetItem(i: int): (r: Result<T>)
      reads this, buffer
      ensures i == -1 ==> (r.Ok? <==> buffer.items != [])
      ensures i == -1 && r.Ok? ==> r.value == buffer.items[|buffer.items| - 1]
      ensures r.Err? ==> r.error == IndexError
    {
      PyIndex(buffer.items, i)
    }

    /** The live list, not a copy: what the caller holds changes with later adds. */
    method GetFrames() returns (frames: FrameList<T>)
      ensures frames == buffer
    {
      frames := buffer;
    }

    predicate BufferFull()
      reads this, buffer
    {
      |buffer.items| == bufferSize
    }

    method AddFrame(frame: T)
      requires Valid()
      modifies buffer
      ensures Valid()
      ensures buffer.items == Slide(old(buffer.items), bufferSize, frame)
    {
      if BufferFull() {
        buffer.items := buffer.items[1..];
      }
      buffer.items := buffer.items + [frame];
    }
  }

  /** `buffer_full` holds once at least `buffer_size` frames have been added, and
      from then on every add evicts exactly one frame. */
  lemma {:induction false} FullAfterCapacityAdds<T>(size: int, xs: seq<T>)
    requires 1 <= size
    ensures |Fill(size, xs)| == size <==> |xs| >= size
  {
    FillKeepsNewest(size, xs);
  }
}
