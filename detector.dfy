/** The detector: a loop that captures a frame, runs it through the pipeline,
    feeds "the frame has contours" into the motion buffer and, when an episode
    opens or closes, attaches the frame history to the item and hands the item
    to the start or end channel. The capture, preprocessing and contour stages
    are abstracted to the item they produce or the error one of them raises. */
module Detector {
  import opened Errors
  import opened Frames
  import opened BufferMotion
  import opened BufferFrame
  import opened Capture
  import opened Contours
  import opened ItemImage
  import opened EventHandler

  /** The detector keeps the last 30 frames and decides on windows of 2 samples. */
  const FrameHistory := 30
  const MotionWindow := 2
  /** The stream is throttled to one frame per second. */
  const MaxFps := 1.0
  /** The detector's own defaults for the contour bounds, and the scale the
      contour stage keeps by default. */
  const DefaultMinAreaRatio := 2.0
  const DefaultMaxAreaRatio := 10.0
  const ContourScale := 0.3

  class MotionDetector {
    const frameBuffer: FrameBuffer<Frame>
    const streamReader: StreamReader
    const contourProcessor: ContourProcessor
    const motionBuffer: MotionBuffer
    const motionStartHandler: ThreadHandler<ImageItem>
    const motionEndHandler: ThreadHandler<ImageItem>
    var outputQueue: seq<ImageItem>
    var exception: Option<Error>
    /** The start and end events fired so far, in order. */
    ghost var events: seq<MotionFlag>

    ghost predicate Valid()
      reads this, frameBuffer, frameBuffer.buffer, streamReader, motionBuffer
    {
      && frameBuffer.Valid() && frameBuffer.bufferSize == FrameHistory
      && streamReader.buffer == frameBuffer
      && motionBuffer.Valid() && motionBuffer.bufferSize == MotionWindow
      && motionStartHandler != motionEndHandler
      && Alternating(events)
      && (motionBuffer.motionFlag <==> InEpisode(events))
    }

    /** `__init__` without the stream reader's initial connection; `cap` is the
        video handle and `now` the clock. */
    constructor (cap: VideoCapture, now: real, minAreaRatio: real, maxAreaRatio: real)
      ensures Valid()
      ensures frameBuffer.buffer.items == [] && streamReader.cap == cap && streamReader.maxFps == MaxFps
      ensures streamReader.buffer == frameBuffer
      ensures streamReader.lastCapture == now && streamReader.sleeps == [] && streamReader.reconnectMaxSec == DefaultMaxSec
      ensures !motionBuffer.motionFlag && motionBuffer.buffer == []
      ensures contourProcessor.minAreaRatio == minAreaRatio && contourProcessor.maxAreaRatio == maxAreaRatio
      ensures contourProcessor.scale == ContourScale
      ensures contourProcessor.frameArea == 0
      ensures motionStartHandler.subscribers == [] && motionStartHandler.inputQueue == []
      ensures motionEndHandler.subscribers == [] && motionEndHandler.inputQueue == []
      ensures motionStartHandler.alive && motionStartHandler.trace == []
      ensures motionEndHandler.alive && motionEndHandler.trace == []
      ensures fresh(frameBuffer) && fresh(frameBuffer.buffer) && fresh(streamReader) && fresh(contourProcessor)
      ensures fresh(motionBuffer) && fresh(motionStartHandler) && fresh(motionEndHandler)
      ensures outputQueue == [] && exception == None && events == []
    {
      var fb := new FrameBuffer<Frame>(FrameHistory);
      frameBuffer := fb;
      streamReader := new StreamReader(fb, MaxFps, cap, now);
      contourProcessor := new ContourProcessor(minAreaRatio, maxAreaRatio, ContourScale);
      motionBuffer := new MotionBuffer(MotionWindow);
      motionStartHandler := new ThreadHandler<ImageItem>();
      motionEndHandler := new ThreadHandler<ImageItem>();
      outputQueue := [];
      exception := None;
      events := [];
    }

    /** `MotionDetector(url)` with the keyword defaults of `__init__` for the
        contour bounds. */
    static method WithDefaults(cap: VideoCapture, now: real) returns (d: MotionDetector)
      ensures fresh(d) && d.Valid()
      ensures d.contourProcessor.minAreaRatio == DefaultMinAreaRatio
      ensures d.contourProcessor.maxAreaRatio == DefaultMaxAreaRatio
      ensures d.frameBuffer.buffer.items == [] && d.streamReader.cap == cap && d.streamReader.maxFps == MaxFps
      ensures d.streamReader.buffer == d.frameBuffer
      ensures d.streamReader.lastCapture == now && d.streamReader.sleeps == [] && d.streamReader.reconnectMaxSec == DefaultMaxSec
      ensures !d.motionBuffer.motionFlag && d.motionBuffer.buffer == []
      ensures d.contourProcessor.scale == ContourScale && d.contourProcessor.frameArea == 0
      ensures d.motionStartHandler.subscribers == [] && d.motionStartHandler.inputQueue == []
      ensures d.motionEndHandler.subscribers == [] && d.motionEndHandler.inputQueue == []
      ensures d.motionStartHandler.alive && d.motionStartHandler.trace == []
      ensures d.motionEndHandler.alive && d.motionEndHandler.trace == []
      ensures fresh(d.frameBuffer) && fresh(d.frameBuffer.buffer) && fresh(d.streamReader) && fresh(d.contourProcessor)
      ensures fresh(d.motionBuffer) && fresh(d.motionStartHandler) && fresh(d.motionEndHandler)
      ensures d.outputQueue == [] && d.exception == None && d.events == []
    {
      d := new MotionDetector(cap, now, DefaultMinAreaRatio, DefaultMaxAreaRatio);
    }

    /** The newest captured frame; IndexError before the first capture. */
    function GetFrame(): (r: Result<Frame>)
      reads this, frameBuffer, frameBuffer.buffer, streamReader, motionBuffer
      requires Valid()
      ensures r.Ok? <==> frameBuffer.buffer.items != []
      ensures r.Ok? ==> r.value == frameBuffer.buffer.items[|frameBuffer.buffer.items| - 1]
      ensures r.Err? ==> r.error == IndexError
    {
      streamReader.GetFrame()
    }

    /** The oldest queued item, removed; a fresh default item when the queue is
        empty. `timestamp` is the clock, formatted, for that item. */
    method MotionTrigger(timestamp: string) returns (item: ImageItem)
      modifies this
      ensures old(outputQueue) == [] ==>
        && fresh(item) && fresh(item.frames) && outputQueue == []
        && !item.hasData && item.motionStatus == NoMotion
        && item.frames.items == [] && item.contours == [] && item.timestamp == timestamp
        && item.originalFrame == EmptyArray && item.resizedFrame == EmptyArray && item.binaryFrame == EmptyArray
        && item.maskedFrame == EmptyArray && item.erodedFrame == EmptyArray && item.dilatedFrame == EmptyArray
        && item.Resolution() == Err(IndexError)
      ensures old(outputQueue) != [] ==> item == old(outputQueue)[0] && outputQueue == old(outputQueue)[1..]
      ensures exception == old(exception) && events == old(events)
    {
      if outputQueue == [] {
        item := new ImageItem(timestamp);
        return;
      }
      item := outputQueue[0];
      outputQueue := outputQueue[1..];
    }

    /** One pass of the loop in `run`. `stageError` is the exception the capture,
        preprocessing or contour stage raised, if any; otherwise `item` is the
        image item they produced. A failed pass records the exception and
        stops the loop: nothing else changes. Otherwise the item's "has
        contours" goes into the motion buffer once, and the resulting phase
        decides which channel, if any, gets the item with the frame history. */
    method Cycle(item: ImageItem, stageError: Option<Error>)
      requires Valid() && exception == None
      modifies this, motionBuffer, motionStartHandler, motionEndHandler, item`motionStatus, item`frames
      ensures Valid() && outputQueue == old(outputQueue)
      ensures motionStartHandler.alive == old(motionStartHandler.alive)
      ensures motionEndHandler.alive == old(motionEndHandler.alive)
      ensures motionStartHandler.subscribers == old(motionStartHandler.subscribers)
      ensures motionEndHandler.subscribers == old(motionEndHandler.subscribers)
      ensures motionStartHandler.trace == old(motionStartHandler.trace)
      ensures motionEndHandler.trace == old(motionEndHandler.trace)
      ensures stageError.Some? ==>
        && exception == stageError && events == old(events)
        && motionBuffer.Current() == old(motionBuffer.Current())
        && motionStartHandler.inputQueue == old(motionStartHandler.inputQueue)
        && motionEndHandler.inputQueue == old(motionEndHandler.inputQueue)
        && item.motionStatus == old(item.motionStatus) && item.frames == old(item.frames)
      ensures stageError.None? ==>
        && exception == None
        && (motionBuffer.Current(), item.motionStatus)
           == Step(MotionWindow, old(motionBuffer.Current()), old(item.contours) != [])
        && events == Record(old(events), item.motionStatus)
      ensures stageError.None? && item.motionStatus == MotionStart ==>
        && item.frames == frameBuffer.buffer
        && motionStartHandler.inputQueue == old(motionStartHandler.inputQueue) + [item]
        && motionEndHandler.inputQueue == old(motionEndHandler.inputQueue)
      ensures stageError.None? && item.motionStatus == MotionEnd ==>
        && item.frames == frameBuffer.buffer
        && motionEndHandler.inputQueue == old(motionEndHandler.inputQueue) + [item]
        && motionStartHandler.inputQueue == old(motionStartHandler.inputQueue)
      ensures stageError.None? && item.motionStatus in {MotionOngoing, NoMotion} ==>
        && item.frames == old(item.frames)
        && motionStartHandler.inputQueue == old(motionStartHandler.inputQueue)
        && motionEndHandler.inputQueue == old(motionEndHandler.inputQueue)
    {
      if stageError.Some? {
        exception := stageError;
        return;
      }
      ghost var flag := motionBuffer.motionFlag;
      var status := motionBuffer.GetMotion(item.HasContours());
      RecordKeepsAlternating(events, status, flag, motionBuffer.motionFlag);
      item.motionStatus := status;
      if status == MotionStart {
        item.frames := frameBuffer.GetFrames();
        motionStartHandler.FireEvent(item);
        events := events + [MotionStart];
      } else if status == MotionEnd {
        item.frames := frameBuffer.GetFrames();
        motionEndHandler.FireEvent(item);
        events := events + [MotionEnd];
      }
    }

    /** The exception that stopped the loop; None while it runs. */
    function GetException(): (e: Option<Error>)
      reads this
      ensures e == exception
    {
      exception
    }
  }
}
