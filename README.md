# MotionDetector, modelled in Dafny

MotionDetector reads frames from a video stream and decides, frame by frame,
whether something is moving. Each frame goes through a pipeline: resize,
background subtraction, mask, erode and dilate. Contours are then found and
filtered by their area relative to the frame. Whether the frame still has
contours after the filter is one boolean. That boolean feeds a small hysteresis
buffer, which turns the per-frame signal into episode phases: start, ongoing,
end, or no motion. When an episode starts or ends, the recent frame history is
attached to the item, and the item goes to a "motion start" or "motion end"
event channel. Subscribers of a channel are called on a worker thread.

The Dafny project models the core of that system, one module per source file:

| module | source | form |
|---|---|---|
| `Errors`, `Frames` | shared | the Python exceptions the core raises; `Result`, `Outcome`, `Option`; an ndarray as its shape plus opaque pixels |
| `Window` | `MotionDetector/buffer_frame.py`, `MotionDetector/buffer_motion.py` | the bounded list both buffers keep: evict index 0 when full, then append |
| `BufferFrame` | `MotionDetector/buffer_frame.py` | `FrameBuffer` class; its list is an object of its own (`FrameList`), so `get_frames` hands out the live list |
| `BufferMotion` | `MotionDetector/buffer_motion.py` | `MotionBuffer` class, specified by the pure transition `Step` and its iteration `Run` |
| `Capture` | `MotionDetector/capture.py` | `StreamReader` class over a scripted `VideoCapture` handle, with the throttle and the reconnect backoff |
| `ItemContours` | `MotionDetector/item_contours.py` | `ContourItem` value: area ratio, region of interest |
| `ItemImage` | `MotionDetector/item_image.py` | `ImageItem` class: defaults and the contour statistics |
| `Contours` | `MotionDetector/contours.py` | `ContourProcessor` class: the strict area-ratio filter |
| `EventHandler` | `Eventhandler/__init__.py`, `MotionDetector/event_handler.py` | `BasicHandler` and `ThreadHandler` classes with a ghost trace of subscriber calls |
| `Detector` | `MotionDetector/__init__.py` | `MotionDetector` class: one pass of the loop, `motion_trigger`, `get_exception` |

Things the core does not control are inputs of the model:
- **The clock.** `now` is the clock before a throttle sleep and `resumed` is the clock after it. Sleeps are recorded in a ghost log.
- **The video handle.** It is a script of open and read results, with a ghost log of the calls made on it.
- **Contour areas and bounding rectangles.** They are given with each contour.
- **Subscribers.** Each is an identity plus the set of payloads for which it raises.
- **The pipeline stages.** In the detector, the capture, preprocessing and contour stages are either the image item they produced or the exception one of them raised.

Python's semantics are written out where the core relies on them:
- `int()` truncates toward zero.
- `round(x, 1)` rounds half to even.
- `all`/`any`, and `min`/`max`, which raise ValueError on an empty list.
- `sum` of an empty list is 0.
- Negative list indices count from the end.
- Dividing by zero raises ZeroDivisionError.
- Reading a missing attribute, such as `.copy()` on `None`, raises AttributeError.

Where the code does something its names or docstrings would not suggest, the model follows the code:
- **Motion start.** `MotionStart` fires as soon as every sample in the window is true, even when the window is not yet full. From a fresh buffer, one true frame starts an episode (`BufferMotion.FirstTrueStarts`).
- **Motion end.** Ending an episode takes as many consecutive false frames as the window holds (`BufferMotion.EndTakesFullWindow`), so the hysteresis is symmetric.
- **Reconnect backoff.** With a ceiling of 8 seconds the reconnect loop sleeps 1, 2 and 4 seconds, then raises `ConnectionError`. The ceiling itself is never slept (`Capture.BackoffOfEight`, `Capture.BackoffBelowCeiling`).
- **Frame history.** `get_frames` returns the live list, not a copy. Items that received the history share it with the buffer (`BufferFrame.FrameBuffer.GetFrames`, `Detector.MotionDetector.Cycle`).
- **Raising subscribers.** A subscriber that raises inside the `ThreadHandler` worker ends the worker thread. Events still queued are never delivered (`EventHandler.ThreadHandler.RunStep`).
- **Output queue.** Nothing in the detector ever puts an item into `output_queue`, so in practice `motion_trigger` always returns a fresh default item.
- **Second failed read.** When the read after a successful reconnect also fails, `frame` is `None`, and `frame.copy()` raises AttributeError (`Capture.StreamReader.Capture`).

## Model

| member | source | states |
|---|---|---|
| `Window.Slide` | MotionDetector/buffer_frame.py:22-25 | adding to a bounded list gives min(n+1, size) elements, which are the newest ones of old list + [x]: append when not full, drop exactly the oldest when full |
| `Window.Fill` | MotionDetector/buffer_frame.py:22-25 | any number of adds never takes the list over its capacity |
| `Window.FillKeepsNewest` | MotionDetector/buffer_frame.py:22-25 | after k adds to an empty buffer of capacity N, the contents are the last min(k, N) items in insertion order |
| `BufferFrame.PyIndex` | MotionDetector/buffer_frame.py:13-14 | list indexing: an index in range gives that element, a negative one counts from the end, anything else raises IndexError |
| `BufferFrame.FrameBuffer.constructor` | MotionDetector/buffer_frame.py:9-11 | a valid size gives an empty buffer of that size |
| `BufferFrame.FrameBuffer.New` | MotionDetector/buffer_frame.py:9-11 | construction raises ValueError exactly when the size is below 1, otherwise gives an empty buffer |
| `BufferFrame.FrameBuffer.GetItem` | MotionDetector/buffer_frame.py:13-14 | `buffer[-1]` is the most recently added frame and raises IndexError on an empty buffer |
| `BufferFrame.FrameBuffer.GetFrames` | MotionDetector/buffer_frame.py:16-17 | returns the buffer's own list object, not a copy |
| `BufferFrame.FrameBuffer.AddFrame` | MotionDetector/buffer_frame.py:19-25 | the new contents are `Slide` of the old ones: never over the size, oldest evicted only when full |
| `BufferFrame.FullAfterCapacityAdds` | MotionDetector/buffer_frame.py:19-25 | the buffer is full (length equals the size) exactly when at least size frames were added |
| `BufferMotion.Step` | MotionDetector/buffer_motion.py:30-41 | the flag is set only by a start, which needs it clear, and cleared only by an end, which needs it set; every other phase keeps it; the window stays within the size |
| `BufferMotion.Run` | MotionDetector/buffer_motion.py:30-41 | one phase per sample, and the window stays within the size |
| `BufferMotion.EdgesAlternate` | MotionDetector/buffer_motion.py:31-37 | over any sample sequence the starts and ends strictly alternate beginning with a start, and the flag is set exactly when the last of them was a start |
| `BufferMotion.RecordKeepsAlternating` | MotionDetector/buffer_motion.py:31-37 | a phase that opens only a closed episode and closes only an open one keeps the starts and ends alternating, and the flag still says whether the last of them was a start |
| `BufferMotion.StepStart` | MotionDetector/buffer_motion.py:31-34 | a true sample that leaves only trues in the window opens a closed episode |
| `BufferMotion.StepEnd` | MotionDetector/buffer_motion.py:35-37 | a false sample that leaves no true in the window closes an open episode |
| `BufferMotion.TruesBeforeStart` | MotionDetector/buffer_motion.py:31-34 | from a full window whose newest sample is false, fewer than size trues give only NoMotion |
| `BufferMotion.StartTakesFullWindow` | MotionDetector/buffer_motion.py:31-34 | from that window, size trues give NoMotion and then exactly one MotionStart on the last one |
| `BufferMotion.FalsesBeforeEnd` | MotionDetector/buffer_motion.py:35-39 | during an episode with a full window ending in true, fewer than size falses give only MotionOngoing |
| `BufferMotion.EndTakesFullWindow` | MotionDetector/buffer_motion.py:35-39 | from that window, size falses give MotionOngoing and then exactly one MotionEnd on the last one |
| `BufferMotion.FirstTrueStarts` | MotionDetector/buffer_motion.py:31-34 | from a fresh buffer a single true sample yields MotionStart |
| `BufferMotion.MotionBuffer.constructor` | MotionDetector/buffer_motion.py:18-20 | a valid size gives an empty window with the flag clear |
| `BufferMotion.MotionBuffer.New` | MotionDetector/buffer_motion.py:18-20 | construction raises ValueError exactly when the size is below 1 |
| `BufferMotion.MotionBuffer.AddMotion` | MotionDetector/buffer_motion.py:22-28 | the window becomes `Slide` of the old one and the flag is kept |
| `BufferMotion.MotionBuffer.GetMotion` | MotionDetector/buffer_motion.py:30-41 | the new state and phase are `Step` of the old state. Start iff all samples are true and the flag was clear; End iff none is true and the flag was set; Ongoing iff some is true and the flag was set; NoMotion otherwise. The new flag follows from the phase |
| `Capture.ThrottleDelay` | MotionDetector/capture.py:55 | the throttle sleep is never negative and reaches exactly the end of the frame period when one remains |
| `Capture.Waits` | MotionDetector/capture.py:33-46 | the backoff waits start at the current wait |
| `Capture.WaitsDouble` | MotionDetector/capture.py:42-46 | each wait doubles the previous one; all but the last are below half the ceiling; the last doubled reaches it; the waits sum to twice the last minus the first |
| `Capture.BackoffDoubles` | MotionDetector/capture.py:33-44 | the sleeps are 1, 2, 4, ...: the first is 1 and each doubles the previous one |
| `Capture.BackoffBelowCeiling` | MotionDetector/capture.py:44-46 | every sleep lies between 1 and the ceiling, the ceiling excluded, and the total is below twice the ceiling |
| `Capture.BackoffOfEight` | MotionDetector/capture.py:32-46 | with a ceiling of 8 the sleeps are exactly 1, 2, 4 |
| `Capture.FailedOpens` | MotionDetector/capture.py:35-40 | the count of leading failed opens never exceeds the number of scripted opens |
| `Capture.FirstSuccess` | MotionDetector/capture.py:35-40 | every open counted by `FailedOpens` failed, and the one after them, if any, succeeds |
| `Capture.Attempts` | MotionDetector/capture.py:35-46 | the loop makes at least one release-and-open attempt and never more than there are waits in the backoff |
| `Capture.OpenSucceeds` | MotionDetector/capture.py:37-40 | an open that succeeds after only failed ones is the first success: the loop breaks there and reconnects after that many attempts |
| `Capture.OpenFails` | MotionDetector/capture.py:37-46 | a failed open puts the first success later; when no wait is left, the loop gives up after that attempt without reconnecting |
| `Capture.BackoffStep` | MotionDetector/capture.py:44-46 | the capped doubled wait equals the ceiling exactly at the last wait, and otherwise it is the next wait |
| `Capture.StreamReader.constructor` | MotionDetector/capture.py:13-32 | stores the buffer, the rate and the handle; the last capture time is the clock; the reconnect ceiling `connect` and `capture` use is the default 1024 |
| `Capture.StreamReader.Connect` | MotionDetector/capture.py:26-30 | when the first open fails and the reconnect gives up, ConnectionError, with no capture: the buffer and the throttle clock are unchanged and only the reconnect's waits were slept. Otherwise exactly one capture runs, on an opened handle with the open results the opening left (`OpensAfterConnect`). Its result decides the outcome, its frame is added to the buffer by `Slide`, and the sleeps are the reconnect's waits, then the capture's (`CaptureSleeps`). The whole call log is `OpenCalls` (the open, then the reconnect's release-and-open attempts if it failed) followed by the capture's `CaptureCalls`. When the reconnect gives up, the handle is left closed with the opens it consumed dropped; otherwise the handle's state is `HandleAfterCapture` of the capture. The first call is an open; after a failed open the next is the reconnect's release, after a successful one (at a non-zero rate) the capture's read |
| `Capture.StreamReader.Reconnect` | MotionDetector/capture.py:32-46 | succeeds iff an open succeeds before the backoff runs out, else ConnectionError; every attempt is release then open, so the first call is a release; the sleeps are the backoff up to the successful attempt, or all of it (`ReconnectSleeps`); the throttle clock is untouched |
| `Capture.StreamReader.Disconnect` | MotionDetector/capture.py:48-49 | releases the handle and nothing else |
| `Capture.StreamReader.GetFrame` | MotionDetector/capture.py:51-52 | Ok iff the buffer is not empty, and then its newest frame; the only error is IndexError |
| `Capture.StreamReader.Wait` | MotionDetector/capture.py:54-57 | sleeps `ThrottleDelay` and then records the clock; a zero rate raises ZeroDivisionError |
| `Capture.StreamReader.Capture` | MotionDetector/capture.py:54-66 | the result is `CaptureResult`: ZeroDivisionError for a zero rate, before any call; the first read's frame; after a failed read, ConnectionError if the reconnect gives up, AttributeError if the one further read fails, else that read's frame. A zero rate leaves the sleeps and the clock alone; otherwise the clock is set to the time after the throttle, and the sleeps are the throttle's delay followed, after a failed read, by the reconnect's waits (`CaptureSleeps`). The calls on the handle are `CaptureCalls`: a read, then on a failure the reconnect's release-and-open attempts and, only if it succeeded, one more read. The handle's state afterwards (open or not, the reads and opens still scripted) is `HandleAfterCapture`. The reconnect runs with the stored ceiling `reconnectMaxSec`. A returned frame is added to the buffer by `Slide`; an error leaves the buffer unchanged |
| `Capture.SuccessiveCaptures` | MotionDetector/capture.py:59-66 | two captures in a row on an open handle whose next two reads succeed return those two frames in order, each consuming one read, and leave the handle open with its scripted opens untouched |
| `ItemContours.RoundTenth` | MotionDetector/item_contours.py:18 | rounding to one decimal moves a value by at most 0.05 and gives a whole number of tenths |
| `ItemContours.AreaPercent` | MotionDetector/item_contours.py:16-18 | the area ratio is within 0.05 of 100 * area / frame area; a zero frame area raises ZeroDivisionError |
| `ItemContours.Trunc` | MotionDetector/item_contours.py:23 | `int()` of a real truncates toward zero: for a non-negative value the largest integer not above it, for a negative one the smallest not below it |
| `ItemContours.ContourItem.Roi` | MotionDetector/item_contours.py:20-24 | ZeroDivisionError exactly when the scale is 0; otherwise the first corner is (x, y) divided by the scale and truncated, and the box's width and height are w and h divided and truncated on their own, so the second corner is the first plus (w', h') |
| `ItemContours.ContourItem.ScaledRoi` | MotionDetector/item_contours.py:26-29 | `((x, y), (x + w, y + h))` of the bounding rectangle |
| `ItemContours.DefaultsDivideByZero` | MotionDetector/item_contours.py:8-24 | with the default frame area and scale of 0, the area ratio and the region of interest both raise ZeroDivisionError |
| `ItemContours.RoiAtScaleOne` | MotionDetector/item_contours.py:20-29 | at scale 1 the region of interest equals the scaled one |
| `ItemContours.RoiRescales` | MotionDetector/item_contours.py:20-24 | for a positive scale and a non-negative rectangle the corners are ordered and each lies within truncation error of the rectangle divided by the scale |
| `ItemContours.RoundTiesToEven` | MotionDetector/item_contours.py:18 | on exact values, ties round to the even tenth: 0.25 to 0.2, 0.75 to 0.8, 1.25 to 1.2; 1.96 rounds to 2.0. These ties are exact binary fractions, so they agree with Python's `round` |
| `ItemImage.Ratios` | MotionDetector/item_image.py:53-55 | the list of area ratios, one per contour in order; it raises ZeroDivisionError when some contour has no frame area |
| `ItemImage.ArgMin` | MotionDetector/item_image.py:53-55 | points at an element no greater than any other |
| `ItemImage.ArgMax` | MotionDetector/item_image.py:57-59 | points at an element no smaller than any other |
| `ItemImage.SumWithinBounds` | MotionDetector/item_image.py:61-63 | a sum of n ratios that lie in [lo, hi] lies in [n * lo, n * hi] |
| `ItemImage.SumConcat` | MotionDetector/item_image.py:61-63 | summing a concatenation is summing the parts |
| `ItemImage.ImageItem.constructor` | MotionDetector/item_image.py:13-23 | a default item: no data, NoMotion, empty frame arrays, fresh empty frame list, no contours |
| `ItemImage.ImageItem.MinAreaRatio` | MotionDetector/item_image.py:53-55 | Ok iff there are contours and all have a frame area; the value is at most every contour's ratio and equal to one of them. No contours gives ValueError; otherwise the only error is ZeroDivisionError, for a missing frame area |
| `ItemImage.ImageItem.MaxAreaRatio` | MotionDetector/item_image.py:57-59 | Ok iff there are contours and all have a frame area; the value is at least every contour's ratio and equal to one of them. No contours gives ValueError; otherwise the only error is ZeroDivisionError |
| `ItemImage.ImageItem.SumAreaRatio` | MotionDetector/item_image.py:61-63 | 0 for no contours; Ok iff every contour has a frame area, and then the sum of the ratios; the only error is ZeroDivisionError |
| `ItemImage.ImageItem.Resolution` | MotionDetector/item_image.py:65-69 | `(shape[1], shape[0])`, width then height; IndexError for an array with fewer than two axes |
| `ItemImage.MinAtMostMax` | MotionDetector/item_image.py:53-59 | when the minimum exists, so does the maximum, and min <= max |
| `Contours.ContourProcessor.constructor` | MotionDetector/contours.py:12-21 | stores the bounds and the scale; the frame area starts at 0 |
| `Contours.ContourProcessor.ComputeAreaRatio` | MotionDetector/contours.py:23-26 | true iff min < rounded ratio < max, both bounds exclusive; ZeroDivisionError iff the frame area is 0 |
| `Contours.ContourProcessor.FilterContours` | MotionDetector/contours.py:28-30 | ZeroDivisionError exactly when there is a contour and no frame area; otherwise the kept contours |
| `Contours.ContourProcessor.FindContours` | MotionDetector/contours.py:32-37 | sets the frame area to height * width of the dilated frame before filtering; replaces the item's contours with the filtered list and returns the same item; the frame area stays set when the filter then fails, and then the contours are unchanged. For a frame with at least two axes the only failure is the filter's ZeroDivisionError. Only the contours of the item change: its timestamp, phase, history and every stage frame are kept |
| `Contours.KeptOf` | MotionDetector/contours.py:28-30 | keeps no more than it was given, each kept contour passed the predicate and carries the current frame area and scale |
| `Contours.FilterKeepsOrder` | MotionDetector/contours.py:28-30 | filtering a concatenation is the concatenation of the filtered parts, so the original order is kept |
| `Contours.FilterKeepsExactly` | MotionDetector/contours.py:28-30 | a contour's wrapped form is among the kept ones iff it passes the predicate |
| `Contours.ComputeMatchesKeeps` | MotionDetector/contours.py:23-30 | with a frame area set, `compute_area_ratio` returns exactly the comprehension's predicate, and a contour is kept iff it returns true |
| `Contours.BoundsAreExclusive` | MotionDetector/contours.py:23-26 | a ratio equal to either bound is rejected; one strictly between them is kept |
| `EventHandler.FirstRaising` | Eventhandler/__init__.py:14-16 | the first subscriber that raises for the payload: none before it raises, and it is the length of the list iff none raises |
| `EventHandler.CallAll` | Eventhandler/__init__.py:49-50 | the loop over the subscribers makes the calls `Dispatched` describes and reports a raise iff some subscriber raises |
| `EventHandler.AllCalledInOrder` | Eventhandler/__init__.py:13-16 | when no subscriber raises, each is called exactly once, in registration order, with the same payload |
| `EventHandler.RaiseStopsLater` | MotionDetector/event_handler.py:5-7 | no subscriber after a raising one is called |
| `EventHandler.NoSubscribersNoCalls` | MotionDetector/event_handler.py:6 | with no subscribers an event calls nothing |
| `EventHandler.SubscribeAppends` | Eventhandler/__init__.py:18-20 | after subscribing `fn`, an event calls what it called before and then `fn`, unless an earlier subscriber raised |
| `EventHandler.FirstRaisingExtends` | Eventhandler/__init__.py:36-38 | appending a subscriber does not move an earlier raise |
| `EventHandler.CalledOncePerSubscription` | MotionDetector/event_handler.py:9-10 | subscriptions are not de-duplicated: a function is called as many times as it was subscribed |
| `EventHandler.CallsToWider` | Eventhandler/__init__.py:18-20 | appending a subscriber does not change who the existing calls went to |
| `EventHandler.DrainInOrder` | Eventhandler/__init__.py:40-50 | the worker delivers events first in, first out: the calls for earlier events all come before those for later ones |
| `EventHandler.DrainSnoc` | Eventhandler/__init__.py:40-50 | a live worker reaching one more event adds exactly that event's calls after the earlier ones, and stays alive iff the event raises nothing |
| `EventHandler.DrainStopsAt` | Eventhandler/__init__.py:40-50 | once an event makes a subscriber raise, nothing queued after it is ever dispatched |
| `EventHandler.DrainStopsAtRaise` | Eventhandler/__init__.py:40-50 | a worker that died on an event makes the same calls however much further the queue is read, and the events it reached are not all calm |
| `EventHandler.BasicHandler.constructor` | Eventhandler/__init__.py:10-11 | no subscribers, nothing called |
| `EventHandler.BasicHandler.Subscribe` | MotionDetector/event_handler.py:9-10 | appends the function at the end of the list; calls nothing |
| `EventHandler.BasicHandler.FireEvent` | Eventhandler/__init__.py:13-16 | the trace grows by `Dispatched`; the event raises iff some subscriber raises |
| `EventHandler.ThreadHandler.constructor` | Eventhandler/__init__.py:24-30 | no subscribers, an empty queue, a live worker |
| `EventHandler.ThreadHandler.Subscribe` | Eventhandler/__init__.py:36-38 | appends the function; the queue and the worker are untouched |
| `EventHandler.ThreadHandler.FireEvent` | Eventhandler/__init__.py:32-34 | only enqueues the payload at the tail; no subscriber is called |
| `EventHandler.ThreadHandler.RunStep` | Eventhandler/__init__.py:40-50 | an empty queue or a dead worker does nothing; otherwise the head is removed and dispatched to every subscriber in order, and the worker dies iff a subscriber raised |
| `EventHandler.ThreadHandler.Run` | Eventhandler/__init__.py:40-50 | the first passes of the worker loop with nothing fired meanwhile: a live worker makes exactly the calls `Drain` gives for the events it reached, in FIFO order, and stays alive iff none of them raised. The events taken off the queue are its first `reached`: all it had passes for if it stays alive, or up to and including the first event that raised, with none before it raising; the rest stay queued. A dead worker does nothing and leaves the queue as it was |
| `Detector.MotionDetector.constructor` | MotionDetector/__init__.py:18-42 | a frame buffer of 30, a motion window of 2, one frame per second, a stream reader over that buffer whose last capture time is the clock, with nothing slept yet and the reconnect ceiling 1024, the given contour bounds with a frame area of 0, two distinct empty channels whose workers are alive and have called nothing, no exception; every component is a new object |
| `Detector.MotionDetector.WithDefaults` | MotionDetector/__init__.py:18-21 | a detector built without contour bounds uses the defaults 2.0 and 10.0, and is otherwise in the same fresh state the constructor gives |
| `Detector.MotionDetector.GetFrame` | MotionDetector/__init__.py:47-48 | the newest captured frame, IndexError before the first capture |
| `Detector.MotionDetector.MotionTrigger` | MotionDetector/__init__.py:50-55 | a fresh default item when the queue is empty (no data, NoMotion, the given timestamp, every stage frame an empty array, so its resolution raises IndexError), otherwise the head, removed |
| `Detector.MotionDetector.Cycle` | MotionDetector/__init__.py:62-84 | a stage error is recorded and nothing else changes. Otherwise "has contours" goes into the motion buffer exactly once, as `Step`. On a start only the start channel gets the item, with the live history; on an end only the end channel; otherwise neither channel and the frames are left alone. No subscriber runs in the loop, and both workers stay as alive as they were. Of the item only the phase and the history may change. Start and end events keep alternating |
| `Detector.MotionDetector.GetException` | MotionDetector/__init__.py:86-87 | the recorded exception: None from construction until a cycle fails |

`ItemImage.ImageItem.HasContours` (`MotionDetector/item_image.py:49-51`) is the predicate "the contour list is not empty". `BufferFrame.FrameBuffer.BufferFull` and `BufferMotion.MotionBuffer.BufferFull` are the predicates "the length equals the size". Each is used by the members above. `ItemContours.ContourItem.AreaRatio` (`MotionDetector/item_contours.py:16-18`) is `AreaPercent` of the contour's area and its frame area.

## Left out

- The preprocessing stages (resize, MOG2 background subtraction, mask, erode, dilate) are OpenCV calls whose results the model cannot see. `MotionDetector/preprocessor.py` is not part of this model.
- `cv2.findContours`, `cv2.contourArea` and `cv2.boundingRect` are inputs: each contour comes with its area and its bounding rectangle.
- `VideoCapture` is a scripted handle. The URL, decoding and real network behaviour are left out.
- `overlay_frame`, `binary_image` and `binary_overlay` are OpenCV drawing and JPEG encoding.
- Threads are left out: `start`, daemon flags, and the concurrency between the detector loop and the handler workers. The workers are modelled as sequential single steps (`ThreadHandler.RunStep`) and a bounded number of them (`ThreadHandler.Run`), with nothing fired in between.
- The one-second polling sleep of an idle worker is left out. An idle step changes nothing.
- Logging is left out.
- The formatted timestamp of a new `ImageItem` is passed in.
- Sleeping and the wall clock are inputs, and sleeps are recorded in a ghost log.
- Floating point is modelled as exact reals. `RoundTenth` rounds half to even on the exact value. The model does not capture binary floating-point rounding of the ratio.
- Detector.MotionDetector.Cycle: the capture, preprocessing and contour stages are abstracted to the item they produced or the exception they raised. The frame the capture adds to the frame buffer is therefore not part of the pass, and the capture is modelled on its own by `Capture.StreamReader.Capture`.
- The unbounded loop of `run` is left out. It runs `Cycle` until the first exception, which `Cycle` records. The handler threads' `start` calls are also left out.
- Detector.MotionDetector.constructor: the stream reader's initial `connect` and the mask-path lookup are left out. They are modelled on their own by `Capture.StreamReader.Connect`.
- `__del__` disconnecting the stream is modelled only as `Capture.StreamReader.Disconnect`.
- `KeyboardInterrupt` and other exceptions are handled identically by the loop. Both are the same recorded error here.
- `frame.copy()` is the identity, because frames are values in the model.
- `FrameBuffer.__getitem__` is modelled for integer indices only. Slices are left out.
- BufferFrame.FrameBuffer.New: the dataclass's optional initial `buffer` list (`MotionDetector/buffer_frame.py:7`) is left out, and every buffer starts empty. The detector never passes one (`MotionDetector/__init__.py:27`). With a longer initial list the `==` test of `buffer_full` would never hold and the list would grow without bound; the model does not capture that.
- BufferMotion.MotionBuffer.New: the dataclass's optional `motion_flag` and initial `buffer` (`MotionDetector/buffer_motion.py:15-16`) are left out; every window starts empty with the flag clear. The detector passes neither (`MotionDetector/__init__.py:37`). The same `==` caveat about an over-long initial list applies.
- Subscribers are opaque. What they do to the payload is left out; only whether they raise is modelled.
- The unused `exception` attribute of `ThreadHandler` is left out.
