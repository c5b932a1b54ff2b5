/** The stream reader: throttled reads from a capture handle, reconnection with
    exponential backoff, and the copy of every frame read into the frame history.
    The capture library's handle is a script of open and read results; clock
    readings are inputs and the sleeps are recorded instead of slept. */
module Capture {
  import opened Errors
  import opened Frames
  import opened Window
  import opened BufferFrame

  /** The calls made on the capture handle. */
  datatype HandleCall = OpenCall | ReleaseCall | ReadCall

  /** The capture handle (`cv2.VideoCapture`) as a scripted oracle: successive
      `open` calls succeed as `openResults` says and successive reads of an opened
      handle return `readResults` (None is a failed read). An exhausted script
      keeps failing. */
  class VideoCapture {
    var openResults: seq<bool>
    var readResults: seq<Option<Frame>>
    var isOpened: bool
    ghost var calls: seq<HandleCall>

    constructor (openResults: seq<bool>, readResults: seq<Option<Frame>>)
      ensures this.openResults == openResults && this.readResults == readResults
      ensures !isOpened && calls == []
    {
      this.openResults := openResults;
      this.readResults := readResults;
      isOpened := false;
      calls := [];
    }

    method Open()
      modifies this
      ensures isOpened == (old(openResults) != [] && old(openResults)[0])
      ensures openResults == Drop(old(openResults), 1)
      ensures readResults == old(readResults) && calls == old(calls) + [OpenCall]
    {
      isOpened := openResults != [] && openResults[0];
      openResults := Drop(openResults, 1);
      calls := calls + [OpenCall];
    }

    method Release()
      modifies this
      ensures !isOpened && calls == old(calls) + [ReleaseCall]
      ensures openResults == old(openResults) && readResults == old(readResults)
    {
      isOpened := false;
      calls := calls + [ReleaseCall];
    }

    method Read() returns (frame: Option<Frame>)
      modifies this
      ensures frame == NextRead(old(isOpened), old(readResults))
      ensures readResults == AfterRead(old(isOpened), old(readResults))
      ensures isOpened == old(isOpened) && openResults == old(openResults)
      ensures calls == old(calls) + [ReadCall]
    {
      frame := NextRead(isOpened, readResults);
      readResults := AfterRead(isOpened, readResults);
      calls := calls + [ReadCall];
    }
  }

  function Drop<T>(s: seq<T>, n: nat): seq<T>
  {
    if n <= |s| then s[n..] else []
  }

  /** What a read returns: the next scripted result if the handle is open. */
  function NextRead(isOpened: bool, results: seq<Option<Frame>>): Option<Frame>
  {
    if isOpened && results != [] then results[0] else None
  }

  function AfterRead(isOpened: bool, results: seq<Option<Frame>>): seq<Option<Frame>>
  {
    if isOpened then Drop(results, 1) else results
  }

  // ---------------------------------------------------------------------------
  // Throttling

  function Max(a: real, b: real): real { if a >= b then a else b }

  /** The sleep before a capture: what is left of the frame period since the last
      capture, never negative. Resuming after it keeps captures `1 / max_fps` apart. */
  function ThrottleDelay(lastCapture: real, maxFps: real, now: real): (secs: real)
    requires maxFps != 0.0
    ensures secs >= 0.0
    ensures now + secs >= lastCapture + 1.0 / maxFps
    ensures secs == 0.0 || now + secs == lastCapture + 1.0 / maxFps
  {
    Max(lastCapture + 1.0 / maxFps - now, 0.0)
  }

  // ---------------------------------------------------------------------------
  // Reconnect backoff

  /** `reconnect`'s default ceiling. */
  const DefaultMaxSec := 1024

  /** The waits `reconnect` sleeps from a current wait of `secWait` on, if every
      attempt fails: after sleeping, the wait doubles, is capped at `maxSec`, and
      the loop raises as soon as the capped value equals `maxSec`. */
  function Waits(secWait: int, maxSec: int): (ws: seq<int>)
    requires secWait >= 1
    ensures |ws| >= 1 && ws[0] == secWait
    decreases maxSec - secWait
  {
    var next := Min(maxSec, secWait * 2);
    if next == maxSec then [secWait] else [secWait] + Waits(next, maxSec)
  }

  /** Every wait `reconnect` can sleep before it gives up, starting from 1. */
  function Backoff(maxSec: int): seq<int>
  {
    Waits(1, maxSec)
  }

  function Sum(s: seq<int>): int
  {
    if s == [] then 0 else s[0] + Sum(s[1..])
  }

  lemma {:induction false} WaitsDouble(secWait: int, maxSec: int)
    requires secWait >= 1
    ensures var ws := Waits(secWait, maxSec);
      && (forall i :: 0 <= i < |ws| - 1 ==> ws[i + 1] == 2 * ws[i] && 2 * ws[i] < maxSec)
      && (forall i :: 0 <= i < |ws| ==> ws[i] >= secWait)
      && 2 * ws[|ws| - 1] >= maxSec
      && Sum(ws) == 2 * ws[|ws| - 1] - secWait
    decreases maxSec - secWait
  {
    var next := Min(maxSec, secWait * 2);
    if next == maxSec {
      assert Waits(secWait, maxSec) == [secWait];
      SumCons(secWait, []);
    } else {
      WaitsDouble(next, maxSec);
      var rest := Waits(next, maxSec);
      assert Waits(secWait, maxSec) == [secWait] + rest;
      SumCons(secWait, rest);
      WaitsDoubleCons(secWait, maxSec, rest);
    }
  }

  lemma SumCons(x: int, rest: seq<int>)
    ensures Sum([x] + rest) == x + Sum(rest)
  {
    assert ([x] + rest)[1..] == rest;
  }

  /** The step of `WaitsDouble`, on the waits as a list: one more wait, doubled,
      in front of waits that already double. */
  lemma WaitsDoubleCons(secWait: int, maxSec: int, rest: seq<int>)
    requires rest != [] && rest[0] == 2 * secWait && 2 * secWait < maxSec && secWait >= 1
    requires forall i :: 0 <= i < |rest| - 1 ==> rest[i + 1] == 2 * rest[i] && 2 * rest[i] < maxSec
    requires forall i :: 0 <= i < |rest| ==> rest[i] >= 2 * secWait
    ensures var ws := [secWait] + rest;
      && (forall i :: 0 <= i < |ws| - 1 ==> ws[i + 1] == 2 * ws[i] && 2 * ws[i] < maxSec)
      && (forall i :: 0 <= i < |ws| ==> ws[i] >= secWait)
      && ws[|ws| - 1] == rest[|rest| - 1]
  {
    var ws := [secWait] + rest;
    forall i | 0 <= i < |ws| - 1
      ensures ws[i + 1] == 2 * ws[i] && 2 * ws[i] < maxSec
    {
      if i > 0 {
        assert ws[i + 1] == rest[i] && ws[i] == rest[i - 1];
      }
    }
  }

  /** The waits are 1, 2, 4, ...: each doubles the one before, every one but the
      last is less than half the ceiling, and the last reaches the ceiling once
      doubled. */
  lemma BackoffDoubles(maxSec: int)
    ensures var ws := Backoff(maxSec);
      && ws[0] == 1
      && (forall i :: 0 <= i < |ws| - 1 ==> ws[i + 1] == 2 * ws[i] && 2 * ws[i] < maxSec)
      && 2 * ws[|ws| - 1] >= maxSec
  {
    WaitsDouble(1, maxSec);
  }

  /** The ceiling itself is never slept: above a ceiling of 1, every wait is
      below it, and the whole backoff sleeps less than twice the ceiling. */
  lemma BackoffBelowCeiling(maxSec: int)
    requires maxSec > 1
    ensures forall w :: w in Backoff(maxSec) ==> 1 <= w < maxSec
    ensures Sum(Backoff(maxSec)) < 2 * maxSec
  {
    WaitsDouble(1, maxSec);
    var ws := Backoff(maxSec);
    var n := |ws|;
    if n > 1 {
      assert ws[n - 1] == 2 * ws[n - 2];
    }
    forall w | w in ws
      ensures 1 <= w < maxSec
    {
      var i :| 0 <= i < n && ws[i] == w;
      if i < n - 1 {
        assert 2 * ws[i] < maxSec;
      }
    }
  }

  /** With a ceiling of 8 the sleeps are 1, 2 and 4; the loop then raises. */
  lemma BackoffOfEight()
    ensures Backoff(8) == [1, 2, 4]
  {
    assert Waits(4, 8) == [4];
    assert Waits(2, 8) == [2, 4];
  }

  /** The number of attempts in a row that fail to open, from the start of the
      script. */
  function FailedOpens(script: seq<bool>): (k: nat)
    ensures k <= |script|
  {
    if script == [] || script[0] then 0 else 1 + FailedOpens(script[1..])
  }

  /** The count stops at the first success: every open before it fails, and
      the one at it, if the script goes that far, succeeds. */
  lemma {:induction false} FirstSuccess(script: seq<bool>)
    ensures forall i :: 0 <= i < FailedOpens(script) ==> !script[i]
    ensures FailedOpens(script) < |script| ==> script[FailedOpens(script)]
  {
    if script != [] && !script[0] {
      FirstSuccess(script[1..]);
    }
  }

  /** Whether an open succeeds before the backoff runs out. */
  predicate Reconnects(script: seq<bool>, maxSec: int)
  {
    FailedOpens(script) < |script| && FailedOpens(script) < |Backoff(maxSec)|
  }

  /** How many release-and-open attempts `reconnect` makes: at least one, and
      never more than there are waits in the backoff. */
  function Attempts(script: seq<bool>, maxSec: int): (n: nat)
    ensures 1 <= n <= |Backoff(maxSec)|
  {
    if Reconnects(script, maxSec) then FailedOpens(script) + 1 else |Backoff(maxSec)|
  }

  /** `n` attempts, each a release followed by an open. */
  function ReleaseOpen(n: nat): seq<HandleCall>
  {
    if n == 0 then [] else ReleaseOpen(n - 1) + [ReleaseCall, OpenCall]
  }

  /** A release opens every run of attempts. */
  lemma ReleaseFirst(before: seq<HandleCall>, k: nat)
    requires k >= 1
    ensures |before + ReleaseOpen(k)| > |before| + 1 && (before + ReleaseOpen(k))[|before|] == ReleaseCall
  {
    ReleaseOpenShape(k);
  }

  lemma PrefixAt<T>(a: seq<T>, b: seq<T>, i: nat)
    requires a <= b && i < |a|
    ensures i < |b| && b[i] == a[i]
  {
  }

  lemma {:induction false} ReleaseOpenShape(n: nat)
    ensures |ReleaseOpen(n)| == 2 * n
    ensures n > 0 ==> ReleaseOpen(n)[0] == ReleaseCall
  {
    if n > 0 {
      ReleaseOpenShape(n - 1);
    }
  }

  function Seconds(ws: seq<int>): seq<real>
  {
    if ws == [] then [] else Seconds(ws[..|ws| - 1]) + [ws[|ws| - 1] as real]
  }

  lemma SecondsSnoc(before: seq<real>, ws: seq<int>, i: nat)
    requires i < |ws|
    ensures before + Seconds(ws[..i]) + [ws[i] as real] == before + Seconds(ws[..i + 1])
  {
    assert ws[..i + 1][..i] == ws[..i];
  }

  lemma ReleaseOpenSnoc(before: seq<HandleCall>, i: nat)
    ensures before + ReleaseOpen(i) + [ReleaseCall] + [OpenCall] == before + ReleaseOpen(i + 1)
  {
  }

  lemma DropOne<T>(s: seq<T>, i: nat)
    ensures Drop(Drop(s, i), 1) == Drop(s, i + 1)
  {
  }

  /** The open of attempt `i` succeeds, no earlier one did: it is the first
      success and the last attempt. */
  lemma OpenSucceeds(script: seq<bool>, maxSec: int, i: nat)
    requires i < |Backoff(maxSec)| && (FailedOpens(script) < |script| ==> i <= FailedOpens(script))
    requires Drop(script, i) != [] && Drop(script, i)[0]
    ensures FailedOpens(script) == i && Reconnects(script, maxSec) && Attempts(script, maxSec) == i + 1
  {
    FirstSuccess(script);
    assert script[i];
  }

  /** The open of attempt `i` fails: the first success, if any, comes later, and
      when no wait is left the reconnection gives up after `i + 1` attempts. */
  lemma OpenFails(script: seq<bool>, maxSec: int, i: nat)
    requires i < |Backoff(maxSec)| && (FailedOpens(script) < |script| ==> i <= FailedOpens(script))
    requires !(Drop(script, i) != [] && Drop(script, i)[0])
    ensures FailedOpens(script) < |script| ==> i + 1 <= FailedOpens(script)
    ensures i + 1 == |Backoff(maxSec)| ==> !Reconnects(script, maxSec) && Attempts(script, maxSec) == i + 1
  {
    FirstSuccess(script);
    if i < |script| {
      assert !script[i];
    }
  }

  /** One more wait follows exactly when the doubled wait stays below the
      ceiling, and it is that doubled wait. */
  lemma BackoffStep(maxSec: int, i: nat)
    requires i < |Backoff(maxSec)|
    ensures var ws := Backoff(maxSec);
      && (Min(maxSec, ws[i] * 2) == maxSec <==> i + 1 == |ws|)
      && (i + 1 < |ws| ==> ws[i + 1] == Min(maxSec, ws[i] * 2))
  {
    BackoffDoubles(maxSec);
  }

  /** What `reconnect` sleeps for a script of open results: every wait before
      the first successful open, or the whole backoff when none succeeds in time. */
  function ReconnectSleeps(script: seq<bool>, maxSec: int): seq<real>
  {
    Seconds(Backoff(maxSec)[..if Reconnects(script, maxSec) then FailedOpens(script) else |Backoff(maxSec)|])
  }

  /** What `capture` returns, from the handle's state before it: the first
      read's frame, or after a failed read and a reconnect the second read's.
      A zero rate divides by zero in the throttle, a reconnect that gives up
      raises ConnectionError, and a second failed read leaves `frame` as None,
      whose `copy` raises AttributeError. */
  function CaptureResult(isOpened: bool, results: seq<Option<Frame>>, opens: seq<bool>, maxFps: real, maxSec: int): Result<Frame>
  {
    if maxFps == 0.0 then Err(ZeroDivisionError)
    else if NextRead(isOpened, results).Some? then Ok(NextRead(isOpened, results).value)
    else if !Reconnects(opens, maxSec) then Err(ConnectionError)
    else if NextRead(true, AfterRead(isOpened, results)).None? then Err(AttributeError)
    else Ok(NextRead(true, AfterRead(isOpened, results)).value)
  }

  /** What `capture` sleeps: the throttle's delay, then the reconnect's waits if
      the first read failed; nothing when the throttle divides by zero. */
  function CaptureSleeps(isOpened: bool, results: seq<Option<Frame>>, opens: seq<bool>, lastCapture: real, maxFps: real, now: real, maxSec: int): seq<real>
  {
    if maxFps == 0.0 then []
    else [ThrottleDelay(lastCapture, maxFps, now)]
         + (if NextRead(isOpened, results).None? then ReconnectSleeps(opens, maxSec) else [])
  }

  /** The open results left when `connect` reaches its capture; None when the
      first open fails and the reconnect gives up. */
  function OpensAfterConnect(opens: seq<bool>, maxSec: int): Option<seq<bool>>
  {
    if opens != [] && opens[0] then Some(opens[1..])
    else if Reconnects(Drop(opens, 1), maxSec) then Some(Drop(Drop(opens, 1), Attempts(Drop(opens, 1), maxSec)))
    else None
  }

  /** What the handle holds between calls: whether it is open, and the read and
      open results still to come. */
  datatype HandleState = HandleState(isOpened: bool, readResults: seq<Option<Frame>>, openResults: seq<bool>)

  /** The handle after `capture`: untouched when the throttle divides by zero;
      one read further on after a good read; after a failed read, the reconnect
      has used up its attempts' opens and, only when it reopened the handle, the
      second read has used up one more read result. */
  function HandleAfterCapture(isOpened: bool, results: seq<Option<Frame>>, opens: seq<bool>, maxFps: real, maxSec: int): HandleState
  {
    if maxFps == 0.0 then HandleState(isOpened, results, opens)
    else if NextRead(isOpened, results).Some? then HandleState(isOpened, AfterRead(isOpened, results), opens)
    else
      var left := Drop(opens, Attempts(opens, maxSec));
      if Reconnects(opens, maxSec) then HandleState(true, AfterRead(true, AfterRead(isOpened, results)), left)
      else HandleState(false, AfterRead(isOpened, results), left)
  }

  /** The calls `capture` makes on the handle: none when the throttle divides by
      zero; a read; after a failed read the reconnect's attempts and, only if it
      reopened the handle, one more read. */
  function CaptureCalls(isOpened: bool, results: seq<Option<Frame>>, opens: seq<bool>, maxFps: real, maxSec: int): seq<HandleCall>
  {
    if maxFps == 0.0 then []
    else if NextRead(isOpened, results).Some? then [ReadCall]
    else [ReadCall] + ReleaseOpen(Attempts(opens, maxSec)) + (if Reconnects(opens, maxSec) then [ReadCall] else [])
  }

  /** The calls of `connect` before its capture: the open, then the reconnect's
      attempts when it failed. */
  function OpenCalls(opens: seq<bool>, maxSec: int): seq<HandleCall>
  {
    [OpenCall] + (if opens != [] && opens[0] then [] else ReleaseOpen(Attempts(Drop(opens, 1), maxSec)))
  }

  /** Two captures in a row on an open handle whose next two reads succeed
      return those frames in order, and leave the handle open with the opens
      untouched. */
  lemma SuccessiveCaptures(f: Frame, g: Frame, later: seq<Option<Frame>>, opens: seq<bool>, maxFps: real, maxSec: int)
    requires maxFps != 0.0
    ensures var h := HandleAfterCapture(true, [Some(f), Some(g)] + later, opens, maxFps, maxSec);
      && CaptureResult(true, [Some(f), Some(g)] + later, opens, maxFps, maxSec) == Ok(f)
      && h == HandleState(true, [Some(g)] + later, opens)
      && CaptureResult(h.isOpened, h.readResults, h.openResults, maxFps, maxSec) == Ok(g)
      && HandleAfterCapture(h.isOpened, h.readResults, h.openResults, maxFps, maxSec) == HandleState(true, later, opens)
  {
    assert ([Some(f), Some(g)] + later)[1..] == [Some(g)] + later;
    assert ([Some(g)] + later)[1..] == later;
  }

  /** What `connect` sleeps before its capture: the reconnect's waits when the
      first open fails. */
  function OpenSleeps(opens: seq<bool>, maxSec: int): seq<real>
  {
    if opens != [] && opens[0] then [] else ReconnectSleeps(Drop(opens, 1), maxSec)
  }

  // ---------------------------------------------------------------------------
  // The reader

  class StreamReader {
    const buffer: FrameBuffer<Frame>
    const maxFps: real
    var lastCapture: real
    const cap: VideoCapture
    /** The ceiling `connect` and `capture` pass to `reconnect`: its default,
        `DefaultMaxSec`. */
    const reconnectMaxSec: int
    /** What the reader slept, in seconds, in order. */
    ghost var sleeps: seq<real>

    ghost predicate Valid()
      reads this, buffer, buffer.buffer
    {
      buffer.Valid()
    }

    /** `__init__` up to, not including, its call of `connect`; `now` is the clock. */
    constructor (buffer: FrameBuffer<Frame>, maxFps: real, cap: VideoCapture, now: real)
      ensures this.buffer == buffer && this.maxFps == maxFps && this.cap == cap
      ensures lastCapture == now && sleeps == [] && reconnectMaxSec == DefaultMaxSec
    {
      this.buffer := buffer;
      this.maxFps := maxFps;
      this.cap := cap;
      reconnectMaxSec := DefaultMaxSec;
      lastCapture := now;
      sleeps := [];
    }

    /** The initial connection: one open, a reconnect only if it failed, then one
        capture. `now` and `resumed` are the clock before and after its throttle.
        A failed open whose reconnect gives up raises ConnectionError before any
        capture; otherwise the outcome is that of the capture, on the open
        results the opening left. */
    method Connect(now: real, resumed: real) returns (o: Outcome)
      requires Valid()
      modifies this, cap, buffer.buffer
      ensures Valid()
      ensures OpensAfterConnect(old(cap.openResults), reconnectMaxSec).None? ==>
        && o == Fail(ConnectionError) && lastCapture == old(lastCapture)
        && sleeps == old(sleeps) + OpenSleeps(old(cap.openResults), reconnectMaxSec)
      ensures var after := OpensAfterConnect(old(cap.openResults), reconnectMaxSec);
        after.Some? ==>
          var r := CaptureResult(true, old(cap.readResults), after.value, maxFps, reconnectMaxSec);
          && o == (if r.Ok? then Pass else Fail(r.error))
          && (r.Ok? ==> buffer.buffer.items == Slide(old(buffer.buffer.items), buffer.bufferSize, r.value))
          && lastCapture == (if maxFps == 0.0 then old(lastCapture) else resumed)
          && sleeps == old(sleeps) + OpenSleeps(old(cap.openResults), reconnectMaxSec)
                       + CaptureSleeps(true, old(cap.readResults), after.value, old(lastCapture), maxFps, now, reconnectMaxSec)
      ensures o.Fail? ==> buffer.buffer.items == old(buffer.buffer.items)
      ensures var after := OpensAfterConnect(old(cap.openResults), reconnectMaxSec);
        cap.calls == old(cap.calls) + OpenCalls(old(cap.openResults), reconnectMaxSec)
                     + (if after.Some? then CaptureCalls(true, old(cap.readResults), after.value, maxFps, reconnectMaxSec) else [])
      ensures var rest := Drop(old(cap.openResults), 1);
        OpensAfterConnect(old(cap.openResults), reconnectMaxSec).None? ==>
          HandleState(cap.isOpened, cap.readResults, cap.openResults)
          == HandleState(false, old(cap.readResults), Drop(rest, Attempts(rest, reconnectMaxSec)))
      ensures var after := OpensAfterConnect(old(cap.openResults), reconnectMaxSec);
        after.Some? ==>
          HandleState(cap.isOpened, cap.readResults, cap.openResults)
          == HandleAfterCapture(true, old(cap.readResults), after.value, maxFps, reconnectMaxSec)
      ensures |cap.calls| > |old(cap.calls)| && cap.calls[|old(cap.calls)|] == OpenCall
      ensures old(cap.openResults) != [] && old(cap.openResults)[0] && maxFps != 0.0
        ==> |cap.calls| > |old(cap.calls)| + 1 && cap.calls[|old(cap.calls)| + 1] == ReadCall
      ensures !(old(cap.openResults) != [] && old(cap.openResults)[0])
        ==> |cap.calls| > |old(cap.calls)| + 1 && cap.calls[|old(cap.calls)| + 1] == ReleaseCall
    {
      ghost var n := |cap.calls|;
      ghost var opens, before := cap.openResults, sleeps;
      cap.Open();
      ghost var openedFirst, afterOpen := cap.isOpened, cap.calls;
      if !cap.isOpened {
        var rc := Reconnect(reconnectMaxSec);
        PrefixAt(afterOpen, cap.calls, n);
        AppendAssoc(old(cap.calls), [OpenCall], ReleaseOpen(Attempts(Drop(opens, 1), reconnectMaxSec)));
        if rc.Fail? {
          return rc;
        }
      }
      assert cap.calls == old(cap.calls) + OpenCalls(opens, reconnectMaxSec);
      assert OpensAfterConnect(opens, reconnectMaxSec) == Some(cap.openResults);
      assert sleeps == before + OpenSleeps(opens, reconnectMaxSec);
      assert cap.isOpened && cap.readResults == old(cap.readResults);
      ghost var mid := cap.calls;
      var r := Capture(now, resumed);
      PrefixAt(mid, cap.calls, n);
      if !openedFirst {
        PrefixAt(mid, cap.calls, n + 1);
      }
      if r.Err? {
        return Fail(r.error);
      }
      return Pass;
    }

    /** Release and reopen until an open succeeds, sleeping 1, 2, 4, ... seconds
        between attempts; raise ConnectionError once the doubled wait reaches
        `maxSec`, without sleeping it. */
    method Reconnect(maxSec: int) returns (o: Outcome)
      requires Valid()
      modifies this, cap
      ensures Valid() && lastCapture == old(lastCapture)
      ensures o.Pass? <==> Reconnects(old(cap.openResults), maxSec)
      ensures o.Fail? ==> o.error == ConnectionError
      ensures cap.isOpened <==> o.Pass?
      ensures cap.calls == old(cap.calls) + ReleaseOpen(Attempts(old(cap.openResults), maxSec))
      ensures |cap.calls| > |old(cap.calls)| && cap.calls[|old(cap.calls)|] == ReleaseCall
      ensures cap.openResults == Drop(old(cap.openResults), Attempts(old(cap.openResults), maxSec))
      ensures cap.readResults == old(cap.readResults)
      ensures sleeps == old(sleeps) + ReconnectSleeps(old(cap.openResults), maxSec)
    {
      ghost var script := cap.openResults;
      ghost var ws := Backoff(maxSec);
      ghost var i := 0;
      var secWait := 1;
      while true
        invariant 0 <= i < |ws| && secWait == ws[i]
        invariant FailedOpens(script) < |script| ==> i <= FailedOpens(script)
        invariant cap.calls == old(cap.calls) + ReleaseOpen(i)
        invariant cap.openResults == Drop(script, i)
        invariant cap.readResults == old(cap.readResults)
        invariant sleeps == old(sleeps) + Seconds(ws[..i])
        invariant lastCapture == old(lastCapture)
        decreases |ws| - i
      {
        cap.Release();
        cap.Open();
        ReleaseOpenSnoc(old(cap.calls), i);
        DropOne(script, i);
        ReleaseFirst(old(cap.calls), i + 1);
        if cap.isOpened {
          OpenSucceeds(script, maxSec, i);
          return Pass;
        }
        OpenFails(script, maxSec, i);
        sleeps := sleeps + [secWait as real];
        SecondsSnoc(old(sleeps), ws, i);
        BackoffStep(maxSec, i);
        secWait := Min(maxSec, secWait * 2);
        i := i + 1;
        if secWait == maxSec {
          return Fail(ConnectionError);
        }
      }
    }

    method Disconnect()
      modifies cap
      ensures !cap.isOpened && cap.calls == old(cap.calls) + [ReleaseCall]
      ensures cap.openResults == old(cap.openResults) && cap.readResults == old(cap.readResults)
    {
      cap.Release();
    }

    /** The most recently captured frame; IndexError before the first capture. */
    function GetFrame(): (r: Result<Frame>)
      reads this, buffer, buffer.buffer
      ensures r.Ok? <==> buffer.buffer.items != []
      ensures r.Ok? ==> r.value == buffer.buffer.items[|buffer.buffer.items| - 1]
      ensures r.Err? ==> r.error == IndexError
    {
      buffer.GetItem(-1)
    }

    /** Sleep out the rest of the frame period, then record the clock. */
    method Wait(now: real, resumed: real) returns (o: Outcome)
      modifies this
      ensures o.Fail? <==> maxFps == 0.0
      ensures o.Fail? ==> o.error == ZeroDivisionError
      ensures o.Fail? ==> sleeps == old(sleeps) && lastCapture == old(lastCapture)
      ensures o.Pass? ==> sleeps == old(sleeps) + [ThrottleDelay(old(lastCapture), maxFps, now)]
      ensures o.Pass? ==> lastCapture == resumed
    {
      if maxFps == 0.0 {
        return Fail(ZeroDivisionError);
      }
      var secs := Max(lastCapture + 1.0 / maxFps - now, 0.0);
      sleeps := sleeps + [secs];
      lastCapture := resumed;
      return Pass;
    }

    /** Throttle, read; on a failed read reconnect and read exactly once more; copy
        the frame into the history and return it. */
    method Capture(now: real, resumed: real) returns (r: Result<Frame>)
      requires Valid()
      modifies this, cap, buffer.buffer
      ensures Valid()
      ensures r == CaptureResult(old(cap.isOpened), old(cap.readResults), old(cap.openResults), maxFps, reconnectMaxSec)
      ensures maxFps == 0.0 ==> sleeps == old(sleeps) && lastCapture == old(lastCapture)
      ensures maxFps != 0.0 ==> lastCapture == resumed
      ensures sleeps == old(sleeps) + CaptureSleeps(old(cap.isOpened), old(cap.readResults), old(cap.openResults), old(lastCapture), maxFps, now, reconnectMaxSec)
      ensures cap.calls == old(cap.calls) + CaptureCalls(old(cap.isOpened), old(cap.readResults), old(cap.openResults), maxFps, reconnectMaxSec)
      ensures HandleState(cap.isOpened, cap.readResults, cap.openResults)
        == HandleAfterCapture(old(cap.isOpened), old(cap.readResults), old(cap.openResults), maxFps, reconnectMaxSec)
      ensures old(cap.calls) <= cap.calls
      ensures maxFps != 0.0 ==> |cap.calls| > |old(cap.calls)| && cap.calls[|old(cap.calls)|] == ReadCall
      ensures r.Ok? ==> buffer.buffer.items == Slide(old(buffer.buffer.items), buffer.bufferSize, r.value)
      ensures r.Err? ==> buffer.buffer.items == old(buffer.buffer.items)
    {
      ghost var slept := sleeps + CaptureSleeps(cap.isOpened, cap.readResults, cap.openResults, lastCapture, maxFps, now, reconnectMaxSec);
      ghost var result := CaptureResult(cap.isOpened, cap.readResults, cap.openResults, maxFps, reconnectMaxSec);
      ghost var handle := HandleAfterCapture(cap.isOpened, cap.readResults, cap.openResults, maxFps, reconnectMaxSec);
      ghost var called := CaptureCalls(cap.isOpened, cap.readResults, cap.openResults, maxFps, reconnectMaxSec);
      var w := Wait(now, resumed);
      if w.Fail? {
        return Err(w.error);
      }
      var frame := cap.Read();
      if frame.None? {
        var rc := Reconnect(reconnectMaxSec);
        AppendAssoc(old(sleeps), [ThrottleDelay(old(lastCapture), maxFps, now)], ReconnectSleeps(old(cap.openResults), reconnectMaxSec));
        assert sleeps == slept;
        AppendAssoc(old(cap.calls), [ReadCall], ReleaseOpen(Attempts(old(cap.openResults), reconnectMaxSec)));
        if rc.Fail? {
          assert result == Err(ConnectionError);
          assert called == [ReadCall] + ReleaseOpen(Attempts(old(cap.openResults), reconnectMaxSec));
          assert HandleState(cap.isOpened, cap.readResults, cap.openResults) == handle;
          return Err(rc.error);
        }
        frame := cap.Read();
        AppendAssoc(old(cap.calls), [ReadCall] + ReleaseOpen(Attempts(old(cap.openResults), reconnectMaxSec)), [ReadCall]);
        assert cap.calls == old(cap.calls) + called;
        assert HandleState(cap.isOpened, cap.readResults, cap.openResults) == handle;
        assert result == (if frame.None? then Err(AttributeError) else Ok(frame.value));
      } else {
        assert result == Ok(frame.value) && sleeps == slept;
        assert HandleState(cap.isOpened, cap.readResults, cap.openResults) == handle;
      }
      if frame.None? {
        return Err(AttributeError);
      }
      buffer.AddFrame(frame.value);
      return Ok(frame.value);
    }
  }
}
