/** Publish/subscribe: a list of subscribed functions called in registration
    order. `BasicHandler` calls them at once; `ThreadHandler` queues the event and
    a worker thread dispatches it later. A subscriber is opaque: the model knows
    only which function it is and for which payloads it raises. */
module EventHandler {
  import opened Errors
  import opened Window

  /** A subscribed function. `id` is its identity, so the same function
      subscribed twice appears twice with the same `id`. */
  datatype Subscriber<!P> = Subscriber(id: nat, raises: P -> bool)

  /** One call of a subscriber: its position in the list and the payload. */
  datatype Call<P> = Call(index: nat, payload: P)

  /** Some subscriber raises for the payload. */
  predicate Raises<P>(subs: seq<Subscriber<P>>, p: P)
  {
    exists i :: 0 <= i < |subs| && subs[i].raises(p)
  }

  /** The position of the first subscriber that raises for the payload, or the
      length of the list when none does. */
  function FirstRaising<P>(subs: seq<Subscriber<P>>, p: P): (k: nat)
    ensures k <= |subs|
    ensures forall i :: 0 <= i < k ==> !subs[i].raises(p)
    ensures k < |subs| ==> subs[k].raises(p)
    ensures k == |subs| <==> !Raises(subs, p)
  {
    if subs == [] then 0
    else if subs[0].raises(p) then 0
    else 1 + FirstRaising(subs[1..], p)
  }

  /** The calls one event makes: every subscriber in order, up to and including
      the first one that raises, each with the same payload. */
  function Dispatched<P>(subs: seq<Subscriber<P>>, p: P): seq<Call<P>>
  {
    var k := FirstRaising(subs, p);
    seq(if k < |subs| then k + 1 else |subs|, i requires 0 <= i => Call(i, p))
  }

  /** `for fn in self.subscribers: fn(*args)`: the calls made, and whether a
      subscriber raised, which ends the loop. */
  method CallAll<P>(subs: seq<Subscriber<P>>, p: P) returns (calls: seq<Call<P>>, raised: bool)
    ensures calls == Dispatched(subs, p)
    ensures raised <==> Raises(subs, p)
  {
    calls := [];
    for i := 0 to |subs|
      invariant calls == seq(i, j requires 0 <= j => Call(j, p))
      invariant forall j :: 0 <= j < i ==> !subs[j].raises(p)
    {
      calls := calls + [Call(i, p)];
      if subs[i].raises(p) {
        assert FirstRaising(subs, p) == i;
        return calls, true;
      }
    }
    assert FirstRaising(subs, p) == |subs|;
    return calls, false;
  }

  /** When no subscriber raises, each one is called exactly once, in
      registration order, with the payload. */
  lemma AllCalledInOrder<P>(subs: seq<Subscriber<P>>, p: P)
    requires !Raises(subs, p)
    ensures |Dispatched(subs, p)| == |subs|
    ensures forall i :: 0 <= i < |subs| ==> Dispatched(subs, p)[i] == Call(i, p)
  {
  }

  /** A subscriber that raises stops the later ones: no call reaches a position
      after the first raising subscriber. */
  lemma RaiseStopsLater<P>(subs: seq<Subscriber<P>>, p: P, k: nat)
    requires k < |subs| && subs[k].raises(p)
    ensures |Dispatched(subs, p)| <= k + 1
    ensures forall c :: c in Dispatched(subs, p) ==> c.index <= k
  {
  }

  /** With no subscribers, an event calls nothing. */
  lemma NoSubscribersNoCalls<P>(p: P)
    ensures Dispatched([], p) == []
  {
  }

  /** Subscribing appends: after `subscribe(fn)` an event calls what it called
      before, then `fn` last, unless an earlier subscriber raised. */
  lemma {:induction false} SubscribeAppends<P>(subs: seq<Subscriber<P>>, s: Subscriber<P>, p: P)
    ensures Dispatched(subs + [s], p)
      == Dispatched(subs, p) + (if Raises(subs, p) then [] else [Call(|subs|, p)])
  {
    FirstRaisingExtends(subs, s, p);
  }

  lemma {:induction false} FirstRaisingExtends<P>(subs: seq<Subscriber<P>>, s: Subscriber<P>, p: P)
    ensures Raises(subs, p) ==> FirstRaising(subs + [s], p) == FirstRaising(subs, p)
    ensures !Raises(subs, p) ==> FirstRaising(subs + [s], p) >= |subs|
  {
    if subs == [] {
      assert !Raises(subs, p);
    } else {
      assert (subs + [s])[0] == subs[0];
      assert (subs + [s])[1..] == subs[1..] + [s];
      if !subs[0].raises(p) {
        FirstRaisingExtends(subs[1..], s, p);
        assert FirstRaising(subs + [s], p) == 1 + FirstRaising(subs[1..] + [s], p);
      }
    }
  }

  /** How many entries of `subs` are the function `id`. */
  function Occurrences<P>(subs: seq<Subscriber<P>>, id: nat): nat
  {
    if subs == [] then 0
    else Occurrences(subs[..|subs| - 1], id) + (if subs[|subs| - 1].id == id then 1 else 0)
  }

  /** How many of the calls went to the function `id`. */
  function CallsTo<P>(subs: seq<Subscriber<P>>, calls: seq<Call<P>>, id: nat): nat
  {
    if calls == [] then 0
    else
      var c := calls[|calls| - 1];
      CallsTo(subs, calls[..|calls| - 1], id) + (if c.index < |subs| && subs[c.index].id == id then 1 else 0)
  }

  /** Subscriptions are not de-duplicated: when no subscriber raises, a function
      is called once per time it was subscribed. */
  lemma {:induction false} CalledOncePerSubscription<P>(subs: seq<Subscriber<P>>, p: P, id: nat)
    requires !Raises(subs, p)
    ensures CallsTo(subs, Dispatched(subs, p), id) == Occurrences(subs, id)
  {
    if subs != [] {
      var init := subs[..|subs| - 1];
      var s := subs[|subs| - 1];
      assert subs == init + [s];
      assert !Raises(init, p) by {
        forall i | 0 <= i < |init| ensures !init[i].raises(p) {
          assert init[i] == subs[i];
        }
      }
      SubscribeAppends(init, s, p);
      CalledOncePerSubscription(init, p, id);
      CallsToWider(init, s, Dispatched(init, p), id);
    }
  }

  /** Counting calls whose positions lie in `subs` is not changed by appending
      another subscriber. */
  lemma {:induction false} CallsToWider<P>(subs: seq<Subscriber<P>>, s: Subscriber<P>, calls: seq<Call<P>>, id: nat)
    requires forall c :: c in calls ==> c.index < |subs|
    ensures CallsTo(subs + [s], calls, id) == CallsTo(subs, calls, id)
  {
    if calls != [] {
      var c := calls[|calls| - 1];
      assert c in calls;
      assert (subs + [s])[c.index] == subs[c.index];
      var init := calls[..|calls| - 1];
      assert forall d :: d in init ==> d in calls;
      CallsToWider(subs, s, init, id);
    }
  }

  /** Everything a worker thread that runs until its queue is empty calls: each
      event in FIFO order, until a subscriber raises and the thread dies. */
  function Drain<P>(subs: seq<Subscriber<P>>, queue: seq<P>): seq<Call<P>>
  {
    if queue == [] then []
    else Dispatched(subs, queue[0]) + (if Raises(subs, queue[0]) then [] else Drain(subs, queue[1..]))
  }

  /** FIFO: when no earlier event makes a subscriber raise, every call for
      earlier events comes before any call for a later one. */
  lemma {:induction false} DrainInOrder<P>(subs: seq<Subscriber<P>>, a: seq<P>, b: seq<P>)
    requires forall i :: 0 <= i < |a| ==> !Raises(subs, a[i])
    ensures Drain(subs, a + b) == Drain(subs, a) + Drain(subs, b)
  {
    if a == [] {
      assert a + b == b;
    } else {
      assert (a + b)[0] == a[0];
      assert (a + b)[1..] == a[1..] + b;
      DrainInOrder(subs, a[1..], b);
    }
  }

  /** No event of the list makes a subscriber raise. */
  predicate Calm<P>(subs: seq<Subscriber<P>>, events: seq<P>)
  {
    forall j :: 0 <= j < |events| ==> !Raises(subs, events[j])
  }

  /** The `n`-th event is the first that makes a subscriber raise. */
  predicate FirstRaiseAt<P>(subs: seq<Subscriber<P>>, events: seq<P>, n: nat)
  {
    0 < n <= |events| && Calm(subs, events[..n - 1]) && Raises(subs, events[n - 1])
  }

  /** One more event reached by a live worker: its calls follow the earlier
      ones, and the worker stays alive iff it raises nothing. */
  lemma DrainSnoc<P>(subs: seq<Subscriber<P>>, q: seq<P>, k: nat)
    requires k < |q| && Calm(subs, q[..k])
    ensures Drain(subs, q[..k + 1]) == Drain(subs, q[..k]) + Dispatched(subs, q[k])
    ensures Calm(subs, q[..k + 1]) <==> !Raises(subs, q[k])
  {
    var init := q[..k];
    assert q[..k + 1] == init + [q[k]];
    DrainInOrder(subs, init, [q[k]]);
    assert Drain(subs, [q[k]]) == Dispatched(subs, q[k]) by {
      assert [q[k]][1..] == [];
    }
    CalmSnoc(subs, init, q[k]);
  }

  /** Appending an event keeps a list calm exactly when that event does not raise. */
  lemma CalmSnoc<P>(subs: seq<Subscriber<P>>, events: seq<P>, p: P)
    ensures Calm(subs, events + [p]) <==> Calm(subs, events) && !Raises(subs, p)
  {
    var s := events + [p];
    assert s[|events|] == p;
    if Calm(subs, events) && !Raises(subs, p) {
      forall j | 0 <= j < |s|
        ensures !Raises(subs, s[j])
      {
        if j < |events| {
          assert s[j] == events[j];
        }
      }
    }
    if Calm(subs, s) {
      forall j | 0 <= j < |events|
        ensures !Raises(subs, events[j])
      {
        assert s[j] == events[j];
      }
    }
  }


  /** Once an event makes a subscriber raise, the worker is dead: nothing
      queued after it is ever dispatched. */
  lemma {:induction false} DrainStopsAt<P>(subs: seq<Subscriber<P>>, a: seq<P>, b: seq<P>, j: nat)
    requires j < |a| && Raises(subs, a[j])
    ensures Drain(subs, a + b) == Drain(subs, a)
  {
    assert (a + b)[0] == a[0];
    if !Raises(subs, a[0]) {
      assert (a + b)[1..] == a[1..] + b;
      DrainStopsAt(subs, a[1..], b, j - 1);
    }
  }

  /** A worker that died on the `k`-th event made the same calls, and is as
      dead, however much further the queue is read. */
  lemma DrainStopsAtRaise<P>(subs: seq<Subscriber<P>>, q: seq<P>, k: nat, m: nat)
    requires 0 < k <= m <= |q| && Raises(subs, q[k - 1])
    ensures Drain(subs, q[..m]) == Drain(subs, q[..k])
    ensures !Calm(subs, q[..m])
  {
    assert q[..m] == q[..k] + q[k..m];
    DrainStopsAt(subs, q[..k], q[k..m], k - 1);
    assert q[..m][k - 1] == q[k - 1];
  }

  /** A worker that started with queue `q` and trace `start` has taken the
      first `k` events off the queue, made the calls `Drain` gives for them,
      and is alive exactly when none of them raised. */
  ghost predicate Progress<P>(subs: seq<Subscriber<P>>, q: seq<P>, k: nat, start: seq<Call<P>>, trace: seq<Call<P>>, alive: bool)
  {
    && k <= |q|
    && trace == start + Drain(subs, q[..k])
    && (alive ==> Calm(subs, q[..k]))
    && (!alive ==> FirstRaiseAt(subs, q, k))
  }

  /** A live worker delivering the next event. */
  lemma RunAdvance<P>(subs: seq<Subscriber<P>>, q: seq<P>, k: nat, start: seq<Call<P>>, before: seq<Call<P>>, after: seq<Call<P>>)
    requires k < |q| && Progress(subs, q, k, start, before, true)
    requires after == before + Dispatched(subs, q[k])
    ensures Progress(subs, q, k + 1, start, after, !Raises(subs, q[k]))
  {
    DrainSnoc(subs, q, k);
    AppendAssoc(start, Drain(subs, q[..k]), Dispatched(subs, q[k]));
    assert q[..k + 1 - 1] == q[..k];
  }

  /** Where a worker stops after at most `m` events: at the first that raised,
      or alive after exactly `m`. */
  lemma RunStops<P>(subs: seq<Subscriber<P>>, q: seq<P>, k: nat, m: nat, start: seq<Call<P>>, trace: seq<Call<P>>, alive: bool)
    requires Progress(subs, q, k, start, trace, alive) && k <= m <= |q|
    requires alive ==> k == m
    ensures trace == start + Drain(subs, q[..m])
    ensures alive <==> Calm(subs, q[..m])
    ensures !alive ==> FirstRaiseAt(subs, q, k)
  {
    if !alive {
      DrainStopsAtRaise(subs, q, k, m);
    }
  }

  /** The handler that calls its subscribers in the caller's thread. It models
      both `Eventhandler.BasicHandler` and its copy in the detector package. */
  class BasicHandler<P> {
    var subscribers: seq<Subscriber<P>>
    /** Every subscriber call made so far. */
    ghost var trace: seq<Call<P>>

    constructor ()
      ensures subscribers == [] && trace == []
    {
      subscribers := [];
      trace := [];
    }

    /** Append `fn`, even when it is already subscribed. */
    method Subscribe(fn: Subscriber<P>)
      modifies this
      ensures subscribers == old(subscribers) + [fn] && trace == old(trace)
    {
      subscribers := subscribers + [fn];
    }

    /** Call every subscriber with the payload, in order; a raising subscriber
        propagates its exception and the rest are not called. */
    method FireEvent(p: P) returns (o: Outcome)
      modifies this
      ensures subscribers == old(subscribers)
      ensures trace == old(trace) + Dispatched(subscribers, p)
      ensures o.Pass? <==> !Raises(subscribers, p)
      ensures o.Fail? ==> o.error == SubscriberRaised
    {
      var calls, raised := CallAll(subscribers, p);
      trace := trace + calls;
      o := if raised then Fail(SubscriberRaised) else Pass;
    }
  }

  /** The handler whose events wait in a queue for a worker thread. `alive`
      is false once a subscriber has raised in the worker, which ends the
      thread: events still queued are never delivered. */
  class ThreadHandler<P> {
    var subscribers: seq<Subscriber<P>>
    var inputQueue: seq<P>
    var alive: bool
    /** Every subscriber call the worker has made so far. */
    ghost var trace: seq<Call<P>>

    constructor ()
      ensures subscribers == [] && inputQueue == [] && alive && trace == []
    {
      subscribers := [];
      inputQueue := [];
      alive := true;
      trace := [];
    }

    method Subscribe(fn: Subscriber<P>)
      modifies this
      ensures subscribers == old(subscribers) + [fn]
      ensures inputQueue == old(inputQueue) && alive == old(alive) && trace == old(trace)
    {
      subscribers := subscribers + [fn];
    }

    /** Only enqueue the payload at the tail; no subscriber is called. */
    method FireEvent(p: P)
      modifies this
      ensures inputQueue == old(inputQueue) + [p]
      ensures subscribers == old(subscribers) && alive == old(alive) && trace == old(trace)
    {
      inputQueue := inputQueue + [p];
    }

    /** One pass of the worker loop: on an empty queue (or a dead thread)
        nothing happens; otherwise the head is removed and dispatched to every
        subscriber in order. */
    method RunStep() returns (delivered: Option<P>)
      modifies this
      ensures subscribers == old(subscribers)
      ensures !old(alive) || old(inputQueue) == [] ==>
        delivered == None && inputQueue == old(inputQueue) && alive == old(alive) && trace == old(trace)
      ensures old(alive) && old(inputQueue) != [] ==>
        && delivered == Some(old(inputQueue)[0])
        && inputQueue == old(inputQueue)[1..]
        && trace == old(trace) + Dispatched(subscribers, old(inputQueue)[0])
        && (alive <==> !Raises(subscribers, old(inputQueue)[0]))
    {
      if !alive || inputQueue == [] {
        return None;
      }
      var p := inputQueue[0];
      inputQueue := inputQueue[1..];
      var calls, raised := CallAll(subscribers, p);
      trace := trace + calls;
      alive := !raised;
      return Some(p);
    }

    /** The first `steps` passes of the worker loop `run`, with no event fired
        meanwhile: the worker dispatches the queued events in FIFO order until
        one makes a subscriber raise, and the calls it makes are `Drain` of the
        events it reached. `reached` counts the events it took off the queue:
        all it was given passes for, or up to and including the first that
        raised. A dead worker does nothing. */
    method Run(steps: nat) returns (ghost reached: nat)
      modifies this
      ensures subscribers == old(subscribers)
      ensures old(alive) ==> trace == old(trace) + Drain(subscribers, old(inputQueue)[..Min(steps, |old(inputQueue)|)])
      ensures alive <==> old(alive) && Calm(subscribers, old(inputQueue)[..Min(steps, |old(inputQueue)|)])
      ensures reached <= Min(steps, |old(inputQueue)|) && inputQueue == old(inputQueue)[reached..]
      ensures old(alive) && alive ==> reached == Min(steps, |old(inputQueue)|)
      ensures old(alive) && !alive ==> FirstRaiseAt(subscribers, old(inputQueue), reached)
      ensures !old(alive) ==> reached == 0 && trace == old(trace)
    {
      reached := 0;
      ghost var q := inputQueue;
      if !alive {
        assert q[reached..] == q;
        return;
      }
      var i := 0;
      // Passes over an empty queue, or after the worker died, change nothing.
      while i < steps && alive && inputQueue != []
        invariant reached == i && reached <= Min(steps, |q|)
        invariant subscribers == old(subscribers) && inputQueue == q[reached..]
        invariant Progress(subscribers, q, reached, old(trace), trace, alive)
      {
        ghost var before := trace;
        var delivered := RunStep();
        assert q[reached..][0] == q[reached];
        RunAdvance(subscribers, q, reached, old(trace), before, trace);
        reached := reached + 1;
        i := i + 1;
      }
      assert |inputQueue| == |q| - reached;
      RunStops(subscribers, q, reached, Min(steps, |q|), old(trace), trace, alive);
    }
  }
}
