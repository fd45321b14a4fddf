/** The callback queue both loaders keep around an asynchronous glTF fetch:
    `load(onLoaded)` runs the callback at once when the model is already
    there and queues it otherwise; a successful fetch runs the queue in
    order and empties it; a failed fetch changes nothing. */
module Loading {
  import opened Wrappers

  /** A callback, by identity. */
  type CallbackId = nat

  datatype Queue = Queue(isLoaded: bool, callbacks: seq<CallbackId>)

  const Initial := Queue(false, [])

  /** A `load` call (its callback may be null), or the outcome of one fetch. */
  datatype Event = Load(onLoaded: Option<CallbackId>) | Fetched | FetchFailed

  datatype StepResult = StepResult(queue: Queue, invoked: seq<CallbackId>)

  /** The callbacks a `load` call hands over: none for a null one. */
  function Given(onLoaded: Option<CallbackId>): (r: seq<CallbackId>)
    ensures |r| <= 1 && (r == [] <==> onLoaded.None?)
  {
    if onLoaded.Some? then [onLoaded.value] else []
  }

  function Step(q: Queue, e: Event): (r: StepResult)
    ensures e.Load? && q.isLoaded ==> r.queue == q && r.invoked == Given(e.onLoaded)
    ensures e.Load? && !q.isLoaded ==>
      r.queue == q.(callbacks := q.callbacks + Given(e.onLoaded)) && r.invoked == []
    ensures e.Fetched? ==> r.queue == Queue(true, []) && r.invoked == q.callbacks
    ensures e.FetchFailed? ==> r == StepResult(q, [])
  {
    match e
    case Load(cb) =>
      if q.isLoaded then StepResult(q, Given(cb))
      else StepResult(q.(callbacks := q.callbacks + Given(cb)), [])
    case Fetched => StepResult(Queue(true, []), q.callbacks)
    case FetchFailed => StepResult(q, [])
  }

  /** A run of events; callbacks invoked in order. */
  function Run(q: Queue, events: seq<Event>): StepResult
    decreases |events|
  {
    if events == [] then StepResult(q, [])
    else
      var s := Step(q, events[0]);
      var rest := Run(s.queue, events[1..]);
      StepResult(rest.queue, s.invoked + rest.invoked)
  }

  /** Every callback handed to `load`, in call order. */
  function Registered(events: seq<Event>): seq<CallbackId>
    decreases |events|
  {
    if events == [] then []
    else (if events[0].Load? then Given(events[0].onLoaded) else []) + Registered(events[1..])
  }

  /** A loaded model leaves nothing waiting. */
  predicate Consistent(q: Queue) {
    q.isLoaded ==> q.callbacks == []
  }

  lemma StepConsistent(q: Queue, e: Event)
    requires Consistent(q)
    ensures Consistent(Step(q, e).queue)
    ensures Step(q, e).invoked + Step(q, e).queue.callbacks
         == q.callbacks + (if e.Load? then Given(e.onLoaded) else [])
  {
  }

  /** Every callback ever handed to `load` is run exactly once, in the order
      given, or is still waiting at the end of the queue: nothing is lost,
      repeated or reordered. */
  lemma {:induction false} EveryCallbackOnce(q: Queue, events: seq<Event>)
    requires Consistent(q)
    ensures Consistent(Run(q, events).queue)
    ensures Run(q, events).invoked + Run(q, events).queue.callbacks == q.callbacks + Registered(events)
    decreases |events|
  {
    if events != [] {
      var s := Step(q, events[0]);
      var rest := Run(s.queue, events[1..]);
      var given := if events[0].Load? then Given(events[0].onLoaded) else [];
      assert Run(q, events) == StepResult(rest.queue, s.invoked + rest.invoked);
      assert Registered(events) == given + Registered(events[1..]);
      StepConsistent(q, events[0]);
      EveryCallbackOnce(s.queue, events[1..]);
      Splice(s.invoked, rest.invoked, rest.queue.callbacks, s.queue.callbacks,
             q.callbacks, given, Registered(events[1..]));
    }
  }

  /** The bookkeeping step of `EveryCallbackOnce`: what one step accounts
      for, followed by what the rest of the run accounts for. */
  lemma Splice(stepRun: seq<CallbackId>, restRun: seq<CallbackId>, finalQueue: seq<CallbackId>,
               midQueue: seq<CallbackId>, startQueue: seq<CallbackId>,
               given: seq<CallbackId>, later: seq<CallbackId>)
    requires restRun + finalQueue == midQueue + later
    requires stepRun + midQueue == startQueue + given
    ensures (stepRun + restRun) + finalQueue == startQueue + (given + later)
  {
    calc {
      (stepRun + restRun) + finalQueue;
      stepRun + (restRun + finalQueue);
      stepRun + (midQueue + later);
      (stepRun + midQueue) + later;
      (startQueue + given) + later;
      startQueue + (given + later);
    }
  }

  /** Once a fetch has succeeded the loader stays loaded with an empty
      queue, and every later callback is run immediately. */
  lemma {:induction false} LoadedStaysLoaded(q: Queue, events: seq<Event>)
    requires q.isLoaded && q.callbacks == []
    ensures Run(q, events).queue == q
    ensures Run(q, events).invoked == Registered(events)
    decreases |events|
  {
    if events != [] {
      LoadedStaysLoaded(Step(q, events[0]).queue, events[1..]);
    }
  }

  /** Nothing runs before the first successful fetch. */
  lemma {:induction false} NothingBeforeFetch(q: Queue, events: seq<Event>)
    requires !q.isLoaded
    requires forall i :: 0 <= i < |events| ==> !events[i].Fetched?
    ensures Run(q, events).invoked == []
    ensures Run(q, events).queue == Queue(false, q.callbacks + Registered(events))
    decreases |events|
  {
    if events != [] {
      var e := events[0];
      assert !e.Fetched?;
      var s := Step(q, e);
      var rest := Run(s.queue, events[1..]);
      var given := if e.Load? then Given(e.onLoaded) else [];
      assert s == StepResult(Queue(false, q.callbacks + given), []);
      assert Run(q, events) == StepResult(rest.queue, s.invoked + rest.invoked);
      assert Registered(events) == given + Registered(events[1..]);
      forall i | 0 <= i < |events[1..]|
        ensures !events[1..][i].Fetched?
      {
        assert events[1..][i] == events[i + 1];
      }
      NothingBeforeFetch(s.queue, events[1..]);
      assert (q.callbacks + given) + Registered(events[1..]) == q.callbacks + Registered(events);
    }
  }
}
